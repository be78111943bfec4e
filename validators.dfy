/** The request-body schemas of the backend, written with Joi: each names
    the keys an object may carry, and for each key its type, whether it is
    required, which empty values it allows and which bounds it must meet.
    Joi's default options are modelled: validation stops at the first
    failing key (schema order), keys outside the schema are refused, and a
    declared default fills in a missing key. */
module Validators {
  import opened Values
  import opened Text

  // ---------------------------------------------------------------------
  // Rules
  // ---------------------------------------------------------------------

  datatype Format = Plain | Uri | Email

  /** The type of a key and the rules chained on it. A non-empty `only`
      is a `valid(...)` list. */
  datatype Kind =
    | Text(minLen: nat, maxLen: Option<nat>, format: Format, only: seq<string>)
    | Number(atLeast: Option<real>, atMost: Option<real>, integer: bool)
    | Flag
    | AnyObject

  datatype Field = Field(key: string, kind: Kind, required: bool, allowNull: bool, allowEmpty: bool, default: Option<Json>)

  /** Why a value was refused. */
  datatype Reason = Required | WrongType | Empty | NotOneOf | Length | BadFormat | NotInteger | TooSmall | TooLarge | NotAllowed

  /** The first error: where it is (a key path) and why. */
  datatype Issue = Issue(path: seq<string>, reason: Reason)

  datatype Outcome<T> = Accepted(value: T) | Refused(issue: Issue)

  predicate SchemeChar(c: char)
  {
    'a' <= c <= 'z' || 'A' <= c <= 'Z' || '0' <= c <= '9' || c == '+' || c == '-' || c == '.'
  }

  predicate NoSpace(s: string)
  {
    forall i :: 0 <= i < |s| ==> s[i] != ' ' && s[i] != '\t' && s[i] != '\n' && s[i] != '\r'
  }

  /** `uri()`, reduced to its scheme: a letter, scheme characters, a colon,
      and no white space anywhere. */
  predicate IsUri(s: string)
  {
    NoSpace(s) &&
    exists i :: 1 <= i < |s| && s[i] == ':' && ('a' <= s[0] <= 'z' || 'A' <= s[0] <= 'Z')
      && forall j :: 0 < j < i ==> SchemeChar(s[j])
  }

  /** `email()`, reduced to its shape: one '@' between a non-empty local
      part and a domain of at least two non-empty dot-separated labels. */
  predicate IsEmail(s: string)
  {
    NoSpace(s) &&
    exists at :: 0 < at < |s| && s[at] == '@' && (forall j :: 0 <= j < |s| && j != at ==> s[j] != '@')
      && exists dot :: at + 1 < dot < |s| - 1 && s[dot] == '.' && s[|s| - 1] != '.'
  }

  predicate FormatOk(f: Format, s: string)
  {
    match f
    case Plain => true
    case Uri => IsUri(s)
    case Email => IsEmail(s)
  }

  predicate IsInteger(n: real)
  {
    n.Floor as real == n
  }

  /** The check of a present value; `None` when it passes. `allow(null)`
      and `allow('')` let those values through before any rule; a `valid(...)`
      list is consulted next, before the type, and refuses every value
      outside it. Lengths are counted in UTF-16 code units. */
  function CheckValue(f: Field, v: Json): (r: Option<Reason>)
    ensures v == JNull && f.allowNull ==> r.None?
    ensures v == JStr("") && f.allowEmpty ==> r.None?
    ensures f.kind.Text? && |f.kind.only| > 0 && !(v == JNull && f.allowNull) && !(v == JStr("") && f.allowEmpty) ==>
      (r.None? <==> v.JStr? && v.s in f.kind.only) && (r.Some? ==> r.value == NotOneOf)
    ensures f.kind.Text? && |f.kind.only| == 0 && v.JStr? && v.s != "" && FormatOk(f.kind.format, v.s) ==>
      (r.None? <==> f.kind.minLen <= Utf16Length(v.s) && (f.kind.maxLen.Some? ==> Utf16Length(v.s) <= f.kind.maxLen.value))
  {
    if v == JNull && f.allowNull then None
    else if v == JStr("") && f.allowEmpty then None
    else match f.kind
      case Text(lo, hi, fmt, only) =>
        if |only| > 0 then (if v.JStr? && v.s in only then None else Some(NotOneOf))
        else if !v.JStr? then Some(WrongType)
        else if v.s == "" then Some(Empty)
        else if Utf16Length(v.s) < lo || (hi.Some? && Utf16Length(v.s) > hi.value) then Some(Length)
        else if !FormatOk(fmt, v.s) then Some(BadFormat)
        else None
      case Number(lo, hi, integer) =>
        if !v.JNum? then Some(WrongType)
        else if integer && !IsInteger(v.n) then Some(NotInteger)
        else if lo.Some? && v.n < lo.value then Some(TooSmall)
        else if hi.Some? && v.n > hi.value then Some(TooLarge)
        else None
      case Flag => if v.JBool? then None else Some(WrongType)
      case AnyObject => if v.JObj? then None else Some(WrongType)
  }

  /** One key of an object: refused, absent (with the default if any), or
      present and passing. */
  function FieldOutcome(f: Field, given: map<string, Json>): (r: Outcome<Option<Json>>)
    ensures r.Refused? ==> r.issue.path == [f.key]
    ensures r.Accepted? && f.key in given ==> r.value == Some(given[f.key])
    ensures r.Accepted? && f.key !in given ==> r.value == f.default
  {
    if f.key !in given then
      (if f.required then Refused(Issue([f.key], Required)) else Accepted(f.default))
    else match CheckValue(f, given[f.key])
      case Some(reason) => Refused(Issue([f.key], reason))
      case None => Accepted(Some(given[f.key]))
  }

  /** The keys of a schema, checked in order; the first failure stops it. */
  function ValidateFields(schema: seq<Field>, given: map<string, Json>): Outcome<map<string, Json>>
  {
    if |schema| == 0 then Accepted(map[])
    else match FieldOutcome(schema[0], given)
      case Refused(issue) => Refused(issue)
      case Accepted(o) =>
        match ValidateFields(schema[1..], given)
        case Refused(issue) => Refused(issue)
        case Accepted(m) => Accepted(if o.Some? then m[schema[0].key := o.value] else m)
  }

  function KeysOf(schema: seq<Field>): set<string>
  {
    set i | 0 <= i < |schema| :: schema[i].key
  }

  /** `Joi.object({...}).validate(v)`: an object whose keys pass, in schema
      order, and which has no key outside the schema. */
  function ValidateObject(schema: seq<Field>, v: Json): Outcome<Json>
  {
    if !v.JObj? then Refused(Issue([], WrongType))
    else match ValidateFields(schema, v.fields)
      case Refused(issue) => Refused(issue)
      case Accepted(m) => if v.fields.Keys <= KeysOf(schema) then Accepted(JObj(m)) else Refused(Issue([], NotAllowed))
  }

  predicate DistinctKeys(schema: seq<Field>)
  {
    forall i, j :: 0 <= i < j < |schema| ==> schema[i].key != schema[j].key
  }

  /** The keys pass exactly when each one does. */
  lemma {:induction false} ValidateFieldsAccepted(schema: seq<Field>, given: map<string, Json>)
    ensures ValidateFields(schema, given).Accepted? <==>
      forall i :: 0 <= i < |schema| ==> FieldOutcome(schema[i], given).Accepted?
  {
    if |schema| > 0 {
      ValidateFieldsAccepted(schema[1..], given);
      assert forall i :: 1 <= i < |schema| ==> schema[1..][i - 1] == schema[i];
    }
  }

  /** The validated object holds each given value of a schema key unchanged,
      the default of each missing key that has one, and nothing else. */
  lemma {:induction false} ValidateFieldsOutput(schema: seq<Field>, given: map<string, Json>)
    requires DistinctKeys(schema)
    requires ValidateFields(schema, given).Accepted?
    ensures var m := ValidateFields(schema, given).value;
      && m.Keys <= KeysOf(schema)
      && (forall i :: 0 <= i < |schema| && schema[i].key in given ==>
            schema[i].key in m && m[schema[i].key] == given[schema[i].key])
      && (forall i :: 0 <= i < |schema| && schema[i].key !in given && schema[i].default.Some? ==>
            schema[i].key in m && m[schema[i].key] == schema[i].default.value)
  {
    if |schema| > 0 {
      var rest := schema[1..];
      assert DistinctKeys(rest) by {
        forall i, j | 0 <= i < j < |rest| ensures rest[i].key != rest[j].key {
          assert rest[i] == schema[i + 1] && rest[j] == schema[j + 1];
        }
      }
      ValidateFieldsOutput(rest, given);
      var m := ValidateFields(schema, given).value;
      var m' := ValidateFields(rest, given).value;
      forall k | k in m ensures k in KeysOf(schema) {
        if k != schema[0].key {
          assert k in m';
          var i :| 0 <= i < |rest| && rest[i].key == k;
          assert schema[i + 1].key == k;
        }
      }
      forall i | 0 <= i < |schema| && schema[i].key in given
        ensures schema[i].key in m && m[schema[i].key] == given[schema[i].key]
      {
        if i > 0 {
          assert rest[i - 1] == schema[i];
        }
      }
      forall i | 0 <= i < |schema| && schema[i].key !in given && schema[i].default.Some?
        ensures schema[i].key in m && m[schema[i].key] == schema[i].default.value
      {
        if i > 0 {
          assert rest[i - 1] == schema[i];
        }
      }
    }
  }

  /** The first refusal is at the first key that fails. */
  lemma {:induction false} ValidateFieldsFirstIssue(schema: seq<Field>, given: map<string, Json>, k: nat)
    requires k < |schema| && FieldOutcome(schema[k], given).Refused?
    requires forall i :: 0 <= i < k ==> FieldOutcome(schema[i], given).Accepted?
    ensures ValidateFields(schema, given) == Refused(FieldOutcome(schema[k], given).issue)
    decreases k
  {
    if k > 0 {
      assert forall i :: 0 <= i < k - 1 ==> schema[1..][i] == schema[i + 1];
      ValidateFieldsFirstIssue(schema[1..], given, k - 1);
    }
  }

  // ---------------------------------------------------------------------
  // productValidator.js: createProductSchema
  // ---------------------------------------------------------------------

  function OptionalText(key: string, maxLen: Option<nat>, format: Format): Field
  {
    Field(key, Text(0, maxLen, format, []), false, true, true, None)
  }

  const CreateProductSchema: seq<Field> := [
    Field("title", Text(3, Some(100), Plain, []), true, false, false, None),
    Field("brand", Text(2, Some(50), Plain, []), true, false, false, None),
    Field("price", Number(Some(0.0), None, false), true, false, false, None),
    OptionalText("ingredients", None, Plain),
    OptionalText("image_url", None, Uri),
    OptionalText("description", Some(1000), Plain),
    OptionalText("category", Some(50), Plain),
    Field("stock", Number(Some(0.0), None, true), false, false, false, Some(JNum(0.0)))
  ]

  const ProductKeys: set<string> :=
    {"title", "brand", "price", "ingredients", "image_url", "description", "category", "stock"}

  /** A text of `lo..hi` UTF-16 code units. */
  predicate TextBetween(m: map<string, Json>, key: string, lo: nat, hi: nat)
  {
    key in m && m[key].JStr? && lo <= Utf16Length(m[key].s) <= hi
  }

  /** Absent, null, or a text of no more than `hi` UTF-16 code units. */
  predicate NullableTextUpTo(m: map<string, Json>, key: string, hi: nat)
  {
    key in m ==> m[key] == JNull || (m[key].JStr? && Utf16Length(m[key].s) <= hi)
  }

  /** A product body, as the schema's rules read: title 3..100 and brand
      2..50 UTF-16 code units, a price of at least 0, optional texts that may be
      null or empty (description up to 1000, category up to 50, the image
      a URI), and a whole stock of at least 0; no other keys. */
  predicate ProductBodyOk(m: map<string, Json>)
  {
    && m.Keys <= ProductKeys
    && TextBetween(m, "title", 3, 100)
    && TextBetween(m, "brand", 2, 50)
    && "price" in m && m["price"].JNum? && m["price"].n >= 0.0
    && ("ingredients" in m ==> m["ingredients"] == JNull || m["ingredients"].JStr?)
    && ("image_url" in m ==>
          (m["image_url"] == JNull || m["image_url"] == JStr("") || (m["image_url"].JStr? && IsUri(m["image_url"].s))))
    && NullableTextUpTo(m, "description", 1000)
    && NullableTextUpTo(m, "category", 50)
    && ("stock" in m ==> m["stock"].JNum? && IsInteger(m["stock"].n) && m["stock"].n >= 0.0)
  }

  lemma ProductKeysOf()
    ensures KeysOf(CreateProductSchema) == ProductKeys
  {
    var s := CreateProductSchema;
    assert s[0].key == "title" && s[1].key == "brand" && s[2].key == "price" && s[3].key == "ingredients";
    assert s[4].key == "image_url" && s[5].key == "description" && s[6].key == "category" && s[7].key == "stock";
  }

  lemma ProductKeysDistinct()
    ensures DistinctKeys(CreateProductSchema)
  {
  }

  /** The required product keys, one at a time. */
  lemma ProductRequiredFields(m: map<string, Json>)
    ensures FieldOutcome(CreateProductSchema[0], m).Accepted? <==> TextBetween(m, "title", 3, 100)
    ensures FieldOutcome(CreateProductSchema[1], m).Accepted? <==> TextBetween(m, "brand", 2, 50)
    ensures FieldOutcome(CreateProductSchema[2], m).Accepted? <==>
      "price" in m && m["price"].JNum? && m["price"].n >= 0.0
  {
  }

  /** The optional product keys, one at a time. */
  lemma ProductOptionalFields(m: map<string, Json>)
    ensures FieldOutcome(CreateProductSchema[3], m).Accepted? <==>
      ("ingredients" in m ==> m["ingredients"] == JNull || m["ingredients"].JStr?)
    ensures FieldOutcome(CreateProductSchema[4], m).Accepted? <==> ("image_url" in m ==>
      (m["image_url"] == JNull || m["image_url"] == JStr("") || (m["image_url"].JStr? && IsUri(m["image_url"].s))))
    ensures FieldOutcome(CreateProductSchema[5], m).Accepted? <==> NullableTextUpTo(m, "description", 1000)
    ensures FieldOutcome(CreateProductSchema[6], m).Accepted? <==> NullableTextUpTo(m, "category", 50)
    ensures FieldOutcome(CreateProductSchema[7], m).Accepted? <==>
      ("stock" in m ==> m["stock"].JNum? && IsInteger(m["stock"].n) && m["stock"].n >= 0.0)
  {
  }

  /** Eight checks pass exactly when each does. */
  lemma AllOfEight(schema: seq<Field>, m: map<string, Json>)
    requires |schema| == 8
    ensures (forall i :: 0 <= i < |schema| ==> FieldOutcome(schema[i], m).Accepted?) <==>
      FieldOutcome(schema[0], m).Accepted? && FieldOutcome(schema[1], m).Accepted? && FieldOutcome(schema[2], m).Accepted?
      && FieldOutcome(schema[3], m).Accepted? && FieldOutcome(schema[4], m).Accepted? && FieldOutcome(schema[5], m).Accepted?
      && FieldOutcome(schema[6], m).Accepted? && FieldOutcome(schema[7], m).Accepted?
  {
  }

  /** `createProductSchema` accepts an object exactly when it is a valid
      product body. */
  lemma CreateProductAccepts(m: map<string, Json>)
    ensures ValidateObject(CreateProductSchema, JObj(m)).Accepted? <==> ProductBodyOk(m)
  {
    ValidateFieldsAccepted(CreateProductSchema, m);
    ProductKeysOf();
    AllOfEight(CreateProductSchema, m);
    ProductRequiredFields(m);
    ProductOptionalFields(m);
  }

  /** An accepted product always carries a whole, non-negative stock: the
      given one, or 0 when none was given. */
  lemma CreateProductStockDefault(m: map<string, Json>)
    requires ValidateObject(CreateProductSchema, JObj(m)).Accepted?
    ensures var out := ValidateObject(CreateProductSchema, JObj(m)).value;
      && out.JObj? && "stock" in out.fields
      && out.fields["stock"] == (if "stock" in m then m["stock"] else JNum(0.0))
      && out.fields["stock"].JNum? && IsInteger(out.fields["stock"].n) && out.fields["stock"].n >= 0.0
  {
    var s := CreateProductSchema;
    ProductKeysDistinct();
    CreateProductAccepts(m);
    ValidateFieldsOutput(s, m);
    assert s[7].key == "stock";
  }

  /** The title is checked before everything else: a body without one is
      refused for it, whatever else is wrong. */
  lemma CreateProductTitleFirst(m: map<string, Json>)
    requires "title" !in m
    ensures ValidateObject(CreateProductSchema, JObj(m)) == Refused(Issue(["title"], Required))
  {
    ValidateFieldsFirstIssue(CreateProductSchema, m, 0);
  }

  // ---------------------------------------------------------------------
  // userValidator.js
  // ---------------------------------------------------------------------

  const UpdateProfileSchema: seq<Field> := [
    Field("name", Text(2, Some(50), Plain, []), false, false, false, None),
    Field("email", Text(0, None, Email, []), false, false, false, None)
  ]

  const UpdateSkinProfileSchema: seq<Field> := [
    OptionalText("skinType", None, Plain),
    OptionalText("skinGoal", None, Plain),
    Field("age", Number(Some(1.0), Some(120.0), true), false, true, false, None)
  ]

  const UpdateSettingsSchema: seq<Field> := [
    Field("notificationEnabled", Flag, false, false, false, None),
    Field("emailNotifications", Flag, false, false, false, None)
  ]

  const ChangePasswordSchema: seq<Field> := [
    Field("currentPassword", Text(0, None, Plain, []), true, false, false, None),
    Field("newPassword", Text(6, None, Plain, []), true, false, false, None)
  ]

  /** A profile update: an optional name of 2..50 UTF-16 code units and an optional
      e-mail address; neither may be null or empty. */
  lemma UpdateProfileAccepts(m: map<string, Json>)
    ensures ValidateObject(UpdateProfileSchema, JObj(m)).Accepted? <==>
      && m.Keys <= {"name", "email"}
      && ("name" in m ==> m["name"].JStr? && 2 <= Utf16Length(m["name"].s) <= 50)
      && ("email" in m ==> m["email"].JStr? && m["email"].s != "" && IsEmail(m["email"].s))
  {
    var s := UpdateProfileSchema;
    ValidateFieldsAccepted(s, m);
    assert s[0].key == "name" && s[1].key == "email";
    assert KeysOf(s) == {"name", "email"};
  }

  /** A skin-profile update: skin type and goal are texts that may be null
      or empty; the age is null or a whole number from 1 to 120. */
  lemma UpdateSkinProfileAccepts(m: map<string, Json>)
    ensures ValidateObject(UpdateSkinProfileSchema, JObj(m)).Accepted? <==>
      && m.Keys <= {"skinType", "skinGoal", "age"}
      && ("skinType" in m ==> m["skinType"] == JNull || m["skinType"].JStr?)
      && ("skinGoal" in m ==> m["skinGoal"] == JNull || m["skinGoal"].JStr?)
      && ("age" in m ==>
            (m["age"] == JNull || (m["age"].JNum? && IsInteger(m["age"].n) && 1.0 <= m["age"].n <= 120.0)))
  {
    var s := UpdateSkinProfileSchema;
    ValidateFieldsAccepted(s, m);
    assert s[0].key == "skinType" && s[1].key == "skinGoal" && s[2].key == "age";
    assert KeysOf(s) == {"skinType", "skinGoal", "age"};
  }

  /** A settings update holds only the two switches, each a boolean. */
  lemma UpdateSettingsAccepts(m: map<string, Json>)
    ensures ValidateObject(UpdateSettingsSchema, JObj(m)).Accepted? <==>
      && m.Keys <= {"notificationEnabled", "emailNotifications"}
      && ("notificationEnabled" in m ==> m["notificationEnabled"].JBool?)
      && ("emailNotifications" in m ==> m["emailNotifications"].JBool?)
  {
    var s := UpdateSettingsSchema;
    ValidateFieldsAccepted(s, m);
    assert s[0].key == "notificationEnabled" && s[1].key == "emailNotifications";
    assert KeysOf(s) == {"notificationEnabled", "emailNotifications"};
  }

  /** A password change needs the current password (any non-empty text) and
      a new one of at least 6 UTF-16 code units. */
  lemma ChangePasswordAccepts(m: map<string, Json>)
    ensures ValidateObject(ChangePasswordSchema, JObj(m)).Accepted? <==>
      && m.Keys <= {"currentPassword", "newPassword"}
      && "currentPassword" in m && m["currentPassword"].JStr? && m["currentPassword"].s != ""
      && "newPassword" in m && m["newPassword"].JStr? && Utf16Length(m["newPassword"].s) >= 6
  {
    var s := ChangePasswordSchema;
    ValidateFieldsAccepted(s, m);
    assert s[0].key == "currentPassword" && s[1].key == "newPassword";
    assert KeysOf(s) == {"currentPassword", "newPassword"};
  }

  // ---------------------------------------------------------------------
  // analysisValidator.js: analysisSchema
  // ---------------------------------------------------------------------

  const SkinTypes: seq<string> := ["Oily", "Dry", "Combination", "Normal", "Sensitive"]

  const ResultSchema: seq<Field> := [
    Field("skin_type", Text(0, None, Plain, SkinTypes), true, false, false, None),
    Field("confidence", Number(Some(0.0), Some(1.0), false), true, false, false, None),
    OptionalText("disease", None, Plain),
    OptionalText("severity", None, Plain),
    Field("details", AnyObject, false, false, false, None)
  ]

  const ImageUrlField: Field := Field("image_url", Text(0, None, Uri, []), true, false, false, None)

  /** `analysisSchema.validate(v)`: the image URL, then the nested result
      (its refusal reported under "result_json"), then the top-level keys. */
  function ValidateAnalysis(v: Json): (r: Outcome<Json>)
    ensures r.Refused? && |r.issue.path| > 0 ==> r.issue.path[0] in {"image_url", "result_json"}
  {
    if !v.JObj? then Refused(Issue([], WrongType))
    else match FieldOutcome(ImageUrlField, v.fields)
      case Refused(issue) => Refused(issue)
      case Accepted(_) =>
        if "result_json" !in v.fields then Refused(Issue(["result_json"], Required))
        else match ValidateObject(ResultSchema, v.fields["result_json"])
          case Refused(Issue(path, reason)) => Refused(Issue(["result_json"] + path, reason))
          case Accepted(result) =>
            if v.fields.Keys <= {"image_url", "result_json"} then
              Accepted(JObj(map["image_url" := v.fields["image_url"], "result_json" := result]))
            else Refused(Issue([], NotAllowed))
  }

  /** The analysis result, as the schema's rules read: one of the five skin
      types, a confidence in [0, 1], disease and severity texts that may be
      null or empty, and any details object; no other keys. */
  predicate ResultOk(m: map<string, Json>)
  {
    && m.Keys <= {"skin_type", "confidence", "disease", "severity", "details"}
    && "skin_type" in m && m["skin_type"].JStr? && m["skin_type"].s in SkinTypes
    && "confidence" in m && m["confidence"].JNum? && 0.0 <= m["confidence"].n <= 1.0
    && ("disease" in m ==> m["disease"] == JNull || m["disease"].JStr?)
    && ("severity" in m ==> m["severity"] == JNull || m["severity"].JStr?)
    && ("details" in m ==> m["details"].JObj?)
  }

  /** The result keys, one at a time. */
  lemma ResultFields(m: map<string, Json>)
    ensures FieldOutcome(ResultSchema[0], m).Accepted? <==>
      "skin_type" in m && m["skin_type"].JStr? && m["skin_type"].s in SkinTypes
    ensures FieldOutcome(ResultSchema[1], m).Accepted? <==>
      "confidence" in m && m["confidence"].JNum? && 0.0 <= m["confidence"].n <= 1.0
    ensures FieldOutcome(ResultSchema[2], m).Accepted? <==> ("disease" in m ==> m["disease"] == JNull || m["disease"].JStr?)
    ensures FieldOutcome(ResultSchema[3], m).Accepted? <==> ("severity" in m ==> m["severity"] == JNull || m["severity"].JStr?)
    ensures FieldOutcome(ResultSchema[4], m).Accepted? <==> ("details" in m ==> m["details"].JObj?)
  {
    if "skin_type" in m && m["skin_type"].JStr? && m["skin_type"].s == "" {
      assert "" != SkinTypes[0] && "" != SkinTypes[1] && "" != SkinTypes[2];
      assert "" != SkinTypes[3] && "" != SkinTypes[4];
    }
  }

  /** Five checks pass exactly when each does. */
  lemma AllOfFive(schema: seq<Field>, m: map<string, Json>)
    requires |schema| == 5
    ensures (forall i :: 0 <= i < |schema| ==> FieldOutcome(schema[i], m).Accepted?) <==>
      FieldOutcome(schema[0], m).Accepted? && FieldOutcome(schema[1], m).Accepted? && FieldOutcome(schema[2], m).Accepted?
      && FieldOutcome(schema[3], m).Accepted? && FieldOutcome(schema[4], m).Accepted?
  {
  }

  lemma ResultAccepts(m: map<string, Json>)
    ensures ValidateObject(ResultSchema, JObj(m)).Accepted? <==> ResultOk(m)
  {
    var s := ResultSchema;
    ValidateFieldsAccepted(s, m);
    assert s[0].key == "skin_type" && s[1].key == "confidence" && s[2].key == "disease";
    assert s[3].key == "severity" && s[4].key == "details";
    assert KeysOf(s) == {"skin_type", "confidence", "disease", "severity", "details"};
    AllOfFive(s, m);
    ResultFields(m);
  }

  /** An analysis is accepted exactly when it has a URI image, a valid
      result object, and nothing else. */
  lemma AnalysisAccepts(m: map<string, Json>)
    ensures ValidateAnalysis(JObj(m)).Accepted? <==>
      && m.Keys <= {"image_url", "result_json"}
      && "image_url" in m && m["image_url"].JStr? && m["image_url"].s != "" && IsUri(m["image_url"].s)
      && "result_json" in m && m["result_json"].JObj? && ResultOk(m["result_json"].fields)
  {
    if "result_json" in m && m["result_json"].JObj? {
      ResultAccepts(m["result_json"].fields);
    }
  }

  /** Any skin type outside the five, whatever its JSON type (null, a
      number, another text), is refused under result_json.skin_type as not
      one of the allowed values. */
  lemma UnknownSkinTypeRefused(m: map<string, Json>, t: Json)
    requires "image_url" in m && m["image_url"].JStr? && m["image_url"].s != "" && IsUri(m["image_url"].s)
    requires "result_json" in m && m["result_json"].JObj?
    requires "skin_type" in m["result_json"].fields && m["result_json"].fields["skin_type"] == t
    requires !(t.JStr? && t.s in SkinTypes)
    ensures ValidateAnalysis(JObj(m)) == Refused(Issue(["result_json", "skin_type"], NotOneOf))
  {
    var r := m["result_json"].fields;
    ValidateFieldsFirstIssue(ResultSchema, r, 0);
  }

  /** A two-emoji title is four UTF-16 code units long, so the title rule
      `min(3)` lets it through. */
  lemma EmojiTitleLongEnough()
    ensures TextBetween(map["title" := JStr("\U{1F600}\U{1F600}")], "title", 3, 100)
  {
    Utf16LengthEmoji();
  }
}
