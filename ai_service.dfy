/** The `/predict` endpoint of the AI service: two independent models (disease
    and skin type) each fill their own section of the response. Loading the
    models, decoding and preprocessing the image and running the network
    are inputs: a model slot is absent, or holds the outcome of running it
    (the arg-max class index, or the message of the exception it raised). */
module AiService {
  import opened Values

  datatype Value = VBool(b: bool) | VStr(s: string)

  /** The keys the endpoint writes into the response's `data` dictionary. */
  datatype Key =
    | DiseasePrediction | HasAcne | AcneLevel | HasEczema | EczemaLevel | HasRosacea
    | ErrorDisease | DiseaseWarning | SkinType | ErrorType | TypeWarning

  /** The key as it appears in the JSON response. */
  function KeyName(k: Key): string
  {
    match k
    case DiseasePrediction => "disease_prediction"
    case HasAcne => "hasAcne"
    case AcneLevel => "acneLevel"
    case HasEczema => "hasEczema"
    case EczemaLevel => "eczemaLevel"
    case HasRosacea => "hasRosacea"
    case ErrorDisease => "error_disease"
    case DiseaseWarning => "disease_warning"
    case SkinType => "skinType"
    case ErrorType => "error_type"
    case TypeWarning => "type_warning"
  }

  /** The response's `data` dictionary, in insertion order. */
  type Entries = seq<(Key, Value)>

  datatype Inference = Argmax(idx: int) | Raised(message: string)
  datatype ModelSlot = Absent | Loaded(outcome: Inference)
  datatype ImageRead = Decoded | Undecodable(message: string)

  datatype Response = Predicted(data: Entries) | Failed(error: string)

  const NotLoaded: string := "Model loaded değil"

  /** `DISEASE_LABELS.get(idx, "Bilinmiyor")`. */
  function DiseaseLabel(idx: int): (name: string)
    ensures 0 <= idx < 6 ==> name == ["Akne", "Egzama", "Normal", "Rozase", "Leke", "Siğil"][idx]
    ensures !(0 <= idx < 6) ==> name == "Bilinmiyor"
  {
    if idx == 0 then "Akne"
    else if idx == 1 then "Egzama"
    else if idx == 2 then "Normal"
    else if idx == 3 then "Rozase"
    else if idx == 4 then "Leke"
    else if idx == 5 then "Siğil"
    else "Bilinmiyor"
  }

  /** `TYPE_LABELS.get(idx, "Normal")`. */
  function TypeLabel(idx: int): (name: string)
    ensures 0 <= idx < 4 ==> name == ["Kuru", "Yağlı", "Normal", "Karma"][idx]
    ensures !(0 <= idx < 4) ==> name == "Normal"
  {
    if idx == 0 then "Kuru"
    else if idx == 1 then "Yağlı"
    else if idx == 2 then "Normal"
    else if idx == 3 then "Karma"
    else "Normal"
  }

  /** First value stored under `key`. */
  function Lookup(data: Entries, key: Key): Option<Value>
  {
    if |data| == 0 then None
    else if data[0].0 == key then Some(data[0].1)
    else Lookup(data[1..], key)
  }

  lemma {:induction false} LookupAt(data: Entries, key: Key, i: nat)
    requires i < |data| && data[i].0 == key
    requires forall j :: 0 <= j < i ==> data[j].0 != key
    ensures Lookup(data, key) == Some(data[i].1)
    decreases i
  {
    if i > 0 {
      LookupAt(data[1..], key, i - 1);
    }
  }

  /** The keys written for a recognised class `name`. */
  function Prediction(name: string): Entries
  {
    [ (DiseasePrediction, VStr(name)),
      (HasAcne, VBool(name == "Akne")),
      (AcneLevel, VStr(if name == "Akne" then "Orta" else "Yok")),
      (HasEczema, VBool(name == "Egzama")),
      (EczemaLevel, VStr(if name == "Egzama" then "Hafif" else "Yok")),
      (HasRosacea, VBool(name == "Rozase")) ]
  }

  function DiseaseSection(slot: ModelSlot): Entries
  {
    match slot
    case Absent => [(DiseaseWarning, VStr(NotLoaded))]
    case Loaded(Raised(msg)) => [(ErrorDisease, VStr(msg))]
    case Loaded(Argmax(idx)) => Prediction(DiseaseLabel(idx))
  }

  function TypeSection(slot: ModelSlot): Entries
  {
    match slot
    case Absent => [(TypeWarning, VStr(NotLoaded))]
    case Loaded(Raised(msg)) => [(ErrorType, VStr(msg))]
    case Loaded(Argmax(idx)) => [(SkinType, VStr(TypeLabel(idx)))]
  }

  function PredictSpec(image: ImageRead, disease: ModelSlot, skinType: ModelSlot): Response
  {
    match image
    case Undecodable(msg) => Failed(msg)
    case Decoded => Predicted(DiseaseSection(disease) + TypeSection(skinType))
  }

  /** The disease model's part of `predict`: its keys appended to `data`. */
  method AddDiseaseSection(data: Entries, disease: ModelSlot) returns (out: Entries)
    ensures out == data + DiseaseSection(disease)
  {
    out := data;
    if disease.Loaded? {
      match disease.outcome {
        case Raised(msg) =>
          out := out + [(ErrorDisease, VStr(msg))];
        case Argmax(idx) =>
          var name := DiseaseLabel(idx);
          assert DiseaseSection(disease) == Prediction(name);
          out := out + [(DiseasePrediction, VStr(name))];
          out := out + [(HasAcne, VBool(name == "Akne"))];
          out := out + [(AcneLevel, VStr(if name == "Akne" then "Orta" else "Yok"))];
          out := out + [(HasEczema, VBool(name == "Egzama"))];
          out := out + [(EczemaLevel, VStr(if name == "Egzama" then "Hafif" else "Yok"))];
          out := out + [(HasRosacea, VBool(name == "Rozase"))];
          assert out == data + DiseaseSection(disease);
      }
    } else {
      out := out + [(DiseaseWarning, VStr(NotLoaded))];
    }
  }

  /** The skin-type model's part of `predict`. */
  method AddTypeSection(data: Entries, skinType: ModelSlot) returns (out: Entries)
    ensures out == data + TypeSection(skinType)
  {
    if skinType.Loaded? {
      match skinType.outcome {
        case Raised(msg) =>
          out := data + [(ErrorType, VStr(msg))];
        case Argmax(idx) =>
          out := data + [(SkinType, VStr(TypeLabel(idx)))];
      }
    } else {
      out := data + [(TypeWarning, VStr(NotLoaded))];
    }
  }

  /** `predict`: the `data` dictionary is filled section by section. */
  method Predict(image: ImageRead, disease: ModelSlot, skinType: ModelSlot) returns (response: Response)
    ensures response == PredictSpec(image, disease, skinType)
  {
    if image.Undecodable? {
      return Failed(image.message);
    }
    var data: Entries := [];
    data := AddDiseaseSection(data, disease);
    data := AddTypeSection(data, skinType);
    assert data == DiseaseSection(disease) + TypeSection(skinType);
    response := Predicted(data);
  }

  const DiseaseKeys: set<Key> :=
    {DiseasePrediction, HasAcne, AcneLevel, HasEczema, EczemaLevel, HasRosacea}

  /** The flags follow the name: acne exactly for "Akne" (level "Orta"),
      eczema exactly for "Egzama" (level "Hafif"), rosacea exactly for
      "Rozase"; at most one flag is set. */
  lemma DiseaseFlags(idx: int)
    ensures var d := DiseaseSection(Loaded(Argmax(idx)));
      var name := DiseaseLabel(idx);
      && Lookup(d, DiseasePrediction) == Some(VStr(name))
      && (Lookup(d, HasAcne) == Some(VBool(true)) <==> name == "Akne")
      && (Lookup(d, HasEczema) == Some(VBool(true)) <==> name == "Egzama")
      && (Lookup(d, HasRosacea) == Some(VBool(true)) <==> name == "Rozase")
      && Lookup(d, AcneLevel) == Some(VStr(if name == "Akne" then "Orta" else "Yok"))
      && Lookup(d, EczemaLevel) == Some(VStr(if name == "Egzama" then "Hafif" else "Yok"))
      && ((if name == "Akne" then 1 else 0) + (if name == "Egzama" then 1 else 0)
          + (if name == "Rozase" then 1 else 0) <= 1)
  {
    PredictionLookups(DiseaseLabel(idx));
  }

  lemma PredictionLookups(name: string)
    ensures var d := Prediction(name);
      && Lookup(d, DiseasePrediction) == Some(VStr(name))
      && Lookup(d, HasAcne) == Some(VBool(name == "Akne"))
      && Lookup(d, HasEczema) == Some(VBool(name == "Egzama"))
      && Lookup(d, HasRosacea) == Some(VBool(name == "Rozase"))
      && Lookup(d, AcneLevel) == Some(VStr(if name == "Akne" then "Orta" else "Yok"))
      && Lookup(d, EczemaLevel) == Some(VStr(if name == "Egzama" then "Hafif" else "Yok"))
  {
    LookupSix(VStr(name), VBool(name == "Akne"), VStr(if name == "Akne" then "Orta" else "Yok"),
              VBool(name == "Egzama"), VStr(if name == "Egzama" then "Hafif" else "Yok"), VBool(name == "Rozase"));
  }

  /** Each of the six prediction keys finds its own value. */
  lemma LookupSix(v0: Value, v1: Value, v2: Value, v3: Value, v4: Value, v5: Value)
    ensures var d := [(DiseasePrediction, v0), (HasAcne, v1), (AcneLevel, v2),
                      (HasEczema, v3), (EczemaLevel, v4), (HasRosacea, v5)];
      && Lookup(d, DiseasePrediction) == Some(v0) && Lookup(d, HasAcne) == Some(v1)
      && Lookup(d, AcneLevel) == Some(v2) && Lookup(d, HasEczema) == Some(v3)
      && Lookup(d, EczemaLevel) == Some(v4) && Lookup(d, HasRosacea) == Some(v5)
  {
    var d := [(DiseasePrediction, v0), (HasAcne, v1), (AcneLevel, v2),
              (HasEczema, v3), (EczemaLevel, v4), (HasRosacea, v5)];
    LookupAt(d, DiseasePrediction, 0);
    LookupAt(d, HasAcne, 1);
    LookupAt(d, AcneLevel, 2);
    LookupAt(d, HasEczema, 3);
    LookupAt(d, EczemaLevel, 4);
    LookupAt(d, HasRosacea, 5);
  }

  /** An absent model leaves only its warning; a model that raised leaves
      only its error message; neither writes a prediction key. */
  lemma MissingOrFailedModel(slot: ModelSlot)
    requires slot.Absent? || slot.outcome.Raised?
    ensures forall k :: k in DiseaseKeys ==> Lookup(DiseaseSection(slot), k).None?
    ensures Lookup(TypeSection(slot), SkinType).None?
    ensures slot.Absent? ==> Lookup(DiseaseSection(slot), DiseaseWarning) == Some(VStr(NotLoaded))
    ensures slot.Absent? ==> Lookup(TypeSection(slot), TypeWarning) == Some(VStr(NotLoaded))
    ensures slot.Loaded? ==> Lookup(DiseaseSection(slot), ErrorDisease) == Some(VStr(slot.outcome.message))
    ensures slot.Loaded? ==> Lookup(TypeSection(slot), ErrorType) == Some(VStr(slot.outcome.message))
  {
  }

  /** A key no entry carries is not found. */
  lemma {:induction false} LookupAbsent(data: Entries, key: Key)
    requires forall i :: 0 <= i < |data| ==> data[i].0 != key
    ensures Lookup(data, key).None?
    decreases |data|
  {
    if |data| > 0 {
      LookupAbsent(data[1..], key);
    }
  }

  lemma {:induction false} LookupAppend(a: Entries, b: Entries, key: Key)
    ensures Lookup(a + b, key) == if Lookup(a, key).Some? then Lookup(a, key) else Lookup(b, key)
    decreases |a|
  {
    if |a| > 0 {
      assert (a + b)[0] == a[0];
      assert (a + b)[1..] == a[1..] + b;
      LookupAppend(a[1..], b, key);
    } else {
      assert a + b == b;
    }
  }

  /** The two models are isolated: whatever the disease model does, the
      type keys of the response are those of the type section, and the
      disease keys are those of the disease section. */
  lemma SectionsIsolated(disease: ModelSlot, skinType: ModelSlot)
    ensures var r := PredictSpec(Decoded, disease, skinType);
      && (forall k :: k in {SkinType, ErrorType, TypeWarning} ==>
            Lookup(r.data, k) == Lookup(TypeSection(skinType), k))
      && (forall k :: k in DiseaseKeys + {ErrorDisease, DiseaseWarning} ==>
            Lookup(r.data, k) == Lookup(DiseaseSection(disease), k))
  {
    var d := DiseaseSection(disease);
    var t := TypeSection(skinType);
    assert forall i :: 0 <= i < |d| ==> d[i].0 !in {SkinType, ErrorType, TypeWarning};
    forall k | k in {SkinType, ErrorType, TypeWarning}
      ensures Lookup(d + t, k) == Lookup(t, k)
    {
      LookupAppend(d, t, k);
      LookupAbsent(d, k);
    }
    forall k | k in DiseaseKeys + {ErrorDisease, DiseaseWarning}
      ensures Lookup(d + t, k) == Lookup(d, k)
    {
      LookupAppend(d, t, k);
    }
  }

  /** An image that cannot be decoded fails the whole request, whatever the models. */
  lemma UndecodableFails(msg: string, disease: ModelSlot, skinType: ModelSlot)
    ensures PredictSpec(Undecodable(msg), disease, skinType) == Failed(msg)
  {
  }
}
