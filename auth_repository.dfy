/** The client's authentication repository: turning an error response into a
    user-facing message, and the outcome of a login or registration call.
    The HTTP call and the JSON parser are inputs: the parser's verdict on an
    error body is given as `ParsedBody`. */
module Auth {
  import opened Values
  import opened Text

  /** A member of the parsed error object, as `getAsString` sees it: a
      primitive (or a one-element array) has a string form; `null`, an
      object or any other array makes `getAsString` throw. */
  datatype Member = Readable(text: string) | Unreadable

  /** What `fromJson(errorBody, JsonObject)` produced: an object, or an
      exception (the body is not a JSON object). */
  datatype ParsedBody = NotAnObject | Object(members: map<string, Member>)

  const WrongCredentials: string := "Email veya şifre hatalı. Lütfen kontrol edip tekrar deneyin."
  const RegisterEndpointMissing: string := "Kayıt endpoint'i bulunamadı. Lütfen backend bağlantısını kontrol edin."
  const UserMissing: string := "Kullanıcı bulunamadı. Email ve şifrenizi kontrol edin."
  const EmailTaken: string := "Bu email adresi zaten kayıtlı. Lütfen farklı bir email kullanın veya giriş yapın."
  const ServerError: string := "Sunucu hatası. Lütfen daha sonra tekrar deneyin."
  const GenericError: string := "Bir hata oluştu. Lütfen tekrar deneyin."
  const DatabaseMismatch: string := "⚠️ Backend Hatası: Veritabanı uyumsuzluğu. Backend geliştiricisiyle iletişime geçin."
  const InvalidInput: string := "Girilen bilgiler geçersiz. Lütfen kontrol edip tekrar deneyin."
  const WrongPassword: string := "Şifre hatalı. Lütfen tekrar deneyin."
  const NoSuchUser: string := "Bu email adresi ile kayıtlı bir kullanıcı bulunamadı. Lütfen kayıt olun."
  const RegisterEndpointNotFound: string :=
    "Kayıt endpoint'i bulunamadı. Backend bağlantısını kontrol edin veya backend'in çalıştığından emin olun."
  const EndpointNotFound: string := "Endpoint bulunamadı. Backend bağlantısını kontrol edin."
  const RegisterFailed: string := "Kayıt işlemi başarısız. Lütfen tekrar deneyin."
  const Unauthorized: string := "Yetkisiz erişim. Lütfen tekrar giriş yapın."
  const TokenMissing: string := "Token alınamadı. Lütfen tekrar deneyin."

  /** The fixed message for a status code, used for a blank body and when
      the body does not parse; `None` for the codes without one. */
  function StatusMessage(status: Option<int>, isRegister: bool): (m: Option<string>)
    ensures m.Some? <==> status.Some? && status.value in {401, 404, 409, 500}
  {
    if status == Some(401) then Some(WrongCredentials)
    else if status == Some(404) then Some(if isRegister then RegisterEndpointMissing else UserMissing)
    else if status == Some(409) then Some(EmailTaken)
    else if status == Some(500) then Some(ServerError)
    else None
  }

  /** The message read from the object: "message", else "error", else the raw
      body; `None` when the chosen member cannot be read as a string. */
  function Extract(body: string, members: map<string, Member>): Option<string>
  {
    if "message" in members then
      (if members["message"].Readable? then Some(members["message"].text) else None)
    else if "error" in members then
      (if members["error"].Readable? then Some(members["error"].text) else None)
    else Some(body)
  }

  /** `contains(pattern, ignoreCase = true)` for a pattern already in lower
      case: the lower-cased message contains it. */
  predicate Mentions(message: string, pattern: string)
  {
    Contains(ToLower(message), pattern)
  }

  /** The substring rules, first match wins: the answer is one of the fixed
      messages or the message itself, and never the register-failure line,
      whose rule is shadowed by the earlier "user not found" rule. */
  function Classify(message: string, status: Option<int>, isRegister: bool): (r: string)
    ensures r == message || r in {EmailTaken, DatabaseMismatch, InvalidInput, WrongCredentials,
      WrongPassword, NoSuchUser, RegisterEndpointNotFound, EndpointNotFound, Unauthorized}
    ensures r == RegisterFailed ==> message == RegisterFailed
  {
    if Mentions(message, "user already exists") then EmailTaken
    else if Mentions(message, "invalid input syntax for type integer") then DatabaseMismatch
    else if Mentions(message, "duplicate key") then EmailTaken
    else if Mentions(message, "validation error") then InvalidInput
    else if Mentions(message, "invalid email or password") then WrongCredentials
    else if Mentions(message, "invalid credentials") then WrongCredentials
    else if Mentions(message, "wrong password") then WrongPassword
    else if Mentions(message, "user not found") then NoSuchUser
    else if Mentions(message, "not found") && status == Some(404) then
      (if isRegister then RegisterEndpointNotFound else EndpointNotFound)
    else if Mentions(message, "user not found") then
      (if isRegister then RegisterFailed else NoSuchUser)
    else if Mentions(message, "unauthorized") then Unauthorized
    else message
  }

  /** `parseErrorMessage`: a blank body with no status message gets the
      generic line; a text read from an object body ("message", else
      "error", else the body itself) is classified; a body that is not an
      object, or whose chosen member cannot be read, gets the status message
      or else the raw body. */
  function ParseErrorMessage(errorBody: Option<string>, parsed: ParsedBody, status: Option<int>, isRegister: bool): (r: string)
    ensures IsNullOrBlank(errorBody) && StatusMessage(status, isRegister).None? ==> r == GenericError
    ensures !IsNullOrBlank(errorBody) && parsed.Object? && Extract(errorBody.value, parsed.members).Some? ==>
      r == Classify(Extract(errorBody.value, parsed.members).value, status, isRegister)
    ensures !IsNullOrBlank(errorBody) && (parsed.NotAnObject? || Extract(errorBody.value, parsed.members).None?) ==>
      r == StatusMessage(status, isRegister).GetOr(errorBody.value)
    ensures (!IsNullOrBlank(errorBody) && parsed.Object? && "message" !in parsed.members && "error" in parsed.members
      && parsed.members["error"].Readable?) ==> r == Classify(parsed.members["error"].text, status, isRegister)
    ensures !IsNullOrBlank(errorBody) && parsed.Object? && "message" !in parsed.members && "error" !in parsed.members ==>
      r == Classify(errorBody.value, status, isRegister)
    ensures !IsNullOrBlank(errorBody) && parsed.Object? && "message" in parsed.members && parsed.members["message"].Readable? ==>
      r == Classify(parsed.members["message"].text, status, isRegister)
  {
    if IsNullOrBlank(errorBody) then StatusMessage(status, isRegister).GetOr(GenericError)
    else
      var extracted := if parsed.Object? then Extract(errorBody.value, parsed.members) else None;
      match extracted
      case Some(message) => Classify(message, status, isRegister)
      case None => StatusMessage(status, isRegister).GetOr(errorBody.value)
  }

  // ---------------------------------------------------------------------
  // The rules as a table
  // ---------------------------------------------------------------------

  /** One rule: a pattern, whether it needs status 404, and its message. */
  datatype Rule = Rule(pattern: string, needs404: bool, message: string)

  function Rules(isRegister: bool): seq<Rule>
  {
    [ Rule("user already exists", false, EmailTaken),
      Rule("invalid input syntax for type integer", false, DatabaseMismatch),
      Rule("duplicate key", false, EmailTaken),
      Rule("validation error", false, InvalidInput),
      Rule("invalid email or password", false, WrongCredentials),
      Rule("invalid credentials", false, WrongCredentials),
      Rule("wrong password", false, WrongPassword),
      Rule("user not found", false, NoSuchUser),
      Rule("not found", true, if isRegister then RegisterEndpointNotFound else EndpointNotFound),
      Rule("user not found", false, if isRegister then RegisterFailed else NoSuchUser),
      Rule("unauthorized", false, Unauthorized) ]
  }

  predicate Fires(r: Rule, message: string, status: Option<int>)
  {
    Mentions(message, r.pattern) && (!r.needs404 || status == Some(404))
  }

  /** The message of the first rule that fires, or the message itself. */
  function FirstMatch(rules: seq<Rule>, message: string, status: Option<int>): string
  {
    if |rules| == 0 then message
    else if Fires(rules[0], message, status) then rules[0].message
    else FirstMatch(rules[1..], message, status)
  }

  /** One step of `FirstMatch` on a suffix of the table. */
  lemma FirstMatchFrom(rules: seq<Rule>, i: nat, message: string, status: Option<int>)
    requires i < |rules|
    ensures FirstMatch(rules[i..], message, status) ==
      if Fires(rules[i], message, status) then rules[i].message else FirstMatch(rules[i + 1..], message, status)
  {
    assert rules[i..][0] == rules[i];
    assert rules[i..][1..] == rules[i + 1..];
  }

  /** `FirstMatch` on a table of eleven rules, unrolled. */
  lemma FirstMatchEleven(rs: seq<Rule>, m: string, st: Option<int>)
    requires |rs| == 11
    ensures FirstMatch(rs, m, st) ==
      if Fires(rs[0], m, st) then rs[0].message
      else if Fires(rs[1], m, st) then rs[1].message
      else if Fires(rs[2], m, st) then rs[2].message
      else if Fires(rs[3], m, st) then rs[3].message
      else if Fires(rs[4], m, st) then rs[4].message
      else if Fires(rs[5], m, st) then rs[5].message
      else if Fires(rs[6], m, st) then rs[6].message
      else if Fires(rs[7], m, st) then rs[7].message
      else if Fires(rs[8], m, st) then rs[8].message
      else if Fires(rs[9], m, st) then rs[9].message
      else if Fires(rs[10], m, st) then rs[10].message
      else m
  {
    assert rs[0..] == rs && rs[11..] == [];
    FirstMatchFrom(rs, 10, m, st);
    FirstMatchFrom(rs, 9, m, st);
    FirstMatchFrom(rs, 8, m, st);
    FirstMatchFrom(rs, 7, m, st);
    FirstMatchFrom(rs, 6, m, st);
    FirstMatchFrom(rs, 5, m, st);
    FirstMatchFrom(rs, 4, m, st);
    FirstMatchFrom(rs, 3, m, st);
    FirstMatchFrom(rs, 2, m, st);
    FirstMatchFrom(rs, 1, m, st);
    FirstMatchFrom(rs, 0, m, st);
  }

  /** The `when` chain is the table read top-down, first match winning. */
  lemma ClassifyIsFirstMatch(message: string, status: Option<int>, isRegister: bool)
    ensures Classify(message, status, isRegister) == FirstMatch(Rules(isRegister), message, status)
  {
    var rs := Rules(isRegister);
    FirstMatchEleven(rs, message, status);
    assert rs[0] == Rule("user already exists", false, EmailTaken);
    assert rs[10] == Rule("unauthorized", false, Unauthorized);
  }

  /** No rule fires: the message is returned unchanged. */
  lemma {:induction false} UnmatchedUnchanged(rules: seq<Rule>, message: string, status: Option<int>)
    requires forall i :: 0 <= i < |rules| ==> !Fires(rules[i], message, status)
    ensures FirstMatch(rules, message, status) == message
  {
    if |rules| > 0 {
      UnmatchedUnchanged(rules[1..], message, status);
    }
  }

  /** A firing rule decides the message unless an earlier one fired. */
  lemma {:induction false} FirstFiringRuleWins(rules: seq<Rule>, message: string, status: Option<int>, k: nat)
    requires k < |rules| && Fires(rules[k], message, status)
    requires forall i :: 0 <= i < k ==> !Fires(rules[i], message, status)
    ensures FirstMatch(rules, message, status) == rules[k].message
    decreases k
  {
    if k > 0 {
      FirstFiringRuleWins(rules[1..], message, status, k - 1);
    }
  }

  /** A message containing "user not found" is answered by one of the first
      eight rules, so the later rule for the same text (with its register
      variant) can never fire first. */
  lemma SecondUserNotFoundUnreachable(message: string, status: Option<int>, isRegister: bool)
    requires Mentions(message, "user not found")
    ensures Classify(message, status, isRegister) in
      {EmailTaken, DatabaseMismatch, InvalidInput, WrongCredentials, WrongPassword, NoSuchUser}
    ensures Classify(message, status, isRegister) != RegisterFailed
  {
  }

  /** The "not found" rule fires only on status 404; on any other status a
      message that no other rule matches is passed through unchanged. */
  lemma NotFoundNeeds404(message: string, status: Option<int>, isRegister: bool)
    requires Mentions(message, "not found")
    requires forall i :: 0 <= i < 8 ==> !Fires(Rules(isRegister)[i], message, status)
    ensures status == Some(404) ==>
      Classify(message, status, isRegister) == (if isRegister then RegisterEndpointNotFound else EndpointNotFound)
    ensures status != Some(404) && !Mentions(message, "unauthorized") ==>
      Classify(message, status, isRegister) == message
  {
    var rs := Rules(isRegister);
    ClassifyIsFirstMatch(message, status, isRegister);
    if status == Some(404) {
      FirstFiringRuleWins(rs, message, status, 8);
    } else if !Mentions(message, "unauthorized") {
      assert !Fires(rs[9], message, status) by {
        assert !Fires(rs[7], message, status);
      }
      UnmatchedUnchanged(rs, message, status);
    }
  }

  /** A blank body gets the status message (generic for other codes); a body
      that is not an object gets the status message or else the raw body,
      which is never blank there. */
  lemma ParseErrorFallbacks(errorBody: Option<string>, parsed: ParsedBody, status: Option<int>, isRegister: bool)
    ensures IsNullOrBlank(errorBody) ==>
      ParseErrorMessage(errorBody, parsed, status, isRegister) == StatusMessage(status, isRegister).GetOr(GenericError)
    ensures !IsNullOrBlank(errorBody) && parsed.NotAnObject? ==>
      ParseErrorMessage(errorBody, parsed, status, isRegister) == StatusMessage(status, isRegister).GetOr(errorBody.value)
    ensures !IsNullOrBlank(errorBody) && parsed.NotAnObject? && StatusMessage(status, isRegister).None? ==>
      !IsBlank(ParseErrorMessage(errorBody, parsed, status, isRegister))
  {
  }

  /** The message comes from "message", else "error", else the raw body. */
  lemma ExtractOrder(body: string, members: map<string, Member>)
    ensures "message" in members ==>
      Extract(body, members) == (if members["message"].Readable? then Some(members["message"].text) else None)
    ensures "message" !in members && "error" in members && members["error"].Readable? ==>
      Extract(body, members) == Some(members["error"].text)
    ensures "message" !in members && "error" !in members ==> Extract(body, members) == Some(body)
  {
  }

  // ---------------------------------------------------------------------
  // login / register
  // ---------------------------------------------------------------------

  datatype AuthResponse = AuthResponse(accessToken: string, refreshToken: string, userName: string)

  /** What the HTTP call did. */
  datatype CallOutcome =
    | Answered(successful: bool, body: Option<AuthResponse>, code: int, errorBody: Option<string>, parsed: ParsedBody)
    | UnknownHost
    | Timeout
    | Threw(message: Option<string>)

  datatype AuthResult = Success(response: AuthResponse) | Failure(message: string)

  /** `login` (`isRegister` false) and `register` (`isRegister` true). */
  function Authenticate(isRegister: bool, outcome: CallOutcome): (r: AuthResult)
    ensures r.Success? ==> outcome.Answered? && outcome.successful && !IsBlank(r.response.accessToken)
  {
    match outcome
    case Answered(successful, body, code, errorBody, parsed) =>
      if successful && body.Some? then
        if IsBlank(body.value.accessToken) then Failure(TokenMissing) else Success(body.value)
      else Failure(ParseErrorMessage(errorBody, parsed, Some(code), isRegister))
    case UnknownHost => Failure("Sunucuya bağlanılamadı. İnternet bağlantınızı kontrol edin.")
    case Timeout => Failure("Bağlantı zaman aşımına uğradı. Lütfen tekrar deneyin.")
    case Threw(message) => Failure("Bir hata oluştu: " + message.GetOr("Bilinmeyen hata"))
  }

  /** A successful answer whose access token is blank is a failure; one with
      a token is a success carrying the body; an error answer carries the
      parsed error message. */
  lemma AuthenticateCases(isRegister: bool, outcome: CallOutcome)
    requires outcome.Answered?
    ensures outcome.successful && outcome.body.Some? && IsBlank(outcome.body.value.accessToken) ==>
      Authenticate(isRegister, outcome) == Failure(TokenMissing)
    ensures outcome.successful && outcome.body.Some? && !IsBlank(outcome.body.value.accessToken) ==>
      Authenticate(isRegister, outcome) == Success(outcome.body.value)
    ensures !(outcome.successful && outcome.body.Some?) ==>
      Authenticate(isRegister, outcome) ==
        Failure(ParseErrorMessage(outcome.errorBody, outcome.parsed, Some(outcome.code), isRegister))
  {
  }
}
