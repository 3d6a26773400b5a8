/** The web forms: the ticker-format check of the add-ticker form and the
    validator chains declared on the login, registration and add-ticker
    forms, run the way the form library runs them. */
module Forms {

  /** A character of the class `[A-Za-z0-9\.]`. */
  predicate TickerChar(c: char) {
    ('A' <= c <= 'Z') || ('a' <= c <= 'z') || ('0' <= c <= '9') || c == '.'
  }

  /** The length of the longest prefix of `s` made of ticker characters: how
      far the greedy `[A-Za-z0-9\.]+` runs from the start. */
  function LeadingRun(s: string): (n: nat)
    ensures n <= |s|
    ensures forall i :: 0 <= i < n ==> TickerChar(s[i])
    ensures n < |s| ==> !TickerChar(s[n])
  {
    if s == [] || !TickerChar(s[0]) then 0 else 1 + LeadingRun(s[1..])
  }

  /** `re.match(r'^[A-Za-z0-9\.]+$', s)`: the run is not empty, and `$`
      finds the end of the string or the position just before a final
      newline. A shorter run never helps, since the character after it is a
      ticker character, neither a newline nor the end. */
  predicate PatternMatches(s: string) {
    var n := LeadingRun(s);
    n >= 1 && (n == |s| || (n == |s| - 1 && s[n] == '\n'))
  }

  /** The strings the pattern accepts, stated directly: one or more ticker
      characters, optionally followed by one newline. */
  ghost predicate TickerShaped(s: string) {
    exists body :: 0 < |body| && AllTickerChars(body) && (s == body || s == body + "\n")
  }

  predicate AllTickerChars(s: string) {
    forall i :: 0 <= i < |s| ==> TickerChar(s[i])
  }

  /** The pattern accepts exactly the ticker-shaped strings. */
  lemma PatternMatchesIff(s: string)
    ensures PatternMatches(s) <==> TickerShaped(s)
  {
    var n := LeadingRun(s);
    if PatternMatches(s) {
      var body := s[..n];
      assert forall i :: 0 <= i < |body| ==> TickerChar(body[i]);
      if n == |s| {
        assert s == body;
      } else {
        assert s == body + "\n";
      }
    }
    if TickerShaped(s) {
      var body :| 0 < |body| && AllTickerChars(body)
                  && (s == body || s == body + "\n");
      assert forall i :: 0 <= i < |body| ==> s[i] == body[i];
      assert n >= |body|;
      if s != body {
        assert s[|body|] == '\n';
        assert !TickerChar(s[|body|]);
      }
    }
  }

  const InvalidTickerMessage: string := "Invalid ticker symbol format"

  /** The outcome of a validator: it passes, or fails with a message. */
  datatype Check = Pass | Fail(message: string)

  /** `AddTickerForm.validate_ticker`: the ticker passes exactly when it is
      ticker-shaped, and otherwise fails with the format message. */
  function ValidateTicker(data: string): (r: Check)
    ensures r.Pass? <==> TickerShaped(data)
    ensures r.Fail? ==> r.message == InvalidTickerMessage
  {
    PatternMatchesIff(data);
    if PatternMatches(data) then Pass else Fail(InvalidTickerMessage)
  }

  /** A character other than a ticker character fails the check, unless it
      is a newline at the very end after at least one ticker character. */
  lemma ForeignCharacterFails(data: string, i: nat)
    requires i < |data| && !TickerChar(data[i])
    requires !(data[i] == '\n' && i == |data| - 1)
    ensures ValidateTicker(data) == Fail(InvalidTickerMessage)
  {
    if TickerShaped(data) {
      var body :| 0 < |body| && AllTickerChars(body)
                  && (data == body || data == body + "\n");
    }
  }

  /** One or more ticker characters pass, with or without one trailing
      newline. */
  lemma TickerCharsPass(body: string)
    requires 0 < |body| && AllTickerChars(body)
    ensures ValidateTicker(body) == Pass && ValidateTicker(body + "\n") == Pass
  {
    assert TickerShaped(body);
    assert TickerShaped(body + "\n");
  }

  /** A plain symbol passes, and so does the same symbol with one trailing
      newline. */
  lemma PlainSymbolPasses()
    ensures ValidateTicker("AAPL") == Pass && ValidateTicker("AAPL\n") == Pass
  {
    var aapl := "AAPL";
    assert AllTickerChars(aapl) by {
      assert aapl[0] == 'A' && aapl[1] == 'A' && aapl[2] == 'P' && aapl[3] == 'L';
    }
    TickerCharsPass(aapl);
    assert aapl + "\n" == "AAPL\n";
  }

  /** A symbol with a share-class dot passes. */
  lemma DottedSymbolPasses()
    ensures ValidateTicker("BRK.B") == Pass
  {
    var brk := "BRK.B";
    assert AllTickerChars(brk) by {
      assert brk[0] == 'B' && brk[1] == 'R' && brk[2] == 'K' && brk[3] == '.' && brk[4] == 'B';
    }
    TickerCharsPass(brk);
  }

  /** A dash, an empty string and a second trailing newline fail. */
  lemma RejectedExamples()
    ensures ValidateTicker("BRK-B") == Fail(InvalidTickerMessage)
    ensures ValidateTicker("") == Fail(InvalidTickerMessage)
    ensures ValidateTicker("AAPL\n\n") == Fail(InvalidTickerMessage)
  {
    ForeignCharacterFails("BRK-B", 3);
    ForeignCharacterFails("AAPL\n\n", 4);
  }

  /** The whitespace `str.strip()` removes: the characters for which
      Python's `str.isspace` holds. */
  predicate Whitespace(c: char) {
    || '\t' <= c <= '\r'
    || '\U{1C}' <= c <= ' '
    || c == '\U{85}' || c == '\U{A0}' || c == '\U{1680}'
    || '\U{2000}' <= c <= '\U{200A}'
    || c == '\U{2028}' || c == '\U{2029}' || c == '\U{202F}' || c == '\U{205F}' || c == '\U{3000}'
  }

  /** The field holds something other than whitespace: what `DataRequired`
      asks of a string. */
  predicate HasContent(s: string) {
    exists i :: 0 <= i < |s| && !Whitespace(s[i])
  }

  /** A validator as declared on a field. `Length` uses -1 for a bound left
      open, as the form library does; `EqualTo` names another declared field,
      whose value (empty when not submitted) the field must equal. */
  datatype Validator = DataRequired | Length(min: int, max: int) | EqualTo(other: string) | TickerFormat

  /** A validation error of a field. */
  datatype FieldError = Required | BadLength(min: int, max: int) | NotEqual(other: string) | Invalid(message: string)

  /** The submitted values by field name. */
  type FormData = map<string, string>

  /** A field's value; a field that was not submitted is empty. */
  function FieldValue(form: FormData, name: string): string {
    if name in form then form[name] else ""
  }

  predicate LengthWithin(value: string, min: int, max: int) {
    |value| >= min && (max == -1 || |value| <= max)
  }

  /** Runs a field's validator chain, the form's own `validate_<field>`
      method last. Every validator runs and its error is collected, except
      that a failing `DataRequired` stops the chain. */
  function FieldErrors(chain: seq<Validator>, value: string, form: FormData): seq<FieldError>
    decreases |chain|
  {
    if chain == [] then []
    else
      var rest := FieldErrors(chain[1..], value, form);
      match chain[0]
      case DataRequired =>
        if HasContent(value) then rest else [Required]
      case Length(min, max) =>
        (if LengthWithin(value, min, max) then [] else [BadLength(min, max)]) + rest
      case EqualTo(other) =>
        (if value != FieldValue(form, other) then [NotEqual(other)] else []) + rest
      case TickerFormat =>
        (match ValidateTicker(value)
         case Pass => []
         case Fail(message) => [Invalid(message)]) + rest
  }

  /** A form: its fields in declaration order, each with its chain. */
  type Form = seq<(string, seq<Validator>)>

  const LoginForm: Form := [("username", [DataRequired]), ("password", [DataRequired])]

  const RegisterForm: Form := [
    ("username", [DataRequired, Length(3, 20)]),
    ("password", [DataRequired, Length(6, -1)]),
    ("confirm_password", [DataRequired, EqualTo("password")])]

  const AddTickerForm: Form := [("ticker", [DataRequired, Length(1, 10), TickerFormat])]

  /** `validate_on_submit`: every field's chain runs clean. */
  predicate Validates(fields: Form, form: FormData) {
    forall k :: 0 <= k < |fields| ==> FieldErrors(fields[k].1, FieldValue(form, fields[k].0), form) == []
  }

  /** Login accepts exactly when both the username and the password hold
      something other than whitespace. */
  lemma LoginValidIff(form: FormData)
    ensures Validates(LoginForm, form) <==>
      HasContent(FieldValue(form, "username")) && HasContent(FieldValue(form, "password"))
  {
    var u, p := FieldValue(form, "username"), FieldValue(form, "password");
    assert FieldErrors([DataRequired], u, form) == (if HasContent(u) then [] else [Required]);
    assert FieldErrors([DataRequired], p, form) == (if HasContent(p) then [] else [Required]);
    assert LoginForm[0] == ("username", [DataRequired]) && LoginForm[1] == ("password", [DataRequired]);
  }

  /** Registration accepts exactly when the username has content and 3 to 20
      characters, the password has content and at least 6 characters, and
      the confirmation has content and equals the password. */
  lemma RegisterValidIff(form: FormData)
    ensures Validates(RegisterForm, form) <==>
      var u, p, c := FieldValue(form, "username"), FieldValue(form, "password"), FieldValue(form, "confirm_password");
      && HasContent(u) && 3 <= |u| <= 20
      && HasContent(p) && |p| >= 6
      && HasContent(c) && c == p
  {
    var u, p, c := FieldValue(form, "username"), FieldValue(form, "password"), FieldValue(form, "confirm_password");
    assert FieldErrors([Length(3, 20)], u, form) == (if LengthWithin(u, 3, 20) then [] else [BadLength(3, 20)]);
    assert FieldErrors([DataRequired, Length(3, 20)], u, form)
        == (if HasContent(u) then FieldErrors([Length(3, 20)], u, form) else [Required]);
    assert FieldErrors([Length(6, -1)], p, form) == (if LengthWithin(p, 6, -1) then [] else [BadLength(6, -1)]);
    assert FieldErrors([DataRequired, Length(6, -1)], p, form)
        == (if HasContent(p) then FieldErrors([Length(6, -1)], p, form) else [Required]);
    assert FieldErrors([EqualTo("password")], c, form)
        == (if c != p then [NotEqual("password")] else []);
    assert FieldErrors([DataRequired, EqualTo("password")], c, form)
        == (if HasContent(c) then FieldErrors([EqualTo("password")], c, form) else [Required]);
    assert RegisterForm[0].1 == [DataRequired, Length(3, 20)];
    assert RegisterForm[1].1 == [DataRequired, Length(6, -1)];
    assert RegisterForm[2].1 == [DataRequired, EqualTo("password")];
  }

  /** A ticker-shaped value always has content: its first character is a
      ticker character, never whitespace. */
  lemma TickerShapedHasContent(s: string)
    requires TickerShaped(s)
    ensures HasContent(s) && |s| >= 1
  {
    var body :| 0 < |body| && AllTickerChars(body)
                && (s == body || s == body + "\n");
    assert s[0] == body[0] && TickerChar(s[0]);
  }

  /** The add-ticker form accepts exactly the ticker-shaped values of at most
      10 characters; the content and minimum-length checks are implied. */
  lemma AddTickerValidIff(form: FormData)
    ensures Validates(AddTickerForm, form) <==>
      TickerShaped(FieldValue(form, "ticker")) && |FieldValue(form, "ticker")| <= 10
  {
    var t := FieldValue(form, "ticker");
    assert FieldErrors([TickerFormat], t, form) == (if TickerShaped(t) then [] else [Invalid(InvalidTickerMessage)]);
    assert FieldErrors([Length(1, 10), TickerFormat], t, form)
        == (if LengthWithin(t, 1, 10) then [] else [BadLength(1, 10)]) + FieldErrors([TickerFormat], t, form);
    assert FieldErrors([DataRequired, Length(1, 10), TickerFormat], t, form)
        == (if HasContent(t) then FieldErrors([Length(1, 10), TickerFormat], t, form) else [Required]);
    assert AddTickerForm[0] == ("ticker", [DataRequired, Length(1, 10), TickerFormat]);
    if TickerShaped(t) {
      TickerShapedHasContent(t);
    }
  }
}
