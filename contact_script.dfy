/** The static page's script, `script.js`: the email pattern check, the
    on-blur field colouring and the submit handler that drives the button,
    the loading indicator and the message box. */
module ContactScript {
  import opened Js
  import opened Submission
  import opened FormClient

  // ---------------------------------------------------------------------
  // isValidEmail: /^[^\s@]+@[^\s@]+\.[^\s@]+$/

  /** A character of the class `[^\s@]`. The dot belongs to it. */
  predicate IsPlainChar(c: char) {
    !IsWhitespace(c) && c != '@'
  }

  predicate AllPlain(s: string) {
    forall k | 0 <= k < |s| :: IsPlainChar(s[k])
  }

  /** The index of the first `c` in `s`, or `|s|` when there is none. */
  function IndexOf(s: string, c: char): (i: nat)
    ensures i <= |s|
    ensures i < |s| ==> s[i] == c
    ensures forall k | 0 <= k < i :: s[k] != c
    decreases |s|
  {
    if s == [] then 0 else if s[0] == c then 0 else 1 + IndexOf(s[1..], c)
  }

  /** The part after `@`: `[^\s@]+\.[^\s@]+`, that is, plain characters with a
      dot somewhere strictly inside. */
  predicate IsDomain(d: string) {
    |d| >= 3 && AllPlain(d) && '.' in d[1..|d| - 1]
  }

  /** `isValidEmail(email)`, as a scan: a non-empty plain prefix up to the
      first `@`, then a domain. */
  predicate IsValidEmail(s: string) {
    var i := IndexOf(s, '@');
    0 < i < |s| && AllPlain(s[..i]) && IsDomain(s[i + 1..])
  }

  /** The strings the regular expression matches, read off its grammar:
      `a@b.c` with `a`, `b`, `c` non-empty runs of `[^\s@]`. */
  ghost predicate MatchesEmailPattern(s: string) {
    exists a, b, c ::
      && a != [] && b != [] && c != []
      && AllPlain(a) && AllPlain(b) && AllPlain(c)
      && s == a + "@" + b + "." + c
  }

  lemma ShapeIsValid(a: string, b: string, c: string)
    requires a != [] && b != [] && c != []
    requires AllPlain(a) && AllPlain(b) && AllPlain(c)
    ensures IsValidEmail(a + "@" + b + "." + c)
  {
    var s := a + "@" + b + "." + c;
    var d := b + "." + c;
    assert s == a + ['@'] + d;
    assert s[|a|] == '@';
    var i := IndexOf(s, '@');
    assert forall k | 0 <= k < |a| :: s[k] == a[k];
    assert i == |a|;
    assert s[..i] == a;
    assert s[i + 1..] == d;
    assert AllPlain(d) by {
      forall k | 0 <= k < |d| ensures IsPlainChar(d[k]) {
        if k < |b| { assert d[k] == b[k]; }
        else if k > |b| { assert d[k] == c[k - |b| - 1]; }
      }
    }
    assert d[1..|d| - 1][|b| - 1] == '.';
  }

  lemma AllPlainSlice(s: string, i: nat, j: nat)
    requires AllPlain(s) && i <= j <= |s|
    ensures AllPlain(s[i..j])
  {
    forall k | 0 <= k < j - i ensures IsPlainChar(s[i..j][k]) { assert s[i..j][k] == s[i + k]; }
  }

  /** A domain splits at an inner dot into two non-empty plain parts. */
  lemma DomainSplit(d: string) returns (b: string, c: string)
    requires IsDomain(d)
    ensures b != [] && c != [] && AllPlain(b) && AllPlain(c)
    ensures d == b + "." + c
  {
    var inner := d[1..|d| - 1];
    var j' :| 0 <= j' < |inner| && inner[j'] == '.';
    var j := j' + 1;
    assert d[j] == '.';
    b, c := d[..j], d[j + 1..];
    AllPlainSlice(d, 0, j);
    AllPlainSlice(d, j + 1, |d|);
    assert d == b + "." + c;
  }

  lemma ValidHasShape(s: string)
    requires IsValidEmail(s)
    ensures MatchesEmailPattern(s)
  {
    var i := IndexOf(s, '@');
    var a, d := s[..i], s[i + 1..];
    assert s == a + "@" + d;
    var b, c := DomainSplit(d);
    assert s == a + "@" + b + "." + c;
  }

  /** The scan accepts exactly the strings the regular expression matches. */
  lemma ValidEmailIffPattern(s: string)
    ensures IsValidEmail(s) <==> MatchesEmailPattern(s)
  {
    if IsValidEmail(s) {
      ValidHasShape(s);
    }
    if MatchesEmailPattern(s) {
      var a, b, c :| && a != [] && b != [] && c != []
                     && AllPlain(a) && AllPlain(b) && AllPlain(c)
                     && s == a + "@" + b + "." + c;
      ShapeIsValid(a, b, c);
    }
  }

  /** An accepted address has exactly one `@` and no whitespace. */
  lemma ValidEmailHasOneAt(s: string)
    requires IsValidEmail(s)
    ensures multiset(s)['@'] == 1
    ensures forall k | 0 <= k < |s| :: !IsWhitespace(s[k])
  {
    var i := IndexOf(s, '@');
    var a, d := s[..i], s[i + 1..];
    assert s == a + ['@'] + d;
    assert '@' !in a;
    assert '@' !in d;
    assert multiset(s) == multiset(a) + multiset{'@'} + multiset(d);
    forall k | 0 <= k < |s| ensures !IsWhitespace(s[k]) {
      if k < i { assert s[k] == a[k]; }
      else if k > i { assert s[k] == d[k - i - 1]; }
    }
  }

  // ---------------------------------------------------------------------
  // The blur handler

  datatype Verdict = Valid | Invalid

  const InvalidColor := "#dc3545"
  const ValidColor := "#28a745"

  function ColorFor(v: Verdict): string {
    match v
    case Valid => ValidColor
    case Invalid => InvalidColor
  }

  /** The rule the blur handler applies to a field. */
  function BlurVerdict(required: bool, isEmail: bool, value: string): Verdict {
    if required && Trim(value) == [] then Invalid
    else if isEmail && value != "" && !IsValidEmail(value) then Invalid
    else Valid
  }

  /** A field is marked invalid exactly when it is required and blank, or an
      email field holding a non-empty value the pattern rejects; everything
      else, an empty optional field included, is marked valid. */
  lemma BlurInvalidIff(required: bool, isEmail: bool, value: string)
    ensures BlurVerdict(required, isEmail, value) == Invalid <==>
      (required && Blank(value)) || (isEmail && value != "" && !MatchesEmailPattern(value))
  {
    TrimEmptyIffBlank(value);
    ValidEmailIffPattern(value);
  }

  /** An `input` or `textarea` of the form. */
  class Input {
    const required: bool
    const isEmail: bool
    var value: string
    var borderColor: string
    var hasBlurListener: bool

    constructor (required: bool, isEmail: bool, value: string)
      ensures this.required == required && this.isEmail == isEmail && this.value == value
      ensures borderColor == "" && !hasBlurListener
    {
      this.required := required;
      this.isEmail := isEmail;
      this.value := value;
      borderColor := "";
      hasBlurListener := false;
    }

    /** The listener's body. */
    method OnBlur()
      modifies this`borderColor
      ensures borderColor == ColorFor(BlurVerdict(required, isEmail, value))
    {
      if required && Trim(value) == [] {
        borderColor := InvalidColor;
      } else if isEmail && value != "" && !IsValidEmail(value) {
        borderColor := InvalidColor;
      } else {
        borderColor := ValidColor;
      }
    }

    /** The field loses focus: the listener runs if one is attached. */
    method Blur()
      modifies this`borderColor
      ensures borderColor == if hasBlurListener then ColorFor(BlurVerdict(required, isEmail, value)) else old(borderColor)
    {
      if hasBlurListener {
        OnBlur();
      }
    }
  }

  /** `inputs.forEach(input => input.addEventListener('blur', ...))`. */
  method AttachBlurHandlers(inputs: seq<Input>)
    modifies set i | i in inputs
    ensures forall i :: i in inputs ==> i.hasBlurListener
    ensures forall i :: i in inputs ==> i.value == old(i.value) && i.borderColor == old(i.borderColor)
  {
    for n := 0 to |inputs|
      invariant forall k :: 0 <= k < n ==> inputs[k].hasBlurListener
      invariant forall i :: i in inputs ==> i.value == old(i.value) && i.borderColor == old(i.borderColor)
    {
      inputs[n].hasBlurListener := true;
    }
  }

  // ---------------------------------------------------------------------
  // The submit handler's outcome

  const ConfigMarker := "Server configuration error"
  const FetchMarker := "Failed to fetch"
  const ConfigHint := "Server belum dikonfigurasi dengan benar. Pastikan environment variables sudah diset di Vercel."
  const ConnectionHint := "Tidak dapat terhubung ke server. Cek koneksi internet Anda."
  const RetryHint := "Gagal mengirim pesan. Silakan coba lagi."

  /** The message of the error the `try` block ends with, or `None` when it
      ends normally. A non-ok response becomes an error carrying the body's
      `error` or `HTTP error! status: N`; an ok reply without `success`
      becomes one carrying `error` or the generic text. */
  function FailureOf(o: FetchOutcome): Option<string> {
    match o
    case NetworkFailure(m) => Some(m)
    case Received(ok, status, json) =>
      match json
      case Malformed(m) => Some(m)
      case Parsed(r) =>
        if !ok then Some(OrElse(r.error, "HTTP error! status: " + Decimal(status)))
        else if r.success then None
        else Some(OrElse(r.error, SendFailedFallback))
  }

  /** The `catch` block's choice of text. */
  function CatchText(m: string): string {
    if Contains(m, ConfigMarker) then ConfigHint
    else if Contains(m, FetchMarker) then ConnectionHint
    else if m != "" then m
    else RetryHint
  }

  /** The banner a submit ends with. */
  function ScriptBanner(o: FetchOutcome): Banner {
    match FailureOf(o)
    case None => Banner(SentText, Success)
    case Some(m) => Banner(CatchText(m), Failure)
  }

  /** The classification runs in priority order: a configuration error wins
      over a connection failure, which wins over the error's own text, and
      the generic text is used only for an empty message. */
  lemma CatchTextPriority(m: string)
    ensures Contains(m, ConfigMarker) ==> CatchText(m) == ConfigHint
    ensures !Contains(m, ConfigMarker) && Contains(m, FetchMarker) ==> CatchText(m) == ConnectionHint
    ensures !Contains(m, ConfigMarker) && !Contains(m, FetchMarker) ==> CatchText(m) == (if m == "" then RetryHint else m)
    ensures CatchText(m) != ""
  {
  }

  /** A non-ok response is reported with the body's `error` when it has a
      non-empty one, and with its status code otherwise. */
  lemma NonOkMessage(status: nat, r: Reply)
    ensures FailureOf(Received(false, status, Parsed(r)))
         == Some(if r.error.Some? && r.error.value != "" then r.error.value else "HTTP error! status: " + Decimal(status))
  {
  }

  /** An ok reply without a truthy `success` fails with the body's `error`
      when it has a non-empty one, and with the generic text otherwise. */
  lemma OkUnsuccessfulText(status: nat, r: Reply)
    requires !r.success
    ensures FailureOf(Received(true, status, Parsed(r)))
         == Some(if r.error.Some? && r.error.value != "" then r.error.value else "Terjadi kesalahan saat mengirim data")
  {
  }

  /** A rejected `fetch` and a body `json()` cannot parse both reach the
      `catch` block with their own message. */
  lemma ThrownReachesCatch(m: string, ok: bool, status: nat)
    ensures FailureOf(NetworkFailure(m)) == Some(m)
    ensures FailureOf(Received(ok, status, Malformed(m))) == Some(m)
  {
  }

  /** The browser's `Failed to fetch` rejection is shown as the connection
      hint. */
  lemma FetchRejectionShowsConnectionHint()
    ensures ScriptBanner(NetworkFailure("Failed to fetch")) == Banner(ConnectionHint, Failure)
  {
    MissingCharNotContained("Failed to fetch", ConfigMarker, 0);
    assert FetchMarker <= "Failed to fetch";
  }

  /** Whenever the `try` block fails, the banner is the `catch` block's text
      for its message, of type error. */
  lemma FailureBannerText(o: FetchOutcome)
    ensures FailureOf(o).Some? ==> ScriptBanner(o) == Banner(CatchText(FailureOf(o).value), Failure)
    ensures FailureOf(o).None? ==> ScriptBanner(o) == Banner(SentText, Success)
  {
  }

  /** Success is shown exactly for an ok response whose parsed body has a
      truthy `success`. */
  lemma ScriptSuccessIff(o: FetchOutcome)
    ensures ScriptBanner(o).kind == Success <==>
      o.Received? && o.ok && o.json.Parsed? && o.json.reply.success
    ensures ScriptBanner(o).kind == Success ==> ScriptBanner(o).text == SentText
  {
  }

  // ---------------------------------------------------------------------
  // The page state the submit handler drives

  class ContactForm {
    var form: FormEntries
    var submitDisabled: bool
    var btnTextDisplay: string
    var btnLoadingDisplay: string
    var messageText: string
    var messageClass: string
    var messageDisplay: string

    /** The button is usable and shows its label. */
    predicate Idle()
      reads this
    {
      !submitDisabled && btnTextDisplay == "inline-block" && btnLoadingDisplay == "none"
    }

    /** The button is disabled and shows the loading indicator. */
    predicate InFlight()
      reads this
    {
      submitDisabled && btnTextDisplay == "none" && btnLoadingDisplay == "inline-block"
    }

    constructor (form: FormEntries)
      ensures this.form == form && Idle() && messageDisplay == "none"
    {
      this.form := form;
      submitDisabled := false;
      btnTextDisplay := "inline-block";
      btnLoadingDisplay := "none";
      messageText := "";
      messageClass := "message";
      messageDisplay := "none";
    }

    /** `showMessage(text, type)`, without the timer that hides it again. */
    method ShowMessage(text: string, kind: Kind)
      modifies this`messageText, this`messageClass, this`messageDisplay
      ensures messageText == text && messageClass == "message " + KindName(kind) && messageDisplay == "block"
    {
      messageText := text;
      messageClass := "message " + KindName(kind);
      messageDisplay := "block";
    }

    /** `hideMessage()`. */
    method HideMessage()
      modifies this`messageDisplay
      ensures messageDisplay == "none"
    {
      messageDisplay := "none";
    }

    /** The handler up to `await fetch(...)`: the button is disabled, the
      loading indicator shown, the message hidden, and the payload built;
      this is the state while the request is in flight. */
    method BeginSubmit(now: string) returns (payload: Payload)
      modifies this
      ensures InFlight() && messageDisplay == "none"
      ensures payload == FormPayload(form, now)
      ensures form == old(form) && messageText == old(messageText) && messageClass == old(messageClass)
    {
      submitDisabled := true;
      btnTextDisplay := "none";
      btnLoadingDisplay := "inline-block";
      HideMessage();
      payload := FormPayload(form, now);
    }

    /** The handler from the settled `fetch` on: the `try`, `catch` and
      `finally` blocks. Whatever the outcome, the button is usable again;
      the banner is `ScriptBanner(o)`, and the form is reset only on
      success. */
    method FinishSubmit(o: FetchOutcome)
      modifies this
      ensures Idle()
      ensures messageText == ScriptBanner(o).text
      ensures messageClass == "message " + KindName(ScriptBanner(o).kind)
      ensures messageDisplay == "block"
      ensures form == if ScriptBanner(o).kind == Success then Reset(old(form)) else old(form)
    {
      var failure: Option<string>;
      match o {
        case NetworkFailure(m) =>
          failure := Some(m);
        case Received(ok, status, json) =>
          if !ok {
            match json {
              case Malformed(m) => failure := Some(m);
              case Parsed(r) => failure := Some(OrElse(r.error, "HTTP error! status: " + Decimal(status)));
            }
          } else {
            match json {
              case Malformed(m) => failure := Some(m);
              case Parsed(r) =>
                if r.success {
                  ShowMessage(SentText, Success);
                  form := Reset(form);
                  failure := None;
                } else {
                  failure := Some(OrElse(r.error, SendFailedFallback));
                }
            }
          }
      }

      if failure.Some? {
        var m := failure.value;
        if Contains(m, ConfigMarker) {
          ShowMessage(ConfigHint, Failure);
        } else if Contains(m, FetchMarker) {
          ShowMessage(ConnectionHint, Failure);
        } else {
          ShowMessage(if m != "" then m else RetryHint, Failure);
        }
      }

      // finally
      submitDisabled := false;
      btnTextDisplay := "inline-block";
      btnLoadingDisplay := "none";
    }

    /** One submit, with `send` standing for the request and its settled
      outcome. Returns the payload sent and whether the button was disabled
      while the request was in flight. */
    method Submit(now: string, send: Payload -> FetchOutcome) returns (payload: Payload, disabledInFlight: bool)
      modifies this
      ensures payload == FormPayload(old(form), now)
      ensures disabledInFlight
      ensures Idle()
      ensures messageText == ScriptBanner(send(payload)).text && messageDisplay == "block"
      ensures messageClass == "message " + KindName(ScriptBanner(send(payload)).kind)
      ensures form == if ScriptBanner(send(payload)).kind == Success then Reset(old(form)) else old(form)
    {
      payload := BeginSubmit(now);
      disabledInFlight := submitDisabled;
      FinishSubmit(send(payload));
    }
  }
}
