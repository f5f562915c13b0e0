/** What the two browser clients (`script.js` and `src/app/page.tsx`) share:
    the payload they build from the form, the result of their one `fetch`
    call, the banner they show, and how a handler's response reaches them. */
module FormClient {
  import opened Js
  import opened Submission

  /** The form's entries as `FormData` sees them: name to current value. */
  type FormEntries = map<string, string>

  /** `formData.get(name)`: the value, or `null` for a field the form lacks. */
  function Get(form: FormEntries, name: string): JsValue {
    if name in form then Str(form[name]) else Null
  }

  /** The JSON object the clients send; `now` stands for
      `new Date().toISOString()`. */
  function FormPayload(form: FormEntries, now: string): Payload {
    Payload(Get(form, "nama"), Get(form, "email"), Or(Get(form, "telepon"), Str("")), Get(form, "pesan"), Str(now))
  }

  /** The phone entry is always a string, empty when the field is empty or
      missing; the other fields are carried over unchanged. */
  lemma PayloadFields(form: FormEntries, now: string)
    ensures FormPayload(form, now).telepon == Str(if "telepon" in form then form["telepon"] else "")
    ensures FormPayload(form, now).nama == Get(form, "nama")
    ensures FormPayload(form, now).email == Get(form, "email")
    ensures FormPayload(form, now).pesan == Get(form, "pesan")
    ensures FormPayload(form, now).timestamp == Str(now)
  {
  }

  /** A field that `FormData` holds with a non-empty value. */
  predicate Filled(form: FormEntries, name: string) {
    name in form && form[name] != ""
  }

  /** The server's required-field check passes on a client payload exactly
      when the three required fields are filled in. */
  lemma PayloadHasRequiredFields(form: FormEntries, now: string)
    ensures HasRequiredFields(FormPayload(form, now)) <==>
      Filled(form, "nama") && Filled(form, "email") && Filled(form, "pesan")
  {
  }

  /** `form.reset()`: every field back to its (empty) default value. */
  function Reset(form: FormEntries): FormEntries {
    map name | name in form :: ""
  }

  /** The parts of the parsed JSON reply the clients look at: whether
      `success` is truthy, and `error`. */
  datatype Reply = Reply(success: bool, error: Option<string>)

  /** `response.json()`: the parsed reply, or the message of the SyntaxError
      it throws. */
  datatype ParsedBody = Parsed(reply: Reply) | Malformed(message: string)

  /** The one request a submit makes: `fetch` rejects (with the message of
      its TypeError) or a response arrives. */
  datatype FetchOutcome = NetworkFailure(message: string) | Received(ok: bool, status: nat, json: ParsedBody)

  /** The banner's type, `'success'` or `'error'`. */
  datatype Kind = Success | Failure

  function KindName(k: Kind): string {
    match k
    case Success => "success"
    case Failure => "error"
  }

  datatype Banner = Banner(text: string, kind: Kind)

  const SentText := "Pesan berhasil dikirim! Data telah tersimpan di Google Sheets."
  const SendFailedFallback := "Terjadi kesalahan saat mengirim data"

  /** How a handler's response reaches a client: `ok` is a 2xx status, and
      the body is serialised as JSON; a response without a body makes
      `response.json()` throw with `emptyBodyError`. */
  function Deliver(r: Response, emptyBodyError: string): FetchOutcome {
    Received(200 <= r.status < 300, r.status,
      match r.body
      case NoBody => Malformed(emptyBodyError)
      case ErrorBody(e, _) => Parsed(Reply(false, Some(e)))
      case SuccessBody(_, _) => Parsed(Reply(true, None)))
  }
}
