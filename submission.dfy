/** What the two handler variants have in common: the request body they
    destructure, the responses they build, the spreadsheet append they issue,
    and the decision procedure that runs before the append (required-field
    check, then configuration check, then the five-column row). */
module Submission {
  import opened Js
  import opened ServerConfig

  /** The fields destructured from the JSON request body. */
  datatype Payload = Payload(nama: JsValue, email: JsValue, telepon: JsValue, pesan: JsValue, timestamp: JsValue)

  /** A thrown JavaScript value other than `null` and `undefined`: an `Error`,
      which carries a message, or any other value, with the string in its
      `message` property when it has one. */
  datatype Thrown = ErrorObject(message: string) | NonError(ownMessage: Option<string>)

  /** Reading the request body: its fields, or what was thrown while reading
      it (a body that is not JSON, or no body at all). */
  datatype BodyRead = Read(payload: Payload) | ReadFailed(thrown: Thrown)

  /** The JSON bodies the handlers send. `details: None` and
      `updatedRange: None` stand for a property whose value is `undefined`,
      which JSON serialisation leaves out. */
  datatype Body =
    | NoBody
    | ErrorBody(error: string, details: Option<string>)
    | SuccessBody(message: string, updatedRange: Option<string>)

  datatype Response = Response(status: nat, body: Body)

  /** One call of the spreadsheet append: the credentials it is authenticated
      with, the spreadsheet, the range, the two insertion options and the
      rows. */
  datatype AppendRequest = AppendRequest(
    clientEmail: string,
    privateKey: string,
    spreadsheetId: string,
    range: string,
    valueInputOption: string,
    insertDataOption: string,
    values: seq<seq<JsValue>>)

  /** The `updates` part of the append's reply. */
  datatype Updates = Updates(updatedRange: Option<string>)

  /** What the authenticated append call does: it resolves with a reply
      (whose `updates` may be missing) or it throws. */
  datatype AppendOutcome = Appended(updates: Option<Updates>) | Threw(thrown: Thrown)

  /** A handler run: the response it sends and the append calls it issues,
      in order. */
  datatype Outcome = Outcome(response: Response, calls: seq<AppendRequest>)

  const RequiredFieldsMessage := "Nama, email, dan pesan harus diisi"
  const ServerConfigurationError := "Server configuration error. Please check environment variables."
  const ConfigurationDetails := "GOOGLE_SHEET_ID, GOOGLE_SERVICE_ACCOUNT_EMAIL, and GOOGLE_PRIVATE_KEY must be set"
  const SaveFailedMessage := "Gagal menyimpan data ke Google Sheets"
  const SavedMessage := "Data berhasil disimpan ke Google Sheets"
  const SheetRange := "Sheet1!A:E"
  const UserEntered := "USER_ENTERED"
  const InsertRows := "INSERT_ROWS"

  /** `nama`, `email` and `pesan` are all truthy. */
  predicate HasRequiredFields(p: Payload) {
    Truthy(p.nama) && Truthy(p.email) && Truthy(p.pesan)
  }

  /** The spreadsheet row: `[nama, email, telepon || '', pesan, fmt(timestamp)]`,
      where `fmt` stands for `new Date(timestamp).toLocaleString('id-ID')`. */
  function Row(p: Payload, fmt: JsValue -> string): seq<JsValue> {
    [p.nama, p.email, Or(p.telepon, Str("")), p.pesan, Str(fmt(p.timestamp))]
  }

  function AppendRequestFor(p: Payload, env: Env, fmt: JsValue -> string): AppendRequest
    requires IsConfigured(env)
  {
    AppendRequest(env.serviceAccountEmail.value, PrivateKey(env).value, env.sheetId.value,
                  SheetRange, UserEntered, InsertRows, [Row(p, fmt)])
  }

  /** What the handler does with a body it has read: answer at once, or go on
      to append. */
  datatype Decision = Answer(response: Response) | Append(request: AppendRequest)

  /** The checks a read body goes through, in the handlers' order. */
  function Decide(p: Payload, env: Env, fmt: JsValue -> string): (d: Decision)
    ensures d.Append? <==> HasRequiredFields(p) && IsConfigured(env)
    ensures !HasRequiredFields(p) ==> d == Answer(Response(400, ErrorBody(RequiredFieldsMessage, None)))
    ensures d.Append? ==> d.request.range == SheetRange && |d.request.values| == 1 && |d.request.values[0]| == 5
  {
    if !HasRequiredFields(p) then
      Answer(Response(400, ErrorBody(RequiredFieldsMessage, None)))
    else if !IsConfigured(env) then
      Answer(Response(500, ErrorBody(ServerConfigurationError, Some(ConfigurationDetails))))
    else
      Append(AppendRequestFor(p, env, fmt))
  }

  /** The append a request with all required fields and a full configuration
      leads to, cell by cell: the phone cell is `telepon` when it is truthy
      and the empty string otherwise, and the key is the unescaped one. */
  lemma AppendedRow(p: Payload, env: Env, fmt: JsValue -> string)
    requires HasRequiredFields(p) && IsConfigured(env)
    ensures Decide(p, env, fmt) == Append(AppendRequest(
      env.serviceAccountEmail.value, Unescape(env.privateKey.value), env.sheetId.value,
      "Sheet1!A:E", "USER_ENTERED", "INSERT_ROWS",
      [[p.nama, p.email, if Truthy(p.telepon) then p.telepon else Str(""), p.pesan, Str(fmt(p.timestamp))]]))
  {
  }

  /** `error.message` as the JavaScript variant reads it: a thrown value
      without a `message` property gives `undefined`, which is left out of the
      JSON. */
  function MessageOf(e: Thrown): Option<string> {
    match e
    case ErrorObject(m) => Some(m)
    case NonError(m) => m
  }

  /** `error instanceof Error ? error.message : 'Unknown error'`. */
  function MessageOrUnknown(e: Thrown): string {
    match e
    case ErrorObject(m) => m
    case NonError(_) => "Unknown error"
  }

  /** The response both variants send when something inside their `try`
      block throws. */
  function SaveFailed(details: Option<string>): Response {
    Response(500, ErrorBody(SaveFailedMessage, details))
  }
}
