/** The framework route of `src/app/api/submit-form/route.ts`: an exported
    `POST` that is a chain of early returns, each building a response value,
    and an exported `OPTIONS`. The framework only routes POST requests to
    `POST`, so there is no method gate here. */
module RouteHandler {
  import opened Js
  import opened ServerConfig
  import opened Submission
  import ServerlessHandler

  /** The response once the append has settled: `updates?.updatedRange` gives
      `undefined`, not an exception, when the reply has no `updates`. */
  function AfterAppend(outcome: AppendOutcome): Response {
    match outcome
    case Appended(Some(u)) => Response(200, SuccessBody(SavedMessage, u.updatedRange))
    case Appended(None) => Response(200, SuccessBody(SavedMessage, None))
    case Threw(e) => SaveFailed(Some(MessageOrUnknown(e)))
  }

  /** `POST(request)`, with `append` standing for the authenticated
      spreadsheet call and `fmt` for the locale formatting of the timestamp. */
  function Post(body: BodyRead, env: Env, fmt: JsValue -> string, append: AppendRequest -> AppendOutcome): (o: Outcome)
    ensures |o.calls| <= 1
    ensures o.calls != [] <==> body.Read? && HasRequiredFields(body.payload) && IsConfigured(env)
    ensures o.calls != [] ==> o.response == AfterAppend(append(o.calls[0]))
    ensures o.response.status in {200, 400, 500}
    ensures o.response.body.ErrorBody? ==> o.response.body.error != ""
  {
    match body
    case ReadFailed(e) => Outcome(SaveFailed(Some(MessageOrUnknown(e))), [])
    case Read(p) =>
      match Decide(p, env, fmt)
      case Answer(r) => Outcome(r, [])
      case Append(call) => Outcome(AfterAppend(append(call)), [call])
  }

  /** `OPTIONS()`: 200 with a null body. */
  function Options(): Response {
    Response(200, NoBody)
  }

  /** Both variants answer a preflight request with the same status and body,
      and neither appends anything for it. The route sets no CORS headers on
      it, unlike the serverless handler (`ServerlessHandler.Handler`). */
  lemma PreflightAgrees(body: BodyRead, env: Env, fmt: JsValue -> string, append: AppendRequest -> AppendOutcome)
    ensures ServerlessHandler.Handle(ServerlessHandler.Request("OPTIONS", body), env, fmt, append)
         == Outcome(Options(), [])
    ensures Options().status == 200 && Options().body == NoBody
  {
  }

  /** A missing required field gets 400 whatever the configuration is, and
      nothing is appended. */
  lemma MissingFieldRejected(p: Payload, env: Env, fmt: JsValue -> string, append: AppendRequest -> AppendOutcome)
    requires !Truthy(p.nama) || !Truthy(p.email) || !Truthy(p.pesan)
    ensures Post(Read(p), env, fmt, append) == Outcome(Response(400, ErrorBody("Nama, email, dan pesan harus diisi", None)), [])
  {
  }

  /** A body that cannot be read is caught and answered with the save
      failure, carrying the `Error`'s message or `'Unknown error'`; nothing is
      appended. */
  lemma UnreadableBodyReported(e: Thrown, env: Env, fmt: JsValue -> string, append: AppendRequest -> AppendOutcome)
    ensures Post(ReadFailed(e), env, fmt, append)
         == Outcome(Response(500, ErrorBody("Gagal menyimpan data ke Google Sheets", Some(MessageOrUnknown(e)))), [])
  {
  }

  /** The configuration error is reported only once the fields have passed. */
  lemma MissingConfigurationReported(p: Payload, env: Env, fmt: JsValue -> string, append: AppendRequest -> AppendOutcome)
    requires HasRequiredFields(p)
    requires !Present(env.sheetId) || !Present(env.serviceAccountEmail) || !Present(env.privateKey)
    ensures Post(Read(p), env, fmt, append)
         == Outcome(Response(500, ErrorBody(ServerConfigurationError, Some(ConfigurationDetails))), [])
  {
    ConfiguredIffAllSet(env);
  }

  /** Otherwise exactly one append is issued, with the fixed range and
      insertion options and the five-cell row; a reply gives 200 with the
      reported range (absent without `updates`), an exception gives 500 with
      the error's message, or `'Unknown error'` for a non-`Error` value. */
  lemma AppendDecidesResponse(p: Payload, env: Env, fmt: JsValue -> string, append: AppendRequest -> AppendOutcome)
    requires HasRequiredFields(p) && IsConfigured(env)
    ensures var o := Post(Read(p), env, fmt, append);
      var call := o.calls[0];
      && |o.calls| == 1
      && call.range == "Sheet1!A:E" && call.valueInputOption == "USER_ENTERED" && call.insertDataOption == "INSERT_ROWS"
      && call.values == [[p.nama, p.email, if Truthy(p.telepon) then p.telepon else Str(""), p.pesan, Str(fmt(p.timestamp))]]
      && (append(call).Appended? ==>
            o.response == Response(200, SuccessBody(SavedMessage,
              if append(call).updates.Some? then append(call).updates.value.updatedRange else None)))
      && (append(call).Threw? && append(call).thrown.NonError? ==>
            o.response == Response(500, ErrorBody("Gagal menyimpan data ke Google Sheets", Some("Unknown error"))))
      && (forall m :: append(call) == Threw(ErrorObject(m)) ==>
            o.response == Response(500, ErrorBody("Gagal menyimpan data ke Google Sheets", Some(m))))
  {
    AppendedRow(p, env, fmt);
  }

  /** The append outcomes on which the two variants are known to behave the
      same: a reply that has `updates`, or a thrown `Error`. */
  predicate Ordinary(outcome: AppendOutcome) {
    match outcome
    case Appended(u) => u.Some?
    case Threw(e) => e.ErrorObject?
  }

  /** For a POST request the two variants are interchangeable, as long as the
      body read throws only `Error`s and the append's outcome is ordinary. */
  lemma VariantsAgreeOnPost(body: BodyRead, env: Env, fmt: JsValue -> string, append: AppendRequest -> AppendOutcome)
    requires body.ReadFailed? ==> body.thrown.ErrorObject?
    requires body.Read? && HasRequiredFields(body.payload) && IsConfigured(env) ==>
      Ordinary(append(AppendRequestFor(body.payload, env, fmt)))
    ensures ServerlessHandler.Handle(ServerlessHandler.Request("POST", body), env, fmt, append) == Post(body, env, fmt, append)
  {
  }

  /** They part on a thrown value that is not an `Error`: the JavaScript
      variant reports its `message` property, the route `'Unknown error'`. */
  lemma VariantsDifferOnNonErrorThrow(p: Payload, env: Env, fmt: JsValue -> string, append: AppendRequest -> AppendOutcome, m: string)
    requires HasRequiredFields(p) && IsConfigured(env)
    requires append(AppendRequestFor(p, env, fmt)) == Threw(NonError(Some(m)))
    ensures ServerlessHandler.Handle(ServerlessHandler.Request("POST", Read(p)), env, fmt, append).response
         == Response(500, ErrorBody(SaveFailedMessage, Some(m)))
    ensures Post(Read(p), env, fmt, append).response == Response(500, ErrorBody(SaveFailedMessage, Some("Unknown error")))
  {
  }

  /** They also part when reading the body throws a value that is not an
      `Error`: the JavaScript variant reports its `message` property (or
      leaves `details` out), the route `'Unknown error'`. */
  lemma VariantsDifferOnUnreadableBody(m: Option<string>, env: Env, fmt: JsValue -> string, append: AppendRequest -> AppendOutcome)
    ensures ServerlessHandler.Handle(ServerlessHandler.Request("POST", ReadFailed(NonError(m))), env, fmt, append).response
         == Response(500, ErrorBody(SaveFailedMessage, m))
    ensures Post(ReadFailed(NonError(m)), env, fmt, append).response
         == Response(500, ErrorBody(SaveFailedMessage, Some("Unknown error")))
    ensures m != Some("Unknown error") ==>
      ServerlessHandler.Handle(ServerlessHandler.Request("POST", ReadFailed(NonError(m))), env, fmt, append).response
      != Post(ReadFailed(NonError(m)), env, fmt, append).response
  {
  }

  /** And on a reply without `updates`: a success here and a
      failure in the JavaScript variant, although in both one row is appended. */
  lemma VariantsDifferOnMissingUpdates(p: Payload, env: Env, fmt: JsValue -> string, append: AppendRequest -> AppendOutcome)
    requires HasRequiredFields(p) && IsConfigured(env)
    requires append(AppendRequestFor(p, env, fmt)) == Appended(None)
    ensures Post(Read(p), env, fmt, append).response.status == 200
    ensures ServerlessHandler.Handle(ServerlessHandler.Request("POST", Read(p)), env, fmt, append).response.status == 500
    ensures Post(Read(p), env, fmt, append).calls == ServerlessHandler.Handle(ServerlessHandler.Request("POST", Read(p)), env, fmt, append).calls
  {
  }
}
