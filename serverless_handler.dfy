/** The serverless request handler of `api/submit-form.js`. It writes to a
    Node-style response object step by step: three CORS headers, then a status
    and either `json(...)` or `end()`. `Handle` states what a run amounts to;
    the method `Handler` performs it on a `ServerResponse`. */
module ServerlessHandler {
  import opened Js
  import opened ServerConfig
  import opened Submission

  /** `req.method` and `req.body`. */
  datatype Request = Request(verb: string, body: BodyRead)

  const MethodNotAllowedMessage := "Method not allowed"

  /** The TypeError that Node's V8 engine raises for
      `response.data.updates.updatedRange` when `updates` is missing. */
  const MissingUpdatesError := "Cannot read properties of undefined (reading 'updatedRange')"

  /** The headers set on every response, in the order they are set. */
  const CorsHeaders: map<string, string> := map[
    "Access-Control-Allow-Origin" := "*",
    "Access-Control-Allow-Methods" := "GET, POST, OPTIONS",
    "Access-Control-Allow-Headers" := "Content-Type"]

  /** The response once the append has settled. */
  function AfterAppend(outcome: AppendOutcome): Response {
    match outcome
    case Appended(Some(u)) => Response(200, SuccessBody(SavedMessage, u.updatedRange))
    case Appended(None) => SaveFailed(Some(MissingUpdatesError))
    case Threw(e) => SaveFailed(MessageOf(e))
  }

  /** One run of the handler, with `append` standing for the authenticated
      spreadsheet call and `fmt` for the locale formatting of the timestamp. */
  function Handle(req: Request, env: Env, fmt: JsValue -> string, append: AppendRequest -> AppendOutcome): (o: Outcome)
    ensures |o.calls| <= 1
    ensures o.calls != [] <==>
      req.verb == "POST" && req.body.Read? && HasRequiredFields(req.body.payload) && IsConfigured(env)
    ensures o.calls != [] ==> o.response == AfterAppend(append(o.calls[0]))
    ensures o.response.status in {200, 400, 405, 500}
  {
    if req.verb == "OPTIONS" then
      Outcome(Response(200, NoBody), [])
    else if req.verb != "POST" then
      Outcome(Response(405, ErrorBody(MethodNotAllowedMessage, None)), [])
    else
      match req.body
      case ReadFailed(e) => Outcome(SaveFailed(MessageOf(e)), [])
      case Read(p) =>
        match Decide(p, env, fmt)
        case Answer(r) => Outcome(r, [])
        case Append(call) => Outcome(AfterAppend(append(call)), [call])
  }

  /** A preflight request is answered with 200 and no body, and nothing is
      appended. */
  lemma Preflight(body: BodyRead, env: Env, fmt: JsValue -> string, append: AppendRequest -> AppendOutcome)
    ensures Handle(Request("OPTIONS", body), env, fmt, append) == Outcome(Response(200, NoBody), [])
  {
  }

  /** Any method other than OPTIONS and POST gets 405 and nothing is appended. */
  lemma OtherMethodsRejected(req: Request, env: Env, fmt: JsValue -> string, append: AppendRequest -> AppendOutcome)
    requires req.verb != "OPTIONS" && req.verb != "POST"
    ensures Handle(req, env, fmt, append) == Outcome(Response(405, ErrorBody("Method not allowed", None)), [])
  {
  }

  /** A missing required field gets 400 whatever the configuration is: the
      field check comes first, and nothing is appended. */
  lemma MissingFieldRejected(p: Payload, env: Env, fmt: JsValue -> string, append: AppendRequest -> AppendOutcome)
    requires !Truthy(p.nama) || !Truthy(p.email) || !Truthy(p.pesan)
    ensures Handle(Request("POST", Read(p)), env, fmt, append)
         == Outcome(Response(400, ErrorBody("Nama, email, dan pesan harus diisi", None)), [])
  {
  }

  /** With the required fields present and a configuration value missing, the
      answer is the configuration error and nothing is appended. */
  lemma MissingConfigurationReported(p: Payload, env: Env, fmt: JsValue -> string, append: AppendRequest -> AppendOutcome)
    requires HasRequiredFields(p)
    requires !Present(env.sheetId) || !Present(env.serviceAccountEmail) || !Present(env.privateKey)
    ensures Handle(Request("POST", Read(p)), env, fmt, append)
         == Outcome(Response(500, ErrorBody(ServerConfigurationError, Some(ConfigurationDetails))), [])
  {
    ConfiguredIffAllSet(env);
  }

  /** Otherwise exactly one append is issued, with the row built from the
      body, and its outcome decides the response: the reported range on
      success, the thrown message on failure. */
  lemma AppendDecidesResponse(p: Payload, env: Env, fmt: JsValue -> string, append: AppendRequest -> AppendOutcome)
    requires HasRequiredFields(p) && IsConfigured(env)
    ensures var o := Handle(Request("POST", Read(p)), env, fmt, append);
      && o.calls == [AppendRequestFor(p, env, fmt)]
      && o.calls[0].values == [[p.nama, p.email, if Truthy(p.telepon) then p.telepon else Str(""), p.pesan, Str(fmt(p.timestamp))]]
      && (append(o.calls[0]).Appended? && append(o.calls[0]).updates.Some? ==>
            o.response == Response(200, SuccessBody(SavedMessage, append(o.calls[0]).updates.value.updatedRange)))
      && (append(o.calls[0]).Threw? ==>
            o.response == Response(500, ErrorBody("Gagal menyimpan data ke Google Sheets", MessageOf(append(o.calls[0]).thrown))))
  {
    AppendedRow(p, env, fmt);
  }

  /** A body that cannot be read throws inside the `try` block: it is caught
      and answered with the save failure and the thrown value's `message`,
      and nothing is appended. */
  lemma UnreadableBodyReported(e: Thrown, env: Env, fmt: JsValue -> string, append: AppendRequest -> AppendOutcome)
    ensures Handle(Request("POST", ReadFailed(e)), env, fmt, append)
         == Outcome(Response(500, ErrorBody("Gagal menyimpan data ke Google Sheets", MessageOf(e))), [])
  {
  }

  /** A reply without `updates` makes the handler itself throw while building
      the success body, so the caller sees the save failure although the row
      was appended. */
  lemma MissingUpdatesIsReportedAsFailure(p: Payload, env: Env, fmt: JsValue -> string, append: AppendRequest -> AppendOutcome)
    requires HasRequiredFields(p) && IsConfigured(env)
    requires append(AppendRequestFor(p, env, fmt)) == Appended(None)
    ensures Handle(Request("POST", Read(p)), env, fmt, append)
         == Outcome(SaveFailed(Some(MissingUpdatesError)), [AppendRequestFor(p, env, fmt)])
  {
  }

  /** The part of Node's response object the handler uses. */
  class ServerResponse {
    var headers: map<string, string>
    var statusCode: nat
    var body: Body
    var finished: bool

    constructor ()
      ensures headers == map[] && statusCode == 200 && body == NoBody && !finished
    {
      headers := map[];
      statusCode := 200;
      body := NoBody;
      finished := false;
    }

    /** What the client receives once the response is finished. */
    function Sent(): Response
      reads this
    {
      Response(statusCode, body)
    }

    /** `res.setHeader(name, value)`. */
    method SetHeader(name: string, value: string)
      modifies this`headers
      ensures headers == old(headers)[name := value]
    {
      headers := headers[name := value];
    }

    /** `res.status(code)`. */
    method Status(code: nat)
      modifies this`statusCode
      ensures statusCode == code
    {
      statusCode := code;
    }

    /** `res.json(b)`: sends `b` and finishes the response. */
    method Json(b: Body)
      modifies this`body, this`finished
      ensures body == b && finished
    {
      body := b;
      finished := true;
    }

    /** `res.end()`: finishes the response without a body. */
    method End()
      modifies this`body, this`finished
      ensures body == NoBody && finished
    {
      body := NoBody;
      finished := true;
    }
  }

  /** `handler(req, res)`: returns the append calls it issued. For every
      request and append outcome the model represents, the response is
      finished, carries the CORS headers, and is the one `Handle` describes. */
  method Handler(req: Request, env: Env, fmt: JsValue -> string, append: AppendRequest -> AppendOutcome, res: ServerResponse)
    returns (calls: seq<AppendRequest>)
    modifies res
    ensures res.finished
    ensures res.headers == old(res.headers) + CorsHeaders
    ensures res.Sent() == Handle(req, env, fmt, append).response
    ensures calls == Handle(req, env, fmt, append).calls
  {
    res.SetHeader("Access-Control-Allow-Origin", "*");
    res.SetHeader("Access-Control-Allow-Methods", "GET, POST, OPTIONS");
    res.SetHeader("Access-Control-Allow-Headers", "Content-Type");
    assert res.headers == old(res.headers) + CorsHeaders;
    calls := [];

    if req.verb == "OPTIONS" {
      res.Status(200);
      res.End();
      return;
    }

    if req.verb != "POST" {
      res.Status(405);
      res.Json(ErrorBody(MethodNotAllowedMessage, None));
      return;
    }

    // the body is destructured inside the same try block as the append
    if req.body.ReadFailed? {
      res.Status(500);
      res.Json(ErrorBody(SaveFailedMessage, MessageOf(req.body.thrown)));
      return;
    }
    var p := req.body.payload;

    if !Truthy(p.nama) || !Truthy(p.email) || !Truthy(p.pesan) {
      res.Status(400);
      res.Json(ErrorBody(RequiredFieldsMessage, None));
      return;
    }

    if !Present(env.sheetId) || !Present(env.serviceAccountEmail) || !Present(PrivateKey(env)) {
      res.Status(500);
      res.Json(ErrorBody(ServerConfigurationError, Some(ConfigurationDetails)));
      return;
    }

    var call := AppendRequestFor(p, env, fmt);
    calls := [call];
    var outcome := append(call);
    match outcome
    case Threw(e) =>
      res.Status(500);
      res.Json(ErrorBody(SaveFailedMessage, MessageOf(e)));
    case Appended(None) =>
      res.Status(500);
      res.Json(ErrorBody(SaveFailedMessage, Some(MissingUpdatesError)));
    case Appended(Some(u)) =>
      res.Status(200);
      res.Json(SuccessBody(SavedMessage, u.updatedRange));
  }
}
