/** The framework page `src/app/page.tsx`: its state is `isLoading` and
    `message` (no banner, or a banner of type success or error), driven by
    `handleSubmit` through the two state setters. The setters' calls are kept,
    in order, as the component's queue of state updates. */
module ReactPage {
  import opened Js
  import opened Submission
  import opened FormClient

  /** A call of `setIsLoading` or `setMessage`. */
  datatype StateUpdate = LoadingSet(loading: bool) | MessageSet(message: Option<Banner>)

  /** The banner `handleSubmit` ends with. `response.json()` is awaited before
      `ok` is looked at, so a body that is not JSON fails the submit even for
      an ok response. */
  function PageBanner(o: FetchOutcome): Banner {
    match o
    case NetworkFailure(m) => Banner(m, Failure)
    case Received(ok, _, json) =>
      match json
      case Malformed(m) => Banner(m, Failure)
      case Parsed(r) =>
        if ok && r.success then Banner(SentText, Success)
        else Banner(OrElse(r.error, SendFailedFallback), Failure)
  }

  /** The outcome is a success exactly when `response.ok && result.success`. */
  lemma PageSuccessIff(o: FetchOutcome)
    ensures PageBanner(o).kind == Success <==>
      o.Received? && o.ok && o.json.Parsed? && o.json.reply.success
    ensures PageBanner(o).kind == Success ==> PageBanner(o).text == SentText
  {
  }

  /** A rejected `fetch` and a body `json()` cannot parse both show their
      own message as an error. */
  lemma ThrownMessageShown(m: string, ok: bool, status: nat)
    ensures PageBanner(NetworkFailure(m)) == Banner(m, Failure)
    ensures PageBanner(Received(ok, status, Malformed(m))) == Banner(m, Failure)
  {
  }

  /** A parsed reply that is not a success shows its `error` when that is a
      non-empty string and the generic text otherwise. */
  lemma PageFailureText(ok: bool, status: nat, r: Reply)
    requires !(ok && r.success)
    ensures PageBanner(Received(ok, status, Parsed(r))) ==
      Banner(if r.error.Some? && r.error.value != "" then r.error.value else "Terjadi kesalahan saat mengirim data", Failure)
  {
  }

  /** The `Home` component's state and its form. */
  class Home {
    var isLoading: bool
    var message: Option<Banner>
    var form: FormEntries
    var updates: seq<StateUpdate>

    constructor (form: FormEntries)
      ensures !isLoading && message == None && this.form == form && updates == []
    {
      isLoading := false;
      message := None;
      this.form := form;
      updates := [];
    }

    method SetIsLoading(v: bool)
      modifies this`isLoading, this`updates
      ensures isLoading == v && updates == old(updates) + [LoadingSet(v)]
    {
      isLoading := v;
      updates := updates + [LoadingSet(v)];
    }

    method SetMessage(m: Option<Banner>)
      modifies this`message, this`updates
      ensures message == m && updates == old(updates) + [MessageSet(m)]
    {
      message := m;
      updates := updates + [MessageSet(m)];
    }

    /** `handleSubmit` up to `await fetch(...)`: loading is switched on, then
      the banner cleared, then the payload built. */
    method BeginSubmit(now: string) returns (payload: Payload)
      modifies this
      ensures isLoading && message == None
      ensures updates == old(updates) + [LoadingSet(true), MessageSet(None)]
      ensures form == old(form)
      ensures payload == FormPayload(form, now)
    {
      SetIsLoading(true);
      SetMessage(None);
      payload := FormPayload(form, now);
    }

    /** `handleSubmit` from the settled `fetch` on: the `try`, `catch` and
      `finally` blocks. Loading is off afterwards whatever happened, a banner
      is always shown, and the form is reset only on success. */
    method FinishSubmit(o: FetchOutcome)
      modifies this
      ensures !isLoading
      ensures message == Some(PageBanner(o))
      ensures updates == old(updates) + [MessageSet(Some(PageBanner(o))), LoadingSet(false)]
      ensures form == if PageBanner(o).kind == Success then Reset(old(form)) else old(form)
    {
      var thrown: Option<string>;
      match o {
        case NetworkFailure(m) =>
          thrown := Some(m);
        case Received(ok, _, json) =>
          match json {
            case Malformed(m) =>
              thrown := Some(m);
            case Parsed(r) =>
              if ok && r.success {
                SetMessage(Some(Banner(SentText, Success)));
                form := Reset(form);
                thrown := None;
              } else {
                thrown := Some(OrElse(r.error, SendFailedFallback));
              }
          }
      }
      if thrown.Some? {
        SetMessage(Some(Banner(thrown.value, Failure)));
      }
      // finally
      SetIsLoading(false);
    }

    /** One submit, with `send` standing for the request and its settled
      outcome. Returns the payload sent. */
    method HandleSubmit(now: string, send: Payload -> FetchOutcome) returns (payload: Payload)
      modifies this
      ensures payload == FormPayload(old(form), now)
      ensures !isLoading && message == Some(PageBanner(send(payload)))
      ensures updates == old(updates) + [LoadingSet(true), MessageSet(None), MessageSet(message), LoadingSet(false)]
      ensures form == if PageBanner(send(payload)).kind == Success then Reset(old(form)) else old(form)
    {
      payload := BeginSubmit(now);
      FinishSubmit(send(payload));
    }
  }
}
