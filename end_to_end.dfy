/** Client and server together: the banner a visitor ends up seeing for a
    form they submit. The static page (`script.js`) posts to the serverless
    handler (`api/submit-form.js`); the framework page (`page.tsx`) posts to
    the framework route (`route.ts`). */
module EndToEnd {
  import opened Js
  import opened ServerConfig
  import opened Submission
  import opened FormClient
  import ServerlessHandler
  import RouteHandler
  import ContactScript
  import ReactPage

  /** The configuration error carries the marker the script looks for. */
  lemma ConfigurationErrorHasMarker()
    ensures Contains(ServerConfigurationError, ContactScript.ConfigMarker)
  {
    assert ContactScript.ConfigMarker <= ServerConfigurationError;
  }

  /** The required-fields text lacks the configuration marker: it has no `S`. */
  lemma RequiredFieldsMessageNotConfig()
    ensures !Contains(RequiredFieldsMessage, ContactScript.ConfigMarker)
  {
    MissingCharNotContained(RequiredFieldsMessage, ContactScript.ConfigMarker, 0);
  }

  /** The required-fields text lacks the connection marker: it has no `F`. */
  lemma RequiredFieldsMessageNotFetch()
    ensures !Contains(RequiredFieldsMessage, ContactScript.FetchMarker)
  {
    MissingCharNotContained(RequiredFieldsMessage, ContactScript.FetchMarker, 0);
  }

  /** The save-failure text lacks the configuration marker: it has no `v`. */
  lemma SaveFailedMessageNotConfig()
    ensures !Contains(SaveFailedMessage, ContactScript.ConfigMarker)
  {
    MissingCharNotContained(SaveFailedMessage, ContactScript.ConfigMarker, 3);
  }

  /** The save-failure text lacks the connection marker: it has no `F`. */
  lemma SaveFailedMessageNotFetch()
    ensures !Contains(SaveFailedMessage, ContactScript.FetchMarker)
  {
    MissingCharNotContained(SaveFailedMessage, ContactScript.FetchMarker, 0);
  }

  /** The script's banner for an error response carrying `message`. */
  lemma ScriptBannerForError(status: nat, message: string, details: Option<string>, emptyBodyError: string)
    requires !(200 <= status < 300) && message != ""
    ensures ContactScript.ScriptBanner(Deliver(Response(status, ErrorBody(message, details)), emptyBodyError))
         == Banner(ContactScript.CatchText(message), Failure)
  {
    assert Deliver(Response(status, ErrorBody(message, details)), emptyBodyError)
        == Received(false, status, Parsed(Reply(false, Some(message))));
  }

  /** What the static page shows after posting its form to the serverless
      handler: the required-fields text, the configuration hint, the success
      text, or the save failure, decided in that order. */
  lemma ScriptShowsServerVerdict(form: FormEntries, now: string, env: Env, fmt: JsValue -> string,
                                 append: AppendRequest -> AppendOutcome, emptyBodyError: string)
    ensures
      var p := FormPayload(form, now);
      var o := ServerlessHandler.Handle(ServerlessHandler.Request("POST", Read(p)), env, fmt, append);
      var banner := ContactScript.ScriptBanner(Deliver(o.response, emptyBodyError));
      && (!(Filled(form, "nama") && Filled(form, "email") && Filled(form, "pesan")) ==>
            banner == Banner("Nama, email, dan pesan harus diisi", Failure) && o.calls == [])
      && (Filled(form, "nama") && Filled(form, "email") && Filled(form, "pesan") && !IsConfigured(env) ==>
            banner == Banner(ContactScript.ConfigHint, Failure) && o.calls == [])
      && (Filled(form, "nama") && Filled(form, "email") && Filled(form, "pesan") && IsConfigured(env) ==>
            |o.calls| == 1 &&
            banner == (if append(o.calls[0]).Appended? && append(o.calls[0]).updates.Some?
                       then Banner(SentText, Success)
                       else Banner("Gagal menyimpan data ke Google Sheets", Failure)))
  {
    var p := FormPayload(form, now);
    var o := ServerlessHandler.Handle(ServerlessHandler.Request("POST", Read(p)), env, fmt, append);
    PayloadHasRequiredFields(form, now);
    if !HasRequiredFields(p) {
      assert o.response == Response(400, ErrorBody(RequiredFieldsMessage, None));
      ScriptBannerForError(400, RequiredFieldsMessage, None, emptyBodyError);
      RequiredFieldsMessageNotConfig();
      RequiredFieldsMessageNotFetch();
      ContactScript.CatchTextPriority(RequiredFieldsMessage);
    } else if !IsConfigured(env) {
      assert o.response == Response(500, ErrorBody(ServerConfigurationError, Some(ConfigurationDetails)));
      ScriptBannerForError(500, ServerConfigurationError, Some(ConfigurationDetails), emptyBodyError);
      ConfigurationErrorHasMarker();
      ContactScript.CatchTextPriority(ServerConfigurationError);
    } else {
      var outcome := append(AppendRequestFor(p, env, fmt));
      if outcome.Appended? && outcome.updates.Some? {
        assert o.response.body.SuccessBody? && o.response.status == 200;
      } else {
        assert o.response.status == 500 && o.response.body.error == SaveFailedMessage;
        ScriptBannerForError(500, SaveFailedMessage, o.response.body.details, emptyBodyError);
        SaveFailedMessageNotConfig();
        SaveFailedMessageNotFetch();
        ContactScript.CatchTextPriority(SaveFailedMessage);
      }
    }
  }

  /** What the framework page shows after posting its form to the framework
      route: the server's own error text for a missing field or a missing
      configuration, and otherwise success exactly when the append resolves. */
  lemma PageShowsServerVerdict(form: FormEntries, now: string, env: Env, fmt: JsValue -> string,
                               append: AppendRequest -> AppendOutcome, emptyBodyError: string)
    ensures
      var p := FormPayload(form, now);
      var o := RouteHandler.Post(Read(p), env, fmt, append);
      var banner := ReactPage.PageBanner(Deliver(o.response, emptyBodyError));
      && (!(Filled(form, "nama") && Filled(form, "email") && Filled(form, "pesan")) ==>
            banner == Banner("Nama, email, dan pesan harus diisi", Failure) && o.calls == [])
      && (Filled(form, "nama") && Filled(form, "email") && Filled(form, "pesan") && !IsConfigured(env) ==>
            banner == Banner("Server configuration error. Please check environment variables.", Failure) && o.calls == [])
      && (Filled(form, "nama") && Filled(form, "email") && Filled(form, "pesan") && IsConfigured(env) ==>
            |o.calls| == 1 &&
            banner == (if append(o.calls[0]).Appended?
                       then Banner(SentText, Success)
                       else Banner("Gagal menyimpan data ke Google Sheets", Failure)))
  {
    PayloadHasRequiredFields(form, now);
  }

  /** The email format is checked only in the browser: whatever string the
      `email` field holds, one the page's pattern rejects included, both
      handlers append one row carrying it. */
  lemma ServerAcceptsAnyEmail(p: Payload, e: string, env: Env, fmt: JsValue -> string,
                              append: AppendRequest -> AppendOutcome)
    requires HasRequiredFields(p) && IsConfigured(env)
    requires p.email == Str(e) && !ContactScript.IsValidEmail(e)
    ensures var serverless := ServerlessHandler.Handle(ServerlessHandler.Request("POST", Read(p)), env, fmt, append).calls;
      var route := RouteHandler.Post(Read(p), env, fmt, append).calls;
      && |serverless| == 1 && |route| == 1
      && serverless[0].values[0][1] == route[0].values[0][1] == Str(e)
  {
  }
}
