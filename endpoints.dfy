/**
 * The two webhook routes, each a chain of the signature middleware, the
 * caller allow-list middleware and the route's handler, run by the chain
 * rule of Http.RunChain: a handler runs unless an earlier one aborted.
 * Because the allow-list writes its reject document without aborting, the
 * route's handler also runs for an unlisted caller.
 */
module Endpoints {
  import opened Http
  import opened Signature
  import opened CallerAllowList
  import opened Stages
  import opened Pipeline

  const CallPath := "/call"
  const RecordingPath := "/recording"
  const Prompt := "What's on your mind? This call is recorded."

  /** The call-setup document: say the prompt, then record and post the
      completion callback to the recording route. */
  function RecordDirective(cfg: Config): Document
  {
    SayThenRecord(Prompt, "https://" + cfg.externalHostname + RecordingPath)
  }

  /** The /call handler: the record directive, or an abort with 500 when it cannot be rendered. */
  function CallHandler(cfg: Config, rendered: bool): (d: Decision)
    ensures !Aborts(d) <==> rendered
    ensures Aborts(d) ==> d == AbortWith(StatusInternalServerError)
    ensures !Aborts(d) ==>
      && d.Wrote? && d.code == StatusOK && d.part.Xml? && d.part.doc.SayThenRecord?
      && d.part.doc.recordingCallback == SignedUrl(cfg.externalHostname, RecordingPath)
  {
    if rendered then Wrote(StatusOK, Xml(RecordDirective(cfg))) else AbortWith(StatusInternalServerError)
  }

  /** The signature check passes for this route. */
  predicate Verified(cfg: Config, validate: Validator, path: string, form: Form, signature: string)
  {
    SingleValued(form) && validate(SignedUrl(cfg.externalHostname, path), Flatten(form), signature)
  }

  /**
   * POST /call. `rendered` tells whether TwiML documents can be rendered.
   * An unlisted caller whose request is verified gets the reject document
   * followed by the record directive in one 200 response.
   */
  method ServeCall(cfg: Config, validate: Validator, allowed: map<string, bool>,
                   form: Form, signature: string, rendered: bool)
    returns (resp: Writer)
    requires IsAllowListFor(allowed, cfg.callerWhitelist)
    ensures resp == RunChain(Fresh, [SignatureDecision(validate, cfg.externalHostname, CallPath, form, signature),
                                     CheckCallerWhitelist(allowed, form, rendered),
                                     CallHandler(cfg, rendered)])
    ensures !SingleValued(form) ==> resp == Writer(true, StatusBadRequest, [])
    ensures SingleValued(form) && !Verified(cfg, validate, CallPath, form, signature) ==>
      resp == Writer(true, StatusForbidden, [])
    ensures Verified(cfg, validate, CallPath, form, signature) && !rendered ==>
      resp == Writer(true, StatusInternalServerError, [])
    ensures Verified(cfg, validate, CallPath, form, signature) && rendered ==>
      resp == Writer(true, StatusOK,
        (if FormGet(form, "From") in cfg.callerWhitelist then [] else [Xml(Reject)]) + [Xml(RecordDirective(cfg))])
  {
    RunChainOfThree(Fresh, SignatureDecision(validate, cfg.externalHostname, CallPath, form, signature),
                    CheckCallerWhitelist(allowed, form, rendered), CallHandler(cfg, rendered));
    var w := Fresh;
    var d, _ := CheckTwilioSignature(validate, cfg.externalHostname, CallPath, form, signature);
    w := Apply(w, d);
    if Aborts(d) {
      return w;
    }
    d := CheckCallerWhitelist(allowed, form, rendered);
    CallerPassesIffListed(allowed, cfg.callerWhitelist, form, rendered);
    w := Apply(w, d);
    if Aborts(d) {
      return w;
    }
    resp := Apply(w, CallHandler(cfg, rendered));
  }

  /**
   * POST /recording. A request aborted by a middleware runs no pipeline
   * stage; every other request, including one from an unlisted caller whose
   * reject document was written, is handled by HandleRecording.
   */
  method ServeRecording(cfg: Config, env: Env, validate: Validator, allowed: map<string, bool>,
                        form: Form, signature: string, rendered: bool)
    returns (resp: Writer, trace: seq<Stage>)
    requires IsAllowListFor(allowed, cfg.callerWhitelist)
    ensures resp == RunChain(Fresh, [SignatureDecision(validate, cfg.externalHostname, RecordingPath, form, signature),
                                     CheckCallerWhitelist(allowed, form, rendered),
                                     RecordingDecision(cfg, env, form)])
    ensures !SingleValued(form) ==> resp == Writer(true, StatusBadRequest, []) && trace == []
    ensures SingleValued(form) && !Verified(cfg, validate, RecordingPath, form, signature) ==>
      resp == Writer(true, StatusForbidden, []) && trace == []
    ensures Verified(cfg, validate, RecordingPath, form, signature) ==>
      if FormGet(form, "From") in cfg.callerWhitelist || rendered then trace == RecordingTrace(cfg, env, form)
      else trace == [] && resp == Writer(true, StatusInternalServerError, [])
    ensures Verified(cfg, validate, RecordingPath, form, signature) && FormGet(form, "From") in cfg.callerWhitelist ==>
      resp == Apply(Fresh, RecordingDecision(cfg, env, form))
    ensures Verified(cfg, validate, RecordingPath, form, signature) && FormGet(form, "From") !in cfg.callerWhitelist && rendered ==>
      resp == Writer(true, StatusOK,
        [Xml(Reject)] + (if RecordingDecision(cfg, env, form).Wrote? then [Plain("Thanks!")] else []))
  {
    RunChainOfThree(Fresh, SignatureDecision(validate, cfg.externalHostname, RecordingPath, form, signature),
                    CheckCallerWhitelist(allowed, form, rendered), RecordingDecision(cfg, env, form));
    var w := Fresh;
    var d, _ := CheckTwilioSignature(validate, cfg.externalHostname, RecordingPath, form, signature);
    w := Apply(w, d);
    if Aborts(d) {
      return w, [];
    }
    d := CheckCallerWhitelist(allowed, form, rendered);
    CallerPassesIffListed(allowed, cfg.callerWhitelist, form, rendered);
    w := Apply(w, d);
    if Aborts(d) {
      return w, [];
    }
    d, trace := HandleRecording(cfg, env, form);
    resp := Apply(w, d);
  }

  /**
   * As written: a verified /recording request from a caller who is not on
   * the list runs the whole pipeline, publishes the transcript's page when
   * every stage succeeds, and is answered 200 with the reject document
   * followed by "Thanks!".
   */
  lemma UnlistedCallerReachesPipeline(cfg: Config, env: Env, validate: Validator, allowed: map<string, bool>,
                                      form: Form, signature: string)
    requires IsAllowListFor(allowed, cfg.callerWhitelist)
    requires Verified(cfg, validate, RecordingPath, form, signature)
    requires FormGet(form, "From") !in cfg.callerWhitelist
    requires FormGet(form, "RecordingStatus") == "completed"
    requires RunPipeline(cfg, env, FormGet(form, "RecordingUrl")).Completed?
    ensures !Aborts(CheckCallerWhitelist(allowed, form, true))
    ensures RecordingTrace(cfg, env, form) == PipelineOrder
    ensures RunChain(Fresh, [SignatureDecision(validate, cfg.externalHostname, RecordingPath, form, signature),
                             CheckCallerWhitelist(allowed, form, true),
                             RecordingDecision(cfg, env, form)])
      == Writer(true, StatusOK, [Xml(Reject), Plain("Thanks!")])
  {
    CallerPassesIffListed(allowed, cfg.callerWhitelist, form, true);
    RunChainOfThree(Fresh, SignatureDecision(validate, cfg.externalHostname, RecordingPath, form, signature),
                    CheckCallerWhitelist(allowed, form, true), RecordingDecision(cfg, env, form));
  }

  /**
   * With the rejection ending the chain: for either route, an unlisted
   * caller's request never reaches the route's handler (so no pipeline stage
   * runs and no record directive is sent), and the response is the reject
   * document alone, or the earlier middleware's abort.
   */
  lemma AbortingAllowListGuardsHandlers(cfg: Config, validate: Validator, allowed: map<string, bool>,
                                        path: string, form: Form, signature: string, rendered: bool,
                                        handler: Decision)
    requires IsAllowListFor(allowed, cfg.callerWhitelist)
    requires FormGet(form, "From") !in cfg.callerWhitelist
    ensures var sig := SignatureDecision(validate, cfg.externalHostname, path, form, signature);
      var allow := CheckCallerWhitelistAborting(allowed, form, rendered);
      && (Aborts(sig) || Aborts(allow))
      && (Verified(cfg, validate, path, form, signature) ==>
            RunChain(Fresh, [sig, allow, handler])
              == if rendered then Writer(true, StatusOK, [Xml(Reject)]) else Writer(true, StatusInternalServerError, []))
  {
  }
}
