/**
 * The caller allow-list middleware. The configured list is turned once into
 * a map from caller to true. A request whose "From" value maps to true
 * passes untouched; any other request is answered 200 with a TwiML reject
 * document, without aborting the chain. A missing "From" reads as "".
 */
module CallerAllowList {
  import opened Http

  /** A lookup in a map[string]bool: a missing key reads as false. */
  predicate Allows(allowed: map<string, bool>, caller: string)
  {
    caller in allowed && allowed[caller]
  }

  /** `allowed` admits exactly the callers listed in `whitelist`. */
  ghost predicate IsAllowListFor(allowed: map<string, bool>, whitelist: seq<string>)
  {
    forall caller :: Allows(allowed, caller) <==> caller in whitelist
  }

  /** Builds the allow-list map from the configured list, one entry at a time. */
  method BuildAllowList(whitelist: seq<string>) returns (allowed: map<string, bool>)
    ensures IsAllowListFor(allowed, whitelist)
    ensures allowed.Keys == set caller | caller in whitelist
  {
    allowed := map[];
    for i := 0 to |whitelist|
      invariant allowed.Keys == set caller | caller in whitelist[..i]
      invariant forall caller :: caller in allowed ==> allowed[caller]
    {
      allowed := allowed[whitelist[i] := true];
    }
    assert whitelist[..|whitelist|] == whitelist;
  }

  /**
   * The middleware's effect on one request. An unlisted caller is answered
   * 200 with the reject document, but the middleware does not abort, so the
   * route's handler still runs. When the reject document cannot be rendered
   * the request is aborted with 500.
   */
  function CheckCallerWhitelist(allowed: map<string, bool>, form: Form, rendered: bool): (d: Decision)
    ensures d == Next <==> Allows(allowed, FormGet(form, "From"))
    ensures !Allows(allowed, FormGet(form, "From")) ==>
      d == (if rendered then Wrote(StatusOK, Xml(Reject)) else AbortWith(StatusInternalServerError))
    ensures !Aborts(d) <==> Allows(allowed, FormGet(form, "From")) || rendered
  {
    if !Allows(allowed, FormGet(form, "From")) then
      if rendered then Wrote(StatusOK, Xml(Reject)) else AbortWith(StatusInternalServerError)
    else Next
  }

  /** A listed caller passes untouched. An unlisted one gets the reject document
      (or an abort with 500 when it cannot be rendered), and the request still
      goes on to the route's handler unless it was aborted. */
  lemma CallerPassesIffListed(allowed: map<string, bool>, whitelist: seq<string>, form: Form, rendered: bool)
    requires IsAllowListFor(allowed, whitelist)
    ensures CheckCallerWhitelist(allowed, form, rendered) == Next <==> FormGet(form, "From") in whitelist
    ensures FormGet(form, "From") !in whitelist ==>
      CheckCallerWhitelist(allowed, form, rendered)
        == (if rendered then Wrote(StatusOK, Xml(Reject)) else AbortWith(StatusInternalServerError))
    ensures !Aborts(CheckCallerWhitelist(allowed, form, rendered)) <==> FormGet(form, "From") in whitelist || rendered
  {
  }

  /** A request without a caller passes only when "" is on the list. */
  lemma MissingCallerIsEmpty(allowed: map<string, bool>, whitelist: seq<string>, form: Form, rendered: bool)
    requires IsAllowListFor(allowed, whitelist)
    requires "From" !in form || form["From"] == []
    ensures CheckCallerWhitelist(allowed, form, rendered) == Next <==> "" in whitelist
  {
  }

  /** The allow-list with the rejection ending the chain: an unlisted caller
      gets the reject document and no later handler runs. */
  function CheckCallerWhitelistAborting(allowed: map<string, bool>, form: Form, rendered: bool): (d: Decision)
    ensures d == Next <==> Allows(allowed, FormGet(form, "From"))
    ensures !Aborts(d) <==> Allows(allowed, FormGet(form, "From"))
    ensures d.WroteAndAborted? ==> d == WroteAndAborted(StatusOK, Xml(Reject))
  {
    if !Allows(allowed, FormGet(form, "From")) then
      if rendered then WroteAndAborted(StatusOK, Xml(Reject)) else AbortWith(StatusInternalServerError)
    else Next
  }
}
