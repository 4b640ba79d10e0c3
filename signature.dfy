/**
 * The request-signature middleware. The posted form is flattened to one
 * value per key (a key with zero or several values is refused with 400
 * before the signature is looked at), and the provider's validator decides
 * over "https://" + hostname + path, the flattened parameters and the
 * signature header whether the request goes on (otherwise 403). The
 * validator's HMAC computation is not part of this model: it is a parameter.
 */
module Signature {
  import opened Http

  /** Request validator: (url, params, signature) -> accepted. */
  type Validator = (string, map<string, string>, string) -> bool

  /** Every key of the form carries exactly one value. */
  predicate SingleValued(form: Form)
  {
    forall key :: key in form ==> |form[key]| == 1
  }

  /** The form with each key mapped to its sole value. */
  function Flatten(form: Form): (params: map<string, string>)
    requires SingleValued(form)
    ensures params.Keys == form.Keys
    ensures forall key :: key in params ==> form[key] == [params[key]]
  {
    map key | key in form :: form[key][0]
  }

  /** The single-valued form a parameter map stands for. */
  function Expand(params: map<string, string>): (form: Form)
    ensures SingleValued(form)
  {
    map key | key in params :: [params[key]]
  }

  /** Flattening loses nothing: it is undone by Expand, and undoes it. */
  lemma FlattenRoundTrip(form: Form, params: map<string, string>)
    ensures SingleValued(form) ==> Expand(Flatten(form)) == form
    ensures Flatten(Expand(params)) == params
  {
  }

  /** The URL the signature is computed over. */
  function SignedUrl(hostname: string, path: string): string
  {
    "https://" + hostname + path
  }

  /**
   * The middleware. `consulted` tells whether the validator was invoked.
   * Keys are visited in an arbitrary order, as a map range loop does; the
   * outcome does not depend on that order.
   */
  method CheckTwilioSignature(validate: Validator, hostname: string, path: string, form: Form, signature: string)
    returns (d: Decision, consulted: bool)
    ensures !SingleValued(form) ==> d == AbortWith(StatusBadRequest) && !consulted
    ensures SingleValued(form) ==>
      && consulted
      && (d == Next <==> validate(SignedUrl(hostname, path), Flatten(form), signature))
      && (d != Next ==> d == AbortWith(StatusForbidden))
    ensures d == SignatureDecision(validate, hostname, path, form, signature)
  {
    var url := SignedUrl(hostname, path);
    var params: map<string, string> := map[];
    var pending := form.Keys;
    while pending != {}
      invariant pending <= form.Keys
      invariant params.Keys == form.Keys - pending
      invariant forall key :: key in params ==> form[key] == [params[key]]
      decreases pending
    {
      var key :| key in pending;
      if |form[key]| != 1 {
        return AbortWith(StatusBadRequest), false;
      }
      params := params[key := form[key][0]];
      pending := pending - {key};
    }
    assert params == Flatten(form);
    consulted := true;
    if !validate(url, params, signature) {
      d := AbortWith(StatusForbidden);
    } else {
      d := Next;
    }
  }

  /** When some key is not single-valued, the outcome is the same whatever the validator says. */
  lemma MalformedFormIgnoresValidator(v1: Validator, v2: Validator, hostname: string, path: string, form: Form, signature: string)
    requires !SingleValued(form)
    ensures SignatureDecision(v1, hostname, path, form, signature) == SignatureDecision(v2, hostname, path, form, signature)
              == AbortWith(StatusBadRequest)
  {
  }

  /** The decision CheckTwilioSignature takes, as a value. */
  function SignatureDecision(validate: Validator, hostname: string, path: string, form: Form, signature: string): Decision
  {
    if !SingleValued(form) then AbortWith(StatusBadRequest)
    else if validate(SignedUrl(hostname, path), Flatten(form), signature) then Next
    else AbortWith(StatusForbidden)
  }
}
