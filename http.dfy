/**
 * The request and response vocabulary shared by the webhook handlers: a
 * parsed form body, the response written so far, the effect one handler of
 * a route's chain has, and how the chain runs. Handlers run in order; a
 * handler that returns without aborting hands the request to the next one,
 * even when it has already written a response. Once a response has been
 * written its status is fixed: later writes append to the body and a later
 * abort status is ignored.
 */
module Http {
  /** A parsed form body: every key with all the values sent for it, in order. */
  type Form = map<string, seq<string>>

  const StatusOK := 200
  const StatusBadRequest := 400
  const StatusForbidden := 403
  const StatusInternalServerError := 500

  /** The first value sent for `key`, or "" when the key is missing or has no value. */
  function FormGet(form: Form, key: string): string
  {
    if key in form && |form[key]| > 0 then form[key][0] else ""
  }

  /** The two TwiML voice documents the service renders. */
  datatype Document =
    | SayThenRecord(prompt: string, recordingCallback: string)
    | Reject

  /** One piece of response body: a rendered TwiML document or plain text. */
  datatype Part = Xml(doc: Document) | Plain(text: string)

  /** The response as sent so far: whether the status line went out, the
      status, and the body pieces in the order they were written. */
  datatype Writer = Writer(written: bool, code: int, body: seq<Part>)

  /** Nothing written yet; an untouched response goes out as 200. */
  const Fresh := Writer(false, StatusOK, [])

  /** What one handler did to the request. */
  datatype Decision =
    | Next                                    // wrote nothing, did not abort
    | AbortWith(code: int)                    // aborted with a status and no body
    | Wrote(code: int, part: Part)            // wrote a response, did not abort
    | WroteAndAborted(code: int, part: Part)  // wrote a response, then aborted

  predicate Aborts(d: Decision)
  {
    d.AbortWith? || d.WroteAndAborted?
  }

  /** The response after one handler's effect. */
  function Apply(w: Writer, d: Decision): (w': Writer)
    ensures w.written ==> w'.written && w'.code == w.code
    ensures !w.written && (d.AbortWith? || d.Wrote? || d.WroteAndAborted?) ==> w'.written && w'.code == d.code
    ensures w'.body == w.body + (if d.Wrote? || d.WroteAndAborted? then [d.part] else [])
  {
    match d
    case Next => w
    case AbortWith(code) => if w.written then w else Writer(true, code, w.body)
    case Wrote(code, part) => Writer(true, if w.written then w.code else code, w.body + [part])
    case WroteAndAborted(code, part) => Writer(true, if w.written then w.code else code, w.body + [part])
  }

  /** A route's chain: the handlers' effects in order, up to the first that aborts. */
  function RunChain(w: Writer, steps: seq<Decision>): Writer
    decreases |steps|
  {
    if steps == [] then w
    else if Aborts(steps[0]) then Apply(w, steps[0])
    else RunChain(Apply(w, steps[0]), steps[1..])
  }

  /** A chain of two middlewares and a handler, step by step. */
  lemma RunChainOfThree(w: Writer, first: Decision, second: Decision, handler: Decision)
    ensures RunChain(w, [first, second, handler]) ==
      if Aborts(first) then Apply(w, first)
      else if Aborts(second) then Apply(Apply(w, first), second)
      else Apply(Apply(Apply(w, first), second), handler)
  {
    var w1 := Apply(w, first);
    var w2 := Apply(w1, second);
    assert [handler][1..] == [];
    assert RunChain(w2, [handler]) == Apply(w2, handler) by {
      if !Aborts(handler) {
        assert RunChain(w2, [handler]) == RunChain(Apply(w2, handler), []);
      }
    }
    assert [second, handler][1..] == [handler];
    assert RunChain(w1, [second, handler]) == if Aborts(second) then w2 else RunChain(w2, [handler]);
    assert [first, second, handler][1..] == [second, handler];
  }

  /** Handlers after the first one that aborts have no effect on the response. */
  lemma {:induction false} ChainIgnoresStepsAfterAbort(w: Writer, steps: seq<Decision>, k: nat)
    requires k < |steps| && Aborts(steps[k])
    requires forall j :: 0 <= j < k ==> !Aborts(steps[j])
    ensures RunChain(w, steps) == RunChain(w, steps[..k + 1])
    decreases k
  {
    if k > 0 {
      assert steps[1..][..k] == steps[..k + 1][1..];
      ChainIgnoresStepsAfterAbort(Apply(w, steps[0]), steps[1..], k - 1);
    }
  }

  /** Once written, the status stays what it was, and the body only grows. */
  lemma {:induction false} WrittenStatusIsFinal(w: Writer, steps: seq<Decision>)
    requires w.written
    ensures RunChain(w, steps).written && RunChain(w, steps).code == w.code
    ensures w.body <= RunChain(w, steps).body
    decreases |steps|
  {
    if steps != [] && !Aborts(steps[0]) {
      WrittenStatusIsFinal(Apply(w, steps[0]), steps[1..]);
    }
  }
}
