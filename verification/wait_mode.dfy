/** How `open` settles when asked to wait: the process has exited, the first chunk
    read from its stderr and its exit code are known, and the promise handed to the
    caller is settled from them. */
module WaitMode {
  import opened Wrappers

  /** Why the wait fails: the process wrote to stderr (the bytes, before decoding),
      or it exited with a positive code. */
  datatype Failure = StderrOutput(bytes: seq<bv8>) | ExitCode(code: int)

  datatype Settlement = Pending | Resolved | Rejected(reason: Failure)

  /** The outcome of waiting, given the first stderr chunk (`None` when the stream
      ended without data) and the exit code (`None` when there is none): stderr
      output fails the call even when the code is positive too, a positive code
      fails it otherwise, and anything else succeeds. */
  function WaitOutcome(stderr: Option<seq<bv8>>, code: Option<int>): (p: Settlement)
    ensures p != Pending
    ensures p.Rejected? && p.reason.StderrOutput? <==> stderr.Some? && stderr.value != []
    ensures p.Rejected? && p.reason.StderrOutput? ==> p.reason.bytes == stderr.value
    ensures p.Rejected? && p.reason.ExitCode? <==> (stderr.None? || stderr.value == []) && code.Some? && code.value > 0
    ensures p.Rejected? && p.reason.ExitCode? ==> p.reason.code == code.value
    ensures p.Resolved? <==> (stderr.None? || stderr.value == []) && (code.None? || code.value <= 0)
  {
    if stderr.Some? && stderr.value != [] then Rejected(StderrOutput(stderr.value))
    else if code.Some? && code.value > 0 then Rejected(ExitCode(code.value))
    else Resolved
  }

  /** A promise seen from its executor: the first call to `resolve` or `reject`
      settles it, and every later call is ignored. */
  class Deferred {
    var state: Settlement

    constructor ()
      ensures state == Pending
    {
      state := Pending;
    }

    method Resolve()
      modifies this
      ensures state == if old(state).Pending? then Resolved else old(state)
    {
      if state.Pending? {
        state := Resolved;
      }
    }

    method Reject(reason: Failure)
      modifies this
      ensures state == if old(state).Pending? then Rejected(reason) else old(state)
    {
      if state.Pending? {
        state := Rejected(reason);
      }
    }
  }

  /** The executor of the waiting promise, statement by statement: a stderr chunk
      rejects without returning, so a positive exit code then calls `reject` again
      and `resolve` may follow; only the first of these calls counts. */
  method RunWaitExecutor(stderr: Option<seq<bv8>>, code: Option<int>) returns (outcome: Settlement)
    ensures outcome == WaitOutcome(stderr, code)
  {
    var promise := new Deferred();
    if stderr.Some? {
      if |stderr.value| != 0 {
        promise.Reject(StderrOutput(stderr.value));
      }
    }
    if code.Some? && code.value != 0 && code.value > 0 {
      promise.Reject(ExitCode(code.value));
      return promise.state;
    }
    promise.Resolve();
    outcome := promise.state;
  }
}
