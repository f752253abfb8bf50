/**
 * The outside world the weather clients talk to.  HTTP GETs are answered
 * from a fixed script of replies, in call order (a call past the end of
 * the script fails); `time.sleep` only records the pause it was asked for.
 */
module Net {
  import opened JsonValues

  /** One HTTP exchange: a decoded JSON body, or a transport/HTTP failure. */
  datatype Reply = Success(body: Json) | Failure(reason: string)

  /** A requested sleep: retry backoff, or the pacing delay before verification. */
  datatype Pause = Backoff(seconds: real) | Pacing(seconds: real)

  /** Reply number i of the script. */
  function At(script: seq<Reply>, i: nat): Reply {
    if i < |script| then script[i] else Failure("no response")
  }

  /** Reply number i of the script is a failure. */
  predicate FailsAt(script: seq<Reply>, i: nat) {
    At(script, i).Failure?
  }

  /** How many pacing sleeps a pause log holds. */
  ghost function PacingCount(ps: seq<Pause>): nat {
    if ps == [] then 0 else PacingCount(ps[..|ps| - 1]) + (if ps[|ps| - 1].Pacing? then 1 else 0)
  }

  lemma {:induction false} PacingCountAppend(a: seq<Pause>, b: seq<Pause>)
    ensures PacingCount(a + b) == PacingCount(a) + PacingCount(b)
  {
    if b != [] {
      assert (a + b)[..|a + b| - 1] == a + b[..|b| - 1];
      PacingCountAppend(a, b[..|b| - 1]);
    } else {
      assert a + b == a;
    }
  }

  class Network {
    const script: seq<Reply>
    var calls: nat
    ghost var pauses: seq<Pause>

    constructor(script: seq<Reply>)
      ensures this.script == script && calls == 0 && pauses == []
    {
      this.script := script;
      calls := 0;
      pauses := [];
    }

    /** `session.get(...)`: the next scripted reply. */
    method Fetch() returns (r: Reply)
      modifies this
      ensures r == At(script, old(calls))
      ensures calls == old(calls) + 1 && pauses == old(pauses)
    {
      r := At(script, calls);
      calls := calls + 1;
    }

    /** `time.sleep(...)`. */
    method Sleep(p: Pause)
      modifies this
      ensures pauses == old(pauses) + [p] && calls == old(calls)
    {
      pauses := pauses + [p];
    }
  }
}
