/** The events a ReactiveCocoa signal delivers to its observer, and the
    grammar a well-behaved event stream obeys. */
module Signal {
  import opened Foundation

  /** `Event<JSON, NSError>`: `Next`, `Completed`, `Failed` and `Interrupted`. */
  datatype Event<J> = Next(value: J) | Completed | Failed(error: Error) | Interrupted

  /** Completed, failed and interrupted end a stream; a value does not. */
  predicate IsTerminal<J>(e: Event<J>) {
    !e.Next?
  }

  /** The stream has ended: its last event is terminal. */
  predicate Terminated<J>(evs: seq<Event<J>>) {
    |evs| > 0 && IsTerminal(evs[|evs| - 1])
  }

  /** ReactiveCocoa's contract: values, then at most one terminal event, at the end. */
  predicate Lawful<J>(evs: seq<Event<J>>) {
    forall k :: 0 <= k < |evs| - 1 ==> evs[k].Next?
  }

  /** The adapter's own promise: a value is always immediately followed by completion. */
  predicate SingleShot<J>(evs: seq<Event<J>>) {
    forall k :: 0 <= k < |evs| && evs[k].Next? ==> k + 1 < |evs| && evs[k + 1].Completed?
  }

  /** The stream fails, and it fails with `e`. */
  ghost predicate FailsWith<J>(evs: seq<Event<J>>, e: Error) {
    Failed(e) in evs
  }

  /** How many terminal events the stream holds. */
  function TerminalCount<J>(evs: seq<Event<J>>): nat {
    if evs == [] then 0 else (if IsTerminal(evs[0]) then 1 else 0) + TerminalCount(evs[1..])
  }

  /** A lawful stream holds exactly one terminal event once it has ended, and
      none before. */
  lemma {:induction false} LawfulTerminalCount<J>(evs: seq<Event<J>>)
    requires Lawful(evs)
    ensures TerminalCount(evs) == if Terminated(evs) then 1 else 0
  {
    if evs != [] {
      assert Lawful(evs[1..]);
      LawfulTerminalCount(evs[1..]);
      if |evs| > 1 {
        assert evs[0].Next?;
        assert evs[1..][|evs[1..]| - 1] == evs[|evs| - 1];
      }
    }
  }
}
