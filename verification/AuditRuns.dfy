/** The chained audit log of a run. */
module AuditRuns {
  import opened Domain
  import opened AuditChain
  import opened History
  import opened Steps

  /** What is hashed for the event at a position: its identifiers, random event ID and JSON. */
  function Contents(enc: (nat, Event) -> Content, log: seq<Event>): seq<Content> {
    seq(|log|, i requires 0 <= i < |log| => enc(i, log[i]))
  }

  lemma {:induction false} LogGrows(states: seq<DB>, steps: seq<Step>, i: nat, j: nat)
    requires Run(states, steps) && i <= j <= |steps|
    ensures states[i].log <= states[j].log
    decreases j - i
  {
    hide Allowed, Effect, LineagesKept;
    if i < j {
      assert StepAt(states, steps, j - 1);
      LogGrows(states, steps, i, j - 1);
      StepHistory(states[j - 1], steps[j - 1]);
    }
  }

  /** In every state of every run the chained log verifies, and it extends the chained log of
      every earlier state row by row. */
  lemma RunLogVerifies(states: seq<DB>, steps: seq<Step>, i: nat, j: nat, k: Params, enc: (nat, Event) -> Content)
    requires Run(states, steps) && i <= j <= |steps|
    ensures WellFormed(k, ChainOf(k, Contents(enc, states[j].log)))
    ensures ChainOf(k, Contents(enc, states[i].log)).rows <= ChainOf(k, Contents(enc, states[j].log)).rows
  {
    hide Allowed, Effect;
    LogGrows(states, steps, i, j);
    var a, b := Contents(enc, states[i].log), Contents(enc, states[j].log);
    assert a <= b by { assert forall n | 0 <= n < |a| :: a[n] == b[n]; }
    ChainVerifies(k, b);
    ChainPrefix(k, a, b);
  }

  /** Different events are recorded as different contents, by two processes alike. */
  ghost predicate Faithful(enc: (nat, Event) -> Content, other: (nat, Event) -> Content) {
    forall n: nat, e, f :: enc(n, e) == other(n, f) ==> e == f
  }

  /** The chained log of a state. */
  function Chain(k: Params, enc: (nat, Event) -> Content, log: seq<Event>): Log { ChainOf(k, Contents(enc, log)) }

  lemma EqualHeadsEqualContents(k: Params, a: seq<Content>, b: seq<Content>)
    requires |k.separator| < UINT32_RANGE && |k.genesis| < UINT32_RANGE && |a| < UINT64_RANGE
    requires StoredRows(k, ChainOf(k, a).rows) && StoredRows(k, ChainOf(k, b).rows)
    requires ChainOf(k, a).headSequence == ChainOf(k, b).headSequence && ChainOf(k, a).headHash == ChainOf(k, b).headHash
    ensures a == b || exists n :: Collides(k, ChainOf(k, a).rows, ChainOf(k, b).rows, n)
  {
    ChainVerifies(k, a);
    ChainVerifies(k, b);
    EqualHeadsEqualLogs(k, ChainOf(k, a), ChainOf(k, b));
    if ChainOf(k, a) == ChainOf(k, b) {
      assert forall i | 0 <= i < |a| :: a[i] == ChainOf(k, a).rows[i].content == b[i];
    }
  }

  /** Two runs that reach the same chain head have logged the same events in the same order,
      everything the first ever logged among them, or exhibit two preimages with one hash. */
  lemma EqualHeadsEqualRuns(first: seq<DB>, firstSteps: seq<Step>, i: nat, second: seq<DB>, secondSteps: seq<Step>, j: nat,
                            k: Params, enc: (nat, Event) -> Content, other: (nat, Event) -> Content)
    requires Run(first, firstSteps) && i <= |firstSteps| && Run(second, secondSteps) && j <= |secondSteps| && Faithful(enc, other)
    requires |k.separator| < UINT32_RANGE && |k.genesis| < UINT32_RANGE && |first[i].log| < UINT64_RANGE
    requires StoredRows(k, Chain(k, enc, first[i].log).rows) && StoredRows(k, Chain(k, other, second[j].log).rows)
    requires Chain(k, enc, first[i].log).headSequence == Chain(k, other, second[j].log).headSequence
    requires Chain(k, enc, first[i].log).headHash == Chain(k, other, second[j].log).headHash
    ensures (first[i].log == second[j].log && forall n: nat | n <= i :: first[n].log <= second[j].log)
            || exists n :: Collides(k, Chain(k, enc, first[i].log).rows, Chain(k, other, second[j].log).rows, n)
  {
    hide Allowed, Effect, StoredRows, Collides;
    var a, b := Contents(enc, first[i].log), Contents(other, second[j].log);
    EqualHeadsEqualContents(k, a, b);
    if a == b {
      SameEvents(enc, other, first[i].log, second[j].log);
      forall n: nat | n <= i ensures first[n].log <= second[j].log { LogGrows(first, firstSteps, n, i); }
    }
  }

  lemma SameEvents(enc: (nat, Event) -> Content, other: (nat, Event) -> Content, log: seq<Event>, more: seq<Event>)
    requires Faithful(enc, other) && Contents(enc, log) == Contents(other, more)
    ensures log == more
  {
    assert |log| == |Contents(enc, log)| == |more|;
    forall n | 0 <= n < |log| ensures log[n] == more[n] {
      assert Contents(enc, log)[n] == enc(n, log[n]) && Contents(other, more)[n] == other(n, more[n]);
    }
  }
}
