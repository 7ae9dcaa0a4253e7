/**
 * The remote memory store (Mem0's MemoryClient) as the core sees it: an
 * opaque service with `add` and `search`, addressed by a user scope, any call
 * of which may raise. Which calls raise is fixed by a failure schedule: call
 * number k (counting every add and search made so far) raises iff k is in `down`.
 */
module MemoryStore {
  import opened Wrappers
  import opened Json

  /** The user scope every call of the core passes to the store. */
  const UserScope: string := "utlyze"

  /** The exceptions the core can meet: the store's, and the two raised while building a record. */
  datatype Fault = StoreUnavailable | TypeError | AttributeError

  /**
   * What the free text of a record summarises. The exact wording is left
   * opaque: a note carries the values its f-string interpolates.
   */
  datatype Note =
    | ActivityNote(project: string, workDir: string, gitBranch: Option<string>, recent: seq<seq<string>>, dirty: bool, time: string)
    | TaskNote(name: Value, status: Value, progress: Value, description: Value, agent: Value, files: Value, time: string)
    | CompletionNote(name: Value, duration: Value, files: Value, time: string)
    | FileNote(path: Value, task: Value, status: Value, time: string)
    | SyncNote(total: nat, active: nat, time: string)
    | TerminalNote(directory: Value, branchName: Value, command: Value, time: string)

  /** One `add`: content, user scope and metadata. */
  datatype Record = Record(note: Note, userId: string, metadata: map<string, Value>)

  /** The `type` tag of a record's metadata. */
  function Kind(r: Record): Value
  {
    Get(r.metadata, "type", Null)
  }

  datatype Call =
    | AddCall(record: Record)
    | SearchCall(query: string, userId: string, limit: Option<int>)

  /** A search hit as the store returns it: a dict. */
  type Hit = map<string, Value>

  /** One step of a write sequence: a record to add, or an exception raised before the store is reached. */
  datatype Step = Write(record: Record) | Raise(fault: Fault)

  datatype Outcome = Pass | Fail(fault: Fault)

  /** The records a sequence of steps sent to the store, and how the sequence ended. */
  datatype Run = Run(attempted: seq<Record>, outcome: Outcome)

  function AddCalls(rs: seq<Record>): (cs: seq<Call>)
    ensures |cs| == |rs|
  {
    if rs == [] then [] else [AddCall(rs[0])] + AddCalls(rs[1..])
  }

  lemma {:induction false} AddCallsAppend(a: seq<Record>, b: seq<Record>)
    ensures AddCalls(a + b) == AddCalls(a) + AddCalls(b)
    decreases |a|
  {
    if a == [] {
      assert a + b == b;
    } else {
      assert (a + b)[1..] == a[1..] + b;
      AddCallsAppend(a[1..], b);
    }
  }

  /** The records a plan writes when nothing in it fails. */
  function Writes(plan: seq<Step>): seq<Record>
  {
    if plan == [] then []
    else (if plan[0].Write? then [plan[0].record] else []) + Writes(plan[1..])
  }

  /** Every step writes, and the store accepts each of those writes. */
  predicate Clean(plan: seq<Step>, at: nat, down: set<nat>)
  {
    forall i :: 0 <= i < |plan| ==> plan[i].Write? && at + i !in down
  }

  /**
   * Runs `plan` inside one `try`, the store's next call being number `at`:
   * the first step that raises, or whose write the store rejects, ends the
   * sequence, and no later step is attempted.
   */
  function Execute(plan: seq<Step>, at: nat, down: set<nat>): (r: Run)
    ensures |r.attempted| <= |plan|
  {
    if plan == [] then Run([], Pass)
    else
      match plan[0]
      case Raise(f) => Run([], Fail(f))
      case Write(rec) =>
        if at in down then Run([rec], Fail(StoreUnavailable))
        else
          var rest := Execute(plan[1..], at + 1, down);
          Run([rec] + rest.attempted, rest.outcome)
  }

  /** A run attempts the plan's writes in plan order: the i-th record sent is the i-th step's. */
  lemma {:induction false} ExecuteFollowsPlan(plan: seq<Step>, at: nat, down: set<nat>)
    ensures var r := Execute(plan, at, down);
            forall i :: 0 <= i < |r.attempted| ==> plan[i] == Write(r.attempted[i])
    decreases |plan|
  {
    if plan != [] && plan[0].Write? && at !in down {
      ExecuteFollowsPlan(plan[1..], at + 1, down);
      var r := Execute(plan, at, down);
      var rest := Execute(plan[1..], at + 1, down);
      assert r.attempted == [plan[0].record] + rest.attempted;
      forall i | 1 <= i < |r.attempted|
        ensures plan[i] == Write(r.attempted[i])
      {
        assert plan[i] == plan[1..][i - 1];
      }
    }
  }

  lemma CleanCons(plan: seq<Step>, at: nat, down: set<nat>)
    requires plan != []
    ensures Clean(plan, at, down) <==> plan[0].Write? && at !in down && Clean(plan[1..], at + 1, down)
  {
    if plan[0].Write? && at !in down && Clean(plan[1..], at + 1, down) {
      forall i | 1 <= i < |plan|
        ensures plan[i].Write? && at + i !in down
      {
        assert plan[i] == plan[1..][i - 1];
      }
    }
  }

  /** The records of a run that the store kept: all it attempted, except a last one it rejected. */
  function Kept(r: Run, at: nat, down: set<nat>): seq<Record>
  {
    if r.attempted != [] && at + |r.attempted| - 1 in down then r.attempted[..|r.attempted| - 1]
    else r.attempted
  }

  /** A plan whose every step writes sends one record per step. */
  lemma {:induction false} WritesOfClean(plan: seq<Step>, at: nat, down: set<nat>)
    requires Clean(plan, at, down)
    ensures |Writes(plan)| == |plan|
    decreases |plan|
  {
    if plan != [] {
      CleanCons(plan, at, down);
      WritesOfClean(plan[1..], at + 1, down);
    }
  }

  /** A run passes exactly when every step writes and the store accepts every write; it then attempted the whole plan. */
  lemma {:induction false} ExecutePasses(plan: seq<Step>, at: nat, down: set<nat>)
    ensures var r := Execute(plan, at, down);
            && (r.outcome == Pass <==> Clean(plan, at, down))
            && (r.outcome == Pass ==> r.attempted == Writes(plan))
    decreases |plan|
  {
    if plan != [] {
      CleanCons(plan, at, down);
      if plan[0].Write? && at !in down {
        ExecutePasses(plan[1..], at + 1, down);
      }
    }
  }

  /**
   * A run that fails stopped at the first step that raised, or at the first
   * write the store rejected; every write before that was accepted.
   */
  lemma {:induction false} ExecuteStops(plan: seq<Step>, at: nat, down: set<nat>)
    ensures var r := Execute(plan, at, down);
            && Clean(plan[..|Kept(r, at, down)|], at, down)
            && (r.outcome.Fail? ==>
                  (|r.attempted| < |plan| && plan[|r.attempted|] == Raise(r.outcome.fault)) ||
                  (r.outcome.fault == StoreUnavailable && r.attempted != [] && at + |r.attempted| - 1 in down))
    decreases |plan|
  {
    var r := Execute(plan, at, down);
    if plan != [] && plan[0].Write? && at !in down {
      var rest := Execute(plan[1..], at + 1, down);
      ExecuteStops(plan[1..], at + 1, down);
      assert r == Run([plan[0].record] + rest.attempted, rest.outcome);
      var k := |Kept(rest, at + 1, down)|;
      assert |Kept(r, at, down)| == k + 1;
      CleanCons(plan[..k + 1], at, down);
      assert plan[..k + 1][1..] == plan[1..][..k];
      if r.outcome.Fail? && |rest.attempted| < |plan| - 1 && plan[1..][|rest.attempted|] == Raise(r.outcome.fault) {
        assert plan[|r.attempted|] == plan[1..][|rest.attempted|];
      }
    } else if plan == [] {
      assert plan[..0] == [];
    } else {
      assert plan[..0] == [];
    }
  }

  /** Running two sequences one after the other inside the same `try` is running their concatenation. */
  lemma {:induction false} ExecuteAppend(p: seq<Step>, q: seq<Step>, at: nat, down: set<nat>)
    ensures var rp := Execute(p, at, down);
            var rq := Execute(q, at + |p|, down);
            Execute(p + q, at, down) ==
              if rp.outcome == Pass then Run(rp.attempted + rq.attempted, rq.outcome) else rp
    decreases |p|
  {
    if p == [] {
      assert p + q == q;
    } else if p[0].Write? && at !in down {
      var rec := p[0].record;
      assert (p + q)[0] == Write(rec);
      assert (p + q)[1..] == p[1..] + q;
      var tail := Execute(p[1..] + q, at + 1, down);
      var rp' := Execute(p[1..], at + 1, down);
      var rq := Execute(q, at + |p|, down);
      assert Execute(p + q, at, down) == Run([rec] + tail.attempted, tail.outcome);
      assert Execute(p, at, down) == Run([rec] + rp'.attempted, rp'.outcome);
      assert tail == if rp'.outcome == Pass then Run(rp'.attempted + rq.attempted, rq.outcome) else rp' by {
        ExecuteAppend(p[1..], q, at + 1, down);
      }
      assert [rec] + (rp'.attempted + rq.attempted) == ([rec] + rp'.attempted) + rq.attempted;
    } else {
      assert (p + q)[0] == p[0];
    }
  }

  /** A run that passed sent one record per step of its plan. */
  lemma PassedWholePlan(plan: seq<Step>, at: nat, down: set<nat>)
    requires Execute(plan, at, down).outcome == Pass
    ensures |Execute(plan, at, down).attempted| == |plan|
  {
    ExecutePasses(plan, at, down);
    WritesOfClean(plan, at, down);
  }

  /** A single write is one call, which fails exactly when the store is scheduled to raise on it. */
  lemma ExecuteOne(rec: Record, at: nat, down: set<nat>)
    ensures Execute([Write(rec)], at, down) == Run([rec], if at in down then Fail(StoreUnavailable) else Pass)
    ensures AddCalls([rec]) == [AddCall(rec)]
  {
    assert [Write(rec)][1..] == [];
    assert [rec][1..] == [];
  }

  /** Adding the calls of `a` and then those of `b` adds the calls of `a + b`. */
  lemma CallsCompose(cs0: seq<Call>, cs1: seq<Call>, cs2: seq<Call>, a: seq<Record>, b: seq<Record>)
    requires cs1 == cs0 + AddCalls(a) && cs2 == cs1 + AddCalls(b)
    ensures cs2 == cs0 + AddCalls(a + b)
  {
    AddCallsAppend(a, b);
    assert (cs0 + AddCalls(a)) + AddCalls(b) == cs0 + (AddCalls(a) + AddCalls(b));
  }

  /**
   * The store's calls after a plan `p` that passed and then a plan `q` are
   * those of running `p + q` in one go, which ends as `q` did.
   */
  lemma RunThen(cs0: seq<Call>, cs1: seq<Call>, cs2: seq<Call>, p: seq<Step>, q: seq<Step>, down: set<nat>)
    requires var rp := Execute(p, |cs0|, down); cs1 == cs0 + AddCalls(rp.attempted) && rp.outcome == Pass
    requires cs2 == cs1 + AddCalls(Execute(q, |cs1|, down).attempted)
    ensures var r := Execute(p + q, |cs0|, down);
            cs2 == cs0 + AddCalls(r.attempted) && r.outcome == Execute(q, |cs1|, down).outcome
  {
    var rp := Execute(p, |cs0|, down);
    var rq := Execute(q, |cs1|, down);
    PassedWholePlan(p, |cs0|, down);
    ExecuteAppend(p, q, |cs0|, down);
    CallsCompose(cs0, cs1, cs2, rp.attempted, rq.attempted);
  }

  /** The records the store kept out of a sequence of calls numbered from `at`: the adds it did not reject. */
  function Accepted(cs: seq<Call>, at: nat, down: set<nat>): (log: seq<Record>)
    ensures |log| <= |cs|
  {
    if cs == [] then []
    else
      var n := |cs| - 1;
      Accepted(cs[..n], at, down) + if cs[n].AddCall? && at + n !in down then [cs[n].record] else []
  }

  /** What the store kept of two stretches of calls is what it kept of each. */
  lemma {:induction false} AcceptedAppend(a: seq<Call>, b: seq<Call>, at: nat, down: set<nat>)
    ensures Accepted(a + b, at, down) == Accepted(a, at, down) + Accepted(b, at + |a|, down)
    decreases |b|
  {
    if b == [] {
      assert a + b == a;
    } else {
      var n := |b| - 1;
      assert (a + b)[..|a| + n] == a + b[..n];
      assert (a + b)[|a| + n] == b[n];
      AcceptedAppend(a, b[..n], at, down);
    }
  }

  /** A run that got past its first write keeps that write ahead of whatever the rest of the run kept. */
  lemma KeptCons(rec: Record, rest: Run, at: nat, down: set<nat>)
    requires at !in down
    ensures Kept(Run([rec] + rest.attempted, rest.outcome), at, down) == [rec] + Kept(rest, at + 1, down)
  {
    var all := [rec] + rest.attempted;
    if rest.attempted != [] && at + 1 + |rest.attempted| - 1 in down {
      assert all[..|all| - 1] == [rec] + rest.attempted[..|rest.attempted| - 1];
    }
  }

  /** Of the calls a run made, starting at call number `at`, the store kept exactly the run's kept records. */
  lemma {:induction false} AcceptedOfRun(plan: seq<Step>, at: nat, down: set<nat>)
    ensures var r := Execute(plan, at, down); Accepted(AddCalls(r.attempted), at, down) == Kept(r, at, down)
    decreases |plan|
  {
    var r := Execute(plan, at, down);
    if plan != [] && plan[0].Write? {
      var rec := plan[0].record;
      if at in down {
        assert r.attempted == [rec];
        assert AddCalls([rec]) == [AddCall(rec)] by { assert [rec][1..] == []; }
        assert [AddCall(rec)][..0] == [];
      } else {
        var rest := Execute(plan[1..], at + 1, down);
        var all := [rec] + rest.attempted;
        assert r == Run(all, rest.outcome);
        assert AddCalls(all) == [AddCall(rec)] + AddCalls(rest.attempted) by {
          assert all[0] == rec && all[1..] == rest.attempted;
        }
        AcceptedAppend([AddCall(rec)], AddCalls(rest.attempted), at, down);
        assert Accepted([AddCall(rec)], at, down) == [rec] by { assert [AddCall(rec)][..0] == []; }
        AcceptedOfRun(plan[1..], at + 1, down);
        KeptCons(rec, rest, at, down);
      }
    }
  }

  /**
   * After a run starting at call number |cs|, the store's log has grown by
   * exactly the records it kept: every write before the one that failed,
   * and after a clean run the whole plan.
   */
  lemma AcceptedAfterRun(cs: seq<Call>, plan: seq<Step>, down: set<nat>)
    ensures var r := Execute(plan, |cs|, down);
            Accepted(cs + AddCalls(r.attempted), 0, down) == Accepted(cs, 0, down) + Kept(r, |cs|, down)
  {
    var r := Execute(plan, |cs|, down);
    AcceptedAppend(cs, AddCalls(r.attempted), 0, down);
    AcceptedOfRun(plan, |cs|, down);
  }

  class RemoteStore {
    /** Every call made so far, in order, whether the store accepted it or raised. */
    var calls: seq<Call>
    /** The records the store holds, in the order they were added. */
    var log: seq<Record>
    /** The failure schedule: the numbers of the calls that raise. */
    const down: set<nat>
    /** What a search returns for a query, a user scope and a limit (relevance ranking is the store's). */
    const answer: (string, string, Option<int>) -> seq<Hit>

    ghost predicate Valid()
      reads this
    {
      log == Accepted(calls, 0, down)
    }

    constructor (down: set<nat>, answer: (string, string, Option<int>) -> seq<Hit>)
      ensures Valid() && calls == [] && log == []
      ensures this.down == down && this.answer == answer
    {
      calls, log := [], [];
      this.down, this.answer := down, answer;
    }

    /** `client.add(...)`: raises (StoreUnavailable) when this call is scheduled to fail. */
    method Add(r: Record) returns (out: Outcome)
      requires Valid()
      modifies this
      ensures Valid()
      ensures calls == old(calls) + [AddCall(r)]
      ensures out == if |old(calls)| in down then Fail(StoreUnavailable) else Pass
    {
      var n := |calls|;
      calls := calls + [AddCall(r)];
      AcceptedAppend(old(calls), [AddCall(r)], 0, down);
      assert [AddCall(r)][..0] == [];
      if n in down {
        out := Fail(StoreUnavailable);
      } else {
        log := log + [r];
        out := Pass;
      }
    }

    /** `client.search(query, user_id=..., limit=...)`. */
    method Search(query: string, userId: string, limit: Option<int>) returns (r: Result<seq<Hit>, Fault>)
      requires Valid()
      modifies this
      ensures Valid()
      ensures calls == old(calls) + [SearchCall(query, userId, limit)]
      ensures r == if |old(calls)| in down then Err(StoreUnavailable) else Ok(answer(query, userId, limit))
    {
      var n := |calls|;
      calls := calls + [SearchCall(query, userId, limit)];
      AcceptedAppend(old(calls), [SearchCall(query, userId, limit)], 0, down);
      assert [SearchCall(query, userId, limit)][..0] == [];
      if n in down {
        r := Err(StoreUnavailable);
      } else {
        r := Ok(answer(query, userId, limit));
      }
    }
  }
}
