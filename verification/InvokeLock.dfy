/**
 The lock that lets one invocation at a time into the workflow runtime.  A streaming invocation
 holds it in the `finally` of a generator, which runs only if the generator was started.
 */
module InvokeLock {

  type Id = nat

  /** `Created`: the stream was returned, but nothing was taken from it.  `Dropped`: nothing ever will be. */
  datatype Phase = Rejected | Running | Created | Streaming | Dropped | Ended

  /** `releases` lists the invocations that released the lock, in order. */
  datatype State = State(locked: bool, phases: map<Id, Phase>, releases: seq<Id>)

  /** An end is a return or an exception of the call, or the exhaustion, failure or close of a started stream. */
  datatype Action = Invoke(id: Id, streaming: bool) | Start(id: Id) | End(id: Id) | Drop(id: Id)

  predicate Enabled(s: State, a: Action) {
    match a
    case Invoke(id, _) => id !in s.phases
    case Start(id) => id in s.phases && s.phases[id].Created?
    case End(id) => id in s.phases && (s.phases[id].Running? || s.phases[id].Streaming?)
    case Drop(id) => id in s.phases && s.phases[id].Created?
  }

  function Next(s: State, a: Action): State
    requires Enabled(s, a)
  {
    match a
    case Invoke(id, streaming) =>
      if s.locked then s.(phases := s.phases[id := Rejected])
      else s.(locked := true, phases := s.phases[id := if streaming then Created else Running])
    case Start(id) => s.(phases := s.phases[id := Streaming])
    case End(id) => State(false, s.phases[id := Ended], s.releases + [id])
    case Drop(id) => s.(phases := s.phases[id := Dropped])
  }

  const INITIAL := State(false, map[], [])

  /** Admitted, and its `finally` has not run. */
  predicate Unfinished(p: Phase) {
    p.Running? || p.Created? || p.Streaming? || p.Dropped?
  }

  /**
   The lock is held if and only if an admitted invocation is unfinished, and then exactly one is;
   each ended invocation released it exactly once, no other ever did.
   */
  ghost predicate Exclusive(s: State) {
    && (forall i, j :: i in s.phases && j in s.phases && Unfinished(s.phases[i]) && Unfinished(s.phases[j]) ==> i == j)
    && (s.locked <==> exists i :: i in s.phases && Unfinished(s.phases[i]))
    && (forall i :: multiset(s.releases)[i] == if i in s.phases && s.phases[i].Ended? then 1 else 0)
  }

  lemma StepKeepsExclusive(s: State, a: Action)
    requires Exclusive(s) && Enabled(s, a)
    ensures Exclusive(Next(s, a))
  {
    var s' := Next(s, a);
    if a.End? {
      assert multiset(s'.releases) == multiset(s.releases) + multiset{a.id};
      forall i | i in s'.phases ensures !Unfinished(s'.phases[i]) {
        assert Unfinished(s.phases[a.id]);
      }
    } else if a.Invoke? && !s.locked {
      assert Unfinished(s'.phases[a.id]);
    } else {
      forall i | i in s.phases && Unfinished(s.phases[i]) ensures Unfinished(s'.phases[i]) {
      }
    }
  }

  /** The states of an execution. */
  ghost predicate Run(states: seq<State>, actions: seq<Action>) {
    && |states| == |actions| + 1 && states[0] == INITIAL
    && forall k :: 0 <= k < |actions| ==> Enabled(states[k], actions[k]) && states[k+1] == Next(states[k], actions[k])
  }

  lemma {:induction false} EveryStateIsExclusive(states: seq<State>, actions: seq<Action>, k: nat)
    requires Run(states, actions) && k < |states|
    ensures Exclusive(states[k])
  {
    if k > 0 {
      EveryStateIsExclusive(states, actions, k - 1);
      StepKeepsExclusive(states[k-1], actions[k-1]);
    }
  }

  /** An invocation is rejected exactly when an admitted one is unfinished, and stays rejected. */
  lemma {:induction false} RejectedWhenBusy(states: seq<State>, actions: seq<Action>, k: nat, later: nat)
    requires Run(states, actions) && k < later < |states| && actions[k].Invoke?
    ensures actions[k].id in states[later].phases
    ensures states[later].phases[actions[k].id].Rejected? <==> exists i :: i in states[k].phases && Unfinished(states[k].phases[i])
  {
    EveryStateIsExclusive(states, actions, k);
    if later > k + 1 { RejectedWhenBusy(states, actions, k, later - 1); }
  }

  /** Dropping a stream nobody started leaks the lock: every later invocation is rejected, for ever. */
  lemma {:induction false} DroppedStreamLeaks(states: seq<State>, actions: seq<Action>, k: nat, later: nat)
    requires Run(states, actions) && k < later < |states| && actions[k].Drop?
    ensures states[later].locked
    ensures actions[k].id in states[later].phases && states[later].phases[actions[k].id].Dropped?
    ensures later < |actions| && actions[later].Invoke? ==> states[later+1].phases[actions[later].id].Rejected?
  {
    EveryStateIsExclusive(states, actions, later);
    if later > k + 1 { DroppedStreamLeaks(states, actions, k, later - 1); }
    assert states[later-1].phases[actions[k].id].Dropped? || later == k + 1;
    assert Unfinished(states[later].phases[actions[k].id]);
  }

  /** Once everything admitted has ended or was dropped, the lock is free if and only if nothing was dropped. */
  lemma FreeUnlessDropped(states: seq<State>, actions: seq<Action>, k: nat)
    requires Run(states, actions) && k < |states|
    requires forall i :: i in states[k].phases && Unfinished(states[k].phases[i]) ==> states[k].phases[i].Dropped?
    ensures !states[k].locked <==> forall a <- actions[..k] :: !a.Drop?
  {
    EveryStateIsExclusive(states, actions, k);
    DroppedMeansDropped(states, actions, k);
    if d :| 0 <= d < k && actions[d].Drop? {
      DroppedStreamLeaks(states, actions, d, k);
      assert actions[d] in actions[..k];
    }
  }

  lemma {:induction false} DroppedMeansDropped(states: seq<State>, actions: seq<Action>, k: nat)
    requires Run(states, actions) && k < |states|
    ensures (exists i :: i in states[k].phases && states[k].phases[i].Dropped?) ==> exists a <- actions[..k] :: a.Drop?
  {
    if k > 0 && exists i :: i in states[k].phases && states[k].phases[i].Dropped? {
      var i :| i in states[k].phases && states[k].phases[i].Dropped?;
      assert actions[..k] == actions[..k-1] + [actions[k-1]];
      if !actions[k-1].Drop? {
        assert i in states[k-1].phases && states[k-1].phases[i].Dropped?;
        DroppedMeansDropped(states, actions, k - 1);
      }
    }
  }

  // ---------- The runtime ----------

  /** What an invocation returns at once: the busy error, a stream, or, after the call, its result. */
  datatype Reply = Busy | Stream | Result | Exception

  class Runtime {
    var locked: bool
    var phases: map<Id, Phase>
    ghost var releases: seq<Id>

    ghost function Current(): State
      reads this
    {
      State(locked, phases, releases)
    }

    constructor ()
      ensures Current() == INITIAL
    {
      locked, phases, releases := false, map[], [];
    }

    /** lock.acquire(blocking=False) */
    method Acquire() returns (acquired: bool)
      modifies this`locked
      ensures acquired == !old(locked) && locked
    {
      acquired := !locked;
      locked := true;
    }

    /** A lock that is not held cannot be released. */
    method Release(id: Id)
      requires locked
      modifies this`locked, this`releases
      ensures !locked && releases == old(releases) + [id]
    {
      locked := false;
      releases := releases + [id];
    }

    /** An invocation up to the point where it holds the lock, if it gets it. */
    method Admit(id: Id, streaming: bool) returns (r: Reply)
      requires Exclusive(Current()) && id !in phases
      modifies this
      ensures Current() == Next(old(Current()), Invoke(id, streaming)) && Exclusive(Current())
      ensures r == if old(locked) then Busy else if streaming then Stream else Result
    {
      StepKeepsExclusive(Current(), Invoke(id, streaming));
      var acquired := Acquire();
      if !acquired {
        phases := phases[id := Rejected];
        return Busy;
      }
      phases := phases[id := if streaming then Created else Running];
      r := if streaming then Stream else Result;
    }

    /** The non-streaming call: the lock is released whether the agent answers or raises. */
    method CallAgent(id: Id) returns (r: Reply)
      requires Exclusive(Current()) && id in phases && phases[id].Running?
      modifies this
      ensures Current() == Next(old(Current()), End(id)) && Exclusive(Current())
      ensures r == Exception || r == Result
    {
      StepKeepsExclusive(Current(), End(id));
      assert Unfinished(phases[id]);
      var raises: bool := *;
      r := if raises then Exception else Result;
      Release(id);
      phases := phases[id := Ended];
    }

    /** The first item is taken from the stream. */
    method StartStream(id: Id)
      requires Exclusive(Current()) && id in phases && phases[id].Created?
      modifies this
      ensures Current() == Next(old(Current()), Start(id)) && Exclusive(Current())
    {
      StepKeepsExclusive(Current(), Start(id));
      phases := phases[id := Streaming];
    }

    /** The started stream is exhausted, fails, or is closed: its `finally` runs. */
    method FinishStream(id: Id)
      requires Exclusive(Current()) && id in phases && phases[id].Streaming?
      modifies this
      ensures Current() == Next(old(Current()), End(id)) && Exclusive(Current())
    {
      StepKeepsExclusive(Current(), End(id));
      assert Unfinished(phases[id]);
      Release(id);
      phases := phases[id := Ended];
    }

    /** A stream that was never started is dropped: its `finally` does not run. */
    method DropStream(id: Id)
      requires Exclusive(Current()) && id in phases && phases[id].Created?
      modifies this
      ensures Current() == Next(old(Current()), Drop(id)) && Exclusive(Current())
    {
      StepKeepsExclusive(Current(), Drop(id));
      phases := phases[id := Dropped];
    }
  }
}
