/** The methods of `TaskQueue` against the protocol of `QueueProtocol`: a call that no other call
    interrupts is a run of the protocol, and leads to the state that the method's contract says. */
module TaskQueueSteps {
  import opened Scan
  import opened QueueProtocol
  import TaskQueue
  import Theorems = QueueTheorems

  // ---------------------------------------------------------------- push

  /** Probes `i` to `k` of a scan fail. */
  lemma {:induction false} ProbesFail(s: State, p: nat, offset: nat, i: nat, k: nat) returns (acts: seq<Action>)
    requires Sized(s) && p < |s.pushers| && s.pushers[p] == PushProbing(offset, i) && i <= k <= |s.queues|
    ensures Exec(s, acts) == s.(pushers := s.pushers[p :=
              if k < |s.queues| || i == k then PushProbing(offset, k) else PushSeeking])
    decreases k - i
  {
    if i == k {
      acts := [];
      assert s.pushers[p := PushProbing(offset, i)] == s.pushers;
    } else {
      var before := ProbesFail(s, p, offset, i, k - 1);
      acts := Theorems.Extend(s, before, ProbePush(p, false));
    }
  }

  /** A push that seeks takes an offset and fails `k` times. */
  lemma AimAndFail(s: State, p: nat, k: nat) returns (acts: seq<Action>)
    requires Sized(s) && p < |s.pushers| && s.pushers[p] == PushSeeking && k <= |s.queues|
    ensures Exec(s, acts) == s.(pushIndex := Next(s.pushIndex), pushers := s.pushers[p :=
              if k < |s.queues| then PushProbing(s.pushIndex, k) else PushSeeking])
  {
    hide Probe, Exec;
    Theorems.NoSteps(s);
    var aim := Theorems.Extend(s, [], AimPush(p));
    var fails := ProbesFail(Exec(s, aim), p, s.pushIndex, 0, k);
    Theorems.ExecConcat(s, aim, fails);
    acts := aim + fails;
  }

  /** The state in which a push has stored its thunk where LastScan says. */
  function Landed(s: State, p: nat, failures: nat): State
    requires Sized(s) && p < |s.pushers|
  {
    var (offset, i) := TaskQueue.LastScan(s.pushIndex, failures, |s.queues|);
    Store(s, Probe(offset, i, |s.queues|), p).(pushers := s.pushers[p := PushStored], pushIndex := Next(offset))
  }

  /** A push has taken an offset, has failed everywhere and seeks again. */
  function NextRound(s: State): State {
    s.(pushIndex := Next(s.pushIndex))
  }

  lemma LandedNextRound(s: State, p: nat, failures: nat)
    requires Sized(s) && p < |s.pushers| && failures >= |s.queues|
    ensures Landed(NextRound(s), p, failures - |s.queues|) == Landed(s, p, failures)
  {
    hide Probe;
  }

  lemma SeekerStoresAtOnce(s: State, p: nat, failures: nat) returns (acts: seq<Action>)
    requires Sized(s) && p < |s.pushers| && s.pushers[p] == PushSeeking && failures < |s.queues|
    ensures Exec(s, acts) == Landed(s, p, failures)
  {
    hide Probe;
    var fails := AimAndFail(s, p, failures);
    acts := Theorems.Extend(s, fails, ProbePush(p, true));
  }

  /** A push that has passed its check stores its thunk where LastScan says. */
  lemma {:induction false} SeekerStores(s: State, p: nat, failures: nat) returns (acts: seq<Action>)
    requires Sized(s) && p < |s.pushers| && s.pushers[p] == PushSeeking
    ensures Exec(s, acts) == Landed(s, p, failures)
    decreases failures
  {
    hide Probe, Exec, Landed;
    var n := |s.queues|;
    if failures < n {
      acts := SeekerStoresAtOnce(s, p, failures);
    } else {
      var fails := AimAndFail(s, p, n);
      assert s.pushers[p := PushSeeking] == s.pushers;
      LandedNextRound(s, p, failures);
      var rest := SeekerStores(NextRound(s), p, failures - n);
      Theorems.ExecConcat(s, fails, rest);
      acts := fails + rest;
    }
  }

  /** A new push has passed its check. */
  function Seeker(s: State): State {
    s.(inPush := s.inPush + 1, pushers := s.pushers + [PushSeeking])
  }

  lemma EnterAndCheck(s: State) returns (acts: seq<Action>)
    requires Sized(s)
    ensures Exec(s, acts) ==
            if s.done then s.(inPush := s.inPush + 1, pushers := s.pushers + [PushBarred]) else Seeker(s)
  {
    hide Probe, Exec;
    var enter := Theorems.Extend(s, [], EnterPush);
    assert Exec(s, []) == s by { Theorems.NoSteps(s); }
    var entered := PushEnter(s);
    assert entered.pushers[|s.pushers| := PushSeeking] == s.pushers + [PushSeeking];
    assert entered.pushers[|s.pushers| := PushBarred] == s.pushers + [PushBarred];
    acts := Theorems.Extend(s, enter, CheckPush(|s.pushers|));
  }

  /** `push` without interruption, in the protocol: what `AtomicTaskStealingQueue.Push` ensures. */
  lemma PushAlone(s: State, failures: nat) returns (acts: seq<Action>)
    requires Sized(s)
    ensures var (offset, i) := TaskQueue.LastScan(s.pushIndex, failures, |s.queues|);
            var t := if s.done then s
                     else Store(s, Probe(offset, i, |s.queues|), |s.pushers|).(pushIndex := Next(offset));
            Exec(s, acts) == t.(pushers := s.pushers + [PushReturned(!s.done)])
  {
    hide Probe, Exec, TaskQueue.LastScan;
    var p := |s.pushers|;
    var enter := EnterAndCheck(s);
    if s.done {
      acts := Theorems.Extend(s, enter, LeavePush(p));
    } else {
      var checked := Seeker(s);
      var stores := SeekerStores(checked, p, failures);
      Theorems.ExecConcat(s, enter, stores);
      acts := Theorems.Extend(s, enter + stores, LeavePush(p));
      assert checked.pushers[p := PushStored] == s.pushers + [PushStored];
    }
  }

  // ---------------------------------------------------------------- try_pop

  /** `try_pop` without interruption, from probe `i` on. */
  lemma {:induction false} PopAlone(s: State, c: nat, locked: seq<bool>, offset: nat, i: nat)
    returns (acts: seq<Action>)
    requires Sized(s) && c < |s.poppers| && s.poppers[c] == PopProbing(offset, i)
    requires i < |s.queues| == |locked|
    ensures var t := Exec(s, acts);
            match TaskQueue.FirstHit(s.queues, locked, offset, i)
            case None => t == s.(poppers := s.poppers[c := PopFinished([])])
            case Some(k) =>
              var q := Probe(offset, k, |s.queues|);
              s.queues[q] != [] && t == TakeOut(s, q, 1).(poppers := s.poppers[c := PopHolding(s.queues[q][0])])
    decreases |s.queues| - i
  {
    hide Probe;
    var first := Theorems.Extend(s, [], ProbePop(c, locked[i]));
    if TaskQueue.Hits(s.queues, locked, offset, i) || i + 1 == |s.queues| {
      acts := first;
    } else {
      var t := Exec(s, first);
      assert t == s.(poppers := s.poppers[c := PopProbing(offset, i + 1)]);
      var rest := PopAlone(t, c, locked, offset, i + 1);
      Theorems.ExecConcat(s, first, rest);
      acts := first + rest;
    }
  }

  /** `try_pop` without interruption, from the offset it takes on, in the protocol: what
      `AtomicTaskStealingQueue.TryPop` ensures. */
  lemma TryPopAlone(s: State, locked: seq<bool>) returns (acts: seq<Action>)
    requires Sized(s) && |s.queues| == |locked|
    ensures var t := Exec(s, acts);
            && t.popIndex == Next(s.popIndex) && |t.poppers| == |s.poppers| + 1
            && match TaskQueue.FirstHit(s.queues, locked, s.popIndex, 0)
               case None => t.queues == s.queues && t.poppers[|s.poppers|] == PopFinished([])
               case Some(k) =>
                 var q := Probe(s.popIndex, k, |s.queues|);
                 && s.queues[q] != [] && t.poppers[|s.poppers|] == PopHolding(s.queues[q][0])
                 && t.queues == s.queues[q := s.queues[q][1..]]
  {
    hide Probe, Next, Exec;
    Theorems.NoSteps(s);
    var enter := Theorems.Extend(s, [], EnterPop);
    var rest := PopAlone(Exec(s, enter), |s.poppers|, locked, s.popIndex, 0);
    Theorems.ExecConcat(s, enter, rest);
    acts := enter + rest;
  }

  // ---------------------------------------------------------------- stop_and_eject

  /** The first `k` queues have been swept, and nothing else has changed. */
  ghost predicate SweptTo(s: State, t: State, e: nat, k: nat)
    requires k <= |s.queues|
  {
    && |t.ejectors| == |s.ejectors| && e < |t.ejectors|
    && t.inPush == s.inPush && t.done == s.done && t.pushers == s.pushers
    && t.ejectors[e] == Sweeping(k, TaskQueue.Flatten(s.queues[..k]))
    && |t.queues| == |s.queues|
    && (forall q :: 0 <= q < k ==> t.queues[q] == [])
    && (forall q :: k <= q < |s.queues| ==> t.queues[q] == s.queues[q])
  }

  lemma SweepOne(s: State, t: State, e: nat, k: nat)
    requires Sized(s) && Sized(t) && k < |s.queues| && SweptTo(s, t, e, k)
    ensures SweptTo(s, Step(t, EjectQueue(e)), e, k + 1)
  {
    TaskQueue.FlattenSnoc(s.queues[..k], s.queues[k]);
    assert s.queues[..k + 1] == s.queues[..k] + [s.queues[k]];
  }

  /** A sweep without interruption, up to queue `k`. */
  lemma {:induction false} SweepAlone(s: State, e: nat, k: nat) returns (acts: seq<Action>)
    requires Sized(s) && e < |s.ejectors| && s.ejectors[e] == Sweeping(0, []) && k <= |s.queues|
    ensures SweptTo(s, Exec(s, acts), e, k)
  {
    if k == 0 {
      acts := [];
    } else {
      var before := SweepAlone(s, e, k - 1);
      acts := Theorems.Extend(s, before, EjectQueue(e));
      SweepOne(s, Exec(s, before), e, k - 1);
    }
  }

  /** `stop_and_eject` without interruption and with no push under way: what
      `AtomicTaskStealingQueue.StopAndEject` ensures. */
  lemma EjectAlone(s: State) returns (acts: seq<Action>)
    requires Sized(s) && s.inPush == 0
    ensures var t := Exec(s, acts);
            && t.done && |t.ejectors| == |s.ejectors| + 1
            && t.ejectors[|s.ejectors|] == Executing(TaskQueue.Flatten(s.queues), 0)
            && forall q :: 0 <= q < |s.queues| ==> t.queues[q] == []
  {
    var e := |s.ejectors|;
    var enter := Theorems.Extend(s, [], EnterEject);
    var sweep := SweepAlone(Exec(s, enter), e, |s.queues|);
    Theorems.ExecConcat(s, enter, sweep);
    acts := Theorems.Extend(s, enter + sweep, TestEject(e));
    assert s.queues[..|s.queues|] == s.queues;
  }

  /** With a push under way the call does not return, however long it runs, until some other call
      takes a step: it sweeps again and again. */
  lemma {:induction false} EjectSpins(s: State, e: nat, acts: seq<Action>)
    requires Sized(s) && s.inPush > 0 && e < |s.ejectors| && s.ejectors[e].Sweeping?
    requires forall k :: 0 <= k < |acts| ==> acts[k] == EjectQueue(e) || acts[k] == TestEject(e)
    ensures var t := Exec(s, acts); t.inPush == s.inPush && e < |t.ejectors| && t.ejectors[e].Sweeping?
  {
    if acts != [] {
      EjectSpins(s, e, acts[..|acts| - 1]);
    }
  }
}
