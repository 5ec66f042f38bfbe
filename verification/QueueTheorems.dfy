/** What holds of `AtomicTaskStealingQueue` over whole runs: conservation and order, and exactly
    when `stop_and_eject` drains the queues. */
module QueueTheorems {
  import opened Scan
  import opened Bags
  import opened QueueProtocol

  // ---------------------------------------------------------------- conservation and order

  lemma EjectRanIsGot(pc: EjectPc)
    ensures EjectRanBag(pc) <= EjectBag(pc)
  {
    if pc.Executing? && pc.k <= |pc.got| {
      assert pc.got == pc.got[..pc.k] + pc.got[pc.k..];
    }
  }

  lemma RanIsHeld(queues: seq<seq<nat>>, poppers: seq<PopPc>, ejectors: seq<EjectPc>)
    ensures Ran(poppers, ejectors) <= Held(queues, poppers, ejectors)
  {
    forall e | 0 <= e < |ejectors|
      ensures EjectRanBags(ejectors)[e] <= EjectBags(ejectors)[e]
    {
      EjectRanIsGot(ejectors[e]);
    }
    TotalMonotone(PopRanBags(poppers), PopBags(poppers));
    TotalMonotone(EjectRanBags(ejectors), EjectBags(ejectors));
  }

  /** Over every run: an accepted thunk is in exactly one place (queued, popped or ejected), once; a
      thunk that is not accepted is nowhere; each thunk runs at most once, and only if accepted. */
  lemma EachThunkInOnePlace(n: nat, acts: seq<Action>, x: nat)
    requires n > 0
    ensures var s := Exec(Init(n), acts);
            var accepted := x < |s.pushers| && Accepted(s.pushers[x]);
            && Held(s.queues, s.poppers, s.ejectors)[x] == (if accepted then 1 else 0)
            && Total(QueueBags(s.inserted))[x] == (if accepted then 1 else 0)
            && Ran(s.poppers, s.ejectors)[x] <= (if accepted then 1 else 0)
  {
    InitInv(n);
    ExecKeepsInv(Init(n), acts);
    var s := Exec(Init(n), acts);
    RanIsHeld(s.queues, s.poppers, s.ejectors);
  }

  /** Over every run and for every queue: its removal history followed by its contents is its
      insertion history, so removals are in insertion order. */
  lemma EachQueueIsFifo(n: nat, acts: seq<Action>, q: nat)
    requires q < n
    ensures var s := Exec(Init(n), acts);
            && s.inserted[q] == s.removed[q] + s.queues[q]
            && s.removed[q] <= s.inserted[q]
  {
    InitInv(n);
    ExecKeepsInv(Init(n), acts);
  }

  /** `in_push_` is the number of pushes between their first and last atomic access. */
  lemma BracketIsCounted(n: nat, acts: seq<Action>)
    requires n > 0
    ensures var s := Exec(Init(n), acts); s.inPush == |BracketSet(s.pushers)|
  {
    InitInv(n);
    ExecKeepsInv(Init(n), acts);
  }

  // ---------------------------------------------------------------- when a sweep drains

  /** No push has read `is_done_` false and still has to store its thunk. */
  predicate NoSeeker(pushers: seq<PushPc>) {
    forall p :: 0 <= p < |pushers| ==> !Seeking(pushers[p])
  }

  predicate AllEmpty(queues: seq<seq<nat>>) {
    forall q :: 0 <= q < |queues| ==> queues[q] == []
  }

  /** Done is set and no thunk can be stored any more. */
  predicate Quiet(s: State) { s.done && NoSeeker(s.pushers) }

  /** A quiet state stays quiet and its queues only lose thunks. */
  lemma QuietStep(s: State, a: Action)
    requires Sized(s) && Quiet(s)
    ensures var t := Step(s, a);
            && Quiet(t)
            && forall q :: 0 <= q < |s.queues| ==> |t.queues[q]| <= |s.queues[q]|
  {
  }

  /** What a sweep that started in a quiet state has achieved so far. */
  predicate Swept(s: State, e: nat) {
    && Quiet(s)
    && e < |s.ejectors|
    && match s.ejectors[e]
       case Sweeping(i, _) => forall q :: 0 <= q < i && q < |s.queues| ==> s.queues[q] == []
       case Executing(_, _) => AllEmpty(s.queues)
  }

  lemma SweptStep(s: State, a: Action, e: nat)
    requires Sized(s) && Swept(s, e)
    ensures Swept(Step(s, a), e)
  {
    QuietStep(s, a);
  }

  lemma {:induction false} SweptForever(s: State, e: nat, acts: seq<Action>)
    requires Sized(s) && Swept(s, e)
    ensures Swept(Exec(s, acts), e)
  {
    if acts != [] {
      SweptForever(s, e, acts[..|acts| - 1]);
      SweptStep(Exec(s, acts[..|acts| - 1]), acts[|acts| - 1], e);
    }
  }

  lemma {:induction false} EmptyForever(s: State, acts: seq<Action>)
    requires Sized(s) && Quiet(s) && AllEmpty(s.queues)
    ensures Quiet(Exec(s, acts)) && AllEmpty(Exec(s, acts).queues)
  {
    if acts != [] {
      EmptyForever(s, acts[..|acts| - 1]);
      QuietStep(Exec(s, acts[..|acts| - 1]), acts[|acts| - 1]);
    }
  }

  /** The zero a sweeper may read from `in_push_` rules out every seeker. */
  lemma ZeroMeansNoSeeker(s: State)
    requires Inv(s) && s.inPush == 0
    ensures NoSeeker(s.pushers)
  {
    forall p | 0 <= p < |s.pushers|
      ensures !Seeking(s.pushers[p])
    {
      assert p !in BracketSet(s.pushers);
    }
  }

  // ---------------------------------------------------------------- building a stranding run

  lemma {:induction false} ExecConcat(s: State, a: seq<Action>, b: seq<Action>)
    requires Sized(s)
    ensures Exec(s, a + b) == Exec(Exec(s, a), b)
  {
    if b == [] {
      assert a + b == a;
    } else {
      assert (a + b)[..|a + b| - 1] == a + b[..|b| - 1];
      ExecConcat(s, a, b[..|b| - 1]);
    }
  }

  lemma ExecSnoc(s: State, acts: seq<Action>, a: Action)
    requires Sized(s)
    ensures Exec(s, acts + [a]) == Step(Exec(s, acts), a)
  {
    assert (acts + [a])[..|acts + [a]| - 1] == acts;
  }

  lemma NoSteps(s: State)
    requires Sized(s)
    ensures Exec(s, []) == s
  {
  }

  lemma Extend(s: State, acts: seq<Action>, a: Action) returns (more: seq<Action>)
    requires Sized(s)
    ensures more == acts + [a] && Exec(s, more) == Step(Exec(s, acts), a)
  {
    more := acts + [a];
    ExecSnoc(s, acts, a);
  }

  predicate PushSteps(acts: seq<Action>) {
    forall k :: 0 <= k < |acts| ==> IsPush(acts[k])
  }

  /** Only `push` and `stop_and_eject` calls that have begun take steps. */
  predicate EndingSteps(acts: seq<Action>) {
    forall k :: 0 <= k < |acts| ==> IsPush(acts[k]) || acts[k].EjectQueue? || acts[k].TestEject?
  }

  /** What one `stop_and_eject` call leaves alone. */
  predicate OnlyEjectMoved(s: State, t: State, e: nat) {
    && t.pushers == s.pushers && |t.ejectors| == |s.ejectors|
    && forall f :: 0 <= f < |s.ejectors| && f != e ==> t.ejectors[f] == s.ejectors[f]
  }

  /** The call has returned, or stands behind the last queue. */
  predicate SweptOut(s: State, e: nat)
    requires e < |s.ejectors|
  {
    s.ejectors[e].Sweeping? ==> s.ejectors[e].i == |s.queues|
  }

  lemma SweepAdvances(s: State, e: nat)
    requires Inv(s) && e < |s.ejectors| && s.ejectors[e].Sweeping?
    ensures s.ejectors[e].i <= |s.queues|
    ensures var t := Step(s, EjectQueue(e));
            && Inv(t) && OnlyEjectMoved(s, t, e) && t.ejectors[e].Sweeping?
            && (s.ejectors[e].i < |s.queues| ==> t.ejectors[e].i == s.ejectors[e].i + 1)
  {
    hide Inv, Ordered, Counted, Conserved, StoredOnce, PushBounds, PopBounds;
    StepKeepsInv(s, EjectQueue(e));
    EjectIsBounded(s, e);
  }

  lemma EjectIsBounded(s: State, e: nat)
    requires Inv(s) && e < |s.ejectors|
    ensures Sized(s) && (s.ejectors[e].Sweeping? ==> s.ejectors[e].i <= |s.queues|)
  {
    hide Ordered, Counted, Conserved, StoredOnce, PushBounds, PopBounds;
  }

  /** The sweeper can finish its sweep while every other call stands still. */
  lemma {:induction false} FinishSweep(s: State, e: nat) returns (acts: seq<Action>)
    requires Inv(s) && e < |s.ejectors|
    ensures Inv(Exec(s, acts)) && OnlyEjectMoved(s, Exec(s, acts), e) && SweptOut(Exec(s, acts), e)
    ensures EndingSteps(acts)
    decreases if s.ejectors[e].Sweeping? then |s.queues| - s.ejectors[e].i else 0
  {
    hide Ordered, Counted, Conserved, StoredOnce, PushBounds, PopBounds, EjectBounds;
    if SweptOut(s, e) {
      acts := [];
    } else {
      SweepAdvances(s, e);
      var a := EjectQueue(e);
      assert Exec(s, [a]) == Step(s, a) by { ExecSnoc(s, [], a); }
      var rest := FinishSweep(Step(s, a), e);
      acts := [a] + rest;
      ExecConcat(s, [a], rest);
    }
  }

  /** All sweepers from number `k` on can finish their sweeps. */
  lemma {:induction false} FinishSweeps(s: State, k: nat) returns (acts: seq<Action>)
    requires Inv(s) && k <= |s.ejectors|
    requires forall e: nat :: e < k ==> SweptOut(s, e)
    ensures var t := Exec(s, acts);
            && Inv(t) && t.pushers == s.pushers && |t.ejectors| == |s.ejectors|
            && forall e: nat :: e < |t.ejectors| ==> SweptOut(t, e)
    ensures EndingSteps(acts)
    decreases |s.ejectors| - k
  {
    hide Inv;
    InvSized(s);
    if k == |s.ejectors| {
      acts := [];
    } else {
      var first := FinishSweep(s, k);
      var t := Exec(s, first);
      assert forall e: nat :: e < k ==> SweptOut(s, e) && t.ejectors[e] == s.ejectors[e];
      var rest := FinishSweeps(t, k + 1);
      acts := first + rest;
      ExecConcat(s, first, rest);
    }
  }

  ghost predicate Queued(s: State, x: nat) {
    exists q :: 0 <= q < |s.queues| && x in s.queues[q]
  }

  /** What moving one push call to its end leaves alone. */
  ghost predicate OnlyPushMoved(s: State, t: State, p: nat) {
    && t.ejectors == s.ejectors
    && |t.pushers| == |s.pushers| && |t.queues| == |s.queues|
    && (forall r :: 0 <= r < |s.pushers| && r != p ==> t.pushers[r] == s.pushers[r])
    && forall x :: Queued(s, x) ==> Queued(t, x)
  }

  /** How far a push call is from its end when no lock attempt fails. */
  function Distance(pc: PushPc): nat {
    match pc
    case PushEntered => 4
    case PushSeeking => 3
    case PushProbing(_, _) => 2
    case PushStored => 1
    case PushBarred => 1
    case PushReturned(_) => 0
  }

  /** The next step of a push call, every lock attempt succeeding. */
  function NextPushAction(pc: PushPc, p: nat): Action {
    match pc
    case PushEntered => CheckPush(p)
    case PushSeeking => AimPush(p)
    case PushProbing(_, _) => ProbePush(p, true)
    case _ => LeavePush(p)
  }

  lemma PushAdvances(s: State, p: nat)
    requires Inv(s) && p < |s.pushers| && !s.pushers[p].PushReturned?
    ensures var t := Step(s, NextPushAction(s.pushers[p], p));
            && OnlyPushMoved(s, t, p)
            && Distance(t.pushers[p]) < Distance(s.pushers[p])
            && (Seeking(s.pushers[p]) ==> Seeking(t.pushers[p]) || Queued(t, p))
            && IsPush(NextPushAction(s.pushers[p], p))
  {
    assert p in BracketSet(s.pushers);
    if s.pushers[p].PushProbing? {
      var t := Step(s, ProbePush(p, true));
      var q := Probe(s.pushers[p].offset, s.pushers[p].i, |s.queues|);
      assert p in t.queues[q];
      forall x | Queued(s, x)
        ensures Queued(t, x)
      {
        var r :| 0 <= r < |s.queues| && x in s.queues[r];
        assert x in t.queues[r];
      }
    }
  }

  /** Any push call can run to its end; if it still had to store its thunk, the thunk is queued. */
  lemma {:induction false} FinishPush(s: State, p: nat) returns (acts: seq<Action>)
    requires Inv(s) && p < |s.pushers|
    ensures var t := Exec(s, acts);
            && Inv(t) && OnlyPushMoved(s, t, p) && t.pushers[p].PushReturned?
            && (Seeking(s.pushers[p]) ==> Queued(t, p))
    ensures PushSteps(acts)
    decreases Distance(s.pushers[p])
  {
    hide Ordered, Counted, Conserved, StoredOnce, PushBounds, PopBounds, EjectBounds;
    hide Queued, NextPushAction;
    if s.pushers[p].PushReturned? {
      acts := [];
    } else {
      var a := NextPushAction(s.pushers[p], p);
      PushAdvances(s, p);
      StepKeepsInv(s, a);
      assert Exec(s, [a]) == Step(s, a) by { ExecSnoc(s, [], a); }
      var rest := FinishPush(Step(s, a), p);
      acts := [a] + rest;
      ExecConcat(s, [a], rest);
    }
  }

  /** All push calls from number `k` on can run to their end. */
  lemma {:induction false} FinishPushes(s: State, k: nat) returns (acts: seq<Action>)
    requires Inv(s) && k <= |s.pushers|
    ensures var t := Exec(s, acts);
            && Inv(t) && t.ejectors == s.ejectors && |t.pushers| == |s.pushers|
            && (forall r :: 0 <= r < k ==> t.pushers[r] == s.pushers[r])
            && (forall r :: k <= r < |t.pushers| ==> t.pushers[r].PushReturned?)
            && (forall x :: Queued(s, x) ==> Queued(t, x))
            && (forall r :: k <= r < |s.pushers| && Seeking(s.pushers[r]) ==> Queued(t, r))
    ensures PushSteps(acts)
    decreases |s.pushers| - k
  {
    hide Inv, Exec, Queued;
    InvSized(s);
    assert Exec(s, []) == s by { NoSteps(s); }
    if k == |s.pushers| {
      acts := [];
    } else {
      var first := FinishPush(s, k);
      var rest := FinishPushes(Exec(s, first), k + 1);
      acts := first + rest;
      ExecConcat(s, first, rest);
    }
  }

  predicate PushesOver(s: State) {
    forall r :: 0 <= r < |s.pushers| ==> s.pushers[r].PushReturned?
  }

  predicate Returned(s: State, e: nat) { e < |s.ejectors| ==> s.ejectors[e].Executing? }

  /** When every push has returned, the test after the sweep ends the call. */
  lemma TestReturns(s: State, e: nat)
    requires Inv(s) && PushesOver(s) && e < |s.ejectors| && SweptOut(s, e)
    ensures var t := Step(s, TestEject(e));
            && Inv(t) && OnlyEjectMoved(s, t, e) && Returned(t, e) && t.queues == s.queues
  {
    hide Inv;
    InvSized(s);
    NobodyPushes(s);
    StepKeepsInv(s, TestEject(e));
  }

  lemma NobodyPushes(s: State)
    requires Inv(s) && PushesOver(s)
    ensures s.inPush == 0
  {
    hide Ordered, Conserved, StoredOnce, PushBounds, PopBounds, EjectBounds;
    assert BracketSet(s.pushers) == {};
  }

  /** Then all sweepers from number `k` on can return. */
  lemma {:induction false} FinishTests(s: State, k: nat) returns (acts: seq<Action>)
    requires Inv(s) && PushesOver(s) && k <= |s.ejectors|
    requires forall e: nat :: e < |s.ejectors| ==> SweptOut(s, e) && (e < k ==> Returned(s, e))
    ensures var t := Exec(s, acts);
            && Inv(t) && t.pushers == s.pushers && t.queues == s.queues && |t.ejectors| == |s.ejectors|
            && forall e: nat :: Returned(t, e)
    ensures EndingSteps(acts)
    decreases |s.ejectors| - k
  {
    hide Inv, Step;
    InvSized(s);
    if k == |s.ejectors| {
      acts := [];
    } else {
      var a := TestEject(k);
      TestReturns(s, k);
      assert Exec(s, [a]) == Step(s, a) by { ExecSnoc(s, [], a); }
      var t := Step(s, a);
      forall e: nat | e < |t.ejectors|
        ensures SweptOut(t, e) && (e < k + 1 ==> Returned(t, e))
      {
        assert SweptOut(s, e) && (e < k ==> Returned(s, e));
        assert e != k ==> t.ejectors[e] == s.ejectors[e];
      }
      var rest := FinishTests(t, k + 1);
      acts := [a] + rest;
      ExecConcat(s, [a], rest);
    }
  }

  /** Every push and every sweep that has begun can come to its end: first the sweeps, then the
      pushes, then the tests, so that whatever a push still had to store stays queued. */
  lemma FinishCalls(s: State) returns (acts: seq<Action>)
    requires Inv(s)
    ensures var t := Exec(s, acts);
            && Inv(t) && PushesOver(t) && |t.ejectors| == |s.ejectors| && (forall e: nat :: Returned(t, e))
            && forall p :: 0 <= p < |s.pushers| && Seeking(s.pushers[p]) ==> Queued(t, p)
    ensures EndingSteps(acts)
  {
    hide Inv, Step, Exec, Queued;
    InvSized(s);
    var sweeps := FinishSweeps(s, 0);
    var swept := Exec(s, sweeps);
    var pushes := FinishPushes(swept, 0);
    ExecConcat(s, sweeps, pushes);
    var pushed := Exec(s, sweeps + pushes);
    assert forall e: nat :: e < |pushed.ejectors| ==> SweptOut(swept, e) && pushed.ejectors[e] == swept.ejectors[e];
    var tests := FinishTests(pushed, 0);
    ExecConcat(s, sweeps + pushes, tests);
    SameQueued(pushed, Exec(pushed, tests));
    acts := sweeps + pushes + tests;
  }

  lemma SameQueued(s: State, t: State)
    requires t.queues == s.queues
    ensures forall x :: Queued(s, x) ==> Queued(t, x)
  {
  }

  /** With a seeker at large, the sweeper can return while the seeker's thunk stays queued. */
  lemma Strand(s: State, e: nat, p: nat) returns (acts: seq<Action>)
    requires Inv(s) && e < |s.ejectors|
    requires p < |s.pushers| && Seeking(s.pushers[p])
    ensures var t := Exec(s, acts);
            e < |t.ejectors| && t.ejectors[e].Executing? && !AllEmpty(t.queues)
  {
    acts := FinishCalls(s);
    assert Queued(Exec(s, acts), p) && Returned(Exec(s, acts), e);
  }

  /** In every continuation, the queues are all empty whenever this call has returned. */
  ghost predicate DrainGuaranteed(s: State, e: nat)
    requires Sized(s)
  {
    forall acts: seq<Action> ::
      var t := Exec(s, acts);
      e < |t.ejectors| && t.ejectors[e].Executing? ==> AllEmpty(t.queues)
  }

  /** At the start of a sweep `stop_and_eject` is certain to leave all queues empty if and only if
      no push stands between reading `is_done_` false and storing its thunk. The call itself tests
      `in_push_` only after the sweep. */
  lemma DrainIff(s: State, e: nat)
    requires Inv(s) && e < |s.ejectors| && s.ejectors[e].Sweeping? && s.ejectors[e].i == 0
    ensures DrainGuaranteed(s, e) <==> NoSeeker(s.pushers)
  {
    if NoSeeker(s.pushers) {
      forall acts: seq<Action>
        ensures var t := Exec(s, acts);
                e < |t.ejectors| && t.ejectors[e].Executing? ==> AllEmpty(t.queues)
      {
        SweptForever(s, e, acts);
      }
    } else {
      var p :| 0 <= p < |s.pushers| && Seeking(s.pushers[p]);
      var acts := Strand(s, e, p);
    }
  }

  /** The same for the whole call: `stop_and_eject` called in any reachable state drains for certain
      if and only if no push is then between its check and its store. */
  lemma StopAndEjectDrainsIff(n: nat, before: seq<Action>)
    requires n > 0
    ensures var s := Exec(Init(n), before);
            DrainGuaranteed(Step(s, EnterEject), |s.ejectors|) <==> NoSeeker(s.pushers)
  {
    InitInv(n);
    ExecKeepsInv(Init(n), before);
    CallDrainsIff(Exec(Init(n), before));
  }

  lemma CallDrainsIff(s: State)
    requires Inv(s)
    ensures DrainGuaranteed(EjectEnter(s), |s.ejectors|) <==> NoSeeker(s.pushers)
  {
    EjectEnterKeepsInv(s);
    DrainIff(EjectEnter(s), |s.ejectors|);
  }

  /** A sweep that starts when `in_push_` is zero empties every queue for good. Waiting for zero
      before the sweep, not after it, would therefore make the drain unconditional. */
  lemma SweepFromZeroDrainsForGood(s: State, e: nat, acts: seq<Action>, later: seq<Action>)
    requires Inv(s) && e < |s.ejectors| && s.ejectors[e].Sweeping? && s.ejectors[e].i == 0 && s.inPush == 0
    requires var t := Exec(s, acts);
             e < |t.ejectors| && (t.ejectors[e].Executing? || t.ejectors[e].i == |t.queues|)
    ensures AllEmpty(Exec(s, acts).queues) && AllEmpty(Exec(s, acts + later).queues)
  {
    ZeroMeansNoSeeker(s);
    SweptForever(s, e, acts);
    EmptyForever(Exec(s, acts), later);
    ExecConcat(s, acts, later);
  }

  // ---------------------------------------------------------------- first stored, first taken

  /** Step `a` taken in `s` empties queue `q` by an eject. */
  predicate EjectsQueue(s: State, a: Action, q: nat) {
    a.EjectQueue? && a.e < |s.ejectors| && s.ejectors[a.e].Sweeping? && s.ejectors[a.e].i == q
  }

  /** What step `a`, taken in `s`, stores on queue `q`: a push got the lock there. */
  function StoredNow(s: State, a: Action, q: nat): seq<nat>
    requires Sized(s)
  {
    if a.ProbePush? && a.locked && a.p < |s.pushers| && s.pushers[a.p].PushProbing? &&
       Probe(s.pushers[a.p].offset, s.pushers[a.p].i, |s.queues|) == q then [a.p]
    else []
  }

  /** What the caller of a `try_pop` or a `stop_and_eject` gets from queue `q` by the step. */
  function TakenNow(s: State, a: Action, q: nat): seq<nat>
    requires Sized(s) && q < |s.queues|
  {
    if a.ProbePop? && a.c < |s.poppers| && s.poppers[a.c].PopProbing? &&
       Probe(s.poppers[a.c].offset, s.poppers[a.c].i, |s.queues|) == q then
      var pc := PopProbe(s, a.c, a.locked).poppers[a.c];
      if pc.PopHolding? then [pc.thunk] else []
    else if EjectsQueue(s, a, q) then
      var before, after := s.ejectors[a.e].got, EjectOne(s, a.e).ejectors[a.e].got;
      if before <= after then after[|before|..] else after
    else []
  }

  /** All thunks stored on queue `q` during the run, in order ... */
  function StoredOn(n: nat, acts: seq<Action>, q: nat): seq<nat>
    requires n > 0
  {
    if acts == [] then []
    else
      StoredOn(n, acts[..|acts| - 1], q) + StoredNow(Exec(Init(n), acts[..|acts| - 1]), acts[|acts| - 1], q)
  }

  /** ... and all thunks that pops and ejects got from it. */
  function TakenFrom(n: nat, acts: seq<Action>, q: nat): seq<nat>
    requires q < n
  {
    if acts == [] then []
    else
      TakenFrom(n, acts[..|acts| - 1], q) + TakenNow(Exec(Init(n), acts[..|acts| - 1]), acts[|acts| - 1], q)
  }

  lemma FifoStep(s: State, a: Action, q: nat)
    requires Sized(s) && q < |s.queues|
    ensures s.queues[q] + StoredNow(s, a, q) == TakenNow(s, a, q) + Step(s, a).queues[q]
  {
    hide Probe;
    if a.ProbePop? && TakenNow(s, a, q) != [] {
      assert s.queues[q] == [s.queues[q][0]] + s.queues[q][1..];
    }
  }

  /** In every run, for every queue: whatever is stored on it is handed out in the order in which it was
      stored, to pops and ejects alike, and what was not handed out yet is its contents. */
  lemma {:induction false} FirstStoredFirstTaken(n: nat, acts: seq<Action>, q: nat)
    requires q < n
    ensures StoredOn(n, acts, q) == TakenFrom(n, acts, q) + Exec(Init(n), acts).queues[q]
  {
    hide Step, StoredNow, TakenNow;
    if acts != [] {
      var m := |acts| - 1;
      var s := Exec(Init(n), acts[..m]);
      FirstStoredFirstTaken(n, acts[..m], q);
      FifoStep(s, acts[m], q);
      assert TakenFrom(n, acts[..m], q) + s.queues[q] + StoredNow(s, acts[m], q) ==
             TakenFrom(n, acts[..m], q) + (s.queues[q] + StoredNow(s, acts[m], q));
    }
  }

  // ---------------------------------------------------------------- where a queued thunk comes from

  /** Step `k` of the run stored thunk `x` on queue `q`. */
  predicate StoredAt(n: nat, acts: seq<Action>, k: nat, x: nat, q: nat)
    requires n > 0 && k < |acts|
  {
    var s := Exec(Init(n), acts[..k]);
    && acts[k] == ProbePush(x, true) && x < |s.pushers| && s.pushers[x].PushProbing?
    && Probe(s.pushers[x].offset, s.pushers[x].i, n) == q
  }

  /** Step `k` of the run is push `x` reading `is_done_` false. */
  predicate PassedAt(n: nat, acts: seq<Action>, k: nat, x: nat)
    requires n > 0 && k < |acts|
  {
    var s := Exec(Init(n), acts[..k]);
    acts[k] == CheckPush(x) && x < |s.pushers| && s.pushers[x].PushEntered? && !s.done
  }

  /** Every push beyond its check has read `is_done_` false at some step of the run. */
  lemma {:induction false} SeekerPassed(n: nat, acts: seq<Action>, x: nat) returns (k: nat)
    requires n > 0
    requires var s := Exec(Init(n), acts);
             x < |s.pushers| && (Seeking(s.pushers[x]) || Accepted(s.pushers[x]))
    ensures k < |acts| && PassedAt(n, acts, k, x)
  {
    var m := |acts| - 1;
    var s := Exec(Init(n), acts[..m]);
    if x < |s.pushers| && (Seeking(s.pushers[x]) || Accepted(s.pushers[x])) {
      k := SeekerPassed(n, acts[..m], x);
      assert acts[..m][..k] == acts[..k];
    } else {
      k := m;
    }
  }

  /** Step `a` taken in `s` has put thunk `x` on queue `q`: it is a store, and no eject. */
  lemma StoredByStep(s: State, a: Action, x: nat, q: nat)
    requires Sized(s) && q < |s.queues| && x !in s.queues[q] && x in Step(s, a).queues[q]
    ensures a == ProbePush(x, true) && x < |s.pushers| && s.pushers[x].PushProbing?
    ensures Probe(s.pushers[x].offset, s.pushers[x].i, |s.queues|) == q
  {
    hide Probe;
  }

  lemma EjectEmpties(s: State, a: Action, q: nat)
    requires Sized(s) && q < |s.queues| && EjectsQueue(s, a, q)
    ensures Step(s, a).queues[q] == []
  {
    hide Probe;
  }

  /** A thunk found on queue `q` was stored there after the last eject of `q`. */
  lemma {:induction false} QueuedStoredAfterLastEject(n: nat, acts: seq<Action>, x: nat, q: nat) returns (k: nat)
    requires n > 0 && q < n
    requires x in Exec(Init(n), acts).queues[q]
    ensures k < |acts| && StoredAt(n, acts, k, x, q)
    ensures forall j :: k < j < |acts| ==> !EjectsQueue(Exec(Init(n), acts[..j]), acts[j], q)
  {
    hide Probe, Step, EjectsQueue;
    if acts != [] {
      var m := |acts| - 1;
      var s := Exec(Init(n), acts[..m]);
      if x in s.queues[q] {
        k := QueuedStoredAfterLastEject(n, acts[..m], x, q);
        assert acts[..m][..k] == acts[..k];
        forall j | k < j < |acts|
          ensures !EjectsQueue(Exec(Init(n), acts[..j]), acts[j], q)
        {
          if j < m {
            assert acts[..m][..j] == acts[..j];
          } else if EjectsQueue(s, acts[m], q) {
            EjectEmpties(s, acts[m], q);
          }
        }
      } else {
        StoredByStep(s, acts[m], x, q);
        k := m;
      }
    } else {
      assert false;
    }
  }

  /** Any thunk still queued came from a push that read `is_done_` false, before any
      `signal_done`, and that stored it after the last eject of its queue. */
  lemma StrandedOrigin(n: nat, acts: seq<Action>, x: nat, q: nat) returns (r: nat, k: nat)
    requires n > 0 && q < n
    requires x in Exec(Init(n), acts).queues[q]
    ensures r < k < |acts| && PassedAt(n, acts, r, x) && StoredAt(n, acts, k, x, q)
    ensures forall j :: 0 <= j <= r ==> !Exec(Init(n), acts[..j]).done
    ensures forall j :: k < j < |acts| ==> !EjectsQueue(Exec(Init(n), acts[..j]), acts[j], q)
  {
    k := QueuedStoredAfterLastEject(n, acts, x, q);
    r := SeekerPassed(n, acts[..k], x);
    assert acts[..k][..r] == acts[..r];
    forall j | 0 <= j <= r
      ensures !Exec(Init(n), acts[..j]).done
    {
      DoneIsStable(Init(n), acts[..r], j);
      assert acts[..r][..j] == acts[..j];
    }
  }

  lemma {:induction false} DoneIsStable(s: State, acts: seq<Action>, j: nat)
    requires Sized(s) && j <= |acts|
    ensures Exec(s, acts[..j]).done ==> Exec(s, acts).done
  {
    if j == |acts| {
      assert acts[..j] == acts;
    } else {
      var m := |acts| - 1;
      DoneIsStable(s, acts[..m], j);
      assert acts[..m][..j] == acts[..j];
    }
  }

  /** A state of the run below. */
  function TwoQueues(queues: seq<seq<nat>>, inserted: seq<seq<nat>>, pc: PushPc, inPush: nat, pushIndex: nat,
                     ejectors: seq<EjectPc>): State
  {
    State(queues, inserted, [[], []], ejectors != [], inPush, pushIndex, 0, [pc], [], ejectors)
  }

  /** Two queues, one push, one eject: the push stores behind the sweep and leaves before the test,
      so its thunk stays behind when `stop_and_eject` has returned. */
  lemma StrandingRun() returns (acts: seq<Action>)
    ensures Exec(Init(2), acts) ==
            TwoQueues([[0], []], [[0], []], PushReturned(true), 0, 1, [Executing([], 0)])
  {
    acts := StrandingRunSweep();
    var none: seq<seq<nat>>, q: seq<seq<nat>> := [[], []], [[0], []];
    assert Probe(0, 0, 2) == 0;
    assert none[0] + [0] == [0];
    assert none[0 := [0]] == q;
    acts := Reach(Init(2), acts, ProbePush(0, true), TwoQueues(q, q, PushStored, 1, 1, [Sweeping(2, [])]));
    acts := Reach(Init(2), acts, LeavePush(0), TwoQueues(q, q, PushReturned(true), 0, 1, [Sweeping(2, [])]));
    acts := Reach(Init(2), acts, TestEject(0), TwoQueues(q, q, PushReturned(true), 0, 1, [Executing([], 0)]));
  }

  lemma StrandingRunStart() returns (acts: seq<Action>)
    ensures Exec(Init(2), acts) == TwoQueues([[], []], [[], []], PushSeeking, 1, 0, [Sweeping(0, [])])
  {
    var none := [[], []];
    acts := Reach(Init(2), [], EnterPush, TwoQueues(none, none, PushEntered, 1, 0, []));
    acts := Reach(Init(2), acts, CheckPush(0), TwoQueues(none, none, PushSeeking, 1, 0, []));
    acts := Reach(Init(2), acts, EnterEject, TwoQueues(none, none, PushSeeking, 1, 0, [Sweeping(0, [])]));
  }

  lemma StrandingRunSweep() returns (acts: seq<Action>)
    ensures Exec(Init(2), acts) == TwoQueues([[], []], [[], []], PushProbing(0, 0), 1, 1, [Sweeping(2, [])])
  {
    acts := StrandingRunStart();
    var none: seq<seq<nat>> := [[], []];
    var nothing: seq<nat> := [];
    assert nothing + nothing == nothing && nothing[0..] == nothing && nothing[..0] == nothing;
    assert none[0 := nothing] == none && none[1 := nothing] == none;
    acts := Reach(Init(2), acts, EjectQueue(0), TwoQueues(none, none, PushSeeking, 1, 0, [Sweeping(1, [])]));
    acts := Reach(Init(2), acts, EjectQueue(0), TwoQueues(none, none, PushSeeking, 1, 0, [Sweeping(2, [])]));
    acts := Reach(Init(2), acts, AimPush(0), TwoQueues(none, none, PushProbing(0, 0), 1, 1, [Sweeping(2, [])]));
  }

  /** One more step, which leads to `u`. */
  lemma Reach(s: State, acts: seq<Action>, a: Action, u: State) returns (more: seq<Action>)
    requires Sized(s) && Step(Exec(s, acts), a) == u
    ensures more == acts + [a] && Exec(s, more) == u
  {
    more := Extend(s, acts, a);
  }
}
