/** What holds of an `ExecutionContext` over whole runs, for any number of posters, workers, queues,
    servers and callers of `stop`. */
module ContextTheorems {
  import opened Scan
  import opened CompletionQueue
  import opened ContextProtocol
  import opened ContextInvariant
  import Bags
  import Server = ServerHandlers
  import Tasks = QueueProtocol
  import TaskTheorems = QueueTheorems

  /** A context with `nThreads` workers and `nClients` client queues. */
  predicate Sensible(nThreads: nat, nClients: nat) {
    nThreads > 0 && nClients > 0 && nThreads + nClients <= U32
  }

  function After(nThreads: nat, nClients: nat, acts: seq<Action>): (s: State)
    requires Sensible(nThreads, nClients)
    ensures Tasks.Sized(s.tasks)
  {
    Exec(Init(nThreads, nClients), acts)
  }

  lemma Reached(nThreads: nat, nClients: nat, acts: seq<Action>)
    requires Sensible(nThreads, nClients)
    ensures Inv(After(nThreads, nClients, acts))
  {
    InitInv(nThreads, nClients);
    ExecKeepsInv(Init(nThreads, nClients), acts);
  }

  // ---------------------------------------------------------------- posting and shutdown

  /** As long as some post holds a positive check, no queue has been shut down; so no event is ever
      created on a queue after its Shutdown. `within_cq_post_` counts the posts in the bracket. */
  lemma NoEventAfterShutdown(nThreads: nat, nClients: nat, acts: seq<Action>, p: nat, g: nat, i: nat)
    requires Sensible(nThreads, nClients)
    ensures var s := After(nThreads, nClients, acts);
            && s.within == |BracketSet(s.posters)|
            && (p < |s.posters| && s.posters[p].pc.PostAllowed? && g < |s.groups| && i < |s.groups[g]| ==>
                  !CqOf(s.groups[g][i]).down)
  {
    Reached(nThreads, nClients, acts);
    var s := After(nThreads, nClients, acts);
    if p < |s.posters| && s.posters[p].pc.PostAllowed? {
      assert !SawZero(s.stop);
      assert !Halted(s.stop, g, i);
    }
  }

  /** The worker exits that `stop` waits for mean that every queue is drained. */
  lemma StoppedIsDrained(s: State)
    requires Inv(s) && s.life.Stopped?
    ensures AllDrained(s.groups)
  {
    assert s.workers[0].Exited?;
    assert Left(s.workers[0]);
  }

  /** In every Stopped state: every event that a post created has been completed exactly once, no
      other was, no queue owes a tag, and no server handler is left. */
  lemma StoppedCompletesEverything(nThreads: nat, nClients: nat, acts: seq<Action>)
    requires Sensible(nThreads, nClients)
    ensures var s := After(nThreads, nClients, acts);
            s.life.Stopped? ==>
              && (forall p: nat :: p < |s.posters| ==>
                    s.posters[p].completions == if Accepted(s.posters[p].pc) then 1 else 0)
              && (forall g: nat, i: nat :: g < |s.groups| && i < |s.groups[g]| ==>
                    && CqOf(s.groups[g][i]).down && Outstanding(CqOf(s.groups[g][i])) == {}
                    && (s.groups[g][i].ServerSide? ==> s.groups[g][i].server.handlers == map[]))
  {
    Reached(nThreads, nClients, acts);
    var s := After(nThreads, nClients, acts);
    if s.life.Stopped? {
      StoppedIsDrained(s);
      forall p: nat | p < |s.posters|
        ensures s.posters[p].completions == if Accepted(s.posters[p].pc) then 1 else 0
      {
        CompletedAtLast(s, p);
      }
      forall g: nat, i: nat | g < |s.groups| && i < |s.groups[g]|
        ensures CqOf(s.groups[g][i]).down && Outstanding(CqOf(s.groups[g][i])) == {}
        ensures s.groups[g][i].ServerSide? ==> s.groups[g][i].server.handlers == map[]
      {
        assert DrainedAt(s.groups, g, i);
        if s.groups[g][i].ServerSide? {
          Server.DrainedIsFinal(s.groups[g][i].server, Server.ShutDownQueue);
        }
      }
    }
  }

  lemma CompletedAtLast(s: State, p: nat)
    requires Inv(s) && AllDrained(s.groups) && p < |s.posters|
    ensures s.posters[p].completions == if Accepted(s.posters[p].pc) then 1 else 0
  {
    if Accepted(s.posters[p].pc) {
      var q := s.posters[p].queue;
      assert DrainedAt(s.groups, 0, q);
      assert p !in Outstanding(s.groups[0][q].client);
      assert !Owed(s.posters, p, q);
    }
  }

  // ---------------------------------------------------------------- stop and its notifications

  function Rank(life: Life): nat {
    match life case Ready => 0 case Running => 1 case ShuttingDown => 2 case Stopped => 3
  }

  /** The state of the context changes only as `set_state_` allows. */
  lemma LifeStep(s: State, a: Action)
    requires Tasks.Sized(s.tasks) && (s.stop.Joining? ==> s.life.ShuttingDown?)
    ensures Step(s, a).life == s.life || Follows(s.life, Step(s, a).life)
    ensures Rank(s.life) <= Rank(Step(s, a).life)
  {
  }

  lemma JoiningIsShuttingDown(s: State)
    requires Inv(s)
    ensures s.stop.Joining? ==> s.life.ShuttingDown?
  {
  }

  /** The state of the context only moves forward. */
  lemma {:induction false} LifeMovesForward(s: State, acts: seq<Action>)
    requires Inv(s)
    ensures Rank(s.life) <= Rank(Exec(s, acts).life)
  {
    if acts != [] {
      var before := Exec(s, acts[..|acts| - 1]);
      LifeMovesForward(s, acts[..|acts| - 1]);
      ExecKeepsInv(s, acts[..|acts| - 1]);
      JoiningIsShuttingDown(before);
      LifeStep(before, acts[|acts| - 1]);
    }
  }

  /** At most one call of `stop` wins; nothing is notified before all workers are joined; what was
      notified is a prefix of what was accepted; and once the winner has returned, everything
      accepted was notified, once, in order of acceptance. */
  lemma NotificationsInOrder(nThreads: nat, nClients: nat, acts: seq<Action>)
    requires Sensible(nThreads, nClients)
    ensures var s := After(nThreads, nClients, acts);
            && multiset(s.stopCalls)[true] <= 1
            && s.notified <= s.accepted
            && (s.notified != [] ==> s.life.Stopped? && forall w: nat :: w < |s.workers| ==> s.workers[w].Exited?)
            && (s.stop.StopReturned? ==> s.notified == s.accepted)
  {
    Reached(nThreads, nClients, acts);
  }

  // ---------------------------------------------------------------- leaving the main loop

  /** The worker breaks out of its loop exactly when its counters agree. Then it has executed no
      completion event in this pass, and every client and server queue is shut down and drained. */
  lemma WorkerLeavesOnlyWhenDrained(nThreads: nat, nClients: nat, acts: seq<Action>, w: nat)
    requires Sensible(nThreads, nClients)
    ensures var s := After(nThreads, nClients, acts);
            w < |s.workers| && s.workers[w].Polling? && s.workers[w].g == |s.groups| ==>
              && (DoEndPass(s, w).workers[w].Ejecting? <==> s.workers[w].shut == s.workers[w].total)
              && s.workers[w].total == Before(s.groups, |s.groups|)
              && (s.workers[w].shut == s.workers[w].total ==> s.workers[w].executed == 0 && AllDrained(s.groups))
  {
    Reached(nThreads, nClients, acts);
    var s := After(nThreads, nClients, acts);
    if w < |s.workers| && s.workers[w].Polling? && s.workers[w].g == |s.groups| {
      assert PassOk(s.groups, w, s.workers[w]);
      if s.workers[w].shut == s.workers[w].total {
        PassEnd(s.groups, w, s.workers[w]);
      }
    }
  }

  /** The groups have the same number of queues. */
  ghost predicate SameSizes(groups: seq<seq<Queue>>, after: seq<seq<Queue>>) {
    |after| == |groups| && forall g: nat :: g < |groups| ==> |after[g]| == |groups[g]|
  }

  lemma StepFreezesGroups(s: State, a: Action)
    requires Tasks.Sized(s.tasks) && !s.life.Ready?
    ensures !Step(s, a).life.Ready? && SameSizes(s.groups, Step(s, a).groups)
  {
    hide DoBeginPost, DoEnterPost, DoCheckPost, DoCreateEvent, DoLeavePost, DoTellRefusal;
    if IsPost(a) {
      PostFrame(s, a);
    }
  }

  /** Once the context is not Ready the set of queues is frozen: what the workers poll is what
      `stop` shuts down. */
  lemma {:induction false} GroupsFrozen(s: State, acts: seq<Action>)
    requires Tasks.Sized(s.tasks) && !s.life.Ready?
    ensures !Exec(s, acts).life.Ready? && SameSizes(s.groups, Exec(s, acts).groups)
  {
    if acts != [] {
      GroupsFrozen(s, acts[..|acts| - 1]);
      StepFreezesGroups(Exec(s, acts[..|acts| - 1]), acts[|acts| - 1]);
    }
  }

  // ---------------------------------------------------------------- after stop

  /** A post that can only end refused. */
  predicate Refusable(pc: PostPc) { pc.PostBegun? || pc.PostEntered? || pc.PostRefused? || pc == PostReturned(false) }

  predicate TaskRefusable(pc: Tasks.PushPc) { pc.PushEntered? || pc.PushBarred? || pc == Tasks.PushReturned(false) }

  /** The context is stopped, and the posts from number `k` and the task pushes from number `m` on
      can only be refused. */
  ghost predicate Over(s: State, k: nat, m: nat) {
    && Tasks.Sized(s.tasks)
    && s.life.Stopped? && s.tasks.done && (s.stop.Notifying? || s.stop.StopReturned?)
    && (forall w: nat :: w < |s.workers| ==> s.workers[w].Exited?)
    && (forall p: nat :: k <= p < |s.posters| ==> Refusable(s.posters[p].pc))
    && (forall p: nat :: m <= p < |s.tasks.pushers| ==> TaskRefusable(s.tasks.pushers[p]))
  }

  lemma PushStaysRefusable(t: Tasks.State, a: Tasks.Action, m: nat)
    requires Tasks.Sized(t) && t.done && Tasks.IsPush(a)
    requires forall p: nat :: m <= p < |t.pushers| ==> TaskRefusable(t.pushers[p])
    ensures var u := Tasks.Step(t, a);
            u.done && forall p: nat :: m <= p < |u.pushers| ==> TaskRefusable(u.pushers[p])
  {
  }

  lemma OverPostTask(s: State, a: Tasks.Action, k: nat, m: nat)
    requires Over(s, k, m)
    ensures var t := DoPostTask(s, a);
            && Over(t, k, m)
            && t.tasks.poppers == s.tasks.poppers && t.tasks.ejectors == s.tasks.ejectors && t.accepted == s.accepted
  {
    if Tasks.IsPush(a) {
      PushLeavesCalls(s.tasks, a);
      PushStaysRefusable(s.tasks, a, m);
    }
  }

  /** The steps that a stopped context can still take change no call of the task queue. */
  lemma OverStep(s: State, a: Action, k: nat, m: nat)
    requires Over(s, k, m)
    ensures var t := Step(s, a);
            && Over(t, k, m)
            && t.tasks.poppers == s.tasks.poppers && t.tasks.ejectors == s.tasks.ejectors
            && t.accepted == s.accepted
  {
    hide DoPostTask, DoPoll, DoBeginPost, DoEnterPost, DoCheckPost, DoCreateEvent, DoLeavePost, DoTellRefusal;
    if a.PostTask? {
      OverPostTask(s, a.a, k, m);
    } else if IsPost(a) {
      OverPost(s, a, k, m);
    } else if a.Poll? {
      assert DoPoll(s, a.w, a.answer, a.status, a.conversion, a.throws) == s by { OverPoll(s, a, k, m); }
    }
  }

  lemma OverPost(s: State, a: Action, k: nat, m: nat)
    requires Over(s, k, m) && IsPost(a)
    ensures Over(Step(s, a), k, m) && Step(s, a).tasks == s.tasks && Step(s, a).accepted == s.accepted
  {
    hide Register;
  }

  lemma OverPoll(s: State, a: Action, k: nat, m: nat)
    requires Over(s, k, m) && a.Poll?
    ensures DoPoll(s, a.w, a.answer, a.status, a.conversion, a.throws) == s
  {
  }

  lemma {:induction false} OverForever(s: State, acts: seq<Action>, k: nat, m: nat)
    requires Over(s, k, m)
    ensures var t := Exec(s, acts);
            && Over(t, k, m)
            && t.tasks.poppers == s.tasks.poppers && t.tasks.ejectors == s.tasks.ejectors
            && t.accepted == s.accepted
  {
    if acts != [] {
      OverForever(s, acts[..|acts| - 1], k, m);
      OverStep(Exec(s, acts[..|acts| - 1]), acts[|acts| - 1], k, m);
    }
  }

  lemma StoppedIsOver(s: State)
    requires Inv(s) && s.life.Stopped?
    ensures Over(s, |s.posters|, |s.tasks.pushers|)
  {
    assert s.workers[0].Exited?;
  }

  /** After the context has become Stopped, whatever happens: every post and every task push that
      begins later is refused, no thunk starts running, and no notification is accepted. */
  lemma NothingAfterStop(nThreads: nat, nClients: nat, acts: seq<Action>, later: seq<Action>)
    requires Sensible(nThreads, nClients) && After(nThreads, nClients, acts).life.Stopped?
    ensures var s := After(nThreads, nClients, acts);
            var t := Exec(s, later);
            && (forall p: nat :: |s.posters| <= p < |t.posters| ==> Refusable(t.posters[p].pc))
            && (forall p: nat :: |s.tasks.pushers| <= p < |t.tasks.pushers| ==> TaskRefusable(t.tasks.pushers[p]))
            && Tasks.Ran(t.tasks.poppers, t.tasks.ejectors) == Tasks.Ran(s.tasks.poppers, s.tasks.ejectors)
            && t.accepted == s.accepted && t.life.Stopped?
  {
    Reached(nThreads, nClients, acts);
    var s := After(nThreads, nClients, acts);
    StoppedIsOver(s);
    OverForever(s, later, |s.posters|, |s.tasks.pushers|);
  }

  // ---------------------------------------------------------------- each thunk

  lemma OverCallsRanAll(poppers: seq<Tasks.PopPc>, ejectors: seq<Tasks.EjectPc>)
    requires forall c: nat :: c < |poppers| ==> PopOver(poppers[c])
    requires forall e: nat :: e < |ejectors| ==> EjectOver(ejectors[e])
    ensures Tasks.Ran(poppers, ejectors) == Bags.Total(Tasks.PopBags(poppers)) + Bags.Total(Tasks.EjectBags(ejectors))
  {
    assert Tasks.PopRanBags(poppers) == Tasks.PopBags(poppers);
    forall e: nat | e < |ejectors|
      ensures Tasks.EjectRanBag(ejectors[e]) == Tasks.EjectBag(ejectors[e])
    {
      assert ejectors[e].got[..ejectors[e].k] == ejectors[e].got;
    }
    assert Tasks.EjectRanBags(ejectors) == Tasks.EjectBags(ejectors);
  }

  lemma AllCallsOver(s: State)
    requires Inv(s) && s.life.Stopped?
    ensures forall c: nat :: c < |s.tasks.poppers| ==> PopOver(s.tasks.poppers[c])
    ensures forall e: nat :: e < |s.tasks.ejectors| ==> EjectOver(s.tasks.ejectors[e])
  {
  }

  /** How often thunk `x` was executed, how often it is still queued, and how often it was accepted. */
  ghost function Runs(s: State, x: nat): nat { Tasks.Ran(s.tasks.poppers, s.tasks.ejectors)[x] }

  ghost function LeftOver(s: State, x: nat): nat { Bags.Total(Tasks.QueueBags(s.tasks.queues))[x] }

  function Posted(s: State, x: nat): nat {
    if x < |s.tasks.pushers| && Tasks.Accepted(s.tasks.pushers[x]) then 1 else 0
  }

  lemma ThunkAccount(s: State, x: nat)
    requires Inv(s)
    ensures Runs(s, x) <= Posted(s, x)
    ensures s.life.Stopped? ==> Runs(s, x) + LeftOver(s, x) == Posted(s, x)
  {
    TaskTheorems.RanIsHeld(s.tasks.queues, s.tasks.poppers, s.tasks.ejectors);
    if s.life.Stopped? {
      AllCallsOver(s);
      OverCallsRanAll(s.tasks.poppers, s.tasks.ejectors);
    }
  }

  /** Over the whole run each thunk starts at most once, and only if its push was accepted. In a
      Stopped state an accepted thunk has either run, or was left behind in the task queue. */
  lemma EachThunkRunsOnceOrStrands(nThreads: nat, nClients: nat, acts: seq<Action>, x: nat)
    requires Sensible(nThreads, nClients)
    ensures var s := After(nThreads, nClients, acts);
            && Runs(s, x) <= Posted(s, x)
            && (s.life.Stopped? ==> Runs(s, x) + LeftOver(s, x) == Posted(s, x))
  {
    Reached(nThreads, nClients, acts);
    ThunkAccount(After(nThreads, nClients, acts), x);
  }

  lemma SweptPop(s: State, w: nat, locked: bool, e: nat)
    requires Tasks.Sized(s.tasks) && TaskTheorems.Swept(s.tasks, e)
    ensures TaskTheorems.Swept(DoPop(s, w, locked).tasks, e)
  {
    hide TaskTheorems.Swept;
    if w < |s.workers| && s.workers[w].Popping? {
      TaskTheorems.SweptStep(s.tasks, Tasks.ProbePop(s.workers[w].call, locked), e);
      TaskTheorems.SweptStep(s.tasks, Tasks.RunPop(s.workers[w].call), e);
    }
  }

  lemma SweptEject(s: State, w: nat, e: nat)
    requires Tasks.Sized(s.tasks) && TaskTheorems.Swept(s.tasks, e)
    ensures TaskTheorems.Swept(DoEject(s, w).tasks, e)
  {
    hide TaskTheorems.Swept;
    if w < |s.workers| && s.workers[w].Ejecting? {
      TaskTheorems.SweptStep(s.tasks, Tasks.EjectQueue(s.workers[w].call), e);
      TaskTheorems.SweptStep(s.tasks, Tasks.TestEject(s.workers[w].call), e);
      TaskTheorems.SweptStep(s.tasks, Tasks.RunEject(s.workers[w].call), e);
    }
  }

  /** No step of the context spoils a sweep that began with no push between check and store. */
  lemma SweptByContext(s: State, a: Action, e: nat)
    requires Tasks.Sized(s.tasks) && TaskTheorems.Swept(s.tasks, e)
    ensures TaskTheorems.Swept(Step(s, a).tasks, e)
  {
    hide TaskTheorems.Swept, DoPop, DoEject;
    hide DoBeginPost, DoEnterPost, DoCheckPost, DoCreateEvent, DoLeavePost, DoTellRefusal;
    if IsPost(a) {
      PostFrame(s, a);
    }
    match a
    case PostTask(b) => TaskTheorems.SweptStep(s.tasks, b, e);
    case EndPass(w) =>
      TaskTheorems.SweptStep(s.tasks, Tasks.EnterEject, e);
      TaskTheorems.SweptStep(s.tasks, Tasks.EnterPop, e);
    case Pop(w, locked) => SweptPop(s, w, locked, e);
    case Eject(w) => SweptEject(s, w, e);
    case _ =>
  }

  lemma {:induction false} SweptByRun(s: State, acts: seq<Action>, e: nat)
    requires Tasks.Sized(s.tasks) && TaskTheorems.Swept(s.tasks, e)
    ensures TaskTheorems.Swept(Exec(s, acts).tasks, e)
  {
    if acts != [] {
      SweptByRun(s, acts[..|acts| - 1], e);
      SweptByContext(Exec(s, acts[..|acts| - 1]), acts[|acts| - 1], e);
    }
  }

  lemma {:induction false} EmptyQueuesHoldNothing(queues: seq<seq<nat>>)
    requires TaskTheorems.AllEmpty(queues)
    ensures Bags.Total(Tasks.QueueBags(queues)) == multiset{}
  {
    if queues != [] {
      EmptyQueuesHoldNothing(queues[1..]);
      assert Tasks.QueueBags(queues)[1..] == Tasks.QueueBags(queues[1..]);
    }
  }

  /** The worker leaves its main loop, and no push stands between its check and its store. */
  predicate LeavesQuietly(s: State, w: nat) {
    && w < |s.workers| && s.workers[w].Polling?
    && s.workers[w].g == |s.groups| && s.workers[w].shut == s.workers[w].total
    && TaskTheorems.NoSeeker(s.tasks.pushers)
  }

  /** If at least one worker leaves its main loop quietly, then every accepted thunk has run exactly
      once by the time the context is Stopped, and none is left behind. */
  lemma QuietLeaverRunsAll(nThreads: nat, nClients: nat, acts: seq<Action>, w: nat, later: seq<Action>, x: nat)
    requires Sensible(nThreads, nClients) && LeavesQuietly(After(nThreads, nClients, acts), w)
    ensures var t := Exec(Step(After(nThreads, nClients, acts), EndPass(w)), later);
            t.life.Stopped? ==> Runs(t, x) == Posted(t, x) && LeftOver(t, x) == 0
  {
    Reached(nThreads, nClients, acts);
    QuietLeaver(After(nThreads, nClients, acts), w, later, x);
  }

  lemma QuietLeaver(s: State, w: nat, later: seq<Action>, x: nat)
    requires Inv(s) && LeavesQuietly(s, w)
    ensures var t := Exec(Step(s, EndPass(w)), later);
            t.life.Stopped? ==> Runs(t, x) == Posted(t, x) && LeftOver(t, x) == 0
  {
    var t := Exec(Step(s, EndPass(w)), later);
    StepKeepsInv(s, EndPass(w));
    ExecKeepsInv(Step(s, EndPass(w)), later);
    if t.life.Stopped? {
      QuietLeaverEmpties(s, w, later);
      EmptyQueuesHoldNothing(t.tasks.queues);
      ThunkAccount(t, x);
    }
  }

  lemma QuietLeaverEmpties(s: State, w: nat, later: seq<Action>)
    requires Inv(s) && LeavesQuietly(s, w)
    ensures var t := Exec(Step(s, EndPass(w)), later);
            t.life.Stopped? ==> TaskTheorems.AllEmpty(t.tasks.queues)
  {
    hide Inv, Exec, TaskTheorems.NoSeeker, TaskTheorems.AllEmpty;
    InvSized(s);
    var e, left := |s.tasks.ejectors|, Step(s, EndPass(w));
    assert left.tasks == Tasks.EjectEnter(s.tasks);
    StepKeepsInv(s, EndPass(w));
    ExecKeepsInv(left, later);
    SweptByRun(left, later, e);
    if Exec(left, later).life.Stopped? {
      AllCallsOver(Exec(left, later));
    }
  }

  // ---------------------------------------------------------------- calls that nothing interrupts

  /** Nothing changes that has nothing to do with posting. */
  predicate SameBesidesPosts(s: State, t: State) {
    && t.nThreads == s.nThreads && t.life == s.life && t.notifications == s.notifications && t.workers == s.workers
    && t.tasks == s.tasks
  }

  /** A `post` that no other call interrupts: what `ExecutionContext.Post` ensures. */
  lemma PostAlone(s: State, kind: Kind)
    requires Inv(s)
    ensures var p := |s.posters|;
            var t := Step(Step(Step(Step(Step(s, BeginPost(kind)), EnterPost(p)), CheckPost(p)), CreateEvent(p)),
                          LeavePost(p));
            && t.within == s.within && |t.posters| == p + 1 && t.posters[p].pc == PostReturned(Open(s.life))
            && SameBesidesPosts(s, t)
            && if Open(s.life) then
                 var q := s.nextWrite % |s.groups[0]|;
                 && t.groups == SetQueue(s.groups, 0, q, Client(Register(s.groups[0][q].client, p)))
                 && t.nextWrite == (s.nextWrite + 1) % U64
               else t.groups == s.groups && t.nextWrite == s.nextWrite
  {
    hide Inv, Step;
    InvSized(s);
    var p := |s.posters|;
    ClientsFirst(s);
    PostHead(s, kind);
    PostTail(Step(Step(Step(s, BeginPost(kind)), EnterPost(p)), CheckPost(p)), p);
  }

  lemma ClientsFirst(s: State)
    requires Inv(s)
    ensures s.groups != [] && s.groups[0] != [] && forall i: nat :: i < |s.groups[0]| ==> s.groups[0][i].Client?
  {
    hide Lives, Counted, NoneAllowed, Downs, StopBounds, Events, Told, ServersOk, Tasks.Inv, PopCalls, EjectCalls,
         Passes, Leavers, Notes;
  }

  lemma PostHead(s: State, kind: Kind)
    requires Tasks.Sized(s.tasks)
    ensures var p := |s.posters|;
            var t := Step(Step(Step(s, BeginPost(kind)), EnterPost(p)), CheckPost(p));
            && t.within == s.within + 1 && |t.posters| == p + 1
            && t.posters[p].pc == (if Open(s.life) then PostAllowed else PostRefused)
            && t.groups == s.groups && t.nextWrite == s.nextWrite && t.tasks == s.tasks && SameBesidesPosts(s, t)
  {
  }

  lemma PostTail(s: State, p: nat)
    requires Tasks.Sized(s.tasks) && s.within > 0
    requires |s.posters| == p + 1 && (s.posters[p].pc.PostAllowed? || s.posters[p].pc.PostRefused?)
    requires s.groups != [] && s.groups[0] != [] && forall i: nat :: i < |s.groups[0]| ==> s.groups[0][i].Client?
    ensures var t := Step(Step(s, CreateEvent(p)), LeavePost(p));
            && t.within == s.within - 1 && |t.posters| == p + 1 && SameBesidesPosts(s, t)
            && t.posters[p].pc == PostReturned(s.posters[p].pc.PostAllowed?)
            && if s.posters[p].pc.PostAllowed? then
                 var q := s.nextWrite % |s.groups[0]|;
                 && t.groups == SetQueue(s.groups, 0, q, Client(Register(s.groups[0][q].client, p)))
                 && t.nextWrite == (s.nextWrite + 1) % U64
               else t.groups == s.groups && t.nextWrite == s.nextWrite
  {
    assert s.groups[0][s.nextWrite % |s.groups[0]|].Client?;
  }
}
