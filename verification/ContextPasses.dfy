/** The main loop of a worker, pass by pass: each pass that does not end the loop tries the task queue
    once, and a pass that nothing interrupts counts as `ExecutionContext.RunGroup` says. */
module ContextPasses {
  import opened Scan
  import opened CompletionQueue
  import opened ContextProtocol
  import opened ContextInvariant
  import opened ContextProgress
  import opened ContextTheorems
  import opened ExecutionContext
  import Bags
  import Histories = ContextHistories
  import Rpc = RpcSignals
  import Scans = QueueScans
  import Server = ServerHandlers
  import Tasks = QueueProtocol
  import TaskTheorems = QueueTheorems

  // ---------------------------------------------------------------- one try_pop a pass

  /** How many of the calls worker `w` has made. */
  function Calls(owner: seq<nat>, w: nat): nat { multiset(owner)[w] }

  /** The worker gets (back) to the top of its loop. */
  predicate Arrives(s: State, t: State, w: nat) {
    w < |s.workers| && w < |t.workers| && s.workers[w] != TOP && t.workers[w] == TOP
  }

  /** How often worker `w` has come back to the top of its loop during the run. */
  function Arrivals(s: State, acts: seq<Action>, w: nat): nat
    requires Tasks.Sized(s.tasks)
  {
    if acts == [] then 0
    else
      var before := Exec(s, acts[..|acts| - 1]);
      Arrivals(s, acts[..|acts| - 1], w) + if Arrives(before, Step(before, acts[|acts| - 1]), w) then 1 else 0
  }

  predicate InPop(s: State, w: nat) { w < |s.workers| && s.workers[w].Popping? }

  predicate HasLeft(s: State, w: nat) { w < |s.workers| && Left(s.workers[w]) }

  /** A call of `try_pop` begins when the worker enters it, and the worker arrives at the top when it leaves
      it; a call of `stop_and_eject` begins when the worker leaves its loop. */
  ghost predicate CallsFollow(s: State, t: State, w: nat) {
    && Calls(t.popOwner, w) + (if InPop(s, w) then 1 else 0) ==
       Calls(s.popOwner, w) + (if Arrives(s, t, w) then 1 else 0) + (if InPop(t, w) then 1 else 0)
    && Calls(t.ejectOwner, w) + (if HasLeft(s, w) then 1 else 0) ==
       Calls(s.ejectOwner, w) + (if HasLeft(t, w) then 1 else 0)
  }

  lemma CallsSame(s: State, t: State, w: nat)
    requires t.workers == s.workers && t.popOwner == s.popOwner && t.ejectOwner == s.ejectOwner
    ensures CallsFollow(s, t, w)
  {
  }

  lemma CallsStep(s: State, a: Action, w: nat)
    requires Tasks.Sized(s.tasks) && (s.life.Ready? ==> s.workers == [])
    ensures CallsFollow(s, Step(s, a), w)
  {
    hide CallsFollow, DoPoll, DoNextGroup, DoEndPass, DoPop, DoEject, DoRun, DoStopStep;
    hide DoBeginPost, DoEnterPost, DoCheckPost, DoCreateEvent, DoLeavePost, DoTellRefusal;
    if IsPost(a) {
      PostFrame(s, a);
      CallsSame(s, Step(s, a), w);
    } else if a.Poll? || a.NextGroup? || a.EndPass? || a.Pop? || a.Eject? {
      WorkerCalls(s, a, w);
    } else if a.Run? {
      RunCalls(s, w);
    } else {
      OwnerCalls(s, a);
      CallsSame(s, Step(s, a), w);
    }
  }

  lemma RunCalls(s: State, w: nat)
    requires s.life.Ready? ==> s.workers == []
    ensures CallsFollow(s, DoRun(s), w)
  {
  }

  lemma OwnerCalls(s: State, a: Action)
    requires Tasks.Sized(s.tasks) && !IsPost(a)
    requires !a.Poll? && !a.NextGroup? && !a.EndPass? && !a.Pop? && !a.Eject? && !a.Run?
    ensures var t := Step(s, a);
            t.workers == s.workers && t.popOwner == s.popOwner && t.ejectOwner == s.ejectOwner
  {
  }

  lemma WorkerCalls(s: State, a: Action, w: nat)
    requires Tasks.Sized(s.tasks) && (a.Poll? || a.NextGroup? || a.EndPass? || a.Pop? || a.Eject?)
    ensures CallsFollow(s, Step(s, a), w)
  {
    hide CallsFollow, DoEndPass, DoPop, DoEject, CompletePost, Server.DeliverTag;
    match a
    case Poll(v, _, _, _, _) => LoopMoveCalls(s, Step(s, a), v, w);
    case NextGroup(v) => LoopMoveCalls(s, Step(s, a), v, w);
    case EndPass(v) => EndPassCalls(s, v, w);
    case Pop(v, locked) => PopStepCalls(s, v, locked, w);
    case Eject(v) => EjectStepCalls(s, v, w);
  }

  /** Worker `v` at most moves on in its pass. */
  lemma LoopMoveCalls(s: State, t: State, v: nat, w: nat)
    requires t.popOwner == s.popOwner && t.ejectOwner == s.ejectOwner
    requires t.workers == s.workers ||
             (v < |s.workers| == |t.workers| && s.workers[v].Polling? && t.workers[v].Polling? && t.workers[v] != TOP &&
              t.workers == s.workers[v := t.workers[v]])
    ensures CallsFollow(s, t, w)
  {
  }

  lemma EndPassCalls(s: State, v: nat, w: nat)
    requires Tasks.Sized(s.tasks)
    ensures CallsFollow(s, DoEndPass(s, v), w)
  {
    hide Tasks.EjectEnter, Tasks.PopEnter;
  }

  lemma PopStepCalls(s: State, v: nat, locked: bool, w: nat)
    requires Tasks.Sized(s.tasks)
    ensures CallsFollow(s, DoPop(s, v, locked), w)
  {
    hide Tasks.PopProbe, Tasks.PopRun;
  }

  lemma EjectStepCalls(s: State, v: nat, w: nat)
    requires Tasks.Sized(s.tasks)
    ensures CallsFollow(s, DoEject(s, v), w)
  {
    hide Tasks.EjectOne, Tasks.EjectTest, Tasks.EjectRun;
  }

  lemma ReadyHasNoWorkers(s: State)
    requires Inv(s)
    ensures s.life.Ready? ==> s.workers == []
  {
    hide Counted, NoneAllowed, Downs, StopBounds, Shaped, Events, Told, ServersOk, Tasks.Inv, PopCalls, EjectCalls,
         Passes, Leavers, Notes;
  }

  /** In every run and for every worker: it has called `try_pop` once for each time that it came back to
      the top of its loop, and once more if it is in that call now; every other such call is over. So it
      never begins another pass without having tried the task queue. It has called `stop_and_eject` once
      if it has left its loop, and otherwise not at all. */
  lemma {:induction false} EachPassTriesTheTaskQueue(nThreads: nat, nClients: nat, acts: seq<Action>, w: nat)
    requires Sensible(nThreads, nClients)
    ensures var s := After(nThreads, nClients, acts);
            && Calls(s.popOwner, w) ==
               Arrivals(Init(nThreads, nClients), acts, w) + (if InPop(s, w) then 1 else 0)
            && Calls(s.ejectOwner, w) == (if HasLeft(s, w) then 1 else 0)
            && |s.popOwner| == |s.tasks.poppers|
            && forall c: nat :: c < |s.popOwner| && s.popOwner[c] == w && !PopOver(s.tasks.poppers[c]) ==>
                 w < |s.workers| && s.workers[w] == Popping(c)
  {
    hide Step, Calls, Arrives, InPop, HasLeft;
    Reached(nThreads, nClients, acts);
    if acts == [] {
      NobodyCalls(nThreads, nClients, w);
    } else {
      var s := After(nThreads, nClients, acts[..|acts| - 1]);
      EachPassTriesTheTaskQueue(nThreads, nClients, acts[..|acts| - 1], w);
      Reached(nThreads, nClients, acts[..|acts| - 1]);
      ReadyHasNoWorkers(s);
      CallsStep(s, acts[|acts| - 1], w);
    }
    CallsAreOver(After(nThreads, nClients, acts), w);
  }

  lemma NobodyCalls(nThreads: nat, nClients: nat, w: nat)
    requires nThreads > 0
    ensures var s := Init(nThreads, nClients);
            Calls(s.popOwner, w) == 0 && Calls(s.ejectOwner, w) == 0 && !InPop(s, w) && !HasLeft(s, w)
  {
  }

  lemma CallsAreOver(s: State, w: nat)
    requires Inv(s)
    ensures |s.popOwner| == |s.tasks.poppers|
    ensures forall c: nat :: c < |s.popOwner| && s.popOwner[c] == w && !PopOver(s.tasks.poppers[c]) ==>
              w < |s.workers| && s.workers[w] == Popping(c)
  {
    hide Lives, Counted, NoneAllowed, Downs, StopBounds, Shaped, Events, Told, ServersOk, Tasks.Inv, EjectCalls, Passes,
         Leavers, Notes;
  }

  // ---------------------------------------------------------------- a pass without interruption

  /** All steps are the worker's own, in its main loop, and its polls get some of these answers. */
  predicate OwnSteps(acts: seq<Action>, w: nat, answers: seq<Answer>) {
    forall k: nat :: k < |acts| ==>
      LoopStep(acts[k], w) && (acts[k].Poll? ==> acts[k].answer in answers) && (acts[k].Pop? ==> acts[k].locked)
  }

  /** Nothing has changed but this worker's place and, perhaps, the queues and the posts. */
  predicate OnlyWorkerMoved(s: State, t: State, w: nat) {
    && t.life == s.life && t.tasks == s.tasks && t.popOwner == s.popOwner && t.ejectOwner == s.ejectOwner
    && |t.workers| == |s.workers| && (forall v: nat :: v < |s.workers| && v != w ==> t.workers[v] == s.workers[v])
  }

  /** The queues of group `g` may give these answers. */
  predicate MayGive(groups: seq<seq<Queue>>, g: nat, answers: seq<Answer>) {
    && g < |groups| && |answers| == |groups[g]|
    && forall j: nat :: j < |answers| ==> MayAnswer(CqOf(groups[g][j]), answers[j])
  }

  /** The polls of a scan before the last one made find no event, and the last one does unless all were made. */
  lemma {:induction false} PollsEnd(w: nat, answers: seq<Answer>, i: nat)
    requires i <= |answers|
    ensures var k := Polls(w, answers, i);
            && (forall j: nat :: i <= j < k - 1 ==> !answers[Probe(w, j, |answers|)].Event?)
            && (k < |answers| ==> k > i && answers[Probe(w, k - 1, |answers|)].Event?)
    decreases |answers| - i
  {
    hide Probe;
    if i < |answers| && !answers[Probe(w, i, |answers|)].Event? {
      PollsEnd(w, answers, i + 1);
    }
  }

  /** What the polls of one group add to the counters. */
  lemma GroupCounts(w: nat, answers: seq<Answer>)
    ensures var k, shut := Polls(w, answers, 0), |Shuts(w, answers, Polls(w, answers, 0))|;
            && (SomePollRuns(w, answers) <==> k > 0 && answers[Probe(w, k - 1, |answers|)].Event?)
            && shut <= |answers| && (shut == |answers| <==> AllPollsShut(w, answers))
  {
    hide Probe, Polls, Shuts;
    var k := Polls(w, answers, 0);
    PollsEnd(w, answers, 0);
    ShutsAll(w, answers, k);
    if k > 0 && answers[Probe(w, k - 1, |answers|)].Event? {
      ShutsAll(w, answers, k - 1);
      ShutsOneMore(w, answers, k - 1);
    }
  }

  /** Where the worker stands after `k` polls of the group. */
  ghost function AfterPolls(w: nat, pc: WorkerPc, answers: seq<Answer>, k: nat): WorkerPc
    requires pc.Polling? && k <= |answers|
  {
    var ran := k > 0 && answers[Probe(w, k - 1, |answers|)].Event?;
    pc.(i := k, executed := pc.executed + (if ran then 1 else 0), shut := pc.shut + |Shuts(w, answers, k)|)
  }

  lemma OnePoll(s: State, w: nat, answers: seq<Answer>) returns (a: Action)
    requires Inv(s) && Tasks.Sized(s.tasks) && AtPoll(s, w) && MayGive(s.groups, s.workers[w].g, answers)
    ensures var pc, t := s.workers[w], Step(s, a);
            && a.Poll? && LoopStep(a, w) && a.answer in answers && OnlyWorkerMoved(s, t, w) && Inv(t)
            && t.workers[w] == Counters(pc, answers[Probe(w, pc.i, |answers|)])
            && SameSizes(s.groups, t.groups)
            && (forall h: nat :: h < |s.groups| && h != pc.g ==> t.groups[h] == s.groups[h])
            && (!answers[Probe(w, pc.i, |answers|)].Event? ==> t.groups == s.groups)
  {
    hide Inv, Probe, CompletePost, Server.DeliverTag;
    a := Poll(w, answers[Probe(w, s.workers[w].i, |answers|)], Rpc.Status(0, ""), Rpc.Converted(0), false);
    StepKeepsInv(s, a);
  }

  /** The first `k` polls of a group. */
  lemma {:induction false} PollsAlone(s: State, w: nat, answers: seq<Answer>, k: nat) returns (acts: seq<Action>)
    requires Inv(s) && Tasks.Sized(s.tasks) && w < |s.workers|
    requires s.workers[w].Polling? && s.workers[w].i == 0 && s.workers[w].before == s.workers[w].executed
    requires MayGive(s.groups, s.workers[w].g, answers) && k <= Polls(w, answers, 0)
    ensures var t := Exec(s, acts);
            && Inv(t) && OwnSteps(acts, w, answers) && |acts| == k && OnlyWorkerMoved(s, t, w)
            && t.workers[w] == AfterPolls(w, s.workers[w], answers, k)
            && SameSizes(s.groups, t.groups)
            && (forall h: nat :: h < |s.groups| && h != s.workers[w].g ==> t.groups[h] == s.groups[h])
            && (k < Polls(w, answers, 0) ==> t.groups == s.groups)
  {
    hide Inv, Probe, Polls, Shuts, MayGive, Step;
    if k == 0 {
      acts := [];
      NoShuts(w, answers);
    } else {
      var before := PollsAlone(s, w, answers, k - 1);
      var t := Exec(s, before);
      PollsEnd(w, answers, 0);
      ShutsOneMore(w, answers, k - 1);
      MayGiveSizes(s, w, answers);
      var a := OnePoll(t, w, answers);
      acts := Extend(s, before, a);
    }
  }

  lemma NoShuts(w: nat, answers: seq<Answer>)
    ensures Shuts(w, answers, 0) == {}
  {
  }

  lemma MayGiveSizes(s: State, w: nat, answers: seq<Answer>)
    requires w < |s.workers| && s.workers[w].Polling? && MayGive(s.groups, s.workers[w].g, answers)
    ensures s.workers[w].g < |s.groups| && |answers| == |s.groups[s.workers[w].g]|
  {
  }

  // ---------------------------------------------------------------- the whole pass

  /** The events executed in a pass over groups whose queues would give these answers ... */
  ghost function RunInPass(w: nat, answers: seq<seq<Answer>>): nat {
    if answers == [] then 0
    else
      RunInPass(w, answers[..|answers| - 1]) + if SomePollRuns(w, answers[|answers| - 1]) then 1 else 0
  }

  /** ... the polls answered SHUTDOWN ... */
  ghost function ShutInPass(w: nat, answers: seq<seq<Answer>>): nat {
    if answers == [] then 0
    else
      var last := answers[|answers| - 1];
      ShutInPass(w, answers[..|answers| - 1]) + |Shuts(w, last, Polls(w, last, 0))|
  }

  /** ... and all queues. */
  function QueuesInPass(answers: seq<seq<Answer>>): nat {
    if answers == [] then 0 else QueuesInPass(answers[..|answers| - 1]) + |answers[|answers| - 1]|
  }

  /** The answers of all groups. */
  function AllAnswers(answers: seq<seq<Answer>>): seq<Answer> {
    if answers == [] then [] else AllAnswers(answers[..|answers| - 1]) + answers[|answers| - 1]
  }

  /** The counters agree exactly if every poll was answered SHUTDOWN: what `RunPass` ensures. */
  lemma {:induction false} PassCounts(w: nat, answers: seq<seq<Answer>>)
    ensures ShutInPass(w, answers) <= QueuesInPass(answers)
    ensures ShutInPass(w, answers) == QueuesInPass(answers) <==> PassShut(w, answers)
    ensures RunInPass(w, answers) > 0 <==> exists g: nat :: g < |answers| && SomePollRuns(w, answers[g])
  {
    hide AllPollsShut, SomePollRuns, Shuts, Polls;
    if answers != [] {
      var m := |answers| - 1;
      PassCounts(w, answers[..m]);
      GroupCounts(w, answers[m]);
      PassShutGrows(w, answers, m);
      assert answers[..m + 1] == answers;
      if g: nat :| g < m && SomePollRuns(w, answers[..m][g]) {
        assert SomePollRuns(w, answers[g]);
      }
      if g: nat :| g < |answers| && SomePollRuns(w, answers[g]) {
        assert g < m ==> SomePollRuns(w, answers[..m][g]);
      }
    }
  }

  /** One group, from its first poll to the step to the next group. */
  lemma GroupAlone(s: State, w: nat, answers: seq<Answer>) returns (acts: seq<Action>)
    requires Inv(s) && Tasks.Sized(s.tasks) && w < |s.workers|
    requires s.workers[w].Polling? && s.workers[w].i == 0 && s.workers[w].before == s.workers[w].executed
    requires MayGive(s.groups, s.workers[w].g, answers)
    ensures var pc, t := s.workers[w], Exec(s, acts);
            var ran := pc.executed + if SomePollRuns(w, answers) then 1 else 0;
            && Inv(t) && OwnSteps(acts, w, answers) && |acts| <= |answers| + 1 && OnlyWorkerMoved(s, t, w)
            && t.workers[w] == Polling(pc.g + 1, 0, ran, ran, pc.shut + |Shuts(w, answers, Polls(w, answers, 0))|,
                                       pc.total + |answers|)
            && SameSizes(s.groups, t.groups)
            && (forall h: nat :: h < |s.groups| && h != pc.g ==> t.groups[h] == s.groups[h])
  {
    hide Inv, Probe, Polls, Shuts, MayGive, SomePollRuns, AllPollsShut, Step, Exec;
    var k := Polls(w, answers, 0);
    PollsEnd(w, answers, 0);
    GroupCounts(w, answers);
    MayGiveSizes(s, w, answers);
    var polls := PollsAlone(s, w, answers, k);
    NextGroupAlone(Exec(s, polls), w);
    acts := Extend(s, polls, NextGroup(w));
  }

  lemma NextGroupAlone(s: State, w: nat)
    requires Inv(s) && Tasks.Sized(s.tasks) && w < |s.workers| && GroupOver(s.groups, s.workers[w])
    ensures Inv(Step(s, NextGroup(w)))
    ensures Step(s, NextGroup(w)) == s.(workers := s.workers[w := NextPc(s.groups, s.workers[w])])
  {
    hide Inv;
    StepKeepsInv(s, NextGroup(w));
  }

  /** The worker's queues may give these answers, group by group. */
  predicate MayGiveAll(groups: seq<seq<Queue>>, answers: seq<seq<Answer>>) {
    |answers| == |groups| && forall g: nat :: g < |groups| ==> MayGive(groups, g, answers[g])
  }

  lemma OwnStepsConcat(a: seq<Action>, b: seq<Action>, w: nat, x: seq<Answer>, y: seq<Answer>)
    requires OwnSteps(a, w, x) && OwnSteps(b, w, y)
    ensures OwnSteps(a + b, w, x + y)
  {
  }

  /** The first `g` groups of a pass. */
  lemma {:induction false} GroupsAlone(s: State, w: nat, answers: seq<seq<Answer>>, g: nat) returns (acts: seq<Action>)
    requires Inv(s) && Tasks.Sized(s.tasks) && w < |s.workers| && s.workers[w] == TOP
    requires MayGiveAll(s.groups, answers) && g <= |s.groups|
    ensures var t := Exec(s, acts);
            var ran := RunInPass(w, answers[..g]);
            && Inv(t) && OwnSteps(acts, w, AllAnswers(answers[..g])) && |acts| <= QueuesInPass(answers[..g]) + g
            && OnlyWorkerMoved(s, t, w) && SameSizes(s.groups, t.groups)
            && t.workers[w] == Polling(g, 0, ran, ran, ShutInPass(w, answers[..g]), QueuesInPass(answers[..g]))
            && forall h: nat :: g <= h < |s.groups| ==> t.groups[h] == s.groups[h]
  {
    hide Inv, MayGive, SomePollRuns, Shuts, Polls, Step;
    if g == 0 {
      acts := [];
    } else {
      var m := g - 1;
      assert answers[..g][..m] == answers[..m] && answers[..g][m] == answers[m];
      var before := GroupsAlone(s, w, answers, m);
      var t := Exec(s, before);
      SameMayGive(s.groups, t.groups, m, answers[m]);
      var group := GroupAlone(t, w, answers[m]);
      acts := before + group;
      ExecConcat(s, before, group);
      OwnStepsConcat(before, group, w, AllAnswers(answers[..m]), answers[m]);
    }
  }

  lemma SameMayGive(groups: seq<seq<Queue>>, after: seq<seq<Queue>>, g: nat, answers: seq<Answer>)
    requires MayGive(groups, g, answers) && g < |after| && after[g] == groups[g]
    ensures MayGive(after, g, answers)
  {
  }

  /** A pass that no other thread's step interrupts, whatever its queues answer. It polls and counts as
      `RunGroup` says in every group, and at its end the worker leaves its loop if and only if every poll
      was answered SHUTDOWN; otherwise it begins a call of `try_pop`. */
  lemma PassAlone(s: State, w: nat, answers: seq<seq<Answer>>) returns (acts: seq<Action>)
    requires Inv(s) && Tasks.Sized(s.tasks) && w < |s.workers| && s.workers[w] == TOP && MayGiveAll(s.groups, answers)
    ensures var t := Exec(s, acts);
            var ran := RunInPass(w, answers);
            var u := Step(t, EndPass(w));
            && Inv(t) && OwnSteps(acts, w, AllAnswers(answers)) && |acts| <= QueuesInPass(answers) + |answers|
            && OnlyWorkerMoved(s, t, w) && SameSizes(s.groups, t.groups)
            && t.workers[w] == Polling(|s.groups|, 0, ran, ran, ShutInPass(w, answers), QueuesInPass(answers))
            && if PassShut(w, answers) then
                 && u.tasks == Tasks.EjectEnter(s.tasks) && u.ejectOwner == s.ejectOwner + [w]
                 && u.workers == t.workers[w := Ejecting(|s.tasks.ejectors|)]
               else
                 && u.tasks == Tasks.PopEnter(s.tasks) && u.popOwner == s.popOwner + [w]
                 && u.workers == t.workers[w := Popping(|s.tasks.poppers|)]
  {
    hide Inv, MayGive, Exec, PassShut, RunInPass, ShutInPass, QueuesInPass, AllAnswers;
    acts := GroupsAlone(s, w, answers, |s.groups|);
    assert answers[..|s.groups|] == answers;
    PassCounts(w, answers);
  }

  // ---------------------------------------------------------------- an idle worker runs a thunk

  /** What is queued has not run. */
  lemma HeldBesidesRan(queues: seq<seq<nat>>, poppers: seq<Tasks.PopPc>, ejectors: seq<Tasks.EjectPc>, q: nat, x: nat)
    requires q < |queues| && x in queues[q]
    ensures Tasks.Ran(poppers, ejectors)[x] < Tasks.Held(queues, poppers, ejectors)[x]
  {
    hide Tasks.Ran;
    TaskTheorems.RanIsHeld([], poppers, ejectors);
    assert Tasks.QueueBags([]) == [];
    Bags.TotalHasPart(Tasks.QueueBags(queues), q);
    assert Tasks.QueueBags(queues)[q] == multiset(queues[q]);
  }

  lemma QueuedHasNotRun(s: State, q: nat, x: nat)
    requires Inv(s) && q < |s.tasks.queues| && x in s.tasks.queues[q]
    ensures Runs(s, x) == 0 && ContextTheorems.Posted(s, x) == 1
  {
    hide Lives, Counted, NoneAllowed, Downs, StopBounds, Shaped, Events, Told, ServersOk, PopCalls, EjectCalls, Passes,
         Leavers, Notes;
    hide Tasks.Ran, Tasks.Held, Tasks.Ordered, Tasks.Counted, Tasks.StoredOnce, Tasks.PushBounds, Tasks.PopBounds,
         Tasks.EjectBounds;
    HeldBesidesRan(s.tasks.queues, s.tasks.poppers, s.tasks.ejectors, q, x);
  }

  /** A thunk that a worker has popped and run has run, once. */
  lemma PoppedHasRun(s: State, c: nat, x: nat)
    requires Inv(s) && c < |s.tasks.poppers| && s.tasks.poppers[c] == Tasks.PopFinished([x])
    ensures Runs(s, x) == 1
  {
    ThunkAccount(s, x);
    Bags.TotalHasPart(Tasks.PopRanBags(s.tasks.poppers), c);
  }

  /** The scan finds a thunk at some probe from number `i` on. */
  ghost predicate Finds(queues: seq<seq<nat>>, offset: nat, i: nat) {
    exists k: nat :: i <= k < |queues| && queues[Probe(offset, k, |queues|)] != []
  }

  /** The worker is in call `c`, which is at this point. */
  predicate InCall(s: State, w: nat, c: nat, pc: Tasks.PopPc) {
    w < |s.workers| && s.workers[w] == Popping(c) && c < |s.tasks.poppers| && s.tasks.poppers[c] == pc
  }

  /** One probe with the lock: the front of the queue is taken if there is one. */
  lemma OneProbe(s: State, w: nat, c: nat, offset: nat, i: nat)
    requires Inv(s) && Tasks.Sized(s.tasks) && InCall(s, w, c, Tasks.PopProbing(offset, i)) && i < |s.tasks.queues|
    ensures var t, q := Step(s, Pop(w, true)), Probe(offset, i, |s.tasks.queues|);
            && Inv(t) && t.life == s.life
            && if s.tasks.queues[q] != [] then InCall(t, w, c, Tasks.PopHolding(s.tasks.queues[q][0]))
               else t.tasks.queues == s.tasks.queues &&
                    (i + 1 < |s.tasks.queues| ==> InCall(t, w, c, Tasks.PopProbing(offset, i + 1)))
  {
    hide Inv, Probe;
    StepKeepsInv(s, Pop(w, true));
  }

  lemma OneRun(s: State, w: nat, c: nat, x: nat)
    requires Inv(s) && Tasks.Sized(s.tasks) && InCall(s, w, c, Tasks.PopHolding(x))
    ensures var t := Step(s, Pop(w, true)); Inv(t) && t.life == s.life && InCall(t, w, c, Tasks.PopFinished([x]))
  {
    hide Inv, Probe;
    StepKeepsInv(s, Pop(w, true));
  }

  /** All steps are the worker's own, and get the lock. */
  predicate OwnPops(acts: seq<Action>, w: nat) {
    forall k: nat :: k < |acts| ==> acts[k] == Pop(w, true)
  }

  /** The worker's scan takes the first thunk that it meets. */
  lemma {:induction false} ScanAlone(s: State, w: nat, c: nat, offset: nat, i: nat)
    returns (acts: seq<Action>, x: nat, q: nat)
    requires Inv(s) && Tasks.Sized(s.tasks) && InCall(s, w, c, Tasks.PopProbing(offset, i)) && i < |s.tasks.queues|
    requires Finds(s.tasks.queues, offset, i)
    ensures var t := Exec(s, acts);
            && Inv(t) && t.life == s.life && OwnPops(acts, w) && |acts| <= |s.tasks.queues| - i
            && InCall(t, w, c, Tasks.PopHolding(x)) && q < |s.tasks.queues| && x in s.tasks.queues[q]
    decreases |s.tasks.queues| - i
  {
    hide Inv, Probe, Exec, Step, InCall;
    NoSteps(s);
    OneProbe(s, w, c, offset, i);
    var first := Extend(s, [], Pop(w, true));
    q := Probe(offset, i, |s.tasks.queues|);
    if s.tasks.queues[q] != [] {
      acts, x := first, s.tasks.queues[q][0];
    } else {
      var rest;
      rest, x, q := ScanAlone(Step(s, Pop(w, true)), w, c, offset, i + 1);
      acts := first + rest;
      ExecConcat(s, first, rest);
    }
  }

  /** All queues of all groups answer TIMEOUT. */
  function Timeouts(groups: seq<seq<Queue>>): (answers: seq<seq<Answer>>) {
    if groups == [] then [] else Timeouts(groups[..|groups| - 1]) + [seq(|groups[|groups| - 1]|, _ => Timeout)]
  }

  lemma {:induction false} TimeoutsAre(groups: seq<seq<Queue>>)
    ensures var answers := Timeouts(groups);
            && |answers| == |groups|
            && forall g: nat :: g < |groups| ==> answers[g] == seq(|groups[g]|, _ => Timeout)
  {
    if groups != [] {
      TimeoutsAre(groups[..|groups| - 1]);
    }
  }

  lemma {:induction false} TimeoutsCount(groups: seq<seq<Queue>>)
    ensures var answers := Timeouts(groups);
            && (forall a <- AllAnswers(answers) :: a == Timeout)
            && QueuesInPass(answers) + |groups| == Steps(groups)
  {
    hide Steps;
    if groups == [] {
      assert Steps(groups) == 0 by { NoGroups(groups); }
    } else {
      var m := |groups| - 1;
      TimeoutsAre(groups[..m]);
      TimeoutsCount(groups[..m]);
      assert Timeouts(groups)[..m] == Timeouts(groups[..m]);
      assert groups[..m] + [groups[m]] == groups;
      StepsSnoc(groups[..m], groups[m]);
    }
  }

  lemma NoGroups(groups: seq<seq<Queue>>)
    requires groups == []
    ensures Steps(groups) == 0
  {
  }

  lemma {:induction false} StepsSnoc(groups: seq<seq<Queue>>, last: seq<Queue>)
    ensures Steps(groups + [last]) == Steps(groups) + |last| + 1
  {
    if groups == [] {
      assert Steps([last]) == |last| + 1 + Steps([last][1..]) && [last][1..] == [];
    } else {
      assert (groups + [last])[1..] == groups[1..] + [last];
      StepsSnoc(groups[1..], last);
    }
  }

  /** In a Running context every queue may answer TIMEOUT. */
  lemma RunningMayTimeOut(s: State, w: nat)
    requires Inv(s) && s.life.Running?
    ensures MayGiveAll(s.groups, Timeouts(s.groups)) && !PassShut(w, Timeouts(s.groups))
  {
    hide Lives, Counted, NoneAllowed, StopBounds, Events, Told, ServersOk, Tasks.Inv, PopCalls, EjectCalls, Passes,
         Leavers, Notes;
    RunningIsNotStopping(s);
    TimeoutsAre(s.groups);
    var answers := Timeouts(s.groups);
    forall g: nat | g < |s.groups|
      ensures MayGive(s.groups, g, answers[g])
    {
      assert forall i: nat :: i < |s.groups[g]| ==> !CqOf(s.groups[g][i]).down;
    }
    assert !answers[0][Probe(w, 0, |answers[0]|)].Shutdown?;
    assert !AllPollsShut(w, answers[0]);
  }

  lemma RunningIsNotStopping(s: State)
    requires Inv(s) && s.life.Running?
    ensures s.stop.NotStopping?
  {
  }

  /** The worker's own steps only: every poll is answered TIMEOUT, and every lock is got. */
  predicate IdleSteps(acts: seq<Action>, w: nat) {
    forall k: nat :: k < |acts| ==>
      LoopStep(acts[k], w) && (acts[k].Poll? ==> acts[k].answer.Timeout?) && (acts[k].Pop? ==> acts[k].locked)
  }

  /** A pass with nothing to deliver, up to the call of `try_pop`. */
  lemma IdlePass(s: State, w: nat) returns (acts: seq<Action>)
    requires Inv(s) && Tasks.Sized(s.tasks) && s.life.Running? && w < |s.workers| && s.workers[w] == TOP
    ensures var t := Exec(s, acts);
            && Inv(t) && t.life.Running? && IdleSteps(acts, w) && |acts| <= FullPass(s.groups)
            && t.tasks.queues == s.tasks.queues
            && InCall(t, w, |s.tasks.poppers|, Tasks.PopProbing(s.tasks.popIndex, 0))
  {
    hide Inv, Exec, MayGiveAll, PassShut, Timeouts, AllAnswers, QueuesInPass, RunInPass, ShutInPass;
    RunningMayTimeOut(s, w);
    TimeoutsAre(s.groups);
    TimeoutsCount(s.groups);
    var pass := PassAlone(s, w, Timeouts(s.groups));
    EndPassKeeps(Exec(s, pass), w);
    acts := Extend(s, pass, EndPass(w));
  }

  lemma EndPassKeeps(s: State, w: nat)
    requires Inv(s) && Tasks.Sized(s.tasks)
    ensures Inv(Step(s, EndPass(w))) && Step(s, EndPass(w)).life == s.life
  {
    hide Inv;
    StepKeepsInv(s, EndPass(w));
  }

  /** A harmless scan finds what there is. */
  lemma HarmlessFinds(queues: seq<seq<nat>>, offset: nat, q: nat)
    requires q < |queues| < U32 && queues[q] != [] && offset < U32 && Harmless(offset, |queues|)
    ensures Finds(queues, offset, 0)
  {
    hide Probe;
    CoverageIff(offset, |queues|);
    assert Visits(offset, |queues|, q);
  }

  /** The steps of an idle worker from the top of its loop until it has run a thunk. */
  lemma IdleWorker(s: State, w: nat, q: nat) returns (acts: seq<Action>, x: nat)
    requires Inv(s) && Tasks.Sized(s.tasks) && s.life.Running? && w < |s.workers| && s.workers[w] == TOP
    requires q < |s.tasks.queues| < U32 && s.tasks.queues[q] != [] && s.tasks.popIndex < U32
    requires Harmless(s.tasks.popIndex, |s.tasks.queues|)
    ensures var t := Exec(s, acts);
            && IdleSteps(acts, w) && |acts| <= FullPass(s.groups) + |s.tasks.queues| + 1
            && Inv(t) && t.life.Running? && Runs(s, x) == 0 && Runs(t, x) == 1
  {
    hide Inv, Exec, Probe, Finds, Harmless, FullPass, Runs;
    var pass := IdlePass(s, w);
    var t := Exec(s, pass);
    HarmlessFinds(s.tasks.queues, s.tasks.popIndex, q);
    var scan, from;
    scan, x, from := ScanAlone(t, w, |s.tasks.poppers|, s.tasks.popIndex, 0);
    ExecConcat(s, pass, scan);
    OneRun(Exec(t, scan), w, |s.tasks.poppers|, x);
    acts := Extend(s, pass + scan, Pop(w, true));
    QueuedHasNotRun(s, from, x);
    PoppedHasRun(Exec(s, acts), |s.tasks.poppers|, x);
  }

  /** From every reachable state of a Running context with a thunk in its task queue: the steps of any one
      worker at the top of its loop, alone, with every poll answered TIMEOUT and every lock got, run a
      thunk that has not run yet, within one pass and one scan, while the context stays Running; provided
      the wrap is harmless for the scan's offset. */
  lemma IdleWorkerRunsThunk(nThreads: nat, nClients: nat, acts: seq<Action>, w: nat, q: nat)
    returns (steps: seq<Action>, x: nat)
    requires Sensible(nThreads, nClients) && nThreads + 1 < U32
    requires var s := After(nThreads, nClients, acts);
             && s.life.Running? && w < |s.workers| && s.workers[w] == TOP
             && q < |s.tasks.queues| && s.tasks.queues[q] != [] && Harmless(s.tasks.popIndex, nThreads + 1)
    ensures var s := After(nThreads, nClients, acts);
            var t := Exec(s, steps);
            && IdleSteps(steps, w) && |steps| <= FullPass(s.groups) + nThreads + 2
            && t.life.Running? && Runs(s, x) == 0 && Runs(t, x) == 1
  {
    hide Inv, Exec, Harmless, FullPass, Runs, Tasks.Exec;
    Reached(nThreads, nClients, acts);
    Histories.TasksAreARun(nThreads, nClients, acts);
    Scans.PopIndexFits(nThreads + 1, Histories.TaskRun(Init(nThreads, nClients), acts));
    steps, x := IdleWorker(After(nThreads, nClients, acts), w, q);
  }
}
