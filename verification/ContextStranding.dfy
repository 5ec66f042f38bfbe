/** When the last worker to leave its main loop meets a push between its check and its store, the
    context can be stopped with that push's thunk left behind; and only then. */
module ContextStranding {
  import opened ContextProtocol
  import opened ContextInvariant
  import opened ContextTheorems
  import Tasks = QueueProtocol
  import TaskTheorems = QueueTheorems

  // ---------------------------------------------------------------- task steps as context steps

  /** A step of an unfinished `stop_and_eject` is the next step of the worker that made the call. */
  lemma EjectStepIs(s: State, w: nat, e: nat, a: Tasks.Action)
    requires Tasks.Sized(s.tasks) && w < |s.workers| && s.workers[w] == Ejecting(e)
    requires a == Tasks.EjectQueue(e) || a == Tasks.TestEject(e)
    requires Tasks.Step(s.tasks, a) != s.tasks
    ensures Step(s, Eject(w)) == s.(tasks := Tasks.Step(s.tasks, a))
  {
  }

  lemma EjectorOf(s: State, a: Tasks.Action) returns (w: nat, e: nat)
    requires Inv(s) && (a.EjectQueue? || a.TestEject?) && Tasks.Sized(s.tasks) && Tasks.Step(s.tasks, a) != s.tasks
    ensures e == a.e && w < |s.workers| && s.workers[w] == Ejecting(e)
  {
    hide Lives, Counted, NoneAllowed, Downs, StopBounds, Shaped, Events, Told, ServersOk, PopCalls, Passes, Leavers,
         Notes;
    hide Tasks.Inv;
    e := a.e;
    assert e < |s.tasks.ejectors| && !EjectOver(s.tasks.ejectors[e]);
    w := s.ejectOwner[e];
  }

  /** What the calls that have begun can do on the task queue alone they can do in the context. */
  lemma {:induction false} Lift(s: State, steps: seq<Tasks.Action>) returns (acts: seq<Action>)
    requires Inv(s) && Tasks.Sized(s.tasks) && TaskTheorems.EndingSteps(steps)
    ensures Exec(s, acts) == s.(tasks := Tasks.Exec(s.tasks, steps))
  {
    hide Inv, Step, Tasks.Step;
    if steps == [] {
      acts := [];
    } else {
      var a := steps[|steps| - 1];
      var before := Lift(s, steps[..|steps| - 1]);
      var u := Exec(s, before);
      ExecKeepsInv(s, before);
      if Tasks.IsPush(a) {
        acts := Extend(s, before, PostTask(a));
        PushStepIs(u, a);
      } else if Tasks.Step(u.tasks, a) != u.tasks {
        var w, e := EjectorOf(u, a);
        EjectStepIs(u, w, e, a);
        acts := Extend(s, before, Eject(w));
      } else {
        acts := before;
      }
    }
  }

  lemma PushStepIs(s: State, a: Tasks.Action)
    requires Tasks.Sized(s.tasks) && Tasks.IsPush(a)
    ensures Step(s, PostTask(a)) == s.(tasks := Tasks.Step(s.tasks, a))
  {
  }

  // ---------------------------------------------------------------- the workers' threads end

  predicate AllLeft(workers: seq<WorkerPc>) {
    forall w: nat :: w < |workers| ==> Left(workers[w])
  }

  predicate AllExited(workers: seq<WorkerPc>) {
    forall w: nat :: w < |workers| ==> workers[w].Exited?
  }

  ghost predicate AllReturned(tasks: Tasks.State) {
    forall e: nat :: TaskTheorems.Returned(tasks, e)
  }

  /** The worker is executing what it ejected. */
  predicate Executes(s: State, w: nat) {
    && w < |s.workers| && s.workers[w].Ejecting? && s.workers[w].call < |s.tasks.ejectors|
    && s.tasks.ejectors[s.workers[w].call].Executing?
  }

  function ToRun(s: State, w: nat): int
    requires Executes(s, w)
  {
    |s.tasks.ejectors[s.workers[w].call].got| - s.tasks.ejectors[s.workers[w].call].k
  }

  lemma ThreadIsBounded(s: State, w: nat)
    requires Inv(s) && Executes(s, w)
    ensures Tasks.Sized(s.tasks) && ToRun(s, w) >= 0
  {
    hide Lives, Counted, NoneAllowed, Downs, StopBounds, Shaped, Events, Told, ServersOk, PopCalls, EjectCalls, Passes,
         Leavers, Notes;
  }

  lemma ThreadAdvances(s: State, w: nat)
    requires Tasks.Sized(s.tasks) && Executes(s, w) && ToRun(s, w) >= 0
    ensures var t := Step(s, Eject(w));
            && t.tasks.queues == s.tasks.queues && t.groups == s.groups && t.life == s.life
            && (AllReturned(s.tasks) ==> AllReturned(t.tasks))
            && if ToRun(s, w) == 0 then t.workers == s.workers[w := Exited(s.workers[w].call)]
               else t.workers == s.workers && Executes(t, w) && ToRun(t, w) == ToRun(s, w) - 1
  {
    if AllReturned(s.tasks) {
      forall e: nat
        ensures TaskTheorems.Returned(Step(s, Eject(w)).tasks, e)
      {
        assert TaskTheorems.Returned(s.tasks, e);
      }
    }
  }

  /** The worker runs what it ejected and its thread ends. */
  lemma {:induction false} FinishThread(s: State, w: nat) returns (acts: seq<Action>)
    requires Inv(s) && Executes(s, w) && AllReturned(s.tasks)
    ensures var t := Exec(s, acts);
            && Inv(t) && t.workers == s.workers[w := Exited(s.workers[w].call)] && AllReturned(t.tasks)
            && t.tasks.queues == s.tasks.queues && t.groups == s.groups && t.life == s.life
    decreases ToRun(s, w)
  {
    hide Inv, Step, Executes, ToRun, AllReturned;
    ThreadIsBounded(s, w);
    ThreadAdvances(s, w);
    StepKeepsInv(s, Eject(w));
    var first := Extend(s, [], Eject(w));
    if ToRun(s, w) == 0 {
      acts := first;
    } else {
      var rest := FinishThread(Step(s, Eject(w)), w);
      ExecConcat(s, first, rest);
      acts := first + rest;
    }
  }

  lemma LeaverExecutes(s: State, w: nat)
    requires Inv(s) && AllReturned(s.tasks) && w < |s.workers| && s.workers[w].Ejecting?
    ensures Executes(s, w)
  {
    hide Lives, Counted, NoneAllowed, Downs, StopBounds, Shaped, Events, Told, ServersOk, PopCalls, Passes, Leavers,
         Notes;
    hide Tasks.Inv;
    assert TaskTheorems.Returned(s.tasks, s.workers[w].call);
  }

  /** Every worker from number `k` on, having left its main loop, comes to the end of its thread. */
  lemma {:induction false} FinishThreads(s: State, k: nat) returns (acts: seq<Action>)
    requires Inv(s) && Tasks.Sized(s.tasks) && AllReturned(s.tasks) && AllLeft(s.workers) && k <= |s.workers|
    requires forall w: nat :: w < k ==> s.workers[w].Exited?
    ensures var t := Exec(s, acts);
            && Inv(t) && AllExited(t.workers)
            && t.tasks.queues == s.tasks.queues && t.groups == s.groups && t.life == s.life
    decreases |s.workers| - k
  {
    hide Inv, AllReturned;
    if k == |s.workers| {
      acts := [];
    } else if s.workers[k].Exited? {
      acts := FinishThreads(s, k + 1);
    } else {
      LeaverExecutes(s, k);
      var first := FinishThread(s, k);
      var t := Exec(s, first);
      assert forall w: nat :: w < |t.workers| && w != k ==> t.workers[w] == s.workers[w];
      var rest := FinishThreads(t, k + 1);
      ExecConcat(s, first, rest);
      acts := first + rest;
    }
  }

  // ---------------------------------------------------------------- stop goes through

  /** Stop has shut down every queue and every worker has exited: `left` steps of stop remain. */
  ghost predicate Stoppable(s: State, left: nat) {
    && Inv(s) && AllDrained(s.groups) && AllExited(s.workers) && s.life.ShuttingDown?
    && Remain(s.stop, s.groups, s.workers, left)
  }

  /** With every queue drained, stop stands behind a group's last queue, or joins. */
  lemma StopStands(s: State)
    requires Inv(s) && AllDrained(s.groups) && s.life.ShuttingDown?
    ensures s.stop.Halting? || s.stop.Joining?
    ensures s.stop.Halting? ==>
              s.stop.g <= |s.groups| && (s.stop.g < |s.groups| ==> s.stop.i == |s.groups[s.stop.g]|)
    ensures s.stop.Joining? ==> s.stop.w <= |s.workers|
  {
    forall g: nat, i: nat | g < |s.groups| && i < |s.groups[g]|
      ensures Halted(s.stop, g, i)
    {
      assert DrainedAt(s.groups, g, i);
    }
    assert Halted(s.stop, 0, 0);
    if s.stop.Halting? {
      assert !Halted(s.stop, s.stop.g, s.stop.i);
    }
  }

  /** How many steps of stop remain. */
  predicate Remain(stop: StopPc, groups: seq<seq<Queue>>, workers: seq<WorkerPc>, left: nat) {
    && (stop.Halting? || stop.Joining?)
    && (stop.Halting? ==> stop.g <= |groups| && left + stop.g == |groups| + |workers| + 1)
    && (stop.Joining? ==> left + stop.w == |workers|)
  }

  lemma StopMovesOn(s: State, left: nat)
    requires Tasks.Sized(s.tasks) && AllExited(s.workers) && Remain(s.stop, s.groups, s.workers, left)
    requires s.life.ShuttingDown?
    requires s.stop.Halting? && s.stop.g < |s.groups| ==> s.stop.i == |s.groups[s.stop.g]|
    ensures var t := Step(s, StopStep);
            && t.tasks == s.tasks && t.groups == s.groups && t.workers == s.workers
            && if left == 0 then t.life.Stopped?
               else t.life.ShuttingDown? && Remain(t.stop, t.groups, t.workers, left - 1)
  {
  }

  lemma StopAdvances(s: State, left: nat)
    requires Tasks.Sized(s.tasks) && Stoppable(s, left)
    ensures var t := Step(s, StopStep);
            && t.tasks == s.tasks
            && if left == 0 then t.life.Stopped? else Stoppable(t, left - 1)
  {
    hide Inv, AllDrained, AllExited, Step, Remain;
    StepKeepsInv(s, StopStep);
    StopStands(s);
    StopMovesOn(s, left);
  }

  /** The winning stop can go on until the context is Stopped. */
  lemma {:induction false} FinishStop(s: State, left: nat) returns (acts: seq<Action>)
    requires Tasks.Sized(s.tasks) && Stoppable(s, left)
    ensures Exec(s, acts).life.Stopped? && Exec(s, acts).tasks == s.tasks
    decreases left
  {
    hide Stoppable, Step;
    StopAdvances(s, left);
    var first := Extend(s, [], StopStep);
    if left == 0 {
      acts := first;
    } else {
      var rest := FinishStop(Step(s, StopStep), left - 1);
      ExecConcat(s, first, rest);
      acts := first + rest;
    }
  }

  lemma StopFrom(s: State) returns (acts: seq<Action>)
    requires Inv(s) && AllDrained(s.groups) && AllExited(s.workers) && s.life.ShuttingDown?
    ensures Exec(s, acts).life.Stopped? && Exec(s, acts).tasks == s.tasks
  {
    StopStands(s);
    var left := if s.stop.Halting? then |s.groups| + |s.workers| + 1 - s.stop.g else |s.workers| - s.stop.w;
    acts := FinishStop(s, left);
  }

  /** Once every worker has left its main loop, the context can come to Stopped, and in such a way
      that the thunk of every push between its check and its store stays in the task queue. */
  lemma FinishFromLeft(s: State) returns (acts: seq<Action>)
    requires Inv(s) && AllDrained(s.groups) && AllLeft(s.workers) && s.life.ShuttingDown?
    ensures var t := Exec(s, acts);
            && t.life.Stopped?
            && forall p :: 0 <= p < |s.tasks.pushers| && Tasks.Seeking(s.tasks.pushers[p]) ==>
                 TaskTheorems.Queued(t.tasks, p)
  {
    hide Inv, Step, Exec, Tasks.Exec, AllDrained, AllLeft, AllExited, TaskTheorems.Queued, TaskTheorems.Returned;
    InvParts(s);
    var steps := TaskTheorems.FinishCalls(s.tasks);
    var calls := Lift(s, steps);
    ExecKeepsInv(s, calls);
    var called := Exec(s, calls);
    assert called == s.(tasks := Tasks.Exec(s.tasks, steps));
    var threads := FinishThreads(called, 0);
    ExecConcat(s, calls, threads);
    var ended := Exec(s, calls + threads);
    var stop := StopFrom(ended);
    ExecConcat(s, calls + threads, stop);
    acts := calls + threads + stop;
    TaskTheorems.SameQueued(called.tasks, Exec(s, acts).tasks);
  }

  lemma InvParts(s: State)
    requires Inv(s)
    ensures Tasks.Sized(s.tasks) && Tasks.Inv(s.tasks)
  {
    hide Lives, Counted, NoneAllowed, Downs, StopBounds, Shaped, Events, Told, ServersOk, PopCalls, EjectCalls, Passes,
         Leavers, Notes;
  }

  // ---------------------------------------------------------------- the last leaver decides

  /** Worker `w` leaves its main loop now and all others have left it before. */
  predicate LastLeaver(s: State, w: nat) {
    && w < |s.workers| && s.workers[w].Polling?
    && s.workers[w].g == |s.groups| && s.workers[w].shut == s.workers[w].total
    && forall v: nat :: v < |s.workers| && v != w ==> Left(s.workers[v])
  }

  /** In every continuation, no thunk is left behind once the context is Stopped. */
  ghost predicate NothingStrands(s: State)
    requires Tasks.Sized(s.tasks)
  {
    forall acts: seq<Action> :: Exec(s, acts).life.Stopped? ==> TaskTheorems.AllEmpty(Exec(s, acts).tasks.queues)
  }

  lemma LeaverFindsDrained(s: State, w: nat)
    requires Inv(s) && LastLeaver(s, w)
    ensures s.life.ShuttingDown? && AllDrained(s.groups) && Tasks.Sized(s.tasks)
  {
    assert PassOk(s.groups, w, s.workers[w]);
    PassEnd(s.groups, w, s.workers[w]);
    assert DrainedAt(s.groups, 0, 0);
    assert Halted(s.stop, 0, 0);
  }

  lemma LeaverLeaves(s: State, w: nat)
    requires LastLeaver(s, w) && Tasks.Sized(s.tasks)
    ensures var t := Step(s, EndPass(w));
            && AllLeft(t.workers) && t.groups == s.groups && t.life == s.life && t.tasks == Tasks.EjectEnter(s.tasks)
  {
  }

  /** The workers sweep, a seeker stores behind them, and everything else comes to its end. */
  lemma StrandInContext(s: State, w: nat, p: nat) returns (acts: seq<Action>)
    requires Inv(s) && LastLeaver(s, w) && p < |s.tasks.pushers| && Tasks.Seeking(s.tasks.pushers[p])
    ensures var t := Exec(Step(s, EndPass(w)), acts);
            t.life.Stopped? && !TaskTheorems.AllEmpty(t.tasks.queues)
  {
    hide Inv, Step, Exec, AllDrained, LastLeaver, AllLeft;
    LeaverFindsDrained(s, w);
    LeaverLeaves(s, w);
    StepKeepsInv(s, EndPass(w));
    acts := FinishFromLeft(Step(s, EndPass(w)));
    assert TaskTheorems.Queued(Exec(Step(s, EndPass(w)), acts).tasks, p);
  }

  /** When the last worker leaves its main loop, the context is certain to be Stopped with no thunk
      left behind if and only if no push then stands between reading `is_done_` false and storing
      its thunk. */
  lemma LastLeaverDecides(s: State, w: nat)
    requires Inv(s) && LastLeaver(s, w)
    ensures NothingStrands(Step(s, EndPass(w))) <==> TaskTheorems.NoSeeker(s.tasks.pushers)
  {
    if TaskTheorems.NoSeeker(s.tasks.pushers) {
      forall acts: seq<Action> | Exec(Step(s, EndPass(w)), acts).life.Stopped?
        ensures TaskTheorems.AllEmpty(Exec(Step(s, EndPass(w)), acts).tasks.queues)
      {
        QuietLeaverEmpties(s, w, acts);
      }
    } else {
      var p :| 0 <= p < |s.tasks.pushers| && Tasks.Seeking(s.tasks.pushers[p]);
      var acts := StrandInContext(s, w, p);
    }
  }

  /** The same for every reachable state. */
  lemma ThunksAllRunIff(nThreads: nat, nClients: nat, acts: seq<Action>, w: nat)
    requires Sensible(nThreads, nClients) && LastLeaver(After(nThreads, nClients, acts), w)
    ensures var s := After(nThreads, nClients, acts);
            NothingStrands(Step(s, EndPass(w))) <==> TaskTheorems.NoSeeker(s.tasks.pushers)
  {
    Reached(nThreads, nClients, acts);
    LastLeaverDecides(After(nThreads, nClients, acts), w);
  }
}
