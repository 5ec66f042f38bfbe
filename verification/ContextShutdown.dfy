/** The shutdown never runs into a dead end: from every reachable state the context can still come to
    Stopped, in the order in which `stop` waits. */
module ContextShutdown {
  import opened CompletionQueue
  import opened ContextProtocol
  import opened ContextInvariant
  import opened ContextTheorems
  import opened ContextProgress
  import opened ContextStranding
  import Rpc = RpcSignals
  import Server = ServerHandlers
  import Tasks = QueueProtocol

  // ---------------------------------------------------------------- the posts leave their bracket

  /** Steps that a post has left in its bracket. */
  function PostLeft(pc: PostPc): nat {
    match pc
    case PostBegun => 0
    case PostEntered => 3
    case PostAllowed => 2
    case PostCreated => 1
    case PostRefused => 1
    case PostReturned(_) => 0
  }

  function NextPost(s: State, p: nat): Action
    requires p < |s.posters|
  {
    match s.posters[p].pc
    case PostEntered => CheckPost(p)
    case PostAllowed => CreateEvent(p)
    case _ => LeavePost(p)
  }

  /** What a step of post `p` leaves alone. */
  predicate OnlyPostMoved(s: State, t: State, p: nat) {
    && t.life == s.life && t.stop == s.stop && |t.posters| == |s.posters|
    && forall r: nat :: r < |s.posters| && r != p ==> t.posters[r] == s.posters[r]
  }

  lemma BracketIsOpen(s: State, p: nat)
    requires Inv(s) && p < |s.posters| && Bracketed(s.posters[p].pc)
    ensures s.within > 0
  {
    hide Lives, NoneAllowed, Downs, StopBounds, Shaped, Events, Told, ServersOk, Tasks.Inv, PopCalls, EjectCalls,
         Passes, Leavers, Notes;
    assert p in BracketSet(s.posters);
  }

  lemma PostAdvances(s: State, p: nat)
    requires Tasks.Sized(s.tasks) && s.life.ShuttingDown? && s.within > 0
    requires s.groups != [] && s.groups[0] != [] && forall i: nat :: i < |s.groups[0]| ==> s.groups[0][i].Client?
    requires p < |s.posters| && Bracketed(s.posters[p].pc)
    ensures var t := Step(s, NextPost(s, p));
            OnlyPostMoved(s, t, p) && PostLeft(t.posters[p].pc) < PostLeft(s.posters[p].pc)
  {
    assert s.groups[0][s.nextWrite % |s.groups[0]|].Client?;
  }

  lemma {:induction false} FinishPost(s: State, p: nat) returns (acts: seq<Action>)
    requires Inv(s) && s.life.ShuttingDown? && p < |s.posters|
    ensures var t := Exec(s, acts);
            Inv(t) && OnlyPostMoved(s, t, p) && !Bracketed(t.posters[p].pc)
    decreases PostLeft(s.posters[p].pc)
  {
    hide Inv, Step, NextPost;
    InvSized(s);
    if !Bracketed(s.posters[p].pc) {
      acts := [];
    } else {
      BracketIsOpen(s, p);
      ClientsFirst(s);
      PostAdvances(s, p);
      StepKeepsInv(s, NextPost(s, p));
      var first := Extend(s, [], NextPost(s, p));
      var rest := FinishPost(Step(s, NextPost(s, p)), p);
      ExecConcat(s, first, rest);
      acts := first + rest;
    }
  }

  lemma {:induction false} FinishPosts(s: State, k: nat) returns (acts: seq<Action>)
    requires Inv(s) && s.life.ShuttingDown? && k <= |s.posters|
    requires forall p: nat :: p < k ==> !Bracketed(s.posters[p].pc)
    ensures var t := Exec(s, acts);
            && Inv(t) && t.life == s.life && t.stop == s.stop
            && forall p: nat :: p < |t.posters| ==> !Bracketed(t.posters[p].pc)
    decreases |s.posters| - k
  {
    hide Inv;
    InvSized(s);
    if k == |s.posters| {
      acts := [];
    } else {
      var first := FinishPost(s, k);
      var t := Exec(s, first);
      assert forall p: nat :: p < k ==> t.posters[p] == s.posters[p];
      var rest := FinishPosts(t, k + 1);
      ExecConcat(s, first, rest);
      acts := first + rest;
    }
  }

  // ---------------------------------------------------------------- stop shuts down every queue

  lemma StopSeesZero(s: State)
    requires Inv(s) && Tasks.Sized(s.tasks) && s.stop.AwaitingPosts?
    requires forall p: nat :: p < |s.posters| ==> !Bracketed(s.posters[p].pc)
    ensures Step(s, StopStep) == s.(stop := Halting(0, 0))
  {
    hide Lives, NoneAllowed, Downs, StopBounds, Shaped, Events, Told, ServersOk, Tasks.Inv, PopCalls, EjectCalls,
         Passes, Leavers, Notes;
    assert BracketSet(s.posters) == {};
  }

  function HaltLeft(s: State): nat
    requires s.stop.Halting?
  {
    if s.stop.g < |s.groups| && s.stop.i <= |s.groups[s.stop.g]| then |s.groups[s.stop.g]| - s.stop.i else 0
  }

  lemma HaltAdvances(s: State)
    requires Inv(s) && Tasks.Sized(s.tasks) && s.stop.Halting?
    ensures var t := Step(s, StopStep);
            && s.stop.g <= |s.groups| && t.life == s.life && |t.groups| == |s.groups|
            && if s.stop.g == |s.groups| then t.stop == Joining(0)
               else t.stop.Halting? && (t.stop.g == s.stop.g + 1 || (t.stop.g == s.stop.g && HaltLeft(t) < HaltLeft(s)))
  {
    hide Lives, Counted, NoneAllowed, Downs, Shaped, Events, Told, ServersOk, Tasks.Inv, PopCalls, EjectCalls, Passes,
         Leavers, Notes;
  }

  lemma {:induction false} FinishHalting(s: State) returns (acts: seq<Action>)
    requires Inv(s) && s.life.ShuttingDown? && s.stop.Halting?
    ensures var t := Exec(s, acts); Inv(t) && t.life == s.life && t.stop == Joining(0)
    decreases |s.groups| - s.stop.g, HaltLeft(s)
  {
    hide Inv, Step, HaltLeft;
    InvSized(s);
    HaltAdvances(s);
    StepKeepsInv(s, StopStep);
    var first := Extend(s, [], StopStep);
    if s.stop.g == |s.groups| {
      acts := first;
    } else {
      var rest := FinishHalting(Step(s, StopStep));
      ExecConcat(s, first, rest);
      acts := first + rest;
    }
  }

  /** The winning stop can go on until it has shut down every queue. */
  lemma HaltEverything(s: State) returns (acts: seq<Action>)
    requires Inv(s) && s.life.ShuttingDown?
    ensures var t := Exec(s, acts); Inv(t) && t.life.ShuttingDown? && t.stop.Joining?
  {
    hide Inv, Step, Exec;
    InvSized(s);
    ShuttingDownStops(s);
    if s.stop.Joining? {
      acts := [];
      assert Exec(s, acts) == s by { NoSteps(s); }
    } else if s.stop.Halting? {
      acts := FinishHalting(s);
    } else {
      var posts := FinishPosts(s, 0);
      var posted := Exec(s, posts);
      StopSeesZero(posted);
      StepKeepsInv(posted, StopStep);
      var zero := Extend(s, posts, StopStep);
      var halts := FinishHalting(Exec(s, zero));
      ExecConcat(s, zero, halts);
      acts := zero + halts;
    }
  }

  lemma ShuttingDownStops(s: State)
    requires Inv(s) && s.life.ShuttingDown?
    ensures s.stop.AwaitingPosts? || s.stop.Halting? || s.stop.Joining?
    ensures s.workers != []
  {
    hide Counted, NoneAllowed, Downs, StopBounds, Shaped, Events, Told, ServersOk, Tasks.Inv, PopCalls, EjectCalls,
         Passes, Leavers, Notes;
  }

  // ---------------------------------------------------------------- every event is delivered

  /** What a worker's loop step leaves alone. */
  predicate WorkerStepKeeps(s: State, t: State) {
    t.life == s.life && t.stop == s.stop && t.groups == s.groups
  }

  lemma NextStepKeeps(s: State, w: nat)
    requires Tasks.Sized(s.tasks) && w < |s.workers| && !Left(s.workers[w])
    requires AtPoll(s, w) ==> Drained(CqOf(s.groups[s.workers[w].g][Target(s, w)]))
    ensures var t := Step(s, NextStep(s, w));
            && WorkerStepKeeps(s, t) && |t.workers| == |s.workers|
            && forall v: nat :: v < |s.workers| && v != w ==> t.workers[v] == s.workers[v]
  {
    hide Tasks.PopProbe, Tasks.PopRun, Tasks.EjectEnter, Tasks.PopEnter;
  }

  /** Some operation on a queue that is shut down but not drained has ended, or can end. */
  lemma EndOne(s: State, g: nat, i: nat) returns (acts: seq<Action>, tag: nat)
    requires Inv(s) && Tasks.Sized(s.tasks) && g < |s.groups| && i < |s.groups[g]|
    requires CqOf(s.groups[g][i]).down && !Drained(CqOf(s.groups[g][i]))
    ensures var t := Exec(s, acts);
            && Inv(t) && t.life == s.life && t.stop == s.stop && t.workers == s.workers
            && SameSizes(s.groups, t.groups) && tag in CqOf(t.groups[g][i]).ready && Load(t.groups) == Load(s.groups)
  {
    hide Inv, Load, Exec;
    var cq := CqOf(s.groups[g][i]);
    NoSteps(s);
    if cq.ready.Keys != {} {
      acts := [];
      tag :| tag in cq.ready.Keys;
    } else {
      assert cq.ready == map[] && cq.pending != {};
      tag :| tag in cq.pending;
      var a := EndOperation(g, i, tag, false);
      if s.groups[g][i].ServerSide? {
        ServerAt(s, g, i);
      }
      StepKeepsInv(s, a);
      EndOperationLoad(s, g, i, tag, false);
      acts := Extend(s, [], a);
    }
  }

  lemma ServerAt(s: State, g: nat, i: nat)
    requires Inv(s) && g < |s.groups| && i < |s.groups[g]| && s.groups[g][i].ServerSide?
    ensures Server.Inv(s.groups[g][i].server)
  {
  }

  /** A poll that is answered with an event. */
  function Deliver(tag: nat, ok: bool): Action {
    Poll(0, Event(tag, ok), Rpc.Status(0, ""), Rpc.Converted(0), false)
  }

  lemma DeliverKeeps(s: State, tag: nat, ok: bool)
    requires Tasks.Sized(s.tasks)
    ensures var t := Step(s, Deliver(tag, ok)); t.life == s.life && t.stop == s.stop
  {
  }

  lemma DeliverIsDelivery(s: State, t: State, g: nat, i: nat, tag: nat)
    requires AtPoll(s, 0) && t.workers == s.workers && SameSizes(s.groups, t.groups)
    requires g == s.workers[0].g && i == Target(s, 0) && tag in CqOf(t.groups[g][i]).ready
    ensures Delivers(t, Deliver(tag, CqOf(t.groups[g][i]).ready[tag]))
  {
  }

  /** What holds while the winning stop waits to join. */
  ghost predicate Draining(s: State) {
    Inv(s) && s.life.ShuttingDown? && s.stop.Joining? && s.workers != []
  }

  lemma DrainingStep(s: State, a: Action)
    requires Draining(s) && Tasks.Sized(s.tasks) && Step(s, a).life == s.life && Step(s, a).stop == s.stop
    ensures Draining(Step(s, a))
  {
    hide Inv, Step;
    StepKeepsInv(s, a);
    ShuttingDownStops(Step(s, a));
  }

  /** At a queue that is not drained the worker gets an event, at the latest when an operation ends. */
  lemma DeliverOne(s: State) returns (acts: seq<Action>)
    requires Draining(s) && AtPoll(s, 0) && !Drained(CqOf(s.groups[s.workers[0].g][Target(s, 0)]))
    ensures var t := Exec(s, acts); Draining(t) && Load(t.groups) < Load(s.groups)
  {
    hide Inv, Load, Exec, Step, Drained, Delivers, Target, Deliver;
    InvSized(s);
    var g, i := s.workers[0].g, Target(s, 0);
    QueueIsDown(s, g, i);
    var tag;
    acts, tag := EndOne(s, g, i);
    var t := Exec(s, acts);
    var a := Deliver(tag, CqOf(t.groups[g][i]).ready[tag]);
    DeliverIsDelivery(s, t, g, i, tag);
    DeliverKeeps(t, tag, CqOf(t.groups[g][i]).ready[tag]);
    assert a.Poll? by { DeliverIsPoll(tag, CqOf(t.groups[g][i]).ready[tag]); }
    PollLoad(t, a);
    DrainingStep(t, a);
    acts := Extend(s, acts, a);
  }

  lemma DeliverIsPoll(tag: nat, ok: bool)
    ensures Deliver(tag, ok).Poll?
  {
  }

  lemma NotDrainedNotLeft(s: State, w: nat)
    requires Inv(s) && !AllDrained(s.groups) && w < |s.workers|
    ensures !Left(s.workers[w])
  {
    hide Lives, Counted, NoneAllowed, Downs, StopBounds, Shaped, Events, Told, ServersOk, Tasks.Inv, PopCalls,
         EjectCalls, Passes, Notes;
  }

  /** The first worker alone can bring every queue to be drained. */
  lemma {:induction false} DrainEverything(s: State) returns (acts: seq<Action>)
    requires Draining(s)
    ensures Draining(Exec(s, acts)) && AllDrained(Exec(s, acts).groups)
    decreases Load(s.groups), Cost(s, 0)
  {
    hide Inv, Load, Step, AllDrained, Cost, NextStep;
    InvSized(s);
    if AllDrained(s.groups) {
      acts := [];
    } else {
      NotDrainedNotLeft(s, 0);
      var first;
      if AtPoll(s, 0) && !Drained(CqOf(s.groups[s.workers[0].g][Target(s, 0)])) {
        first := DeliverOne(s);
      } else {
        WorkerCanGoOn(s, 0);
        NextStepKeeps(s, 0);
        DrainingStep(s, NextStep(s, 0));
        first := Extend(s, [], NextStep(s, 0));
      }
      var rest := DrainEverything(Exec(s, first));
      ExecConcat(s, first, rest);
      acts := first + rest;
    }
  }

  // ---------------------------------------------------------------- every worker leaves

  lemma DrainedTarget(s: State, w: nat)
    requires AllDrained(s.groups) && AtPoll(s, w)
    ensures Drained(CqOf(s.groups[s.workers[w].g][Target(s, w)]))
  {
    assert DrainedAt(s.groups, s.workers[w].g, Target(s, w));
  }

  lemma {:induction false} LeaveLoop(s: State, w: nat) returns (acts: seq<Action>)
    requires Draining(s) && AllDrained(s.groups) && w < |s.workers|
    ensures var t := Exec(s, acts);
            && Draining(t) && AllDrained(t.groups) && |t.workers| == |s.workers| && Left(t.workers[w])
            && forall v: nat :: v < |s.workers| && v != w ==> t.workers[v] == s.workers[v]
    decreases Cost(s, w)
  {
    hide Inv, Step, AllDrained, Cost, NextStep, AtPoll, Target, Left;
    InvSized(s);
    if Left(s.workers[w]) {
      acts := [];
    } else {
      if AtPoll(s, w) {
        DrainedTarget(s, w);
      }
      WorkerCanGoOn(s, w);
      NextStepKeeps(s, w);
      DrainingStep(s, NextStep(s, w));
      var first := Extend(s, [], NextStep(s, w));
      var rest := LeaveLoop(Step(s, NextStep(s, w)), w);
      ExecConcat(s, first, rest);
      acts := first + rest;
    }
  }

  lemma {:induction false} LeaveLoops(s: State, k: nat) returns (acts: seq<Action>)
    requires Draining(s) && AllDrained(s.groups) && k <= |s.workers|
    requires forall w: nat :: w < k ==> Left(s.workers[w])
    ensures var t := Exec(s, acts); Draining(t) && AllDrained(t.groups) && AllLeft(t.workers)
    decreases |s.workers| - k
  {
    hide Inv, AllDrained, Left;
    InvSized(s);
    if k == |s.workers| {
      acts := [];
    } else {
      var first := LeaveLoop(s, k);
      var t := Exec(s, first);
      assert forall w: nat :: w < k ==> t.workers[w] == s.workers[w];
      var rest := LeaveLoops(t, k + 1);
      ExecConcat(s, first, rest);
      acts := first + rest;
    }
  }

  // ---------------------------------------------------------------- Stopped

  lemma FinishShutdown(s: State) returns (acts: seq<Action>)
    requires Inv(s) && s.life.ShuttingDown?
    ensures Exec(s, acts).life.Stopped?
  {
    hide Inv, Step, Exec, AllDrained, AllLeft;
    InvSized(s);
    var halts := HaltEverything(s);
    var halted := Exec(s, halts);
    ShuttingDownStops(halted);
    var drains := DrainEverything(halted);
    var drained := Exec(halted, drains);
    var leaves := LeaveLoops(drained, 0);
    var left := Exec(drained, leaves);
    var ends := FinishFromLeft(left);
    ExecConcat(s, halts, drains);
    ExecConcat(s, halts + drains, leaves);
    ExecConcat(s, halts + drains + leaves, ends);
    acts := halts + drains + leaves + ends;
  }

  lemma Moves(s: State)
    requires Tasks.Sized(s.tasks)
    ensures s.life.Ready? ==> Step(s, Run).life.Running?
    ensures s.life.Running? ==> Step(s, CallStop).life.ShuttingDown?
  {
  }

  lemma BeginShutdown(s: State) returns (acts: seq<Action>)
    requires Inv(s) && Tasks.Sized(s.tasks)
    ensures Exec(s, acts).life.ShuttingDown? || Exec(s, acts).life.Stopped?
  {
    hide Exec, Step;
    NoSteps(s);
    acts := [];
    if s.life.Ready? {
      Moves(s);
      acts := Extend(s, acts, Run);
    }
    if Exec(s, acts).life.Running? {
      Moves(Exec(s, acts));
      acts := Extend(s, acts, CallStop);
    }
  }

  /** From every reachable state, whatever calls are under way, the context can be stopped and can
      come to Stopped. */
  lemma CanAlwaysStop(nThreads: nat, nClients: nat, acts: seq<Action>) returns (later: seq<Action>)
    requires Sensible(nThreads, nClients)
    ensures Exec(After(nThreads, nClients, acts), later).life.Stopped?
  {
    hide Inv, Step, Exec;
    var s := After(nThreads, nClients, acts);
    Reached(nThreads, nClients, acts);
    later := BeginShutdown(s);
    ExecKeepsInv(s, later);
    if Exec(s, later).life.ShuttingDown? {
      var rest := FinishShutdown(Exec(s, later));
      ExecConcat(s, later, rest);
      later := later + rest;
    }
  }
}
