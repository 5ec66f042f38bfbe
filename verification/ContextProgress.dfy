/** Why the workers' main loops end: after the shutdown every delivery lowers the number of
    deliveries still to come, and once that is zero every loop step of every worker lowers what
    that worker has left to do. */
module ContextProgress {
  import Scan
  import opened CompletionQueue
  import opened ContextProtocol
  import opened ContextInvariant
  import Server = ServerHandlers
  import Tasks = QueueProtocol
  import Rpc = RpcSignals

  // ---------------------------------------------------------------- deliveries still to come

  /** The deliveries a queue still has to make. */
  ghost function QueueLoad(q: Queue): nat {
    match q
    case Client(cq) => |Outstanding(cq)|
    case ServerSide(s) => Server.Remaining(s)
  }

  ghost function GroupLoad(qs: seq<Queue>): nat {
    if qs == [] then 0 else QueueLoad(qs[0]) + GroupLoad(qs[1..])
  }

  ghost function Load(groups: seq<seq<Queue>>): nat {
    if groups == [] then 0 else GroupLoad(groups[0]) + Load(groups[1..])
  }

  lemma {:induction false} GroupLoadUpdate(qs: seq<Queue>, i: nat, r: Queue)
    requires i < |qs|
    ensures GroupLoad(qs[i := r]) == GroupLoad(qs) - QueueLoad(qs[i]) + QueueLoad(r)
  {
    if i == 0 {
      assert qs[0 := r][1..] == qs[1..];
    } else {
      assert qs[i := r][1..] == qs[1..][i - 1 := r];
      GroupLoadUpdate(qs[1..], i - 1, r);
    }
  }

  lemma {:induction false} LoadUpdate(groups: seq<seq<Queue>>, g: nat, i: nat, r: Queue)
    requires g < |groups| && i < |groups[g]|
    ensures Load(SetQueue(groups, g, i, r)) == Load(groups) - QueueLoad(groups[g][i]) + QueueLoad(r)
  {
    var after := SetQueue(groups, g, i, r);
    if g == 0 {
      GroupLoadUpdate(groups[0], i, r);
      assert after[1..] == groups[1..];
    } else {
      assert after[1..] == groups[1..][g - 1 := groups[g][i := r]];
      LoadUpdate(groups[1..], g - 1, i, r);
    }
  }

  lemma {:induction false} GroupLoadZero(qs: seq<Queue>, i: nat)
    requires GroupLoad(qs) == 0 && i < |qs|
    ensures QueueLoad(qs[i]) == 0
  {
    if i > 0 {
      GroupLoadZero(qs[1..], i - 1);
    }
  }

  lemma {:induction false} LoadZero(groups: seq<seq<Queue>>, g: nat, i: nat)
    requires Load(groups) == 0 && g < |groups| && i < |groups[g]|
    ensures QueueLoad(groups[g][i]) == 0
  {
    if g == 0 {
      GroupLoadZero(groups[0], i);
    } else {
      LoadZero(groups[1..], g - 1, i);
    }
  }

  /** The winning stop has shut down every queue. */
  predicate AllHalted(stop: StopPc) { stop.Joining? || stop.Notifying? || stop.StopReturned? }

  /** gRPC hands no new request to a queue that is shut down. */
  predicate Graceful(s: State, a: Action) {
    a.EndOperation? && a.g < |s.groups| && a.i < |s.groups[a.g]| && s.groups[a.g][a.i].ServerSide? ==>
      Server.Graceful(s.groups[a.g][a.i].server, Server.Ready(a.tag, a.ok))
  }

  /** The step takes an event off a queue. */
  predicate Delivers(s: State, a: Action) {
    a.Poll? && a.answer.Event? && AtPoll(s, a.w) &&
      MayAnswer(CqOf(s.groups[s.workers[a.w].g][Target(s, a.w)]), a.answer)
  }

  lemma ClientDeliveryLowersLoad(cq: Cq, tag: nat)
    requires Proper(cq) && tag in cq.ready
    ensures QueueLoad(Client(Delivered(cq, tag))) < QueueLoad(Client(cq))
  {
    assert Outstanding(Delivered(cq, tag)) == Outstanding(cq) - {tag};
  }

  lemma ExecuteLowersLoad(s: State, g: nat, i: nat, answer: Answer, status: Rpc.Status,
                          conversion: Rpc.Conversion<Payload>, throws: bool)
    requires g < |s.groups| && i < |s.groups[g]| && answer.Event? && answer.tag in CqOf(s.groups[g][i]).ready
    requires match s.groups[g][i] case Client(cq) => Proper(cq) case ServerSide(q) => Server.Inv(q)
    ensures Load(Execute(s, g, i, answer, status, conversion, throws).groups) < Load(s.groups)
  {
    match s.groups[g][i]
    case Client(cq) =>
      LoadUpdate(s.groups, g, i, Client(Delivered(cq, answer.tag)));
      ClientDeliveryLowersLoad(cq, answer.tag);
    case ServerSide(q) =>
      LoadUpdate(s.groups, g, i, ServerSide(Server.DeliverTag(q, answer.tag, throws)));
      Server.DeliveryLowersRemaining(q, answer.tag, throws);
  }

  lemma PollLoad(s: State, a: Action)
    requires Inv(s) && AllHalted(s.stop) && a.Poll?
    ensures Load(Step(s, a).groups) <= Load(s.groups)
    ensures Delivers(s, a) ==> Load(Step(s, a).groups) < Load(s.groups)
  {
    hide Inv, Load, Step, Execute, Delivers, Server.Inv, Proper;
    InvSized(s);
    PollGroups(s, a);
    if Delivers(s, a) {
      var g, i := s.workers[a.w].g, Target(s, a.w);
      QueueOk(s, g, i);
      ExecuteLowersLoad(Polled(s, a), g, i, a.answer, a.status, a.conversion, a.throws);
    }
  }

  /** The worker's counters have been brought up to date with the answer it got. */
  function Polled(s: State, a: Action): State
    requires a.Poll? && a.w < |s.workers| && s.workers[a.w].Polling?
  {
    s.(workers := s.workers[a.w := Counters(s.workers[a.w], a.answer)])
  }

  lemma PollGroups(s: State, a: Action)
    requires Tasks.Sized(s.tasks) && a.Poll?
    ensures Delivers(s, a) ==>
              && AtPoll(s, a.w) && a.answer.Event?
              && a.answer.tag in CqOf(s.groups[s.workers[a.w].g][Target(s, a.w)]).ready
              && Step(s, a) == Execute(Polled(s, a), s.workers[a.w].g, Target(s, a.w), a.answer, a.status, a.conversion,
                                       a.throws)
    ensures !Delivers(s, a) ==> Step(s, a).groups == s.groups
  {
  }

  lemma QueueOk(s: State, g: nat, i: nat)
    requires Inv(s) && g < |s.groups| && i < |s.groups[g]|
    ensures match s.groups[g][i] case Client(cq) => Proper(cq) case ServerSide(q) => Server.Inv(q)
  {
    hide Lives, Counted, NoneAllowed, Downs, StopBounds, Told, Tasks.Inv, PopCalls, EjectCalls, Passes, Leavers, Notes;
    hide Server.Inv, Proper;
    assert s.groups[g][i].Client? ==> g == 0;
  }

  lemma ReadyKeepsOutstanding(cq: Cq, tag: nat, ok: bool)
    ensures Outstanding(MakeReady(cq, tag, ok)) == Outstanding(cq)
  {
  }

  lemma EndOperationLoad(s: State, g: nat, i: nat, tag: nat, ok: bool)
    requires g < |s.groups| && i < |s.groups[g]| && CqOf(s.groups[g][i]).down
    requires s.groups[g][i].ServerSide? ==>
               Server.Inv(s.groups[g][i].server) && Server.Graceful(s.groups[g][i].server, Server.Ready(tag, ok))
    ensures Load(DoEndOperation(s, g, i, tag, ok).groups) == Load(s.groups)
  {
    hide Load, Server.Inv, Server.Remaining, Server.Graceful, MakeReady, Outstanding;
    match s.groups[g][i]
    case Client(cq) =>
      LoadUpdate(s.groups, g, i, Client(MakeReady(cq, tag, ok)));
      ReadyKeepsOutstanding(cq, tag, ok);
    case ServerSide(q) =>
      LoadUpdate(s.groups, g, i, ServerSide(q.(cq := MakeReady(q.cq, tag, ok))));
      Server.EndKeepsRemaining(q, tag, ok);
  }

  lemma OthersKeepGroups(s: State, a: Action)
    requires Tasks.Sized(s.tasks) && NoneAllowed(s.stop, s.posters) && AllHalted(s.stop) && !s.life.Ready?
    requires !a.Poll? && !a.EndOperation?
    ensures Step(s, a).groups == s.groups
  {
  }

  /** Once every queue is shut down, no step raises the number of deliveries still to come, and
      each delivery lowers it: it bounds the deliveries left in any run. */
  lemma DeliveriesRunOut(s: State, a: Action)
    requires Inv(s) && AllHalted(s.stop) && Graceful(s, a)
    ensures Load(Step(s, a).groups) <= Load(s.groups)
    ensures Delivers(s, a) ==> Load(Step(s, a).groups) < Load(s.groups)
  {
    hide Inv, Load, Step, Server.Inv, Server.Graceful, AllHalted;
    HaltedFacts(s);
    if a.Poll? {
      PollLoad(s, a);
    } else if a.EndOperation? {
      assert Step(s, a) == DoEndOperation(s, a.g, a.i, a.tag, a.ok) by { EndOperationIs(s, a); }
      if a.g < |s.groups| && a.i < |s.groups[a.g]| {
        QueueIsDown(s, a.g, a.i);
        QueueOk(s, a.g, a.i);
        EndOperationLoad(s, a.g, a.i, a.tag, a.ok);
      }
    } else {
      OthersKeepGroups(s, a);
    }
  }

  lemma HaltedFacts(s: State)
    requires Inv(s) && AllHalted(s.stop)
    ensures Tasks.Sized(s.tasks) && NoneAllowed(s.stop, s.posters) && !s.life.Ready? && !s.life.Running?
  {
    hide Counted, Downs, StopBounds, Shaped, Events, Told, ServersOk, PopCalls, EjectCalls, Passes, Leavers, Notes;
  }

  lemma EndOperationIs(s: State, a: Action)
    requires Tasks.Sized(s.tasks) && a.EndOperation?
    ensures Step(s, a) == DoEndOperation(s, a.g, a.i, a.tag, a.ok)
  {
  }

  lemma QueueIsDown(s: State, g: nat, i: nat)
    requires Inv(s) && AllHalted(s.stop) && g < |s.groups| && i < |s.groups[g]|
    ensures CqOf(s.groups[g][i]).down
  {
    hide Lives, Counted, NoneAllowed, StopBounds, Shaped, Events, Told, ServersOk, Tasks.Inv, PopCalls, EjectCalls,
         Passes, Leavers, Notes;
    assert Halted(s.stop, g, i);
  }

  /** Every step of the run is graceful. */
  ghost predicate GracefulRun(s: State, acts: seq<Action>)
    requires Tasks.Sized(s.tasks)
  {
    forall k: nat :: k < |acts| ==> Graceful(Exec(s, acts[..k]), acts[k])
  }

  /** The number of events taken off queues during the run. */
  ghost function Deliveries(s: State, acts: seq<Action>): nat
    requires Tasks.Sized(s.tasks)
  {
    if acts == [] then 0
    else
      var before := acts[..|acts| - 1];
      Deliveries(s, before) + if Delivers(Exec(s, before), acts[|acts| - 1]) then 1 else 0
  }

  lemma HaltedStays(s: State, a: Action)
    requires Tasks.Sized(s.tasks) && AllHalted(s.stop) && !s.life.Running?
    ensures AllHalted(Step(s, a).stop)
  {
  }

  lemma GracefulPrefix(s: State, acts: seq<Action>)
    requires Tasks.Sized(s.tasks) && GracefulRun(s, acts) && acts != []
    ensures GracefulRun(s, acts[..|acts| - 1]) && Graceful(Exec(s, acts[..|acts| - 1]), acts[|acts| - 1])
  {
    var before := acts[..|acts| - 1];
    assert forall k: nat :: k < |before| ==> before[..k] == acts[..k];
  }

  /** After the shutdown a run, however long, delivers no more events than were still to come. */
  lemma {:induction false} DeliveriesBounded(s: State, acts: seq<Action>)
    requires Inv(s) && AllHalted(s.stop) && GracefulRun(s, acts)
    ensures var t := Exec(s, acts);
            Inv(t) && AllHalted(t.stop) && Deliveries(s, acts) + Load(t.groups) <= Load(s.groups)
  {
    if acts != [] {
      var before, a := acts[..|acts| - 1], acts[|acts| - 1];
      GracefulPrefix(s, acts);
      DeliveriesBounded(s, before);
      var u := Exec(s, before);
      DeliveriesRunOut(u, a);
      StepKeepsInv(u, a);
      HaltedStays(u, a);
    }
  }

  /** Nothing is left to deliver exactly when every queue is drained. */
  lemma NothingLeftIffDrained(s: State)
    requires Inv(s) && AllHalted(s.stop)
    ensures Load(s.groups) == 0 <==> AllDrained(s.groups)
  {
    if Load(s.groups) == 0 {
      forall g: nat, i: nat
        ensures DrainedAt(s.groups, g, i)
      {
        if g < |s.groups| && i < |s.groups[g]| {
          LoadZero(s.groups, g, i);
          UnloadedIsDrained(s.groups[g][i]);
          assert Halted(s.stop, g, i);
        }
      }
    } else if AllDrained(s.groups) {
      DrainedLoad(s.groups);
    }
  }

  lemma UnloadedIsDrained(q: Queue)
    requires QueueLoad(q) == 0 && CqOf(q).down && (q.ServerSide? ==> Server.Inv(q.server))
    ensures Drained(CqOf(q))
  {
    match q
    case Client(cq) =>
      assert cq.ready.Keys == {};
    case ServerSide(s) =>
      assert s.handlers == map[];
      assert s.cq.ready.Keys == {};
  }

  lemma {:induction false} DrainedGroupLoad(qs: seq<Queue>)
    requires forall i: nat :: i < |qs| ==> Drained(CqOf(qs[i])) && (qs[i].ServerSide? ==> Server.Inv(qs[i].server))
    ensures GroupLoad(qs) == 0
  {
    if qs != [] {
      if qs[0].ServerSide? {
        Server.DrainedIsFinal(qs[0].server, Server.ShutDownQueue);
      }
      DrainedGroupLoad(qs[1..]);
    }
  }

  lemma {:induction false} DrainedLoad(groups: seq<seq<Queue>>)
    requires AllDrained(groups) && ServersOk(groups)
    ensures Load(groups) == 0
  {
    if groups != [] {
      forall i: nat | i < |groups[0]|
        ensures Drained(CqOf(groups[0][i]))
      {
        assert DrainedAt(groups, 0, i);
      }
      DrainedGroupLoad(groups[0]);
      assert AllDrained(groups[1..]) by {
        forall g: nat, i: nat
          ensures DrainedAt(groups[1..], g, i)
        {
          assert DrainedAt(groups, g + 1, i);
        }
      }
      DrainedLoad(groups[1..]);
    }
  }

  // ---------------------------------------------------------------- the last pass

  /** The worker is in a pass in which every poll so far was answered SHUTDOWN. */
  predicate CleanPass(pc: WorkerPc) {
    pc.Polling? && pc.executed == 0 && pc.before == 0 && pc.shut == pc.total + pc.i
  }

  /** The loop steps of a pass over these groups: a poll for each queue and one step on. */
  function Steps(groups: seq<seq<Queue>>): nat {
    if groups == [] then 0 else |groups[0]| + 1 + Steps(groups[1..])
  }

  /** The loop steps left until the end of the pass. */
  function PassLeft(groups: seq<seq<Queue>>, pc: WorkerPc): nat
    requires pc.Polling?
  {
    if pc.g >= |groups| then 0
    else (if pc.i <= |groups[pc.g]| then |groups[pc.g]| - pc.i else 0) + 1 + Steps(groups[pc.g + 1..])
  }

  lemma NextPassLeft(groups: seq<seq<Queue>>, pc: WorkerPc)
    requires pc.Polling? && pc.i == 0 && pc.g <= |groups|
    ensures PassLeft(groups, pc) == Steps(groups[pc.g..])
  {
    if pc.g < |groups| {
      assert groups[pc.g..][1..] == groups[pc.g + 1..];
    }
  }

  /** The loop steps of a whole pass, the one that ends it included. */
  function FullPass(groups: seq<seq<Queue>>): nat { Steps(groups) + 1 }

  lemma PassFromTop(groups: seq<seq<Queue>>)
    ensures CleanPass(TOP) && PassLeft(groups, TOP) + 1 == FullPass(groups)
  {
    NextPassLeft(groups, TOP);
    assert groups[0..] == groups;
  }

  /** The steps of a `try_pop` call and of running its thunk that are left, and the way back to the top. */
  function PopLeft(pc: Tasks.PopPc, n: nat): nat {
    match pc
    case PopProbing(_, i) => (if i <= n then n - i else 0) + 2
    case PopHolding(_) => 2
    case PopFinished(_) => 1
  }

  function PcCost(groups: seq<seq<Queue>>, poppers: seq<Tasks.PopPc>, n: nat, pc: WorkerPc): nat {
    match pc
    case Polling(_, _, _, _, _, _) => PassLeft(groups, pc) + 1 + if CleanPass(pc) then 0 else n + 2 + FullPass(groups)
    case Popping(c) => (if c < |poppers| then PopLeft(poppers[c], n) else 0) + FullPass(groups)
    case Ejecting(_) => 0
    case Exited(_) => 0
  }

  /** A bound on the steps that worker `w` still takes in its main loop, once every poll is answered
      SHUTDOWN: the rest of this pass, and if that is not clean, a `try_pop` and one clean pass. */
  function Cost(s: State, w: nat): nat
    requires w < |s.workers|
  {
    PcCost(s.groups, s.tasks.poppers, |s.tasks.queues|, s.workers[w])
  }

  /** A step that worker `w` takes in its main loop. */
  predicate LoopStep(a: Action, w: nat) {
    (a.Poll? || a.NextGroup? || a.EndPass? || a.Pop?) && a.w == w
  }

  /** Cost falls with a loop step, by one in a clean pass, which stays clean. */
  predicate Pays(s: State, t: State, w: nat) {
    && w < |s.workers| && |t.workers| == |s.workers| && !Left(s.workers[w])
    && Cost(t, w) < Cost(s, w)
    && (CleanPass(s.workers[w]) ==> Cost(t, w) == Cost(s, w) - 1 && (Left(t.workers[w]) || CleanPass(t.workers[w])))
  }

  lemma PollPays(s: State, w: nat, a: Action)
    requires Tasks.Sized(s.tasks) && AtPoll(s, w) && a.Poll? && a.w == w && a.answer.Shutdown?
    requires Drained(CqOf(s.groups[s.workers[w].g][Target(s, w)]))
    ensures Pays(s, Step(s, a), w) && Step(s, a).groups == s.groups
  {
    var pc := s.workers[w];
    assert Step(s, a) == s.(workers := s.workers[w := Counters(pc, Shutdown)]);
    assert PassLeft(s.groups, Counters(pc, Shutdown)) == PassLeft(s.groups, pc) - 1;
    assert CleanPass(Counters(pc, Shutdown)) <==> CleanPass(pc);
  }

  lemma NextGroupPays(s: State, w: nat)
    requires Tasks.Sized(s.tasks) && w < |s.workers| && GroupOver(s.groups, s.workers[w])
    requires PassOk(s.groups, w, s.workers[w])
    ensures Pays(s, Step(s, NextGroup(w)), w)
  {
    hide PolledDrained;
    var pc, next := s.workers[w], NextPc(s.groups, s.workers[w]);
    assert Step(s, NextGroup(w)) == s.(workers := s.workers[w := next]);
    NextPassLeft(s.groups, next);
    assert CleanPass(pc) ==> pc.i == |s.groups[pc.g]| && CleanPass(next);
  }

  lemma EndPassPays(s: State, w: nat)
    requires Tasks.Sized(s.tasks) && w < |s.workers| && s.workers[w].Polling? && s.workers[w].g == |s.groups|
    requires PassOk(s.groups, w, s.workers[w])
    ensures Pays(s, Step(s, EndPass(w)), w)
  {
    hide PolledDrained;
    assert PassLeft(s.groups, s.workers[w]) == 0;
  }

  lemma PopMovesOn(t: Tasks.State, c: nat, locked: bool)
    requires Tasks.Sized(t) && c < |t.poppers| && Tasks.PopBounds(|t.queues|, t.poppers)
    ensures PopLeft(t.poppers[c], |t.queues|) > 0
    ensures t.poppers[c].PopProbing? ==>
              var u := Tasks.PopProbe(t, c, locked);
              && |u.queues| == |t.queues| && |u.poppers| == |t.poppers|
              && PopLeft(u.poppers[c], |t.queues|) < PopLeft(t.poppers[c], |t.queues|)
    ensures t.poppers[c].PopHolding? ==>
              var u := Tasks.PopRun(t, c);
              && u.queues == t.queues && |u.poppers| == |t.poppers|
              && PopLeft(u.poppers[c], |t.queues|) < PopLeft(t.poppers[c], |t.queues|)
  {
    hide Scan.Probe;
  }

  lemma PopStepIs(s: State, w: nat, locked: bool)
    requires Tasks.Sized(s.tasks) && w < |s.workers| && s.workers[w].Popping? && s.workers[w].call < |s.tasks.poppers|
    ensures var c := s.workers[w].call;
            Step(s, Pop(w, locked)) ==
            match s.tasks.poppers[c]
            case PopProbing(_, _) => s.(tasks := Tasks.PopProbe(s.tasks, c, locked))
            case PopHolding(_) => s.(tasks := Tasks.PopRun(s.tasks, c))
            case PopFinished(_) => s.(workers := s.workers[w := TOP])
  {
    hide Tasks.PopProbe, Tasks.PopRun, Scan.Probe;
  }

  lemma CostAtTop(groups: seq<seq<Queue>>, poppers: seq<Tasks.PopPc>, n: nat)
    ensures PcCost(groups, poppers, n, TOP) == FullPass(groups)
  {
    hide PassLeft, FullPass, CleanPass;
    PassFromTop(groups);
  }

  lemma CostOfPop(groups: seq<seq<Queue>>, poppers: seq<Tasks.PopPc>, n: nat, c: nat)
    requires c < |poppers|
    ensures PcCost(groups, poppers, n, Popping(c)) == PopLeft(poppers[c], n) + FullPass(groups)
    ensures !CleanPass(Popping(c))
  {
    hide PassLeft, FullPass, PopLeft;
  }

  lemma PopPays(s: State, w: nat, locked: bool)
    requires Tasks.Sized(s.tasks) && w < |s.workers| && s.workers[w].Popping? && s.workers[w].call < |s.tasks.poppers|
    requires Tasks.PopBounds(|s.tasks.queues|, s.tasks.poppers)
    ensures Pays(s, Step(s, Pop(w, locked)), w)
  {
    hide PcCost, CleanPass, Scan.Probe, FullPass, Tasks.PopProbe, Tasks.PopRun, PopLeft, Step;
    var c, n, t := s.workers[w].call, |s.tasks.queues|, Step(s, Pop(w, locked));
    PopStepIs(s, w, locked);
    PopMovesOn(s.tasks, c, locked);
    CostOfPop(s.groups, s.tasks.poppers, n, c);
    if s.tasks.poppers[c].PopFinished? {
      CostAtTop(s.groups, s.tasks.poppers, n);
    } else {
      CostOfPop(s.groups, t.tasks.poppers, n, c);
    }
  }

  lemma LoopFacts(s: State, w: nat)
    requires Inv(s) && w < |s.workers|
    ensures Tasks.Sized(s.tasks) && Tasks.PopBounds(|s.tasks.queues|, s.tasks.poppers) && !s.life.Ready?
    ensures AllHalted(s.stop) ==> !s.life.Running?
    ensures PassOk(s.groups, w, s.workers[w]) && NoneAllowed(s.stop, s.posters)
    ensures PopCalls(s.tasks.poppers, s.popOwner, s.workers)
    ensures s.workers[w].Popping? ==> s.workers[w].call < |s.tasks.poppers|
  {
    hide Counted, Downs, StopBounds, Shaped, Events, Told, ServersOk, EjectCalls, Leavers, Notes, PassOk;
    hide Tasks.Ordered, Tasks.Counted, Tasks.Conserved, Tasks.StoredOnce, Tasks.PushBounds, Tasks.EjectBounds;
  }

  /** Every loop step of any worker pays, if its poll, if it is one, was answered SHUTDOWN. */
  lemma LoopStepPays(s: State, a: Action, w: nat)
    requires Inv(s) && w < |s.workers| && LoopStep(a, w) && (a.Poll? ==> a.answer.Shutdown?)
    ensures Tasks.Sized(s.tasks) && (Step(s, a) == s || Pays(s, Step(s, a), w))
  {
    hide Inv, PassOk, Pays, PassLeft, Cost;
    LoopFacts(s, w);
    if Step(s, a) != s {
      match a
      case Poll(_, _, _, _, _) => PollPays(s, w, a);
      case NextGroup(_) => NextGroupPays(s, w);
      case EndPass(_) => EndPassPays(s, w);
      case Pop(_, locked) => PopPays(s, w, locked);
      case _ =>
    }
  }

  /** No other step changes what a worker's main loop still has to do. */
  lemma OthersKeepCost(s: State, a: Action, w: nat)
    requires Tasks.Sized(s.tasks) && !s.life.Ready? && w < |s.workers| && !LoopStep(a, w)
    requires Step(s, a).groups == s.groups && PopCalls(s.tasks.poppers, s.popOwner, s.workers)
    ensures var t := Step(s, a);
            && |t.workers| == |s.workers| && Cost(t, w) == Cost(s, w)
            && (t.workers[w] == s.workers[w] || (Left(s.workers[w]) && Left(t.workers[w])))
  {
    hide PcCost, Step;
    if s.workers[w].Popping? {
      PoppersKept(s, a, w);
    }
    OthersKeepPc(s, a, w);
    SameCost(s, Step(s, a), w);
  }

  lemma SameCost(s: State, t: State, w: nat)
    requires w < |s.workers| == |t.workers| && t.groups == s.groups && |t.tasks.queues| == |s.tasks.queues|
    requires t.workers[w] == s.workers[w] || (Left(s.workers[w]) && Left(t.workers[w]))
    requires s.workers[w].Popping? ==>
               s.workers[w].call < |s.tasks.poppers| && s.workers[w].call < |t.tasks.poppers| &&
               t.tasks.poppers[s.workers[w].call] == s.tasks.poppers[s.workers[w].call]
    ensures Cost(t, w) == Cost(s, w)
  {
    hide PassLeft, FullPass, PopLeft, CleanPass;
  }

  lemma OthersKeepPc(s: State, a: Action, w: nat)
    requires Tasks.Sized(s.tasks) && !s.life.Ready? && w < |s.workers| && !LoopStep(a, w)
    ensures var t := Step(s, a);
            && |t.workers| == |s.workers| && |t.tasks.queues| == |s.tasks.queues|
            && (t.workers[w] == s.workers[w] || (Left(s.workers[w]) && Left(t.workers[w])))
  {
    hide Scan.Probe;
    hide DoBeginPost, DoEnterPost, DoCheckPost, DoCreateEvent, DoLeavePost, DoTellRefusal;
    if IsPost(a) {
      PostFrame(s, a);
    }
  }

  /** The call of `try_pop` that a worker is in moves only with that worker. */
  lemma PoppersKept(s: State, a: Action, w: nat)
    requires Tasks.Sized(s.tasks) && w < |s.workers| && !LoopStep(a, w)
    requires PopCalls(s.tasks.poppers, s.popOwner, s.workers) && s.workers[w].Popping?
    ensures var t := Step(s, a);
            && s.workers[w].call < |s.tasks.poppers| && s.workers[w].call < |t.tasks.poppers|
            && t.tasks.poppers[s.workers[w].call] == s.tasks.poppers[s.workers[w].call]
  {
    hide Scan.Probe;
    hide DoBeginPost, DoEnterPost, DoCheckPost, DoCreateEvent, DoLeavePost, DoTellRefusal;
    if IsPost(a) {
      PostFrame(s, a);
    }
    if a.PostTask? && Tasks.IsPush(a.a) {
      PushLeavesCalls(s.tasks, a.a);
    }
  }

  lemma DrainedEndOperation(s: State, g: nat, i: nat, tag: nat, ok: bool)
    requires AllDrained(s.groups)
    ensures DoEndOperation(s, g, i, tag, ok).groups == s.groups
  {
    if g < |s.groups| && i < |s.groups[g]| {
      assert DrainedAt(s.groups, g, i);
      assert s.groups[g][i := s.groups[g][i]] == s.groups[g];
    }
  }

  /** With every queue drained, SHUTDOWN is the only possible answer. */
  lemma DrainedPoll(s: State, w: nat, answer: Answer, status: Rpc.Status, conversion: Rpc.Conversion<Payload>,
                    throws: bool)
    requires AllDrained(s.groups)
    ensures DoPoll(s, w, answer, status, conversion, throws) ==
            if AtPoll(s, w) && answer.Shutdown? then s.(workers := s.workers[w := Counters(s.workers[w], Shutdown)])
            else s
  {
    if AtPoll(s, w) {
      assert DrainedAt(s.groups, s.workers[w].g, Target(s, w));
    }
  }

  lemma DrainedStays(s: State, a: Action)
    requires Tasks.Sized(s.tasks) && NoneAllowed(s.stop, s.posters) && AllHalted(s.stop) && !s.life.Ready?
    requires AllDrained(s.groups)
    ensures Step(s, a).groups == s.groups
  {
    if a.Poll? {
      DrainedPoll(s, a.w, a.answer, a.status, a.conversion, a.throws);
    } else if a.EndOperation? {
      DrainedEndOperation(s, a.g, a.i, a.tag, a.ok);
    } else {
      OthersKeepGroups(s, a);
    }
  }

  /** The number of loop steps that worker `w` takes during the run. */
  function Turns(s: State, acts: seq<Action>, w: nat): nat
    requires Tasks.Sized(s.tasks)
  {
    if acts == [] then 0
    else
      var before, a := Exec(s, acts[..|acts| - 1]), acts[|acts| - 1];
      Turns(s, acts[..|acts| - 1], w) + if LoopStep(a, w) && Step(before, a) != before then 1 else 0
  }

  lemma DrainedAnswer(s: State, a: Action, w: nat)
    requires Tasks.Sized(s.tasks) && AllDrained(s.groups) && a.Poll? && Step(s, a) != s
    ensures a.answer.Shutdown?
  {
    DrainedPoll(s, a.w, a.answer, a.status, a.conversion, a.throws);
  }

  /** Once every queue is drained, in every run: the queues stay as they are, and every worker,
      wherever it stands, takes no more steps in its main loop than its cost, which is zero exactly
      when it has left. A worker at the top of its loop, or in a clean pass, never goes back to the
      task queue: it leaves at the end of this pass. */
  lemma {:induction false} WorkersLeave(s: State, acts: seq<Action>, w: nat)
    requires Inv(s) && AllHalted(s.stop) && AllDrained(s.groups) && w < |s.workers|
    ensures var t := Exec(s, acts);
            && Inv(t) && AllHalted(t.stop) && t.groups == s.groups && |t.workers| == |s.workers|
            && Turns(s, acts, w) + Cost(t, w) <= Cost(s, w)
            && (Cost(t, w) == 0 <==> Left(t.workers[w]))
            && (CleanPass(s.workers[w]) ==>
                  && Turns(s, acts, w) + Cost(t, w) == Cost(s, w)
                  && (Left(t.workers[w]) || CleanPass(t.workers[w])))
  {
    hide Inv, AllHalted, AllDrained, Step, CleanPass, PassLeft;
    InvSized(s);
    if acts != [] {
      var before, a := acts[..|acts| - 1], acts[|acts| - 1];
      WorkersLeave(s, before, w);
      LeaveStep(Exec(s, before), a, w);
    }
  }

  lemma LeaveStep(s: State, a: Action, w: nat)
    requires Inv(s) && AllHalted(s.stop) && AllDrained(s.groups) && w < |s.workers| && Tasks.Sized(s.tasks)
    ensures var t := Step(s, a);
            && Inv(t) && AllHalted(t.stop) && t.groups == s.groups && |t.workers| == |s.workers|
            && (if LoopStep(a, w) && t != s then Pays(s, t, w)
                else Cost(t, w) == Cost(s, w) &&
                     (t.workers[w] == s.workers[w] || (Left(s.workers[w]) && Left(t.workers[w]))))
  {
    hide Inv, AllHalted, AllDrained, Step, CleanPass, PassLeft, PassOk, Cost;
    LoopFacts(s, w);
    StepKeepsInv(s, a);
    HaltedStays(s, a);
    DrainedStays(s, a);
    if !LoopStep(a, w) {
      OthersKeepCost(s, a, w);
    } else if Step(s, a) != s {
      if a.Poll? {
        DrainedAnswer(s, a, w);
      }
      LoopStepPays(s, a, w);
    }
  }

  /** From the top of its loop a worker leaves within one pass. */
  lemma WorkersLeaveWithinOnePass(s: State, acts: seq<Action>, w: nat)
    requires Inv(s) && AllHalted(s.stop) && AllDrained(s.groups)
    requires w < |s.workers| && s.workers[w] == TOP
    ensures var t := Exec(s, acts);
            w < |t.workers| && Turns(s, acts, w) <= FullPass(s.groups) &&
            (Left(t.workers[w]) <==> Turns(s, acts, w) == FullPass(s.groups))
  {
    hide Inv, AllHalted, AllDrained, Step, Exec, Turns, FullPass, PassLeft, CleanPass;
    PassFromTop(s.groups);
    assert Cost(s, w) == FullPass(s.groups);
    WorkersLeave(s, acts, w);
  }

  // ---------------------------------------------------------------- nobody is stuck

  /** The next loop step of worker `w`, every lock attempt succeeding and every poll being answered
      SHUTDOWN. */
  function NextStep(s: State, w: nat): Action
    requires w < |s.workers|
  {
    if s.workers[w].Popping? then Pop(w, true)
    else if InGroup(s.groups, s.workers[w]) then Poll(w, Shutdown, Rpc.Status(0, ""), Rpc.Converted(0), false)
    else if GroupOver(s.groups, s.workers[w]) then NextGroup(w)
    else EndPass(w)
  }

  /** A worker that has not left its main loop can take its next step. */
  lemma WorkerCanGoOn(s: State, w: nat)
    requires Inv(s) && w < |s.workers| && !Left(s.workers[w])
    requires AtPoll(s, w) ==> Drained(CqOf(s.groups[s.workers[w].g][Target(s, w)]))
    ensures Tasks.Sized(s.tasks) && LoopStep(NextStep(s, w), w) && Pays(s, Step(s, NextStep(s, w)), w)
  {
    hide Inv, PassLeft, PolledDrained, Pays, Cost, Step;
    LoopFacts(s, w);
    match s.workers[w]
    case Polling(_, _, _, _, _, _) =>
      if AtPoll(s, w) {
        PollPays(s, w, NextStep(s, w));
      } else if GroupOver(s.groups, s.workers[w]) {
        NextGroupPays(s, w);
      } else {
        EndPassPays(s, w);
      }
    case Popping(_) => PopPays(s, w, true);
    case _ =>
  }

  /** With every queue drained, none is ever stuck in its main loop. */
  lemma DrainedWorkerCanGoOn(s: State, w: nat)
    requires Inv(s) && AllDrained(s.groups) && w < |s.workers| && !Left(s.workers[w])
    ensures Tasks.Sized(s.tasks) && LoopStep(NextStep(s, w), w) && Step(s, NextStep(s, w)) != s
  {
    hide Inv, PassLeft, Step;
    if AtPoll(s, w) {
      assert DrainedAt(s.groups, s.workers[w].g, Target(s, w));
    }
    WorkerCanGoOn(s, w);
  }
}
