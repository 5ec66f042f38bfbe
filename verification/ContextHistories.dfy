/** What an `ExecutionContext` owes to the steps of its run, read off the run alone: its notifications,
    its servers, the steps of its task queue, and the ends of its operations. */
module ContextHistories {
  import opened Scan
  import opened CompletionQueue
  import opened ContextProtocol
  import opened ContextInvariant
  import opened ContextTheorems
  import Server = ServerHandlers
  import Tasks = QueueProtocol

  // ---------------------------------------------------------------- the start

  /** A new context has `nClients` client queues, all new, one more task queue than threads, all empty,
      and nothing else. */
  lemma InitIs(nThreads: nat, nClients: nat)
    requires nThreads > 0
    ensures var s := Init(nThreads, nClients);
            && s.life.Ready? && s.nThreads == nThreads && s.workers == []
            && |s.groups| == 1 && |s.groups[0]| == nClients
            && (forall i: nat :: i < nClients ==> s.groups[0][i] == Client(Cq({}, map[], false)))
            && |s.tasks.queues| == nThreads + 1 && (forall q <- s.tasks.queues :: q == []) && !s.tasks.done
            && s.posters == [] && s.within == 0 && s.nextWrite == 0 && s.slots == map[] && s.notifications == []
  {
  }

  // ---------------------------------------------------------------- notifications

  /** The thunks registered during the run: those of its `Notify` steps taken before Stopped, in order. */
  function Registered(s: State, acts: seq<Action>): seq<nat>
    requires Tasks.Sized(s.tasks)
  {
    if acts == [] then []
    else
      var m := |acts| - 1;
      Registered(s, acts[..m]) +
      if acts[m].Notify? && !Exec(s, acts[..m]).life.Stopped? then [acts[m].thunk] else []
  }

  lemma AcceptedStep(s: State, a: Action)
    requires Tasks.Sized(s.tasks)
    ensures Step(s, a).accepted == s.accepted + if a.Notify? && !s.life.Stopped? then [a.thunk] else []
  {
    hide DoBeginPost, DoEnterPost, DoCheckPost, DoCreateEvent, DoLeavePost, DoTellRefusal;
    if IsPost(a) {
      PostFrame(s, a);
    }
  }

  lemma {:induction false} AcceptedIsRegistered(s: State, acts: seq<Action>)
    requires Tasks.Sized(s.tasks)
    ensures Exec(s, acts).accepted == s.accepted + Registered(s, acts)
  {
    hide Step;
    if acts != [] {
      var m := |acts| - 1;
      AcceptedIsRegistered(s, acts[..m]);
      AcceptedStep(Exec(s, acts[..m]), acts[m]);
    }
  }

  /** In every run the notifications run are, from the first on and in the order of registration, those
      registered before Stopped; and once the winning stop has returned, all of them. */
  lemma NotificationsFollowRegistration(nThreads: nat, nClients: nat, acts: seq<Action>)
    requires Sensible(nThreads, nClients)
    ensures var s, registered := After(nThreads, nClients, acts), Registered(Init(nThreads, nClients), acts);
            && s.notified <= registered
            && (s.stop.StopReturned? ==> s.notified == registered)
  {
    hide Exec, Registered;
    NotificationsInOrder(nThreads, nClients, acts);
    AcceptedIsRegistered(Init(nThreads, nClients), acts);
  }

  // ---------------------------------------------------------------- servers

  /** The step attaches a server. */
  predicate Attaches(s: State, a: Action) {
    a.Attach? && s.life.Ready? && s.nThreads + |a.lines| <= U32
  }

  /** The servers attached during the run, in order: how many handlers each wires to each of its queues. */
  function Attached(s: State, acts: seq<Action>): seq<seq<nat>>
    requires Tasks.Sized(s.tasks)
  {
    if acts == [] then []
    else
      var m := |acts| - 1;
      Attached(s, acts[..m]) + if Attaches(Exec(s, acts[..m]), acts[m]) then [acts[m].lines] else []
  }

  /** A listener for each of so many lines, each waiting for its request, and nothing else yet. */
  ghost predicate Listens(q: Server.ServerQueue, lines: nat) {
    && q.next == lines && q.lines == lines && |q.handlers| == lines
    && (forall tag <- q.handlers :: q.handlers[tag] == Server.Listening(tag) && tag < lines)
    && q.cq == Cq(q.handlers.Keys, map[], false)
    && q.closed == {} && q.requests == {} && q.replies == []
  }

  lemma WiresOneMore(q: Server.ServerQueue, lines: nat)
    requires Listens(q, lines)
    ensures Listens(Server.WireOne(q), lines + 1)
  {
    var after := Server.WireOne(q);
    assert lines !in q.handlers;
    assert after.handlers == q.handlers[lines := Server.Listening(lines)];
    assert after.handlers.Keys == q.handlers.Keys + {lines};
  }

  lemma {:induction false} WiredListens(lines: nat)
    ensures Listens(Wired(lines), lines)
  {
    hide Server.WireOne;
    if lines > 0 {
      WiredListens(lines - 1);
      WiresOneMore(Wired(lines - 1), lines - 1);
    }
  }

  /** What `attach_server` adds when it succeeds: one group at the end, with a queue for each work queue
      of the server, on which as many handlers listen as were wired to it. */
  lemma AttachAddsServer(s: State, lines: seq<nat>)
    requires Tasks.Sized(s.tasks)
    ensures var t := Step(s, Attach(lines));
            if Attaches(s, Attach(lines)) then
              && |t.groups| == |s.groups| + 1 && t.groups[..|s.groups|] == s.groups
              && t == s.(groups := t.groups) && |t.groups[|s.groups|]| == |lines|
              && forall k: nat :: k < |lines| ==>
                   t.groups[|s.groups|][k].ServerSide? && Listens(t.groups[|s.groups|][k].server, lines[k])
            else t == s
  {
    hide Wired, Listens;
    if Attaches(s, Attach(lines)) {
      forall k: nat | k < |lines|
        ensures Listens(Wired(lines[k]), lines[k])
      {
        WiredListens(lines[k]);
      }
    }
  }

  lemma OthersAttachNothing(s: State, a: Action)
    requires Tasks.Sized(s.tasks) && !Attaches(s, a)
    ensures SameSizes(s.groups, Step(s, a).groups)
  {
    hide DoBeginPost, DoEnterPost, DoCheckPost, DoCreateEvent, DoLeavePost, DoTellRefusal;
    if IsPost(a) {
      PostFrame(s, a);
    }
  }

  /** In every run: the client queues, and then the queues of the servers attached while Ready, in the
      order in which they were attached. */
  lemma {:induction false} GroupsAreAttached(nThreads: nat, nClients: nat, acts: seq<Action>)
    requires Sensible(nThreads, nClients)
    ensures var groups, servers := After(nThreads, nClients, acts).groups, Attached(Init(nThreads, nClients), acts);
            && |groups| == 1 + |servers| && |groups[0]| == nClients
            && forall g: nat :: g < |servers| ==> |groups[g + 1]| == |servers[g]|
  {
    hide Step, Attaches;
    if acts == [] {
      InitIs(nThreads, nClients);
    } else {
      var m := |acts| - 1;
      var s, a := After(nThreads, nClients, acts[..m]), acts[m];
      GroupsAreAttached(nThreads, nClients, acts[..m]);
      if Attaches(s, a) {
        assert a.Attach? by { AttachesIs(s, a); }
        AttachAddsServer(s, a.lines);
        assert forall g: nat :: g < |s.groups| ==> Step(s, a).groups[g] == Step(s, a).groups[..|s.groups|][g];
      } else {
        OthersAttachNothing(s, a);
      }
    }
  }

  lemma AttachesIs(s: State, a: Action)
    requires Attaches(s, a)
    ensures a.Attach?
  {
  }

  // ---------------------------------------------------------------- the task queue

  /** The next step of worker `w`'s call of `try_pop`, or of running what it got, if there is one. */
  function PopTurn(s: State, w: nat, locked: bool): seq<Tasks.Action> {
    if w < |s.workers| && s.workers[w].Popping? && s.workers[w].call < |s.tasks.poppers| then
      match s.tasks.poppers[s.workers[w].call]
      case PopProbing(_, _) => [Tasks.ProbePop(s.workers[w].call, locked)]
      case PopHolding(_) => [Tasks.RunPop(s.workers[w].call)]
      case PopFinished(_) => []
    else []
  }

  /** The next step of its call of `stop_and_eject`, or of running what it got. */
  function EjectTurn(s: State, w: nat): seq<Tasks.Action> {
    if w < |s.workers| && s.workers[w].Ejecting? && s.workers[w].call < |s.tasks.ejectors| then
      match s.tasks.ejectors[s.workers[w].call]
      case Sweeping(i, _) =>
        [if i < |s.tasks.queues| then Tasks.EjectQueue(s.workers[w].call) else Tasks.TestEject(s.workers[w].call)]
      case Executing(got, k) => if k < |got| then [Tasks.RunEject(s.workers[w].call)] else []
    else []
  }

  /** What step `a`, taken in `s`, is for the task queue. */
  function TaskStep(s: State, a: Action): seq<Tasks.Action> {
    match a
    case PostTask(push) => if Tasks.IsPush(push) then [push] else []
    case EndPass(w) =>
      if w < |s.workers| && s.workers[w].Polling? && s.workers[w].g == |s.groups| then
        [if s.workers[w].shut == s.workers[w].total then Tasks.EnterEject else Tasks.EnterPop]
      else []
    case Pop(w, locked) => PopTurn(s, w, locked)
    case Eject(w) => EjectTurn(s, w)
    case _ => []
  }

  function TaskRun(s: State, acts: seq<Action>): seq<Tasks.Action>
    requires Tasks.Sized(s.tasks)
  {
    if acts == [] then []
    else TaskRun(s, acts[..|acts| - 1]) + TaskStep(Exec(s, acts[..|acts| - 1]), acts[|acts| - 1])
  }

  lemma OneTaskStep(t: Tasks.State, run: seq<Tasks.Action>, a: Tasks.Action)
    requires Tasks.Sized(t)
    ensures Tasks.Exec(t, run + []) == Tasks.Exec(t, run)
    ensures Tasks.Exec(t, run + [a]) == Tasks.Step(Tasks.Exec(t, run), a)
  {
    hide Tasks.Step;
    assert run + [] == run && (run + [a])[..|run|] == run;
  }

  /** A step of the context is that step of the task queue, or leaves it alone. */
  lemma TasksStep(s: State, a: Action)
    requires Tasks.Sized(s.tasks)
    ensures var steps := TaskStep(s, a);
            && |steps| <= 1
            && Step(s, a).tasks == if steps == [] then s.tasks else Tasks.Step(s.tasks, steps[0])
  {
    hide DoBeginPost, DoEnterPost, DoCheckPost, DoCreateEvent, DoLeavePost, DoTellRefusal;
    hide Tasks.PopProbe, Tasks.PopRun, Tasks.EjectOne, Tasks.EjectTest, Tasks.EjectRun, Tasks.EjectEnter,
         Tasks.PopEnter;
    if IsPost(a) {
      PostFrame(s, a);
    }
  }

  /** In every run of the context its task queue has made the run of `QueueProtocol` that the steps of the
      context's posts and workers say; so all that holds of every such run holds of it. */
  lemma {:induction false} TasksAreARun(nThreads: nat, nClients: nat, acts: seq<Action>)
    requires Sensible(nThreads, nClients)
    ensures After(nThreads, nClients, acts).tasks ==
            Tasks.Exec(Tasks.Init(nThreads + 1), TaskRun(Init(nThreads, nClients), acts))
  {
    hide Step, Tasks.Step, TaskStep, Tasks.Init;
    if acts != [] {
      var s := After(nThreads, nClients, acts[..|acts| - 1]);
      var run, steps := TaskRun(Init(nThreads, nClients), acts[..|acts| - 1]), TaskStep(s, acts[|acts| - 1]);
      TasksAreARun(nThreads, nClients, acts[..|acts| - 1]);
      TasksStep(s, acts[|acts| - 1]);
      if steps == [] {
        OneTaskStep(Tasks.Init(nThreads + 1), run, Tasks.EnterPop);
      } else {
        assert steps == [steps[0]];
        OneTaskStep(Tasks.Init(nThreads + 1), run, steps[0]);
      }
    }
  }

  // ---------------------------------------------------------------- ends of operations

  /** The tag waits on queue i of group g, and will be delivered with this flag. */
  predicate ReadyAt(groups: seq<seq<Queue>>, g: nat, i: nat, tag: nat, ok: bool) {
    g < |groups| && i < |groups[g]| && tag in CqOf(groups[g][i]).ready && CqOf(groups[g][i]).ready[tag] == ok
  }

  lemma ServerDeliveryReady(q: Server.ServerQueue, tag: nat, throws: bool, x: nat)
    ensures var r := Server.DeliverTag(q, tag, throws).cq.ready;
            x in r ==> x in q.cq.ready && r[x] == q.cq.ready[x]
  {
  }

  lemma ReadyByPoll(s: State, a: Action, g: nat, i: nat, tag: nat, ok: bool)
    requires Tasks.Sized(s.tasks) && a.Poll? && ReadyAt(Step(s, a).groups, g, i, tag, ok)
    ensures ReadyAt(s.groups, g, i, tag, ok)
  {
    hide Server.DeliverTag, CompletePost;
    if AtPoll(s, a.w) && a.answer.Event? {
      var h, j := s.workers[a.w].g, Target(s, a.w);
      if s.groups[h][j].ServerSide? {
        ServerDeliveryReady(s.groups[h][j].server, a.answer.tag, a.throws, tag);
      }
    }
  }

  lemma ReadyByPost(s: State, a: Action, g: nat, i: nat, tag: nat, ok: bool)
    requires Tasks.Sized(s.tasks) && IsPost(a) && ReadyAt(Step(s, a).groups, g, i, tag, ok)
    ensures ReadyAt(s.groups, g, i, tag, ok)
  {
  }

  lemma ReadyByStep(s: State, a: Action, g: nat, i: nat, tag: nat, ok: bool)
    requires Tasks.Sized(s.tasks) && ReadyAt(Step(s, a).groups, g, i, tag, ok)
    ensures ReadyAt(s.groups, g, i, tag, ok) || a == EndOperation(g, i, tag, ok)
  {
    hide DoBeginPost, DoEnterPost, DoCheckPost, DoCreateEvent, DoLeavePost, DoTellRefusal, DoPoll, Wired;
    if a.Poll? {
      ReadyByPoll(s, a, g, i, tag, ok);
    } else if IsPost(a) {
      ReadyByPost(s, a, g, i, tag, ok);
    } else if a.Attach? && Attaches(s, a) && g == |s.groups| {
      WiredListens(a.lines[i]);
    }
  }

  /** In every run: a tag waits to be delivered with a flag only if its operation ended with that flag. */
  lemma {:induction false} ReadyWasEnded(nThreads: nat, nClients: nat, acts: seq<Action>, g: nat, i: nat, tag: nat,
                                         ok: bool)
    requires Sensible(nThreads, nClients) && ReadyAt(After(nThreads, nClients, acts).groups, g, i, tag, ok)
    ensures EndOperation(g, i, tag, ok) in acts
  {
    hide Step;
    if acts != [] {
      var m := |acts| - 1;
      ReadyByStep(After(nThreads, nClients, acts[..m]), acts[m], g, i, tag, ok);
      if ReadyAt(After(nThreads, nClients, acts[..m]).groups, g, i, tag, ok) {
        ReadyWasEnded(nThreads, nClients, acts[..m], g, i, tag, ok);
      }
    }
  }
}
