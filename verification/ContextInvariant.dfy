/** The invariant of the `ExecutionContext` protocol, one part for each concern, and the proof that
    every step keeps it. */
module ContextInvariant {
  import opened Options
  import opened Scan
  import opened CompletionQueue
  import opened ContextProtocol
  import Server = ServerHandlers
  import Tasks = QueueProtocol
  import Rpc = RpcSignals

  // ---------------------------------------------------------------- its parts

  /** `stop` goes on exactly when the state has left Running, at most one call of it ever wins, and
      the winner joins every worker before it enters Stopped. */
  ghost predicate Lives(nThreads: nat, life: Life, stop: StopPc, stopCalls: seq<bool>, workers: seq<WorkerPc>) {
    && nThreads > 0
    && (Open(life) <==> stop.NotStopping?)
    && (life.Stopped? <==> stop.Notifying? || stop.StopReturned?)
    && multiset(stopCalls)[true] == (if Open(life) then 0 else 1)
    && |workers| == (if life.Ready? then 0 else nThreads)
    && (stop.Joining? ==> stop.w <= |workers| && forall w :: 0 <= w < stop.w ==> workers[w].Exited?)
    && (life.Stopped? ==> forall w :: 0 <= w < |workers| ==> workers[w].Exited?)
  }

  ghost function BracketSet(posters: seq<Poster>): set<nat> {
    set p: nat | p < |posters| && Bracketed(posters[p].pc)
  }

  /** `within_cq_post_` counts the posts inside the bracket. */
  ghost predicate Counted(within: nat, posters: seq<Poster>) {
    within == |BracketSet(posters)|
  }

  /** The winning stop has seen `within_cq_post_` at zero. */
  predicate SawZero(stop: StopPc) { !stop.NotStopping? && !stop.AwaitingPosts? }

  /** From then on no post can still create an event. */
  ghost predicate NoneAllowed(stop: StopPc, posters: seq<Poster>) {
    SawZero(stop) ==> forall p :: 0 <= p < |posters| ==> !posters[p].pc.PostAllowed?
  }

  /** The winning stop has already shut down queue i of group g. */
  predicate Halted(stop: StopPc, g: nat, i: nat) {
    match stop
    case NotStopping => false
    case AwaitingPosts => false
    case Halting(h, j) => g < h || (g == h && i < j)
    case _ => true
  }

  /** Exactly the queues that stop has halted are down. */
  ghost predicate Downs(stop: StopPc, groups: seq<seq<Queue>>) {
    forall g: nat, i: nat :: g < |groups| && i < |groups[g]| ==> (CqOf(groups[g][i]).down <==> Halted(stop, g, i))
  }

  ghost predicate StopBounds(stop: StopPc, groups: seq<seq<Queue>>) {
    stop.Halting? ==> stop.g <= |groups| && (if stop.g < |groups| then stop.i <= |groups[stop.g]| else stop.i == 0)
  }

  /** Group 0 holds the client queues and the others the server queues; the 32-bit sum of a worker's
      number and a queue's number does not wrap. */
  ghost predicate Shaped(nThreads: nat, groups: seq<seq<Queue>>) {
    && groups != [] && groups[0] != []
    && (forall g: nat, i: nat :: g < |groups| && i < |groups[g]| ==> (groups[g][i].Client? <==> g == 0))
    && (forall g: nat :: g < |groups| ==> nThreads + |groups[g]| <= U32)
  }

  /** The event of post `tag` was created on queue `q` and not delivered yet. */
  predicate Owed(posters: seq<Poster>, tag: nat, q: nat) {
    tag < |posters| && Accepted(posters[tag].pc) && posters[tag].queue == q && posters[tag].completions == 0
  }

  /** The client queues owe exactly the events that were created and not completed; an event is
      completed at most once, and only if it was created. */
  ghost predicate Events(posters: seq<Poster>, clients: seq<Queue>) {
    && (forall q: nat :: q < |clients| ==> clients[q].Client? && Proper(clients[q].client))
    && (forall q: nat, tag: nat :: q < |clients| && clients[q].Client? ==>
          (tag in Outstanding(clients[q].client) <==> Owed(posters, tag, q)))
    && (forall p: nat :: p < |posters| ==>
          && posters[p].completions <= (if Accepted(posters[p].pc) then 1 else 0)
          && (Accepted(posters[p].pc) ==> posters[p].queue < |clients|))
  }

  /** The event of post `r` took the completion of post `p`. */
  predicate Takes(posters: seq<Poster>, r: nat, p: nat) {
    r < |posters| && posters[r].callee == Some(p)
  }

  /** Only events take completions, and of posts that share their CallData; none is taken twice, and
      what a CallData holds is not taken yet. */
  ghost predicate Takers(slots: map<nat, nat>, posters: seq<Poster>) {
    && (forall r: nat, p: nat :: Takes(posters, r, p) ==>
          Accepted(posters[r].pc) && p < |posters| && posters[p].kind.RpcCall? && posters[p].kind == posters[r].kind)
    && (forall r: nat, q: nat, p: nat :: Takes(posters, r, p) && Takes(posters, q, p) ==> r == q)
    && (forall d <- slots ::
          slots[d] < |posters| && posters[slots[d]].kind == RpcCall(d) && forall r: nat :: !Takes(posters, r, slots[d]))
  }

  /** The event that took the completion of post `p` has been completed. */
  ghost predicate Answered(posters: seq<Poster>, p: nat) {
    exists r: nat :: Takes(posters, r, p) && posters[r].completions > 0
  }

  /** An RPC's receiver is told one thing when the event that took its completion completes, one thing
      when its own refusal is told, and nothing else. */
  ghost predicate ToldOk(posters: seq<Poster>, p: nat)
    requires p < |posters|
  {
    && |posters[p].signals| == (if Answered(posters, p) then 1 else 0) + (if posters[p].refusalTold then 1 else 0)
    && (posters[p].refusalTold ==> posters[p].pc == PostReturned(false))
  }

  ghost predicate Told(slots: map<nat, nat>, posters: seq<Poster>) {
    Takers(slots, posters) && forall p: nat :: p < |posters| ==> ToldOk(posters, p)
  }

  ghost predicate ServersOk(groups: seq<seq<Queue>>) {
    forall g: nat, i: nat :: g < |groups| && i < |groups[g]| && groups[g][i].ServerSide? ==>
      Server.Inv(groups[g][i].server)
  }

  predicate PopOver(pc: Tasks.PopPc) { pc.PopFinished? }

  predicate EjectOver(pc: Tasks.EjectPc) { pc.Executing? && pc.k == |pc.got| }

  /** Every unfinished `try_pop` call is the current call of the worker that made it. */
  ghost predicate PopCalls(poppers: seq<Tasks.PopPc>, owner: seq<nat>, workers: seq<WorkerPc>) {
    && |owner| == |poppers|
    && (forall c: nat :: c < |poppers| ==>
          owner[c] < |workers| && (PopOver(poppers[c]) || workers[owner[c]] == Popping(c)))
    && (forall w: nat :: w < |workers| && workers[w].Popping? ==>
          workers[w].call < |poppers| && owner[workers[w].call] == w)
  }

  /** Every unfinished `stop_and_eject` call is the current call of the worker that made it, and a
      worker exits only when its own is over. */
  ghost predicate EjectCalls(ejectors: seq<Tasks.EjectPc>, owner: seq<nat>, workers: seq<WorkerPc>) {
    && |owner| == |ejectors|
    && (forall e: nat :: e < |ejectors| ==>
          owner[e] < |workers| && (EjectOver(ejectors[e]) || workers[owner[e]] == Ejecting(e)))
    && (forall w: nat :: w < |workers| && (workers[w].Ejecting? || workers[w].Exited?) ==>
          workers[w].call < |ejectors| && owner[workers[w].call] == w)
  }

  predicate DrainedAt(groups: seq<seq<Queue>>, g: nat, i: nat) {
    g < |groups| && i < |groups[g]| ==> Drained(CqOf(groups[g][i]))
  }

  ghost predicate AllDrained(groups: seq<seq<Queue>>) {
    forall g: nat, i: nat :: DrainedAt(groups, g, i)
  }

  /** The number of queues in the first `g` groups. */
  function Before(groups: seq<seq<Queue>>, g: nat): nat
    requires g <= |groups|
  {
    if g == 0 then 0 else Before(groups, g - 1) + |groups[g - 1]|
  }

  /** The queues that worker `w` has polled so far in this pass are all drained. */
  ghost predicate PolledDrained(groups: seq<seq<Queue>>, w: nat, g: nat, i: nat) {
    && (forall h: nat, j: nat :: h < g ==> DrainedAt(groups, h, j))
    && (g < |groups| && groups[g] != [] ==> forall k: nat :: k < i ==> DrainedAt(groups, g, Probe(w, k, |groups[g]|)))
  }

  /** The counters of a pass: `total` counts the queues of the groups behind it; answers SHUTDOWN
      and executed events are at most as many as polls; if every poll so far was answered with
      SHUTDOWN, every polled queue is drained. */
  ghost predicate PassOk(groups: seq<seq<Queue>>, w: nat, pc: WorkerPc) {
    pc.Polling? ==>
      && pc.g <= |groups| && (if pc.g < |groups| then pc.i <= |groups[pc.g]| else pc.i == 0)
      && pc.total == Before(groups, pc.g)
      && pc.before <= pc.executed
      && pc.shut + pc.executed <= pc.total + pc.i
      && (pc.shut == pc.total + pc.i ==> PolledDrained(groups, w, pc.g, pc.i))
  }

  ghost predicate Passes(groups: seq<seq<Queue>>, workers: seq<WorkerPc>) {
    forall w: nat :: w < |workers| ==> PassOk(groups, w, workers[w])
  }

  /** The worker has left its main loop. */
  predicate Left(pc: WorkerPc) { pc.Ejecting? || pc.Exited? }

  /** A worker leaves its main loop only when every queue is drained. */
  ghost predicate Leavers(groups: seq<seq<Queue>>, workers: seq<WorkerPc>) {
    forall w: nat :: w < |workers| && Left(workers[w]) ==> AllDrained(groups)
  }

  /** Accepted notifications wait until Stopped and are then run in order of acceptance. */
  ghost predicate Notes(life: Life, stop: StopPc, notifications: seq<nat>, accepted: seq<nat>, notified: seq<nat>) {
    if !life.Stopped? then
      notifications == accepted && notified == []
    else
      && notifications == []
      && (stop.Notifying? ==>
            stop.thunks == accepted && stop.k <= |accepted| && notified == accepted[..stop.k])
      && (stop.StopReturned? ==> notified == accepted)
  }

  ghost predicate Inv(s: State) {
    && Lives(s.nThreads, s.life, s.stop, s.stopCalls, s.workers)
    && Counted(s.within, s.posters)
    && NoneAllowed(s.stop, s.posters)
    && Downs(s.stop, s.groups)
    && StopBounds(s.stop, s.groups)
    && Shaped(s.nThreads, s.groups)
    && Events(s.posters, s.groups[0])
    && Told(s.slots, s.posters)
    && ServersOk(s.groups)
    && Tasks.Inv(s.tasks)
    && PopCalls(s.tasks.poppers, s.popOwner, s.workers)
    && EjectCalls(s.tasks.ejectors, s.ejectOwner, s.workers)
    && Passes(s.groups, s.workers)
    && Leavers(s.groups, s.workers)
    && Notes(s.life, s.stop, s.notifications, s.accepted, s.notified)
  }

  // ---------------------------------------------------------------- posters

  /** A post moves on without creating or completing an event and without passing its check. */
  lemma PosterMoves(posters: seq<Poster>, clients: seq<Queue>, stop: StopPc, p: nat, x: Poster)
    requires Events(posters, clients) && NoneAllowed(stop, posters)
    requires p < |posters|
    requires x.completions == posters[p].completions && x.queue == posters[p].queue
    requires Accepted(x.pc) == Accepted(posters[p].pc) && (SawZero(stop) ==> !x.pc.PostAllowed?)
    ensures var after := posters[p := x];
            Events(after, clients) && NoneAllowed(stop, after)
  {
    var after := posters[p := x];
    assert forall q: nat, tag: nat :: Owed(after, tag, q) == Owed(posters, tag, q);
  }

  lemma PosterAppended(posters: seq<Poster>, clients: seq<Queue>, stop: StopPc, kind: Kind)
    requires Events(posters, clients) && NoneAllowed(stop, posters)
    ensures var after := posters + [Begun(kind)];
            Events(after, clients) && NoneAllowed(stop, after)
  {
    var after := posters + [Begun(kind)];
    assert forall q: nat, tag: nat :: Owed(after, tag, q) == Owed(posters, tag, q);
  }

  /** Nothing is taken or completed between the two. */
  ghost predicate SameTakes(posters: seq<Poster>, after: seq<Poster>) {
    forall r: nat, p: nat :: Takes(after, r, p) == Takes(posters, r, p) &&
                             (Takes(posters, r, p) ==> after[r].completions == posters[r].completions)
  }

  lemma SameAnswers(posters: seq<Poster>, after: seq<Poster>, p: nat)
    requires SameTakes(posters, after)
    ensures Answered(after, p) <==> Answered(posters, p)
  {
    if Answered(after, p) {
      var r: nat :| Takes(after, r, p) && after[r].completions > 0;
      assert Takes(posters, r, p) && posters[r].completions > 0;
    }
    if Answered(posters, p) {
      var r: nat :| Takes(posters, r, p) && posters[r].completions > 0;
      assert Takes(after, r, p) && after[r].completions > 0;
    }
  }

  /** A post moves on and takes no completion; it may be told of its refusal. */
  lemma MoveKeepsTold(slots: map<nat, nat>, posters: seq<Poster>, p: nat, x: Poster)
    requires Told(slots, posters) && p < |posters|
    requires x.kind == posters[p].kind && x.callee == posters[p].callee && x.completions == posters[p].completions
    requires Accepted(posters[p].pc) ==> Accepted(x.pc)
    requires x.refusalTold ==> x.pc == PostReturned(false)
    requires posters[p].refusalTold ==> x.refusalTold
    requires |x.signals| == |posters[p].signals| + if x.refusalTold && !posters[p].refusalTold then 1 else 0
    ensures Told(slots, posters[p := x])
  {
    hide Answered;
    var after := posters[p := x];
    assert SameTakes(posters, after);
    forall q: nat | q < |after|
      ensures ToldOk(after, q)
    {
      assert ToldOk(posters, q);
      SameAnswers(posters, after, q);
    }
  }

  /** A post begins, and its completion is put into its CallData. */
  lemma BeginKeepsTold(slots: map<nat, nat>, posters: seq<Poster>, kind: Kind)
    requires Told(slots, posters)
    ensures Told(if kind.RpcCall? then slots[kind.data := |posters|] else slots, posters + [Begun(kind)])
  {
    hide Answered;
    var after := posters + [Begun(kind)];
    assert SameTakes(posters, after);
    assert forall r: nat :: !Takes(posters, r, |posters|);
    forall q: nat | q < |after|
      ensures ToldOk(after, q)
    {
      SameAnswers(posters, after, q);
      if q < |posters| {
        assert ToldOk(posters, q);
      } else {
        NobodyTakes(posters, q);
      }
    }
  }

  lemma NobodyTakes(posters: seq<Poster>, p: nat)
    requires forall r: nat :: !Takes(posters, r, p)
    ensures !Answered(posters, p)
  {
  }

  lemma BracketMoves(posters: seq<Poster>, p: nat, x: Poster)
    requires p < |posters|
    ensures |BracketSet(posters[p := x])| ==
            |BracketSet(posters)| - (if Bracketed(posters[p].pc) then 1 else 0) + (if Bracketed(x.pc) then 1 else 0)
  {
    var rest := BracketSet(posters) - {p};
    assert BracketSet(posters) == if Bracketed(posters[p].pc) then rest + {p} else rest;
    assert BracketSet(posters[p := x]) == if Bracketed(x.pc) then rest + {p} else rest;
  }

  lemma BeginPostKeepsInv(s: State, kind: Kind)
    requires Inv(s)
    ensures Inv(DoBeginPost(s, kind))
  {
    hide Lives, Downs, StopBounds, ServersOk, Tasks.Inv, PopCalls, EjectCalls, Passes, Leavers, Notes, Events, Told,
         NoneAllowed;
    PosterAppended(s.posters, s.groups[0], s.stop, kind);
    BeginKeepsTold(s.slots, s.posters, kind);
    assert BracketSet(s.posters + [Begun(kind)]) == BracketSet(s.posters);
  }

  /** One post has moved on, as `PosterMoves` and `MoveKeepsTold` allow. */
  lemma PostMoveKeepsInv(s: State, p: nat, x: Poster, within: nat)
    requires Inv(s) && p < |s.posters|
    requires x.kind == s.posters[p].kind && x.callee == s.posters[p].callee && x.queue == s.posters[p].queue
    requires x.completions == s.posters[p].completions
    requires Accepted(x.pc) == Accepted(s.posters[p].pc) && (SawZero(s.stop) ==> !x.pc.PostAllowed?)
    requires x.refusalTold ==> x.pc == PostReturned(false)
    requires s.posters[p].refusalTold ==> x.refusalTold
    requires |x.signals| == |s.posters[p].signals| + if x.refusalTold && !s.posters[p].refusalTold then 1 else 0
    requires within + (if Bracketed(s.posters[p].pc) then 1 else 0) == s.within + (if Bracketed(x.pc) then 1 else 0)
    ensures Inv(s.(posters := s.posters[p := x], within := within))
  {
    hide Lives, Downs, StopBounds, ServersOk, Tasks.Inv, PopCalls, EjectCalls, Passes, Leavers, Notes, Events, Told,
         NoneAllowed;
    PosterMoves(s.posters, s.groups[0], s.stop, p, x);
    MoveKeepsTold(s.slots, s.posters, p, x);
    BracketMoves(s.posters, p, x);
  }

  lemma NotTold(s: State, p: nat)
    requires Inv(s) && p < |s.posters| && s.posters[p].pc != PostReturned(false)
    ensures !s.posters[p].refusalTold
  {
    hide Lives, Counted, NoneAllowed, Downs, StopBounds, Shaped, Events, ServersOk, Tasks.Inv, PopCalls, EjectCalls,
         Passes, Leavers, Notes;
    assert ToldOk(s.posters, p);
  }

  lemma OpenSeesNoZero(s: State)
    requires Inv(s)
    ensures Open(s.life) ==> !SawZero(s.stop)
  {
    hide Counted, NoneAllowed, Downs, StopBounds, Shaped, Events, Told, ServersOk, Tasks.Inv, PopCalls, EjectCalls,
         Passes, Leavers, Notes;
  }

  lemma EnterPostKeepsInv(s: State, p: nat)
    requires Inv(s)
    ensures Inv(DoEnterPost(s, p))
  {
    hide Inv;
    if p < |s.posters| && s.posters[p].pc.PostBegun? {
      NotTold(s, p);
      PostMoveKeepsInv(s, p, s.posters[p].(pc := PostEntered), s.within + 1);
    }
  }

  lemma CheckPostKeepsInv(s: State, p: nat)
    requires Inv(s)
    ensures Inv(DoCheckPost(s, p))
  {
    hide Inv;
    if p < |s.posters| && s.posters[p].pc.PostEntered? {
      NotTold(s, p);
      OpenSeesNoZero(s);
      PostMoveKeepsInv(s, p, s.posters[p].(pc := if Open(s.life) then PostAllowed else PostRefused), s.within);
    }
  }

  lemma LeavePostKeepsInv(s: State, p: nat)
    requires Inv(s)
    ensures Inv(DoLeavePost(s, p))
  {
    hide Inv;
    if p < |s.posters| && (s.posters[p].pc.PostCreated? || s.posters[p].pc.PostRefused?) && s.within > 0 {
      NotTold(s, p);
      PostMoveKeepsInv(s, p, s.posters[p].(pc := PostReturned(s.posters[p].pc.PostCreated?)), s.within - 1);
    }
  }

  lemma TellRefusalKeepsInv(s: State, p: nat)
    requires Inv(s)
    ensures Inv(DoTellRefusal(s, p))
  {
    hide Inv;
    if p < |s.posters| && s.posters[p].pc == PostReturned(false) && !s.posters[p].refusalTold {
      var x := s.posters[p].(refusalTold := true, signals := s.posters[p].signals + Rpc.RefusalSignals());
      PostMoveKeepsInv(s, p, x, s.within);
    }
  }

  // ---------------------------------------------------------------- one queue changes

  /** What every change of a queue other than its shutdown respects. */
  ghost predicate Evolves(q: Queue, r: Queue) {
    && (q.Client? <==> r.Client?)
    && (CqOf(q).down <==> CqOf(r).down)
    && (Drained(CqOf(q)) ==> Drained(CqOf(r)))
    && (q.ServerSide? && Server.Inv(q.server) ==> Server.Inv(r.server))
  }

  /** The groups keep their shape and drained queues stay drained. */
  ghost predicate KeepsDrained(groups: seq<seq<Queue>>, after: seq<seq<Queue>>) {
    && |after| == |groups|
    && (forall g: nat :: g < |groups| ==> |after[g]| == |groups[g]|)
    && (forall g: nat, i: nat :: DrainedAt(groups, g, i) ==> DrainedAt(after, g, i))
  }

  lemma {:induction false} BeforeKept(groups: seq<seq<Queue>>, after: seq<seq<Queue>>, g: nat)
    requires KeepsDrained(groups, after) && g <= |groups|
    ensures Before(after, g) == Before(groups, g)
  {
    if g > 0 {
      BeforeKept(groups, after, g - 1);
    }
  }

  lemma PassKept(groups: seq<seq<Queue>>, after: seq<seq<Queue>>, w: nat, pc: WorkerPc)
    requires KeepsDrained(groups, after) && PassOk(groups, w, pc)
    ensures PassOk(after, w, pc)
  {
    if pc.Polling? {
      BeforeKept(groups, after, pc.g);
    }
  }

  lemma WorkersKept(groups: seq<seq<Queue>>, after: seq<seq<Queue>>, workers: seq<WorkerPc>)
    requires KeepsDrained(groups, after) && Passes(groups, workers) && Leavers(groups, workers)
    ensures Passes(after, workers) && Leavers(after, workers)
  {
    forall w: nat | w < |workers|
      ensures PassOk(after, w, workers[w])
    {
      PassKept(groups, after, w, workers[w]);
    }
  }

  /** A queue evolves: everything but the events of the client queues is kept. */
  lemma QueueEvolves(s: State, g: nat, i: nat, r: Queue)
    requires Inv(s) && g < |s.groups| && i < |s.groups[g]| && Evolves(s.groups[g][i], r)
    ensures var after := SetQueue(s.groups, g, i, r);
            && KeepsDrained(s.groups, after)
            && Downs(s.stop, after) && StopBounds(s.stop, after) && Shaped(s.nThreads, after) && ServersOk(after)
            && Passes(after, s.workers) && Leavers(after, s.workers)
  {
    hide Lives, Counted, NoneAllowed, Events, Told, Tasks.Inv, PopCalls, EjectCalls, Passes, Leavers, Notes, Server.Inv;
    var after := SetQueue(s.groups, g, i, r);
    EvolvesKeepsDrained(s.groups, g, i, r);
    WorkersKept(s.groups, after, s.workers);
  }

  lemma EvolvesKeepsDrained(groups: seq<seq<Queue>>, g: nat, i: nat, r: Queue)
    requires g < |groups| && i < |groups[g]| && (Drained(CqOf(groups[g][i])) ==> Drained(CqOf(r)))
    ensures KeepsDrained(groups, SetQueue(groups, g, i, r))
  {
  }

  /** A pending operation of a client queue ends. */
  lemma ReadyKeepsEvents(posters: seq<Poster>, clients: seq<Queue>, q: nat, tag: nat, ok: bool)
    requires Events(posters, clients) && q < |clients|
    ensures Events(posters, clients[q := Client(MakeReady(clients[q].client, tag, ok))])
  {
    assert Outstanding(MakeReady(clients[q].client, tag, ok)) == Outstanding(clients[q].client);
  }

  lemma EndOperationKeepsInv(s: State, g: nat, i: nat, tag: nat, ok: bool)
    requires Inv(s)
    ensures Inv(DoEndOperation(s, g, i, tag, ok))
  {
    if g < |s.groups| && i < |s.groups[g]| {
      match s.groups[g][i]
      case Client(cq) =>
        QueueEvolves(s, g, i, Client(MakeReady(cq, tag, ok)));
        ReadyKeepsEvents(s.posters, s.groups[0], i, tag, ok);
      case ServerSide(q) =>
        Server.ReadyKeepsInv(q, tag, ok);
        QueueEvolves(s, g, i, ServerSide(q.(cq := MakeReady(q.cq, tag, ok))));
    }
  }

  /** A post creates its event on queue `q`. */
  lemma CreateKeepsEvents(posters: seq<Poster>, clients: seq<Queue>, p: nat, q: nat, callee: Option<nat>)
    requires Events(posters, clients) && q < |clients| && p < |posters| && posters[p].pc.PostAllowed?
    ensures Events(posters[p := posters[p].(pc := PostCreated, queue := q, callee := callee)],
                   clients[q := Client(Register(clients[q].client, p))])
  {
    var posters' := posters[p := posters[p].(pc := PostCreated, queue := q, callee := callee)];
    var clients' := clients[q := Client(Register(clients[q].client, p))];
    assert p !in Outstanding(clients[q].client);
    forall r: nat, tag: nat | r < |clients'| && clients'[r].Client?
      ensures tag in Outstanding(clients'[r].client) <==> Owed(posters', tag, r)
    {
      assert tag in Outstanding(clients[r].client) <==> Owed(posters, tag, r);
    }
  }

  /** The event takes what its CallData holds. */
  lemma CreateKeepsTold(slots: map<nat, nat>, posters: seq<Poster>, p: nat, q: nat)
    requires Told(slots, posters)
    requires p < |posters| && posters[p].pc.PostAllowed? && posters[p].completions == 0
    ensures Told(Emptied(slots, posters[p].kind),
                 posters[p := posters[p].(pc := PostCreated, queue := q, callee := Slot(slots, posters[p].kind))])
  {
    hide Answered;
    var after := posters[p := posters[p].(pc := PostCreated, queue := q, callee := Slot(slots, posters[p].kind))];
    assert forall x: nat :: !Takes(posters, p, x);
    assert forall r: nat, x: nat :: Takes(after, r, x) <==>
        Takes(posters, r, x) || (r == p && Slot(slots, posters[p].kind) == Some(x));
    forall x: nat | x < |after|
      ensures ToldOk(after, x)
    {
      assert ToldOk(posters, x);
      UnansweredStays(posters, after, p, x);
    }
  }

  /** An event that is not completed answers nobody. */
  lemma UnansweredStays(posters: seq<Poster>, after: seq<Poster>, p: nat, x: nat)
    requires |after| == |posters| && forall r: nat :: r < |posters| && r != p ==> after[r] == posters[r]
    requires p < |posters| && posters[p].completions == 0 && after[p].completions == 0
    ensures Answered(after, x) <==> Answered(posters, x)
  {
    forall r: nat
      ensures Takes(after, r, x) && after[r].completions > 0 <==> Takes(posters, r, x) && posters[r].completions > 0
    {
    }
  }

  lemma CreateEventKeepsInv(s: State, p: nat)
    requires Inv(s)
    ensures Inv(DoCreateEvent(s, p))
  {
    hide Lives, Tasks.Inv, PopCalls, EjectCalls, Passes, Leavers, Notes, Told, ServersOk;
    if DoCreateEvent(s, p) != s {
      var q := s.nextWrite % |s.groups[0]|;
      CreateKeepsEvents(s.posters, s.groups[0], p, q, Slot(s.slots, s.posters[p].kind));
      CreateKeepsTold(s.slots, s.posters, p, q);
      CreateCounts(s.posters, p, q, Slot(s.slots, s.posters[p].kind));
      assert !Halted(s.stop, 0, q);
      QueueEvolves(s, 0, q, Client(Register(s.groups[0][q].client, p)));
    }
  }

  lemma CreateCounts(posters: seq<Poster>, p: nat, q: nat, callee: Option<nat>)
    requires p < |posters| && posters[p].pc.PostAllowed?
    ensures |BracketSet(posters[p := posters[p].(pc := PostCreated, queue := q, callee := callee)])| ==
              |BracketSet(posters)|
  {
    BracketMoves(posters, p, posters[p].(pc := PostCreated, queue := q, callee := callee));
  }

  // ---------------------------------------------------------------- delivering

  /** The event of post `tag` is delivered. */
  lemma DeliverKeepsEvents(posters: seq<Poster>, clients: seq<Queue>, q: nat, tag: nat, status: Rpc.Status,
                           conversion: Rpc.Conversion<Payload>)
    requires Events(posters, clients) && q < |clients| && clients[q].Client? && tag in clients[q].client.ready
    ensures Events(CompletePost(posters, tag, clients[q].client.ready[tag], status, conversion),
                   clients[q := Client(Delivered(clients[q].client, tag))])
  {
    var posters' := CompletePost(posters, tag, clients[q].client.ready[tag], status, conversion);
    var clients' := clients[q := Client(Delivered(clients[q].client, tag))];
    assert Owed(posters, tag, q);
    assert Outstanding(clients'[q].client) == Outstanding(clients[q].client) - {tag};
    forall r: nat, x: nat | r < |clients'| && clients'[r].Client?
      ensures x in Outstanding(clients'[r].client) <==> Owed(posters', x, r)
    {
      assert x in Outstanding(clients[r].client) <==> Owed(posters, x, r);
    }
  }

  /** The completion that the event took tells its receiver one thing. */
  lemma DeliverKeepsTold(slots: map<nat, nat>, posters: seq<Poster>, tag: nat, q: nat, ok: bool, status: Rpc.Status,
                         conversion: Rpc.Conversion<Payload>)
    requires Told(slots, posters) && Owed(posters, tag, q)
    ensures Told(slots, CompletePost(posters, tag, ok, status, conversion))
  {
    hide Answered, Rpc.DeliverySignals, CompletePost;
    Rpc.CalmSignal(ok, status, conversion);
    var after := CompletePost(posters, tag, ok, status, conversion);
    DeliverIs(posters, tag, ok, status, conversion);
    SameTakers(slots, posters, after);
    forall x: nat | x < |after|
      ensures ToldOk(after, x)
    {
      assert ToldOk(posters, x);
      AnswersAfter(posters, after, tag, x);
    }
  }

  lemma SameTakers(slots: map<nat, nat>, posters: seq<Poster>, after: seq<Poster>)
    requires Takers(slots, posters) && |after| == |posters|
    requires forall x: nat :: x < |posters| ==> SameStart(after[x], posters[x])
    ensures Takers(slots, after)
  {
    assert forall r: nat, p: nat :: Takes(after, r, p) == Takes(posters, r, p);
  }

  predicate SameStart(x: Poster, y: Poster) {
    x.kind == y.kind && x.pc == y.pc && x.queue == y.queue && x.callee == y.callee && x.refusalTold == y.refusalTold
  }

  /** What a delivery changes. */
  lemma DeliverIs(posters: seq<Poster>, tag: nat, ok: bool, status: Rpc.Status, conversion: Rpc.Conversion<Payload>)
    requires tag < |posters|
    ensures var after := CompletePost(posters, tag, ok, status, conversion);
            && |after| == |posters|
            && forall x: nat :: x < |posters| ==>
                 && SameStart(after[x], posters[x])
                 && after[x].completions == posters[x].completions + (if x == tag then 1 else 0)
                 && after[x].signals == posters[x].signals +
                      if posters[tag].callee == Some(x) then Rpc.DeliverySignals(ok, status, conversion) else []
  {
    hide Rpc.DeliverySignals;
    var after := CompletePost(posters, tag, ok, status, conversion);
    forall x: nat | x < |posters|
      ensures posters[tag].callee != Some(x) ==> after[x].signals == posters[x].signals + []
    {
      assert posters[x].signals + [] == posters[x].signals;
    }
  }

  lemma AnswersAfter(posters: seq<Poster>, after: seq<Poster>, tag: nat, x: nat)
    requires tag < |posters| == |after| && posters[tag].completions == 0
    requires forall r: nat :: r < |posters| ==>
               after[r].callee == posters[r].callee &&
                 after[r].completions == posters[r].completions + (if r == tag then 1 else 0)
    requires forall r: nat, q: nat :: Takes(posters, r, x) && Takes(posters, q, x) ==> r == q
    ensures Answered(after, x) <==> Answered(posters, x) || Takes(posters, tag, x)
    ensures Takes(posters, tag, x) ==> !Answered(posters, x)
  {
    if Takes(posters, tag, x) {
      assert Takes(after, tag, x) && after[tag].completions > 0;
    }
    if r: nat :| Takes(posters, r, x) && posters[r].completions > 0 {
      assert Takes(after, r, x) && after[r].completions > 0;
    }
    if r: nat :| Takes(after, r, x) && after[r].completions > 0 {
      assert Takes(posters, r, x);
    }
  }

  lemma DeliverKeepsNoneAllowed(posters: seq<Poster>, stop: StopPc, tag: nat, ok: bool, status: Rpc.Status,
                                conversion: Rpc.Conversion<Payload>)
    requires NoneAllowed(stop, posters) && tag < |posters|
    ensures NoneAllowed(stop, CompletePost(posters, tag, ok, status, conversion))
  {
    DeliverIs(posters, tag, ok, status, conversion);
  }

  lemma DeliverKeepsCount(posters: seq<Poster>, tag: nat, ok: bool, status: Rpc.Status,
                          conversion: Rpc.Conversion<Payload>)
    ensures |BracketSet(CompletePost(posters, tag, ok, status, conversion))| == |BracketSet(posters)|
  {
    if tag < |posters| {
      DeliverIs(posters, tag, ok, status, conversion);
      assert BracketSet(CompletePost(posters, tag, ok, status, conversion)) == BracketSet(posters);
    }
  }

  /** One worker moves; what concerns the whole set of workers is kept. */
  lemma LivesMove(nThreads: nat, life: Life, stop: StopPc, stopCalls: seq<bool>, workers: seq<WorkerPc>, w: nat,
                  pc: WorkerPc)
    requires Lives(nThreads, life, stop, stopCalls, workers)
    requires w < |workers| && !workers[w].Exited?
    ensures Lives(nThreads, life, stop, stopCalls, workers[w := pc])
  {
  }

  lemma PassesMove(groups: seq<seq<Queue>>, workers: seq<WorkerPc>, w: nat, pc: WorkerPc)
    requires Passes(groups, workers) && w < |workers| && PassOk(groups, w, pc)
    ensures Passes(groups, workers[w := pc])
  {
  }

  lemma LeaversMove(groups: seq<seq<Queue>>, workers: seq<WorkerPc>, w: nat, pc: WorkerPc)
    requires Leavers(groups, workers) && w < |workers| && (Left(pc) ==> Left(workers[w]) || AllDrained(groups))
    ensures Leavers(groups, workers[w := pc])
  {
  }

  /** A worker moves that has no unfinished `try_pop` call before or after. */
  lemma PopCallsKept(poppers: seq<Tasks.PopPc>, owner: seq<nat>, workers: seq<WorkerPc>, w: nat, pc: WorkerPc)
    requires PopCalls(poppers, owner, workers) && w < |workers| && !pc.Popping?
    requires workers[w].Popping? ==> workers[w].call < |poppers| && PopOver(poppers[workers[w].call])
    ensures PopCalls(poppers, owner, workers[w := pc])
  {
  }

  /** A worker moves that has no unfinished `stop_and_eject` call before or after. */
  lemma EjectCallsKept(ejectors: seq<Tasks.EjectPc>, owner: seq<nat>, workers: seq<WorkerPc>, w: nat, pc: WorkerPc)
    requires EjectCalls(ejectors, owner, workers) && w < |workers| && !workers[w].Exited?
    requires workers[w].Ejecting? ==>
               workers[w].call < |ejectors| && EjectOver(ejectors[workers[w].call]) && pc == Exited(workers[w].call)
    requires !workers[w].Ejecting? ==> !Left(pc)
    ensures EjectCalls(ejectors, owner, workers[w := pc])
  {
  }

  /** A worker that is still in its main loop moves on inside it. */
  lemma WorkerMoves(s: State, w: nat, pc: WorkerPc)
    requires Inv(s) && w < |s.workers| && s.workers[w].Polling? && pc.Polling? && PassOk(s.groups, w, pc)
    ensures Inv(s.(workers := s.workers[w := pc]))
  {
    LivesMove(s.nThreads, s.life, s.stop, s.stopCalls, s.workers, w, pc);
    PassesMove(s.groups, s.workers, w, pc);
    LeaversMove(s.groups, s.workers, w, pc);
    PopCallsKept(s.tasks.poppers, s.popOwner, s.workers, w, pc);
    EjectCallsKept(s.tasks.ejectors, s.ejectOwner, s.workers, w, pc);
  }

  /** One more poll in the same group. */
  lemma PollAnswered(groups: seq<seq<Queue>>, w: nat, pc: WorkerPc, answer: Answer)
    requires pc.Polling? && PassOk(groups, w, pc) && pc.g < |groups| && pc.i < |groups[pc.g]|
    requires MayAnswer(CqOf(groups[pc.g][Probe(w, pc.i, |groups[pc.g]|)]), answer)
    ensures PassOk(groups, w, Counters(pc, answer))
  {
  }

  /** An event of a client queue is taken and completed. */
  lemma DeliverClient(s: State, i: nat, tag: nat, status: Rpc.Status, conversion: Rpc.Conversion<Payload>)
    requires Inv(s) && i < |s.groups[0]| && s.groups[0][i].Client? && tag in s.groups[0][i].client.ready
    ensures var cq := s.groups[0][i].client;
            Inv(s.(groups := SetQueue(s.groups, 0, i, Client(Delivered(cq, tag))),
                   posters := CompletePost(s.posters, tag, cq.ready[tag], status, conversion)))
  {
    var cq := s.groups[0][i].client;
    DeliverKeepsEvents(s.posters, s.groups[0], i, tag, status, conversion);
    assert tag in Outstanding(cq);
    DeliverKeepsTold(s.slots, s.posters, tag, i, cq.ready[tag], status, conversion);
    DeliverKeepsNoneAllowed(s.posters, s.stop, tag, cq.ready[tag], status, conversion);
    DeliverKeepsCount(s.posters, tag, cq.ready[tag], status, conversion);
    QueueEvolves(s, 0, i, Client(Delivered(cq, tag)));
  }

  /** An event of a server queue is taken and its handler completed. */
  lemma DeliverServer(s: State, g: nat, i: nat, tag: nat, throws: bool)
    requires Inv(s) && g < |s.groups| && i < |s.groups[g]| && s.groups[g][i].ServerSide?
    ensures Inv(s.(groups := SetQueue(s.groups, g, i,
                     ServerSide(Server.DeliverTag(s.groups[g][i].server, tag, throws)))))
  {
    var q := s.groups[g][i].server;
    assert Server.Inv(q);
    Server.DeliverKeepsInv(q, tag, throws);
    Server.DeliverKeepsDown(q, tag, throws);
    QueueEvolves(s, g, i, ServerSide(Server.DeliverTag(q, tag, throws)));
  }

  lemma ExecuteKeepsInv(s: State, g: nat, i: nat, answer: Answer, status: Rpc.Status,
                        conversion: Rpc.Conversion<Payload>, throws: bool)
    requires Inv(s) && g < |s.groups| && i < |s.groups[g]| && MayAnswer(CqOf(s.groups[g][i]), answer)
    ensures Inv(Execute(s, g, i, answer, status, conversion, throws))
  {
    if answer.Event? {
      if s.groups[g][i].Client? {
        assert g == 0;
        DeliverClient(s, i, answer.tag, status, conversion);
      } else {
        DeliverServer(s, g, i, answer.tag, throws);
      }
    }
  }

  lemma PollKeepsInv(s: State, w: nat, answer: Answer, status: Rpc.Status, conversion: Rpc.Conversion<Payload>,
                     throws: bool)
    requires Inv(s)
    ensures Inv(DoPoll(s, w, answer, status, conversion, throws))
  {
    if AtPoll(s, w) && MayAnswer(CqOf(s.groups[s.workers[w].g][Target(s, w)]), answer) {
      var pc' := Counters(s.workers[w], answer);
      PollAnswered(s.groups, w, s.workers[w], answer);
      WorkerMoves(s, w, pc');
      ExecuteKeepsInv(s.(workers := s.workers[w := pc']), s.workers[w].g, Target(s, w), answer, status, conversion,
                      throws);
    }
  }

  // ---------------------------------------------------------------- the pass of a worker

  /** All queues of the group were polled and answered SHUTDOWN, so all are drained. */
  lemma GroupDrained(groups: seq<seq<Queue>>, nThreads: nat, w: nat, g: nat)
    requires Shaped(nThreads, groups) && w < nThreads && g < |groups|
    requires PolledDrained(groups, w, g, |groups[g]|)
    ensures PolledDrained(groups, w, g + 1, 0)
  {
    var n := |groups[g]|;
    forall j: nat
      ensures DrainedAt(groups, g, j)
    {
      if j < n {
        CoverageIff(w, n);
        assert Visits(w, n, j);
        var k: nat :| k < n && Probe(w, k, n) == j;
        assert DrainedAt(groups, g, Probe(w, k, n));
      }
    }
  }

  lemma GroupLeft(groups: seq<seq<Queue>>, nThreads: nat, w: nat, pc: WorkerPc)
    requires Shaped(nThreads, groups) && w < nThreads && PassOk(groups, w, pc) && GroupOver(groups, pc)
    ensures PassOk(groups, w, NextPc(groups, pc))
  {
    if pc.shut == pc.total + |groups[pc.g]| {
      GroupDrained(groups, nThreads, w, pc.g);
    }
  }

  lemma NextGroupKeepsInv(s: State, w: nat)
    requires Inv(s)
    ensures Inv(DoNextGroup(s, w))
  {
    if w < |s.workers| && GroupOver(s.groups, s.workers[w]) {
      GroupLeft(s.groups, s.nThreads, w, s.workers[w]);
      WorkerMoves(s, w, NextPc(s.groups, s.workers[w]));
    }
  }

  /** At the end of a pass all polls were answered SHUTDOWN exactly if the counters agree; then
      nothing was executed and every queue is drained. */
  lemma PassEnd(groups: seq<seq<Queue>>, w: nat, pc: WorkerPc)
    requires PassOk(groups, w, pc) && pc.Polling? && pc.g == |groups| && pc.shut == pc.total
    ensures AllDrained(groups) && pc.executed == 0
  {
    forall g: nat, i: nat
      ensures DrainedAt(groups, g, i)
    {
      if g < |groups| {
        assert DrainedAt(groups, g, i);
      }
    }
  }

  /** The worker begins a call of `stop_and_eject` ... */
  lemma EjectCallBegins(ejectors: seq<Tasks.EjectPc>, owner: seq<nat>, workers: seq<WorkerPc>, w: nat)
    requires EjectCalls(ejectors, owner, workers) && w < |workers| && workers[w].Polling?
    ensures EjectCalls(ejectors + [Tasks.Sweeping(0, [])], owner + [w], workers[w := Ejecting(|ejectors|)])
  {
  }

  /** ... or of `try_pop`. */
  lemma PopCallBegins(poppers: seq<Tasks.PopPc>, owner: seq<nat>, workers: seq<WorkerPc>, w: nat, pc: Tasks.PopPc)
    requires PopCalls(poppers, owner, workers) && w < |workers| && workers[w].Polling?
    ensures PopCalls(poppers + [pc], owner + [w], workers[w := Popping(|poppers|)])
  {
  }

  lemma PopCallMoves(poppers: seq<Tasks.PopPc>, owner: seq<nat>, workers: seq<WorkerPc>, c: nat, pc: Tasks.PopPc)
    requires PopCalls(poppers, owner, workers) && c < |poppers| && !PopOver(poppers[c])
    ensures PopCalls(poppers[c := pc], owner, workers)
  {
  }

  lemma EjectCallMoves(ejectors: seq<Tasks.EjectPc>, owner: seq<nat>, workers: seq<WorkerPc>, e: nat, pc: Tasks.EjectPc)
    requires EjectCalls(ejectors, owner, workers) && e < |ejectors| && !EjectOver(ejectors[e])
    ensures EjectCalls(ejectors[e := pc], owner, workers)
  {
  }

  /** The worker leaves its main loop. */
  lemma LoopExit(s: State, w: nat, tasks: Tasks.State)
    requires Inv(s) && w < |s.workers| && s.workers[w].Polling? && AllDrained(s.groups)
    requires Tasks.Inv(tasks) && tasks.poppers == s.tasks.poppers
    requires tasks.ejectors == s.tasks.ejectors + [Tasks.Sweeping(0, [])]
    ensures Inv(s.(tasks := tasks, ejectOwner := s.ejectOwner + [w],
                   workers := s.workers[w := Ejecting(|s.tasks.ejectors|)]))
  {
    var pc := Ejecting(|s.tasks.ejectors|);
    EjectCallBegins(s.tasks.ejectors, s.ejectOwner, s.workers, w);
    LivesMove(s.nThreads, s.life, s.stop, s.stopCalls, s.workers, w, pc);
    PassesMove(s.groups, s.workers, w, pc);
    LeaversMove(s.groups, s.workers, w, pc);
    PopCallsKept(s.tasks.poppers, s.popOwner, s.workers, w, pc);
  }

  lemma PopBegins(s: State, w: nat, tasks: Tasks.State, pc: Tasks.PopPc)
    requires Inv(s) && w < |s.workers| && s.workers[w].Polling?
    requires Tasks.Inv(tasks) && tasks.poppers == s.tasks.poppers + [pc]
    requires tasks.ejectors == s.tasks.ejectors
    ensures Inv(s.(tasks := tasks, popOwner := s.popOwner + [w],
                   workers := s.workers[w := Popping(|s.tasks.poppers|)]))
  {
    var pc' := Popping(|s.tasks.poppers|);
    PopCallBegins(s.tasks.poppers, s.popOwner, s.workers, w, pc);
    LivesMove(s.nThreads, s.life, s.stop, s.stopCalls, s.workers, w, pc');
    PassesMove(s.groups, s.workers, w, pc');
    LeaversMove(s.groups, s.workers, w, pc');
    EjectCallsKept(s.tasks.ejectors, s.ejectOwner, s.workers, w, pc');
  }

  lemma EndPassKeepsInv(s: State, w: nat)
    requires Inv(s)
    ensures Inv(DoEndPass(s, w))
  {
    if w < |s.workers| && s.workers[w].Polling? && s.workers[w].g == |s.groups| {
      assert PassOk(s.groups, w, s.workers[w]);
      if s.workers[w].shut == s.workers[w].total {
        PassEnd(s.groups, w, s.workers[w]);
        Tasks.EjectEnterKeepsInv(s.tasks);
        LoopExit(s, w, Tasks.EjectEnter(s.tasks));
      } else {
        Tasks.PopEnterKeepsInv(s.tasks);
        PopBegins(s, w, Tasks.PopEnter(s.tasks), Tasks.PopProbing(s.tasks.popIndex, 0));
      }
    }
  }

  /** The task queue changes and every call's owner is still right. */
  lemma TasksMove(s: State, tasks: Tasks.State)
    requires Inv(s) && Tasks.Inv(tasks)
    requires PopCalls(tasks.poppers, s.popOwner, s.workers) && EjectCalls(tasks.ejectors, s.ejectOwner, s.workers)
    ensures Inv(s.(tasks := tasks))
  {
  }

  /** A worker goes back to the top of its loop. */
  lemma LoopAgain(s: State, w: nat)
    requires Inv(s) && w < |s.workers| && s.workers[w].Popping?
    requires s.workers[w].call < |s.tasks.poppers| && PopOver(s.tasks.poppers[s.workers[w].call])
    ensures Inv(s.(workers := s.workers[w := TOP]))
  {
    LivesMove(s.nThreads, s.life, s.stop, s.stopCalls, s.workers, w, TOP);
    PassesMove(s.groups, s.workers, w, TOP);
    LeaversMove(s.groups, s.workers, w, TOP);
    PopCallsKept(s.tasks.poppers, s.popOwner, s.workers, w, TOP);
    EjectCallsKept(s.tasks.ejectors, s.ejectOwner, s.workers, w, TOP);
  }

  lemma PopProbes(s: State, c: nat, locked: bool)
    requires Inv(s) && c < |s.tasks.poppers| && s.tasks.poppers[c].PopProbing?
    ensures Inv(s.(tasks := Tasks.PopProbe(s.tasks, c, locked)))
  {
    var tasks := Tasks.PopProbe(s.tasks, c, locked);
    Tasks.PopProbeKeepsInv(s.tasks, c, locked);
    PopCallMoves(s.tasks.poppers, s.popOwner, s.workers, c, tasks.poppers[c]);
    TasksMove(s, tasks);
  }

  lemma PopRuns(s: State, c: nat)
    requires Inv(s) && c < |s.tasks.poppers| && s.tasks.poppers[c].PopHolding?
    ensures Inv(s.(tasks := Tasks.PopRun(s.tasks, c)))
  {
    var tasks := Tasks.PopRun(s.tasks, c);
    Tasks.PopRunKeepsInv(s.tasks, c);
    PopCallMoves(s.tasks.poppers, s.popOwner, s.workers, c, tasks.poppers[c]);
    TasksMove(s, tasks);
  }

  lemma PopKeepsInv(s: State, w: nat, locked: bool)
    requires Inv(s)
    ensures Inv(DoPop(s, w, locked))
  {
    hide Lives, Counted, NoneAllowed, Downs, StopBounds, Shaped, Events, Told, ServersOk, Tasks.Inv, PopCalls,
         EjectCalls, Passes, Leavers, Notes;
    hide Tasks.PopProbe, Tasks.PopRun;
    InvSized(s);
    if w < |s.workers| && s.workers[w].Popping? && s.workers[w].call < |s.tasks.poppers| {
      var c := s.workers[w].call;
      match s.tasks.poppers[c]
      case PopProbing(_, _) => PopProbes(s, c, locked);
      case PopHolding(_) => PopRuns(s, c);
      case PopFinished(_) => LoopAgain(s, w);
    }
  }

  /** A worker's thread ends. */
  lemma ThreadEnds(s: State, w: nat)
    requires Inv(s) && w < |s.workers| && s.workers[w].Ejecting?
    requires s.workers[w].call < |s.tasks.ejectors| && EjectOver(s.tasks.ejectors[s.workers[w].call])
    ensures Inv(s.(workers := s.workers[w := Exited(s.workers[w].call)]))
  {
    var pc := Exited(s.workers[w].call);
    LivesMove(s.nThreads, s.life, s.stop, s.stopCalls, s.workers, w, pc);
    PassesMove(s.groups, s.workers, w, pc);
    LeaversMove(s.groups, s.workers, w, pc);
    PopCallsKept(s.tasks.poppers, s.popOwner, s.workers, w, pc);
    EjectCallsKept(s.tasks.ejectors, s.ejectOwner, s.workers, w, pc);
  }

  lemma EjectSweeps(s: State, e: nat)
    requires Inv(s) && e < |s.tasks.ejectors| && s.tasks.ejectors[e].Sweeping?
    ensures s.tasks.ejectors[e].i < |s.tasks.queues| ==> Inv(s.(tasks := Tasks.EjectOne(s.tasks, e)))
    ensures s.tasks.ejectors[e].i >= |s.tasks.queues| ==> Inv(s.(tasks := Tasks.EjectTest(s.tasks, e)))
  {
    hide Lives, Counted, NoneAllowed, Downs, StopBounds, Shaped, Events, Told, ServersOk, PopCalls, Passes, Leavers,
         Notes;
    hide Tasks.Ordered, Tasks.Counted, Tasks.Conserved, Tasks.StoredOnce, Tasks.PushBounds, Tasks.PopBounds;
    var more := s.tasks.ejectors[e].i < |s.tasks.queues|;
    var tasks := if more then Tasks.EjectOne(s.tasks, e) else Tasks.EjectTest(s.tasks, e);
    Tasks.EjectOneKeepsInv(s.tasks, e);
    Tasks.EjectTestKeepsInv(s.tasks, e);
    EjectCallMoves(s.tasks.ejectors, s.ejectOwner, s.workers, e, tasks.ejectors[e]);
    TasksMove(s, tasks);
  }

  lemma EjectRuns(s: State, e: nat)
    requires Inv(s) && e < |s.tasks.ejectors|
    requires s.tasks.ejectors[e].Executing? && s.tasks.ejectors[e].k < |s.tasks.ejectors[e].got|
    ensures Inv(s.(tasks := Tasks.EjectRun(s.tasks, e)))
  {
    var tasks := Tasks.EjectRun(s.tasks, e);
    Tasks.EjectRunKeepsInv(s.tasks, e);
    EjectCallMoves(s.tasks.ejectors, s.ejectOwner, s.workers, e, tasks.ejectors[e]);
    TasksMove(s, tasks);
  }

  lemma EjectKeepsInv(s: State, w: nat)
    requires Inv(s)
    ensures Inv(DoEject(s, w))
  {
    hide Lives, Counted, NoneAllowed, Downs, StopBounds, Shaped, Events, Told, ServersOk, PopCalls, EjectCalls, Passes,
         Leavers, Notes;
    hide Tasks.Ordered, Tasks.Counted, Tasks.Conserved, Tasks.StoredOnce, Tasks.PushBounds, Tasks.PopBounds;
    hide Tasks.EjectOne, Tasks.EjectTest, Tasks.EjectRun;
    InvSized(s);
    if w < |s.workers| && s.workers[w].Ejecting? && s.workers[w].call < |s.tasks.ejectors| {
      var e := s.workers[w].call;
      match s.tasks.ejectors[e]
      case Sweeping(i, _) => EjectSweeps(s, e);
      case Executing(got, k) =>
        if k < |got| {
          EjectRuns(s, e);
        } else {
          ThreadEnds(s, w);
        }
    }
  }

  // ---------------------------------------------------------------- the rest

  lemma PushLeavesCalls(t: Tasks.State, a: Tasks.Action)
    requires Tasks.Sized(t) && Tasks.IsPush(a)
    ensures var u := Tasks.Step(t, a);
            u.poppers == t.poppers && u.ejectors == t.ejectors && (u.done <==> t.done)
  {
  }

  lemma PostTaskKeepsInv(s: State, a: Tasks.Action)
    requires Inv(s)
    ensures Inv(DoPostTask(s, a))
  {
    if Tasks.IsPush(a) {
      Tasks.StepKeepsInv(s.tasks, a);
      PushLeavesCalls(s.tasks, a);
      TasksMove(s, Tasks.Step(s.tasks, a));
    }
  }

  lemma {:induction false} WiredInv(lines: nat)
    ensures Server.Inv(Wired(lines)) && !Wired(lines).cq.down
  {
    if lines == 0 {
      Server.UnwiredInv();
    } else {
      WiredInv(lines - 1);
      Server.WireKeepsInv(Wired(lines - 1));
    }
  }

  lemma AttachKeepsInv(s: State, lines: seq<nat>)
    requires Inv(s)
    ensures Inv(DoAttach(s, lines))
  {
    hide Counted, NoneAllowed, Events, Told, Tasks.Inv, PopCalls, EjectCalls, Notes, Server.Inv;
    forall k | 0 <= k < |lines|
      ensures Server.Inv(Wired(lines[k])) && !Wired(lines[k]).cq.down
    {
      WiredInv(lines[k]);
    }
  }

  lemma CallStopKeepsInv(s: State)
    requires Inv(s)
    ensures Inv(DoCallStop(s))
  {
  }

  /** When the bracket is empty no post is allowed. */
  lemma ZeroMeansNoneAllowed(posters: seq<Poster>)
    requires Counted(0, posters)
    ensures forall p: nat :: p < |posters| ==> !posters[p].pc.PostAllowed?
  {
    forall p: nat | p < |posters|
      ensures !posters[p].pc.PostAllowed?
    {
      assert p !in BracketSet(posters);
    }
  }

  /** `Shutdown` of one more queue. */
  lemma HaltKeepsInv(s: State)
    requires Inv(s) && s.stop.Halting? && s.stop.g < |s.groups| && s.stop.i < |s.groups[s.stop.g]|
    ensures Inv(DoStopStep(s))
  {
    hide Counted, Told, Tasks.Inv, PopCalls, EjectCalls, Passes, Leavers, Server.Inv;
    var g, i := s.stop.g, s.stop.i;
    var after := SetQueue(s.groups, g, i, HaltQueue(s.groups[g][i]));
    EvolvesKeepsDrained(s.groups, g, i, HaltQueue(s.groups[g][i]));
    WorkersKept(s.groups, after, s.workers);
    if s.groups[g][i].ServerSide? {
      Server.ShutDownKeepsInv(s.groups[g][i].server);
    } else {
      assert Outstanding(ShutDown(s.groups[g][i].client)) == Outstanding(s.groups[g][i].client);
    }
  }

  /** The stop goes on without changing a queue. */
  lemma StopMoves(s: State, stop: StopPc)
    requires Inv(s) && !s.life.Stopped? && !Open(s.life)
    requires NoneAllowed(stop, s.posters) && Downs(stop, s.groups) && StopBounds(stop, s.groups)
    requires Lives(s.nThreads, s.life, stop, s.stopCalls, s.workers)
    ensures Inv(s.(stop := stop))
  {
  }

  lemma StopWaits(s: State)
    requires Inv(s) && s.stop.AwaitingPosts?
    ensures Inv(DoStopStep(s))
  {
    if s.within == 0 {
      ZeroMeansNoneAllowed(s.posters);
      StopMoves(s, Halting(0, 0));
    }
  }

  lemma StopHalts(s: State)
    requires Inv(s) && s.stop.Halting?
    ensures Inv(DoStopStep(s))
  {
    var Halting(g, i) := s.stop;
    if g < |s.groups| {
      if i < |s.groups[g]| {
        HaltKeepsInv(s);
      } else {
        StopMoves(s, Halting(g + 1, 0));
      }
    } else {
      StopMoves(s, Joining(0));
    }
  }

  /** All workers are joined: Stopped is entered and the notifications are taken. */
  lemma StopFinishes(s: State)
    requires Inv(s) && s.stop.Joining? && s.stop.w == |s.workers|
    ensures Inv(s.(life := Stopped, stop := Notifying(s.notifications, 0), notifications := []))
  {
  }

  lemma StopJoins(s: State)
    requires Inv(s) && s.stop.Joining?
    ensures Inv(DoStopStep(s))
  {
    hide Counted, Shaped, Events, Told, ServersOk, Tasks.Inv, PopCalls, EjectCalls, Passes, Leavers, Notes;
    var w := s.stop.w;
    if w < |s.workers| {
      if s.workers[w].Exited? {
        StopMoves(s, Joining(w + 1));
      }
    } else {
      StopFinishes(s);
    }
  }

  /** A notification runs, or the last one has run. */
  lemma StopNotifies(s: State)
    requires Inv(s) && s.stop.Notifying?
    ensures Inv(DoStopStep(s))
  {
    hide Counted, Shaped, Events, Told, ServersOk, Tasks.Inv, PopCalls, EjectCalls, Passes, Leavers;
  }

  lemma StopStepKeepsInv(s: State)
    requires Inv(s)
    ensures Inv(DoStopStep(s))
  {
    hide Lives, Counted, NoneAllowed, Downs, StopBounds, Shaped, Events, Told, ServersOk, Tasks.Inv, PopCalls,
         EjectCalls, Passes, Leavers, Notes;
    match s.stop
    case NotStopping =>
    case AwaitingPosts => StopWaits(s);
    case Halting(g, i) => StopHalts(s);
    case Joining(w) => StopJoins(s);
    case Notifying(thunks, k) => StopNotifies(s);
    case StopReturned =>
  }

  lemma NotifyKeepsInv(s: State, thunk: nat)
    requires Inv(s)
    ensures Inv(DoNotify(s, thunk))
  {
  }

  lemma RunKeepsInv(s: State)
    requires Inv(s)
    ensures Inv(DoRun(s))
  {
  }

  lemma InvSized(s: State)
    requires Inv(s)
    ensures Tasks.Sized(s.tasks)
  {
    hide Lives, Counted, NoneAllowed, Downs, StopBounds, Shaped, Events, Told, ServersOk, PopCalls, EjectCalls, Passes,
         Leavers, Notes;
  }

  lemma PosterStepKeepsInv(s: State, a: Action)
    requires Inv(s)
    requires a.BeginPost? || a.EnterPost? || a.CheckPost? || a.CreateEvent? || a.LeavePost? || a.TellRefusal? ||
             a.EndOperation?
    ensures Inv(Step(s, a))
  {
    hide Lives, Counted, NoneAllowed, Downs, StopBounds, Shaped, Events, Told, ServersOk, Tasks.Inv, PopCalls,
         EjectCalls, Passes, Leavers, Notes;
    hide DoBeginPost, DoEnterPost, DoCheckPost, DoCreateEvent, DoLeavePost, DoTellRefusal, DoEndOperation;
    InvSized(s);
    match a
    case BeginPost(kind) => BeginPostKeepsInv(s, kind);
    case EnterPost(p) => EnterPostKeepsInv(s, p);
    case CheckPost(p) => CheckPostKeepsInv(s, p);
    case CreateEvent(p) => CreateEventKeepsInv(s, p);
    case LeavePost(p) => LeavePostKeepsInv(s, p);
    case TellRefusal(p) => TellRefusalKeepsInv(s, p);
    case EndOperation(g, i, tag, ok) => EndOperationKeepsInv(s, g, i, tag, ok);
  }

  lemma WorkerStepKeepsInv(s: State, a: Action)
    requires Inv(s) && (a.Poll? || a.NextGroup? || a.EndPass? || a.Pop? || a.Eject?)
    ensures Inv(Step(s, a))
  {
    hide Lives, Counted, NoneAllowed, Downs, StopBounds, Shaped, Events, Told, ServersOk, Tasks.Inv, PopCalls,
         EjectCalls, Passes, Leavers, Notes;
    hide DoPoll, DoNextGroup, DoEndPass, DoPop, DoEject;
    InvSized(s);
    match a
    case Poll(w, answer, status, conversion, throws) => PollKeepsInv(s, w, answer, status, conversion, throws);
    case NextGroup(w) => NextGroupKeepsInv(s, w);
    case EndPass(w) => EndPassKeepsInv(s, w);
    case Pop(w, locked) => PopKeepsInv(s, w, locked);
    case Eject(w) => EjectKeepsInv(s, w);
  }

  lemma OwnerStepKeepsInv(s: State, a: Action)
    requires Inv(s) && (a.Attach? || a.Notify? || a.Run? || a.PostTask? || a.CallStop? || a.StopStep?)
    ensures Inv(Step(s, a))
  {
    hide Lives, Counted, NoneAllowed, Downs, StopBounds, Shaped, Events, Told, ServersOk, Tasks.Inv, PopCalls,
         EjectCalls, Passes, Leavers, Notes;
    hide DoAttach, DoNotify, DoRun, DoPostTask, DoCallStop, DoStopStep;
    InvSized(s);
    match a
    case Attach(lines) => AttachKeepsInv(s, lines);
    case Notify(thunk) => NotifyKeepsInv(s, thunk);
    case Run => RunKeepsInv(s);
    case PostTask(a) => PostTaskKeepsInv(s, a);
    case CallStop => CallStopKeepsInv(s);
    case StopStep => StopStepKeepsInv(s);
  }

  lemma StepKeepsInv(s: State, a: Action)
    requires Inv(s)
    ensures Inv(Step(s, a))
  {
    hide Lives, Counted, NoneAllowed, Downs, StopBounds, Shaped, Events, Told, ServersOk, Tasks.Inv, PopCalls,
         EjectCalls, Passes, Leavers, Notes;
    hide Step;
    if a.Poll? || a.NextGroup? || a.EndPass? || a.Pop? || a.Eject? {
      WorkerStepKeepsInv(s, a);
    } else if a.Attach? || a.Notify? || a.Run? || a.PostTask? || a.CallStop? || a.StopStep? {
      OwnerStepKeepsInv(s, a);
    } else {
      PosterStepKeepsInv(s, a);
    }
  }

  lemma InitInv(nThreads: nat, nClients: nat)
    requires nThreads > 0 && nClients > 0 && nThreads + nClients <= U32
    ensures Inv(Init(nThreads, nClients))
  {
    var s := Init(nThreads, nClients);
    Tasks.InitInv(nThreads + 1);
    assert BracketSet([]) == {};
    assert |s.groups| == 1 && |s.groups[0]| == nClients;
    assert Events([], s.groups[0]) && Downs(s.stop, s.groups) && Shaped(nThreads, s.groups);
  }

  lemma {:induction false} ExecKeepsInv(s: State, acts: seq<Action>)
    requires Inv(s)
    ensures Inv(Exec(s, acts))
  {
    hide Lives, Counted, NoneAllowed, Downs, StopBounds, Shaped, Events, Told, ServersOk, Tasks.Inv, PopCalls,
         EjectCalls, Passes, Leavers, Notes;
    hide Step;
    InvSized(s);
    if acts != [] {
      ExecKeepsInv(s, acts[..|acts| - 1]);
      StepKeepsInv(Exec(s, acts[..|acts| - 1]), acts[|acts| - 1]);
    }
  }
}
