/** The life of an `ExecutionContext`: posters, completion queues, attached servers, the task queue,
    the worker threads and `stop`, one atomic access to shared memory at a time and under
    sequential consistency. `run_while` starts its threads in one step, and `stop` is not called
    by a worker, which would have to join itself. */
module ContextProtocol {
  import opened Options
  import opened Scan
  import opened CompletionQueue
  import Server = ServerHandlers
  import Tasks = QueueProtocol
  import Rpc = RpcSignals

  const U64: nat := 0x1_0000_0000_0000_0000

  type Payload = int                         // the result type of the RPCs

  datatype Life = Ready | Running | ShuttingDown | Stopped

  /** `state_ <= Running`. */
  predicate Open(life: Life) { life.Ready? || life.Running? }

  /** The moves that `set_state_` makes. */
  predicate Follows(from: Life, to: Life) {
    (from.Ready? && to.Running?) || (from.Running? && to.ShuttingDown?) || (from.ShuttingDown? && to.Stopped?)
  }

  // ---------------------------------------------------------------- posting to a completion queue

  /** An RPC started from a type-erased sender whose copies share the `CallData` number `data`, or an
      alarm. */
  datatype Kind = RpcCall(data: nat) | Alarm

  /** Where a `post` of an RPC or an alarm stands. */
  datatype PostPc =
    | PostBegun                              // an RPC has put its completion into its CallData
    | PostEntered                            // has raised within_cq_post_
    | PostAllowed                            // has read state_ <= Running, creates its event next
    | PostCreated
    | PostRefused
    | PostReturned(ok: bool)

  /** One post. The tag of its event is the number of the post. */
  datatype Poster = Poster(
    kind: Kind,
    pc: PostPc,
    queue: nat,                              // the client queue its event was created on
    callee: Option<nat>,                     // the post whose completion its event took, if any
    completions: nat,                        // history: calls of `complete` on its event
    refusalTold: bool,                       // history: the receiver was told of its own refusal
    signals: seq<Rpc.Signal<Payload>>)       // history: what the RPC's receiver was told

  /** A post that has just begun. */
  function Begun(kind: Kind): Poster { Poster(kind, PostBegun, 0, None, 0, false, []) }

  /** The post has created, or is bound to have created, its event. */
  predicate Accepted(pc: PostPc) { pc == PostCreated || pc == PostReturned(true) }

  predicate Bracketed(pc: PostPc) { !pc.PostBegun? && !pc.PostReturned? }

  // ---------------------------------------------------------------- queues, workers, stop

  datatype Queue = Client(client: Cq) | ServerSide(server: Server.ServerQueue)

  function CqOf(q: Queue): Cq {
    match q
    case Client(cq) => cq
    case ServerSide(s) => s.cq
  }

  /** Where a worker stands. Group 0 are the client queues, group g the work queues of server
      g - 1. In a pass, `executed`, `shut` and `total` are the three counters of the loop and
      `before` is the value of `executed` when the current group was begun. */
  datatype WorkerPc =
    | Polling(g: nat, i: nat, before: nat, executed: nat, shut: nat, total: nat)
    | Popping(call: nat)                     // in call number `call` of try_pop, or running its thunk
    | Ejecting(call: nat)                    // in stop_and_eject, or running what it got
    | Exited(call: nat)

  const TOP := Polling(0, 0, 0, 0, 0, 0)

  /** Where the one winning `stop` stands. */
  datatype StopPc =
    | NotStopping
    | AwaitingPosts                          // busy-waits for within_cq_post_ == 0
    | Halting(g: nat, i: nat)                // shuts down queue i of group g next
    | Joining(w: nat)
    | Notifying(thunks: seq<nat>, k: nat)
    | StopReturned

  datatype State = State(
    nThreads: nat,
    life: Life,                              // state_
    within: nat,                             // within_cq_post_
    nextWrite: nat,                          // next_cq_write_index_
    posters: seq<Poster>,
    slots: map<nat, nat>,                    // per CallData, the post whose completion it holds, if any
    groups: seq<seq<Queue>>,                 // cqs_, then the work queues of each of servers_
    tasks: Tasks.State,                      // task_queue_
    popOwner: seq<nat>,                      // history: the worker that made each try_pop call
    ejectOwner: seq<nat>,                    // history: the worker that made each stop_and_eject call
    workers: seq<WorkerPc>,                  // threads_
    stop: StopPc,
    stopCalls: seq<bool>,                    // history: calls of stop, true for one that won
    notifications: seq<nat>,                 // notifications_
    accepted: seq<nat>,                      // history: notifications accepted
    notified: seq<nat>)                      // history: notifications run

  datatype Action =
    | Attach(lines: seq<nat>)                // a server whose queue k has lines[k] wired handlers
    | Notify(thunk: nat)                     // add_notify_at_stopped
    | Run
    | BeginPost(kind: Kind)                  // an RPC calls its factory with its completion
    | EnterPost(p: nat)
    | CheckPost(p: nat)
    | CreateEvent(p: nat)
    | LeavePost(p: nat)
    | TellRefusal(p: nat)                    // RpcSenderOpState: post answered false
    | EndOperation(g: nat, i: nat, tag: nat, ok: bool)   // gRPC: an operation on a queue ends
    | PostTask(a: Tasks.Action)              // a step of a push on the task queue
    | Poll(w: nat, answer: Answer, status: Rpc.Status, conversion: Rpc.Conversion<Payload>, throws: bool)
    | NextGroup(w: nat)
    | EndPass(w: nat)
    | Pop(w: nat, locked: bool)
    | Eject(w: nat)
    | CallStop
    | StopStep

  // ---------------------------------------------------------------- the steps

  function Init(nThreads: nat, nClients: nat): (s: State)
    requires nThreads > 0
    ensures Tasks.Sized(s.tasks)
  {
    State(nThreads, Ready, 0, 0, [], map[], [seq(nClients, _ => Client(FRESH))], Tasks.Init(nThreads + 1), [], [], [],
          NotStopping, [], [], [], [])
  }

  /** A queue of a new server, with `lines` handlers wired to it. */
  function Wired(lines: nat): Server.ServerQueue {
    if lines == 0 then Server.UNWIRED else Server.WireOne(Wired(lines - 1))
  }

  /** `attach_server`; it throws unless the context is Ready. Queue counts stay below 2^32 - n. */
  function DoAttach(s: State, lines: seq<nat>): State {
    if s.life.Ready? && s.nThreads + |lines| <= U32 then
      s.(groups := s.groups + [seq(|lines|, k requires 0 <= k < |lines| => ServerSide(Wired(lines[k])))])
    else s
  }

  function DoNotify(s: State, thunk: nat): State {
    if s.life.Stopped? then s
    else s.(notifications := s.notifications + [thunk], accepted := s.accepted + [thunk])
  }

  function DoRun(s: State): State {
    if s.life.Ready? then s.(life := Running, workers := seq(s.nThreads, _ => TOP)) else s
  }

  /** `call_factory_(completion)`: the completion goes into the shared CallData. */
  function DoBeginPost(s: State, kind: Kind): State {
    s.(posters := s.posters + [Begun(kind)],
       slots := if kind.RpcCall? then s.slots[kind.data := |s.posters|] else s.slots)
  }

  function DoEnterPost(s: State, p: nat): State {
    if p < |s.posters| && s.posters[p].pc.PostBegun? then
      s.(within := s.within + 1, posters := s.posters[p := s.posters[p].(pc := PostEntered)])
    else s
  }

  function DoCheckPost(s: State, p: nat): State {
    if p < |s.posters| && s.posters[p].pc.PostEntered? then
      s.(posters := s.posters[p := s.posters[p].(pc := if Open(s.life) then PostAllowed else PostRefused)])
    else s
  }

  /** The post whose completion is in the CallData of such a post. */
  function Slot(slots: map<nat, nat>, kind: Kind): Option<nat> {
    if kind.RpcCall? && kind.data in slots then Some(slots[kind.data]) else None
  }

  function Emptied(slots: map<nat, nat>, kind: Kind): map<nat, nat> {
    if kind.RpcCall? then slots - {kind.data} else slots
  }

  /** `get_next_cq_` and the constructor of the event, which registers its tag; the event of an RPC
      takes whatever completion its CallData holds. */
  function DoCreateEvent(s: State, p: nat): State {
    if p < |s.posters| && s.posters[p].pc.PostAllowed? && s.groups != [] && s.groups[0] != [] then
      var q := s.nextWrite % |s.groups[0]|;
      if s.groups[0][q].Client? then
        s.(posters := s.posters[p := s.posters[p].(pc := PostCreated, queue := q,
                                                   callee := Slot(s.slots, s.posters[p].kind))],
           slots := Emptied(s.slots, s.posters[p].kind),
           groups := SetQueue(s.groups, 0, q, Client(Register(s.groups[0][q].client, p))),
           nextWrite := (s.nextWrite + 1) % U64)
      else s
    else s
  }

  function DoLeavePost(s: State, p: nat): State {
    if p < |s.posters| && (s.posters[p].pc.PostCreated? || s.posters[p].pc.PostRefused?) && s.within > 0 then
      s.(posters := s.posters[p := s.posters[p].(pc := PostReturned(s.posters[p].pc.PostCreated?))],
         within := s.within - 1)
    else s
  }

  function DoTellRefusal(s: State, p: nat): State {
    if p < |s.posters| && s.posters[p].kind.RpcCall? && s.posters[p].pc == PostReturned(false) &&
       !s.posters[p].refusalTold then
      s.(posters := s.posters[p := s.posters[p].(refusalTold := true,
                                                 signals := s.posters[p].signals + Rpc.RefusalSignals())])
    else s
  }

  function SetQueue(groups: seq<seq<Queue>>, g: nat, i: nat, q: Queue): seq<seq<Queue>>
    requires g < |groups| && i < |groups[g]|
  {
    groups[g := groups[g][i := q]]
  }

  function DoEndOperation(s: State, g: nat, i: nat, tag: nat, ok: bool): State {
    if g < |s.groups| && i < |s.groups[g]| then
      s.(groups := SetQueue(s.groups, g, i,
           match s.groups[g][i]
           case Client(cq) => Client(MakeReady(cq, tag, ok))
           case ServerSide(q) => ServerSide(q.(cq := MakeReady(q.cq, tag, ok)))))
    else s
  }

  function DoPostTask(s: State, a: Tasks.Action): State
    requires Tasks.Sized(s.tasks)
  {
    if Tasks.IsPush(a) then s.(tasks := Tasks.Step(s.tasks, a)) else s
  }

  /** A post's receiver is told something. */
  function Tell(posters: seq<Poster>, p: nat, told: seq<Rpc.Signal<Payload>>): seq<Poster> {
    if p < |posters| then posters[p := posters[p].(signals := posters[p].signals + told)] else posters
  }

  /** `complete` of the event of post `tag`, on a client queue: the completion that the event took tells
      its own start's receiver. An empty completion throws, which `complete` swallows. */
  function CompletePost(posters: seq<Poster>, tag: nat, ok: bool, status: Rpc.Status,
                        conversion: Rpc.Conversion<Payload>)
    : seq<Poster>
  {
    if tag < |posters| then
      var completed := posters[tag := posters[tag].(completions := posters[tag].completions + 1)];
      match posters[tag].callee
      case None => completed
      case Some(p) => Tell(completed, p, Rpc.DeliverySignals(ok, status, conversion))
    else posters
  }

  /** The condition of the loop over the queues of one group. */
  predicate InGroup(groups: seq<seq<Queue>>, pc: WorkerPc) {
    pc.Polling? && pc.g < |groups| && pc.i < |groups[pc.g]| && pc.before == pc.executed
  }

  predicate AtPoll(s: State, w: nat) {
    w < |s.workers| && InGroup(s.groups, s.workers[w])
  }

  /** The queue of its current group that the worker polls. */
  function Target(s: State, w: nat): (j: nat)
    requires AtPoll(s, w)
    ensures j < |s.groups[s.workers[w].g]|
  {
    Probe(w, s.workers[w].i, |s.groups[s.workers[w].g]|)
  }

  /** The switch over the result of `execute_cq_`. */
  function Counters(pc: WorkerPc, answer: Answer): WorkerPc
    requires pc.Polling?
  {
    match answer
    case Timeout => pc.(i := pc.i + 1)
    case Shutdown => pc.(i := pc.i + 1, shut := pc.shut + 1)
    case Event(_, _) => pc.(i := pc.i + 1, executed := pc.executed + 1)
  }

  /** `execute_cq_` on queue i of group g: a delivered event is completed. */
  function Execute(s: State, g: nat, i: nat, answer: Answer, status: Rpc.Status, conversion: Rpc.Conversion<Payload>,
                   throws: bool): State
    requires g < |s.groups| && i < |s.groups[g]|
  {
    if !answer.Event? then s
    else
      match s.groups[g][i]
      case Client(cq) =>
        s.(groups := SetQueue(s.groups, g, i, Client(Delivered(cq, answer.tag))),
           posters := CompletePost(s.posters, answer.tag, answer.ok, status, conversion))
      case ServerSide(q) =>
        s.(groups := SetQueue(s.groups, g, i, ServerSide(Server.DeliverTag(q, answer.tag, throws))))
  }

  function DoPoll(s: State, w: nat, answer: Answer, status: Rpc.Status, conversion: Rpc.Conversion<Payload>,
                  throws: bool)
    : State
  {
    if AtPoll(s, w) && MayAnswer(CqOf(s.groups[s.workers[w].g][Target(s, w)]), answer) then
      Execute(s.(workers := s.workers[w := Counters(s.workers[w], answer)]),
              s.workers[w].g, Target(s, w), answer, status, conversion, throws)
    else s
  }

  /** The loop over one group has ended: all polled, or something was executed. */
  predicate GroupOver(groups: seq<seq<Queue>>, pc: WorkerPc) {
    pc.Polling? && pc.g < |groups| && !InGroup(groups, pc)
  }

  function NextPc(groups: seq<seq<Queue>>, pc: WorkerPc): WorkerPc
    requires GroupOver(groups, pc)
  {
    Polling(pc.g + 1, 0, pc.executed, pc.executed, pc.shut, pc.total + |groups[pc.g]|)
  }

  function DoNextGroup(s: State, w: nat): State {
    if w < |s.workers| && GroupOver(s.groups, s.workers[w]) then
      s.(workers := s.workers[w := NextPc(s.groups, s.workers[w])])
    else s
  }

  /** After all groups: leave the loop, or try the task queue. */
  function DoEndPass(s: State, w: nat): State
    requires Tasks.Sized(s.tasks)
  {
    if w < |s.workers| && s.workers[w].Polling? && s.workers[w].g == |s.groups| then
      if s.workers[w].shut == s.workers[w].total then
        s.(tasks := Tasks.EjectEnter(s.tasks), ejectOwner := s.ejectOwner + [w],
           workers := s.workers[w := Ejecting(|s.tasks.ejectors|)])
      else
        s.(tasks := Tasks.PopEnter(s.tasks), popOwner := s.popOwner + [w],
           workers := s.workers[w := Popping(|s.tasks.poppers|)])
    else s
  }

  /** The next step of `try_pop`, of running the popped thunk, or back to the top of the loop. */
  function DoPop(s: State, w: nat, locked: bool): State
    requires Tasks.Sized(s.tasks)
  {
    if w < |s.workers| && s.workers[w].Popping? && s.workers[w].call < |s.tasks.poppers| then
      var c := s.workers[w].call;
      match s.tasks.poppers[c]
      case PopProbing(_, _) => s.(tasks := Tasks.PopProbe(s.tasks, c, locked))
      case PopHolding(_) => s.(tasks := Tasks.PopRun(s.tasks, c))
      case PopFinished(_) => s.(workers := s.workers[w := TOP])
    else s
  }

  /** The next step of `stop_and_eject`, of running what it returned, or the end of the thread. */
  function DoEject(s: State, w: nat): State
    requires Tasks.Sized(s.tasks)
  {
    if w < |s.workers| && s.workers[w].Ejecting? && s.workers[w].call < |s.tasks.ejectors| then
      var e := s.workers[w].call;
      match s.tasks.ejectors[e]
      case Sweeping(i, _) =>
        s.(tasks := if i < |s.tasks.queues| then Tasks.EjectOne(s.tasks, e) else Tasks.EjectTest(s.tasks, e))
      case Executing(got, k) =>
        if k < |got| then s.(tasks := Tasks.EjectRun(s.tasks, e))
        else s.(workers := s.workers[w := Exited(e)])
    else s
  }

  /** The compare-and-exchange at the start of `stop`. */
  function DoCallStop(s: State): State {
    if s.life.Running? then
      s.(life := ShuttingDown, stop := AwaitingPosts, stopCalls := s.stopCalls + [true])
    else
      s.(stopCalls := s.stopCalls + [false])
  }

  function HaltQueue(q: Queue): Queue {
    match q
    case Client(cq) => Client(ShutDown(cq))
    case ServerSide(q) => ServerSide(q.(cq := ShutDown(q.cq)))
  }

  /** The next step of the winning `stop`; it waits where the source waits. */
  function DoStopStep(s: State): State {
    match s.stop
    case NotStopping => s
    case AwaitingPosts => if s.within > 0 then s else s.(stop := Halting(0, 0))
    case Halting(g, i) =>
      if g < |s.groups| then
        if i < |s.groups[g]| then
          s.(groups := SetQueue(s.groups, g, i, HaltQueue(s.groups[g][i])), stop := Halting(g, i + 1))
        else
          s.(stop := Halting(g + 1, 0))
      else s.(stop := Joining(0))
    case Joining(w) =>
      if w < |s.workers| then
        if s.workers[w].Exited? then s.(stop := Joining(w + 1)) else s
      else s.(life := Stopped, stop := Notifying(s.notifications, 0), notifications := [])
    case Notifying(thunks, k) =>
      if k < |thunks| then s.(stop := Notifying(thunks, k + 1), notified := s.notified + [thunks[k]])
      else s.(stop := StopReturned)
    case StopReturned => s
  }

  function Step(s: State, a: Action): (t: State)
    requires Tasks.Sized(s.tasks)
    ensures Tasks.Sized(t.tasks)
  {
    match a
    case Attach(lines) => DoAttach(s, lines)
    case Notify(thunk) => DoNotify(s, thunk)
    case Run => DoRun(s)
    case BeginPost(kind) => DoBeginPost(s, kind)
    case EnterPost(p) => DoEnterPost(s, p)
    case CheckPost(p) => DoCheckPost(s, p)
    case CreateEvent(p) => DoCreateEvent(s, p)
    case LeavePost(p) => DoLeavePost(s, p)
    case TellRefusal(p) => DoTellRefusal(s, p)
    case EndOperation(g, i, tag, ok) => DoEndOperation(s, g, i, tag, ok)
    case PostTask(a) => DoPostTask(s, a)
    case Poll(w, answer, status, conversion, throws) => DoPoll(s, w, answer, status, conversion, throws)
    case NextGroup(w) => DoNextGroup(s, w)
    case EndPass(w) => DoEndPass(s, w)
    case Pop(w, locked) => DoPop(s, w, locked)
    case Eject(w) => DoEject(s, w)
    case CallStop => DoCallStop(s)
    case StopStep => DoStopStep(s)
  }

  /** The state after a run. Every interleaving is such a run. */
  function Exec(s: State, acts: seq<Action>): (t: State)
    requires Tasks.Sized(s.tasks)
    ensures Tasks.Sized(t.tasks)
  {
    if acts == [] then s else Step(Exec(s, acts[..|acts| - 1]), acts[|acts| - 1])
  }

  // ---------------------------------------------------------------- runs

  lemma NoSteps(s: State)
    requires Tasks.Sized(s.tasks)
    ensures Exec(s, []) == s
  {
  }

  lemma {:induction false} ExecConcat(s: State, a: seq<Action>, b: seq<Action>)
    requires Tasks.Sized(s.tasks)
    ensures Exec(s, a + b) == Exec(Exec(s, a), b)
    decreases |b|
  {
    if b == [] {
      assert a + b == a;
    } else {
      assert (a + b)[..|a + b| - 1] == a + b[..|b| - 1];
      ExecConcat(s, a, b[..|b| - 1]);
    }
  }

  lemma Extend(s: State, acts: seq<Action>, a: Action) returns (more: seq<Action>)
    requires Tasks.Sized(s.tasks)
    ensures more == acts + [a] && Exec(s, more) == Step(Exec(s, acts), a)
  {
    more := acts + [a];
    assert more[..|more| - 1] == acts;
  }

  // ---------------------------------------------------------------- what posting leaves alone

  /** A step of a post. */
  predicate IsPost(a: Action) {
    a.BeginPost? || a.EnterPost? || a.CheckPost? || a.CreateEvent? || a.LeavePost? || a.TellRefusal?
  }

  lemma PostFrame(s: State, a: Action)
    requires Tasks.Sized(s.tasks) && IsPost(a)
    ensures var t := Step(s, a);
            && t.life == s.life && t.stop == s.stop && t.workers == s.workers && t.tasks == s.tasks
            && t.accepted == s.accepted && t.popOwner == s.popOwner && t.ejectOwner == s.ejectOwner
            && |t.groups| == |s.groups|
            && forall g: nat :: g < |s.groups| ==> |t.groups[g]| == |s.groups[g]|
  {
    hide Register;
  }
}
