/** The population of `ServerRpcHandler` objects on one server completion queue. A handler's tag is
    its own address. It is created listening for a request; `complete` replaces it by a new
    listener and lets it reply, or deletes it. */
module ServerHandlers {
  import opened CompletionQueue

  /** `delete_on_next_complete_` is false while listening and true while replying. `line` names the
      handler first wired to the queue from which this one descends. */
  datatype Handler = Listening(line: nat) | Replying(line: nat)

  /** How the handler finished its request: with the result of the logic, or, if that threw, with
      INTERNAL. */
  datatype Reply = Answered | Failed

  datatype ServerQueue = ServerQueue(
    cq: Cq,
    handlers: map<nat, Handler>,             // the live objects, by tag
    next: nat,                               // the tag of the next object
    lines: nat,                              // handlers wired at the start
    closed: set<nat>,                        // history: lines whose listener was told not-ok
    requests: set<nat>,                      // history: handlers that were given a request
    replies: seq<(nat, Reply)>)              // history: calls of Finish, in order

  const UNWIRED := ServerQueue(FRESH, map[], 0, 0, {}, {}, [])

  datatype Action =
    | Wire                                   // `new ServerRpcHandler` by the wiring function
    | Ready(tag: nat, ok: bool)              // gRPC ends the operation with this tag
    | ShutDownQueue
    | Deliver(tag: nat, throws: bool)        // AsyncNext, then `complete`; `throws` is the logic's

  /** The constructor: a new object that listens on the queue. */
  function Construct(s: ServerQueue, line: nat): ServerQueue {
    s.(cq := Register(s.cq, s.next), handlers := s.handlers[s.next := Listening(line)], next := s.next + 1)
  }

  function WireOne(s: ServerQueue): ServerQueue {
    Construct(s, s.lines).(lines := s.lines + 1)
  }

  /** `delete this`. */
  function Delete(s: ServerQueue, tag: nat): ServerQueue
    requires tag in s.handlers
  {
    s.(handlers := s.handlers - {tag},
       closed := if s.handlers[tag].Listening? then s.closed + {s.handlers[tag].line} else s.closed)
  }

  /** `response_writer_.Finish(..., this)`: the object's tag is started again. */
  function Finish(s: ServerQueue, tag: nat, reply: Reply): ServerQueue {
    s.(cq := Register(s.cq, tag), replies := s.replies + [(tag, reply)])
  }

  /** `complete(is_okay)` of the handler `tag`, in immediate mode. */
  function Complete(s: ServerQueue, tag: nat, ok: bool, throws: bool): ServerQueue
    requires tag in s.handlers
  {
    if s.handlers[tag].Replying? || !ok then
      Delete(s, tag)
    else
      var line := s.handlers[tag].line;
      var spawned := Construct(s, line);
      var replying := spawned.(handlers := spawned.handlers[tag := Replying(line)], requests := s.requests + {tag});
      Finish(replying, tag, if throws then Failed else Answered)
  }

  function DeliverTag(s: ServerQueue, tag: nat, throws: bool): ServerQueue {
    if tag in s.cq.ready && tag in s.handlers then
      Complete(s.(cq := Delivered(s.cq, tag)), tag, s.cq.ready[tag], throws)
    else s
  }

  function Step(s: ServerQueue, a: Action): ServerQueue {
    match a
    case Wire => WireOne(s)
    case Ready(tag, ok) => s.(cq := MakeReady(s.cq, tag, ok))
    case ShutDownQueue => s.(cq := ShutDown(s.cq))
    case Deliver(tag, throws) => DeliverTag(s, tag, throws)
  }

  function Exec(s: ServerQueue, acts: seq<Action>): ServerQueue {
    if acts == [] then s else Step(Exec(s, acts[..|acts| - 1]), acts[|acts| - 1])
  }

  // ---------------------------------------------------------------- the invariant

  ghost function Listeners(handlers: map<nat, Handler>, line: nat): set<nat> {
    set tag | tag in handlers && handlers[tag] == Listening(line)
  }

  /** The handlers that `Finish` was called on, one entry a call. */
  ghost function Repliers(replies: seq<(nat, Reply)>): seq<nat> {
    seq(|replies|, i requires 0 <= i < |replies| => replies[i].0)
  }

  /** Live objects and outstanding tags are the same, and each tag is owed once. */
  ghost predicate TagsAreLive(s: ServerQueue) {
    && Proper(s.cq)
    && s.handlers.Keys == Outstanding(s.cq)
    && (forall tag <- s.handlers :: tag < s.next && s.handlers[tag].line < s.lines)
  }

  /** Each line has one listener until its listener is told not-ok, and none from then on. */
  ghost predicate OneListener(handlers: map<nat, Handler>, lines: nat, closed: set<nat>) {
    forall line: nat :: |Listeners(handlers, line)| == if line < lines && line !in closed then 1 else 0
  }

  /** Exactly the handlers that were given a request were finished, each once. */
  ghost predicate FinishedOnce(s: ServerQueue) {
    && (forall tag <- s.requests :: tag < s.next)
    && multiset(Repliers(s.replies)) == multiset(s.requests)
    && (forall tag <- s.handlers :: s.handlers[tag].Replying? <==> tag in s.requests)
  }

  ghost predicate Inv(s: ServerQueue) {
    && TagsAreLive(s)
    && OneListener(s.handlers, s.lines, s.closed)
    && (forall line <- s.closed :: line < s.lines)
    && FinishedOnce(s)
  }

  // ---------------------------------------------------------------- every step keeps it

  lemma ListenersAfter(handlers: map<nat, Handler>, tag: nat, h: Handler, line: nat)
    ensures Listeners(handlers[tag := h], line) ==
            if h == Listening(line) then Listeners(handlers, line) + {tag} else Listeners(handlers, line) - {tag}
  {
  }

  lemma WireKeepsInv(s: ServerQueue)
    requires Inv(s)
    ensures Inv(WireOne(s))
  {
    hide OneListener;
    WireKeepsListeners(s.handlers, s.lines, s.closed, s.next);
  }

  /** The new line has the new object for its listener. */
  lemma WireKeepsListeners(handlers: map<nat, Handler>, lines: nat, closed: set<nat>, tag: nat)
    requires OneListener(handlers, lines, closed) && tag !in handlers && forall line <- closed :: line < lines
    ensures OneListener(handlers[tag := Listening(lines)], lines + 1, closed)
  {
    var after := handlers[tag := Listening(lines)];
    forall line: nat
      ensures |Listeners(after, line)| == if line < lines + 1 && line !in closed then 1 else 0
    {
      ListenersAfter(handlers, tag, Listening(lines), line);
      assert |Listeners(handlers, line)| == if line < lines && line !in closed then 1 else 0;
      if line == lines {
        assert Listeners(handlers, line) == {};
      } else {
        assert Listeners(handlers, line) - {tag} == Listeners(handlers, line);
      }
    }
  }

  lemma DeleteKeepsListeners(s: ServerQueue, tag: nat)
    requires OneListener(s.handlers, s.lines, s.closed) && tag in s.handlers && s.handlers[tag].line < s.lines
    ensures var t := Delete(s, tag); OneListener(t.handlers, t.lines, t.closed)
  {
    var t := Delete(s, tag);
    forall line: nat
      ensures |Listeners(t.handlers, line)| == if line < t.lines && line !in t.closed then 1 else 0
    {
      assert Listeners(t.handlers, line) == Listeners(s.handlers, line) - {tag};
      if s.handlers[tag] == Listening(line) {
        assert tag in Listeners(s.handlers, line);
      } else {
        assert tag !in Listeners(s.handlers, line);
      }
    }
  }

  lemma ListenersHandOver(handlers: map<nat, Handler>, tag: nat, spawn: nat, l: nat, line: nat)
    requires tag in handlers && handlers[tag] == Listening(l) && spawn !in handlers
    ensures Listeners(handlers[spawn := Listening(l)][tag := Replying(l)], line) ==
            if line == l then Listeners(handlers, line) - {tag} + {spawn} else Listeners(handlers, line)
  {
    ListenersAfter(handlers, spawn, Listening(l), line);
    ListenersAfter(handlers[spawn := Listening(l)], tag, Replying(l), line);
  }

  /** The line's old listener replies and the new object listens. */
  lemma HandOverKeepsListeners(handlers: map<nat, Handler>, lines: nat, closed: set<nat>, tag: nat, spawn: nat, l: nat)
    requires OneListener(handlers, lines, closed)
    requires tag in handlers && handlers[tag] == Listening(l) && spawn !in handlers
    ensures OneListener(handlers[spawn := Listening(l)][tag := Replying(l)], lines, closed)
  {
    forall line: nat
      ensures |Listeners(handlers[spawn := Listening(l)][tag := Replying(l)], line)| == |Listeners(handlers, line)|
    {
      ListenersHandOver(handlers, tag, spawn, l, line);
      assert line == l ==> tag in Listeners(handlers, line);
      assert spawn !in Listeners(handlers, line);
    }
  }

  lemma FinishIsRecorded(requests: set<nat>, replies: seq<(nat, Reply)>, tag: nat, reply: Reply)
    requires multiset(Repliers(replies)) == multiset(requests) && tag !in requests
    ensures multiset(Repliers(replies + [(tag, reply)])) == multiset(requests + {tag})
  {
    assert Repliers(replies + [(tag, reply)]) == Repliers(replies) + [tag];
    assert multiset(requests + {tag}) == multiset(requests) + multiset{tag};
  }

  lemma DeliverKeepsInv(s: ServerQueue, tag: nat, throws: bool)
    requires Inv(s)
    ensures Inv(DeliverTag(s, tag, throws))
  {
    if tag in s.cq.ready && tag in s.handlers {
      if s.handlers[tag].Replying? || !s.cq.ready[tag] {
        DeleteKeepsListeners(s.(cq := Delivered(s.cq, tag)), tag);
      } else {
        HandOverKeepsListeners(s.handlers, s.lines, s.closed, tag, s.next, s.handlers[tag].line);
        FinishIsRecorded(s.requests, s.replies, tag, if throws then Failed else Answered);
      }
    }
  }

  lemma ReadyKeepsInv(s: ServerQueue, tag: nat, ok: bool)
    requires Inv(s)
    ensures Inv(s.(cq := MakeReady(s.cq, tag, ok)))
  {
    assert Outstanding(MakeReady(s.cq, tag, ok)) == Outstanding(s.cq);
  }

  lemma ShutDownKeepsInv(s: ServerQueue)
    requires Inv(s)
    ensures Inv(s.(cq := ShutDown(s.cq)))
  {
  }

  /** A delivery neither shuts the queue down nor opens it, and a drained queue has none. */
  lemma DeliverKeepsDown(s: ServerQueue, tag: nat, throws: bool)
    ensures DeliverTag(s, tag, throws).cq.down <==> s.cq.down
    ensures Drained(s.cq) ==> DeliverTag(s, tag, throws) == s
  {
  }

  lemma StepKeepsInv(s: ServerQueue, a: Action)
    requires Inv(s)
    ensures Inv(Step(s, a))
  {
    match a
    case Wire => WireKeepsInv(s);
    case Ready(tag, ok) => ReadyKeepsInv(s, tag, ok);
    case ShutDownQueue => ShutDownKeepsInv(s);
    case Deliver(tag, throws) => DeliverKeepsInv(s, tag, throws);
  }

  lemma {:induction false} ExecKeepsInv(s: ServerQueue, acts: seq<Action>)
    requires Inv(s)
    ensures Inv(Exec(s, acts))
  {
    if acts != [] {
      ExecKeepsInv(s, acts[..|acts| - 1]);
      StepKeepsInv(Exec(s, acts[..|acts| - 1]), acts[|acts| - 1]);
    }
  }

  lemma UnwiredInv()
    ensures Inv(UNWIRED)
  {
    assert forall line: nat :: Listeners(map[], line) == {};
    assert Repliers([]) == [];
  }

  // ---------------------------------------------------------------- the object

  /** One `ServerRpcHandler`; `tag` is its address. */
  class ServerRpcHandler {
    const tag: nat
    const line: nat
    var deleteOnNextComplete: bool
    var deleted: bool

    /** What the population knows of this object. */
    ghost function State(): Handler
      reads this
    {
      if deleteOnNextComplete then Replying(line) else Listening(line)
    }

    constructor (tag: nat, line: nat)
      ensures this.tag == tag && this.line == line && !deleted && State() == Listening(line)
    {
      this.tag, this.line := tag, line;
      deleteOnNextComplete, deleted := false, false;
    }

    /** `complete`: tells whether a new listener was spawned, at address `free`, and how the request was
        finished. With the queue's part of these effects it is the step `Complete` of the
        population. */
    method CompleteOne(isOkay: bool, throws: bool, free: nat, ghost s: ServerQueue)
      returns (spawned: ServerRpcHandler?, reply: (bool, Reply), ghost after: ServerQueue)
      requires !deleted && tag in s.handlers && s.handlers[tag] == State()
      requires free == s.next && free !in s.handlers
      modifies this
      ensures after == Complete(s, tag, isOkay, throws)
      ensures deleted <==> tag !in after.handlers
      ensures !deleted ==> after.handlers[tag] == State()
      ensures spawned != null <==> free in after.handlers
      ensures spawned != null ==>
                fresh(spawned) && !spawned.deleted && spawned.tag == free && spawned.State() == after.handlers[free]
      ensures after.replies == s.replies + if reply.0 then [(tag, reply.1)] else []
      ensures reply.0 <==> isOkay && !old(deleteOnNextComplete)
      ensures reply.0 ==> (reply.1.Failed? <==> throws)
    {
      if deleteOnNextComplete || !isOkay {
        deleted := true;
        spawned, reply := null, (false, Failed);
      } else {
        spawned := new ServerRpcHandler(free, line);
        deleteOnNextComplete := true;
        reply := (true, if throws then Failed else Answered);
      }
      after := Complete(s, tag, isOkay, throws);
    }
  }

  /** What a delivery does to the live objects: one goes, or one comes and one changes. */
  lemma DeliverIs(s: ServerQueue, tag: nat, throws: bool)
    requires Inv(s) && tag in s.cq.ready
    ensures tag in s.handlers && s.next !in s.handlers
    ensures var t := DeliverTag(s, tag, throws);
            && t == Complete(s.(cq := Delivered(s.cq, tag)), tag, s.cq.ready[tag], throws)
            && t.lines == s.lines
            && (forall x <- s.handlers :: x != tag ==> x in t.handlers && t.handlers[x] == s.handlers[x])
            && (forall x: nat :: x in t.handlers && x != s.next ==> x in s.handlers)
            && (s.next in t.handlers <==> tag in t.handlers)
            && t.next == if s.next in t.handlers then s.next + 1 else s.next
  {
    hide OneListener, FinishedOnce;
  }

  /** The objects on one queue and, as `model`, the population that they are. */
  class HandlerQueue {
    var live: map<nat, ServerRpcHandler>     // by tag
    var next: nat
    var lines: nat
    ghost var model: ServerQueue

    ghost predicate Valid()
      reads this, live.Values
    {
      && Inv(model) && next == model.next && lines == model.lines && live.Keys == model.handlers.Keys
      && forall tag <- live :: !live[tag].deleted && live[tag].tag == tag && live[tag].State() == model.handlers[tag]
    }

    constructor ()
      ensures Valid() && model == UNWIRED && live == map[]
    {
      live, next, lines, model := map[], 0, 0, UNWIRED;
      new;
      UnwiredInv();
    }

    /** The wiring function makes one handler. */
    method WireHandler()
      requires Valid()
      modifies this
      ensures Valid() && model == Step(old(model), Wire) && fresh(live.Values - old(live.Values))
    {
      hide OneListener, FinishedOnce;
      WireKeepsInv(model);
      var handler := new ServerRpcHandler(next, lines);
      live := live[next := handler];
      next, lines, model := next + 1, lines + 1, WireOne(model);
    }

    /** `AsyncNext` has handed out the tag, and its handler completes. */
    method DeliverEvent(tag: nat, isOkay: bool, throws: bool)
      requires Valid() && tag in model.cq.ready && model.cq.ready[tag] == isOkay
      modifies this, live.Values
      ensures Valid() && model == Step(old(model), Deliver(tag, throws)) && fresh(live.Values - old(live.Values))
    {
      hide Inv, Complete, DeliverTag, Delivered;
      DeliverIs(model, tag, throws);
      DeliverKeepsInv(model, tag, throws);
      var handler := live[tag];
      var spawned, _, after := handler.CompleteOne(isOkay, throws, next, model.(cq := Delivered(model.cq, tag)));
      if handler.deleted {
        live := live - {tag};
        assert live.Values <= old(live).Values;
      } else {
        live := live[next := spawned];
        next := next + 1;
        assert live.Values <= old(live).Values + {spawned};
      }
      model := after;
      assert forall x: nat :: x in live <==> x in model.handlers;
    }
  }

  // ---------------------------------------------------------------- whole runs

  /** Over every run: live handlers and outstanding tags are in bijection, so no tag is owed for a
      deleted handler; each request was finished exactly once; each line has exactly one
      listener until its listener is told not-ok, and none afterwards. */
  lemma PopulationIsExact(acts: seq<Action>, tag: nat, line: nat)
    ensures var s := Exec(UNWIRED, acts);
            && (tag in s.handlers <==> tag in s.cq.pending || tag in s.cq.ready)
            && !(tag in s.cq.pending && tag in s.cq.ready)
            && multiset(Repliers(s.replies))[tag] == (if tag in s.requests then 1 else 0)
            && |Listeners(s.handlers, line)| == (if line < s.lines && line !in s.closed then 1 else 0)
  {
    UnwiredInv();
    ExecKeepsInv(UNWIRED, acts);
  }

  /** Step `k` of the run hands the handler `tag` its request: it delivers the tag, ok, while the handler
      listens. */
  predicate HandsRequest(acts: seq<Action>, k: nat, tag: nat)
    requires k < |acts|
  {
    var s := Exec(UNWIRED, acts[..k]);
    && acts[k].Deliver? && acts[k].tag == tag
    && tag in s.handlers && s.handlers[tag].Listening? && tag in s.cq.ready && s.cq.ready[tag]
  }

  ghost predicate Handed(acts: seq<Action>, tag: nat, throws: bool) {
    exists k: nat :: k < |acts| && HandsRequest(acts, k, tag) && acts[k].throws == throws
  }

  lemma HandedGrows(acts: seq<Action>, tag: nat, throws: bool)
    requires acts != []
    ensures var m := |acts| - 1;
            Handed(acts, tag, throws) <==>
            Handed(acts[..m], tag, throws) || (HandsRequest(acts, m, tag) && acts[m].throws == throws)
  {
    hide Exec;
    var m := |acts| - 1;
    forall k: nat | k < m
      ensures HandsRequest(acts[..m], k, tag) == HandsRequest(acts, k, tag)
    {
      assert acts[..m][..k] == acts[..k];
    }
    if Handed(acts[..m], tag, throws) {
      var k: nat :| k < m && HandsRequest(acts[..m], k, tag) && acts[..m][k].throws == throws;
      assert HandsRequest(acts, k, tag) && acts[k].throws == throws;
    }
    if Handed(acts, tag, throws) {
      var k: nat :| k < |acts| && HandsRequest(acts, k, tag) && acts[k].throws == throws;
      if k < m {
        assert HandsRequest(acts[..m], k, tag) && acts[..m][k].throws == throws;
      }
    }
  }

  lemma RepliesStep(s: ServerQueue, a: Action, tag: nat)
    ensures var handed := a.Deliver? && a.tag == tag && tag in s.handlers && s.handlers[tag].Listening? &&
                          tag in s.cq.ready && s.cq.ready[tag];
            && ((tag, Failed) in Step(s, a).replies <==> (tag, Failed) in s.replies || (handed && a.throws))
            && ((tag, Answered) in Step(s, a).replies <==> (tag, Answered) in s.replies || (handed && !a.throws))
  {
  }

  /** Over every run: a request is finished with the result of the logic exactly if the logic returned
      when the request was handed over, and with INTERNAL exactly if it threw then. */
  lemma {:induction false} RepliesFollowTheLogic(acts: seq<Action>, tag: nat)
    ensures var replies := Exec(UNWIRED, acts).replies;
            && ((tag, Answered) in replies <==> Handed(acts, tag, false))
            && ((tag, Failed) in replies <==> Handed(acts, tag, true))
  {
    hide Step, Handed;
    if acts == [] {
      NobodyHanded(tag);
    } else {
      var m := |acts| - 1;
      RepliesFollowTheLogic(acts[..m], tag);
      HandedGrows(acts, tag, false);
      HandedGrows(acts, tag, true);
      RepliesStep(Exec(UNWIRED, acts[..m]), acts[m], tag);
    }
  }

  lemma NobodyHanded(tag: nat)
    ensures !Handed([], tag, false) && !Handed([], tag, true)
  {
  }

  /** A delivery adds one live handler if it hands over a request and otherwise deletes one. */
  lemma DeliveryChangesCount(s: ServerQueue, tag: nat, throws: bool)
    requires Inv(s) && tag in s.cq.ready
    ensures |DeliverTag(s, tag, throws).handlers| ==
            if s.handlers[tag].Listening? && s.cq.ready[tag] then |s.handlers| + 1 else |s.handlers| - 1
  {
    var t := DeliverTag(s, tag, throws);
    if s.handlers[tag].Listening? && s.cq.ready[tag] {
      assert t.handlers.Keys == s.handlers.Keys + {s.next};
    } else {
      assert t.handlers.Keys == s.handlers.Keys - {tag};
    }
  }

  // ---------------------------------------------------------------- draining

  /** Handlers that have a request waiting for them on the queue. */
  ghost function Waiting(s: ServerQueue): set<nat> {
    set tag | tag in s.handlers && s.handlers[tag].Listening? && tag in s.cq.ready && s.cq.ready[tag]
  }

  /** The deliveries still to come: one for every live handler and, for a request that is already
      waiting, one each for the handler it will spawn and for its reply. */
  ghost function Remaining(s: ServerQueue): nat { |s.handlers| + 2 * |Waiting(s)| }

  /** After its shutdown gRPC hands no new request to this queue. */
  predicate Graceful(s: ServerQueue, a: Action) {
    && !a.Wire?
    && (a.Ready? && s.cq.down && a.tag in s.handlers && s.handlers[a.tag].Listening? ==> !a.ok)
  }

  lemma WaitingAfterDelivery(s: ServerQueue, tag: nat, throws: bool)
    requires Inv(s) && tag in s.cq.ready
    ensures Waiting(DeliverTag(s, tag, throws)) == Waiting(s) - {tag}
  {
  }

  lemma DeliveryLowersRemaining(s: ServerQueue, tag: nat, throws: bool)
    requires Inv(s) && tag in s.cq.ready
    ensures Remaining(DeliverTag(s, tag, throws)) < Remaining(s)
  {
    DeliveryChangesCount(s, tag, throws);
    WaitingAfterDelivery(s, tag, throws);
    if s.handlers[tag].Listening? && s.cq.ready[tag] {
      assert tag in Waiting(s);
    } else {
      assert tag !in Waiting(s);
    }
  }

  lemma EndKeepsRemaining(s: ServerQueue, tag: nat, ok: bool)
    requires Inv(s) && s.cq.down && Graceful(s, Ready(tag, ok))
    ensures Remaining(s.(cq := MakeReady(s.cq, tag, ok))) == Remaining(s)
  {
    assert Waiting(s.(cq := MakeReady(s.cq, tag, ok))) == Waiting(s);
  }

  /** Once the queue is shut down, nothing raises the number of deliveries still to come and each
      delivery lowers it. */
  lemma DrainProgress(s: ServerQueue, a: Action)
    requires Inv(s) && s.cq.down && Graceful(s, a)
    ensures Remaining(Step(s, a)) <= Remaining(s)
    ensures a.Deliver? && a.tag in s.cq.ready ==> Remaining(Step(s, a)) < Remaining(s)
  {
    match a
    case Wire =>
    case ShutDownQueue => assert Waiting(Step(s, a)) == Waiting(s);
    case Ready(tag, ok) => EndKeepsRemaining(s, tag, ok);
    case Deliver(tag, throws) =>
      if tag in s.cq.ready {
        DeliveryLowersRemaining(s, tag, throws);
      }
  }

  /** A drained queue has no handler left and stays as it is. */
  lemma DrainedIsFinal(s: ServerQueue, a: Action)
    requires Inv(s) && Drained(s.cq) && !a.Wire?
    ensures s.handlers == map[] && Step(s, a) == s && Remaining(s) == 0
  {
    assert s.handlers.Keys == {};
    assert Waiting(s) == {};
  }
}
