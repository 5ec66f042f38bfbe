/** How often the receivers of RPCs are told something by a context, when copies of one type-erased
    sender, whose starts may overlap, share one `CallData`. What the posts of a context do to one
    CallData is a history of `SharedCall`, and `SharedSignals` says what follows from it. */
module ContextSignals {
  import opened Options
  import opened ContextProtocol
  import opened ContextInvariant
  import opened ContextTheorems
  import opened Signals = SharedSignals
  import Shared = SharedCall
  import Histories = ContextHistories
  import Progress = ContextProgress
  import Rpc = RpcSignals
  import Tasks = QueueProtocol

  // ---------------------------------------------------------------- the history of one CallData

  /** What step `a`, taken in `s`, does to the CallData number `d`. */
  function EventsOf(s: State, a: Action, d: nat): seq<Shared.Event> {
    match a
    case BeginPost(kind) => if kind == RpcCall(d) then [Shared.Bind(|s.posters|)] else []
    case CreateEvent(p) =>
      if IsStart(s, p, d) && s.posters[p].pc.PostAllowed? && DoCreateEvent(s, p) != s then [Shared.Create(p)] else []
    case CheckPost(p) =>
      if IsStart(s, p, d) && s.posters[p].pc.PostEntered? && !Open(s.life) then [Shared.Refuse(p)] else []
    case _ => []
  }

  function History(s: State, acts: seq<Action>, d: nat): seq<Shared.Event>
    requires Tasks.Sized(s.tasks)
  {
    if acts == [] then []
    else History(s, acts[..|acts| - 1], d) + EventsOf(Exec(s, acts[..|acts| - 1]), acts[|acts| - 1], d)
  }

  /** Post `p` is a start of a copy of the sender with CallData `d`. */
  predicate IsStart(s: State, p: nat, d: nat) {
    p < |s.posters| && s.posters[p].kind == RpcCall(d)
  }

  predicate Refused(pc: PostPc) { pc.PostRefused? || pc == PostReturned(false) }

  /** The state of the context agrees with the history of the CallData. */
  ghost predicate Matches(s: State, d: nat, events: seq<Shared.Event>) {
    && Lawful(events)
    && Ran(events).completion == Slot(s.slots, RpcCall(d))
    && (forall p: nat :: Shared.Bind(p) in events <==> IsStart(s, p, d))
    && (forall p: nat :: Shared.Create(p) in events <==> IsStart(s, p, d) && Accepted(s.posters[p].pc))
    && (forall p: nat :: Shared.Refuse(p) in events <==> IsStart(s, p, d) && Refused(s.posters[p].pc))
    && (forall p: nat :: p in Ran(events).calls <==> Shared.Create(p) in events)
    && (forall p: nat :: p in Ran(events).calls && p < |s.posters| ==> Ran(events).calls[p] == s.posters[p].callee)
  }

  /** For the starts of this sender nothing changes that the history tells of. */
  ghost predicate SameFor(s: State, t: State, d: nat) {
    && Slot(t.slots, RpcCall(d)) == Slot(s.slots, RpcCall(d))
    && forall p: nat ::
         && (IsStart(t, p, d) <==> IsStart(s, p, d))
         && (IsStart(s, p, d) ==>
               && t.posters[p].callee == s.posters[p].callee
               && (Accepted(t.posters[p].pc) <==> Accepted(s.posters[p].pc))
               && (Refused(t.posters[p].pc) <==> Refused(s.posters[p].pc)))
  }

  lemma NoEventNoChange(s: State, a: Action, d: nat)
    requires Tasks.Sized(s.tasks) && EventsOf(s, a, d) == []
    ensures SameFor(s, Step(s, a), d)
  {
    hide DoCreateEvent, Step, EventsOf;
    if IsPost(a) {
      PostKeepsStarts(s, a, d);
    } else if a.Poll? {
      PollKeepsStarts(s, a, d);
    } else {
      OthersKeepPosters(s, a);
    }
  }

  lemma PostKeepsStarts(s: State, a: Action, d: nat)
    requires Tasks.Sized(s.tasks) && EventsOf(s, a, d) == [] && IsPost(a)
    ensures SameFor(s, Step(s, a), d)
  {
    hide DoBeginPost, DoCreateEvent, SameFor;
    match a
    case BeginPost(kind) => BeginKeepsStarts(s, kind, d);
    case CreateEvent(p) => CreateKeepsStarts(s, p, d);
    case EnterPost(p) => MoveKeepsStarts(s, Step(s, a), p, d);
    case CheckPost(p) => MoveKeepsStarts(s, Step(s, a), p, d);
    case LeavePost(p) => MoveKeepsStarts(s, Step(s, a), p, d);
    case TellRefusal(p) => MoveKeepsStarts(s, Step(s, a), p, d);
  }

  /** At most post `p` moves, and not in a way that its start's history tells of. */
  lemma MoveKeepsStarts(s: State, t: State, p: nat, d: nat)
    requires t.slots == s.slots && |t.posters| == |s.posters|
    requires forall q: nat :: q < |s.posters| && q != p ==> t.posters[q] == s.posters[q]
    requires p < |s.posters| ==>
               && t.posters[p].kind == s.posters[p].kind && t.posters[p].callee == s.posters[p].callee
               && (Accepted(t.posters[p].pc) <==> Accepted(s.posters[p].pc))
               && (s.posters[p].kind == RpcCall(d) ==> (Refused(t.posters[p].pc) <==> Refused(s.posters[p].pc)))
    ensures SameFor(s, t, d)
  {
  }

  lemma BeginKeepsStarts(s: State, kind: Kind, d: nat)
    requires kind != RpcCall(d)
    ensures SameFor(s, DoBeginPost(s, kind), d)
  {
  }

  lemma CreateKeepsStarts(s: State, p: nat, d: nat)
    requires EventsOf(s, CreateEvent(p), d) == []
    ensures SameFor(s, DoCreateEvent(s, p), d)
  {
  }

  lemma OthersKeepPosters(s: State, a: Action)
    requires Tasks.Sized(s.tasks) && !IsPost(a) && !a.Poll?
    ensures Step(s, a).posters == s.posters && Step(s, a).slots == s.slots
  {
  }

  lemma PollKeepsStarts(s: State, a: Action, d: nat)
    requires Tasks.Sized(s.tasks) && a.Poll?
    ensures SameFor(s, Step(s, a), d)
  {
    hide CompletePost;
    var t := Step(s, a);
    assert t.slots == s.slots;
    if t.posters != s.posters {
      assert t.posters == CompletePost(s.posters, a.answer.tag, a.answer.ok, a.status, a.conversion);
      CompleteKeepsStarts(s.posters, a.answer.tag, a.answer.ok, a.status, a.conversion);
    }
  }

  lemma CompleteKeepsStarts(posters: seq<Poster>, tag: nat, ok: bool, status: Rpc.Status,
                            conversion: Rpc.Conversion<Payload>)
    ensures var after := CompletePost(posters, tag, ok, status, conversion);
            |after| == |posters| && forall x: nat :: x < |posters| ==> SameStart(after[x], posters[x])
  {
    if tag < |posters| {
      DeliverIs(posters, tag, ok, status, conversion);
    }
  }

  lemma SameMatches(s: State, t: State, d: nat, events: seq<Shared.Event>)
    requires Matches(s, d, events) && SameFor(s, t, d)
    ensures Matches(t, d, events)
  {
    hide Lawful, Ran;
  }

  lemma BindMatches(s: State, a: Action, d: nat, events: seq<Shared.Event>)
    requires Tasks.Sized(s.tasks) && Matches(s, d, events) && a == BeginPost(RpcCall(d))
    ensures Matches(Step(s, a), d, events + [Shared.Bind(|s.posters|)])
  {
    hide Lawful, Ran;
    var e := Shared.Bind(|s.posters|);
    LawfulGrows(events, e);
    RanGrows(events, e);
  }

  lemma CreateMatches(s: State, p: nat, d: nat, events: seq<Shared.Event>)
    requires Tasks.Sized(s.tasks) && Matches(s, d, events)
    requires IsStart(s, p, d) && s.posters[p].pc.PostAllowed? && DoCreateEvent(s, p) != s
    ensures Matches(Step(s, CreateEvent(p)), d, events + [Shared.Create(p)])
  {
    hide Lawful, Ran;
    var e := Shared.Create(p);
    LawfulGrows(events, e);
    RanGrows(events, e);
  }

  lemma RefuseMatches(s: State, p: nat, d: nat, events: seq<Shared.Event>)
    requires Tasks.Sized(s.tasks) && Matches(s, d, events)
    requires IsStart(s, p, d) && s.posters[p].pc.PostEntered? && !Open(s.life)
    ensures Matches(Step(s, CheckPost(p)), d, events + [Shared.Refuse(p)])
  {
    hide Lawful, Ran;
    var e := Shared.Refuse(p);
    LawfulGrows(events, e);
    RanGrows(events, e);
  }

  lemma RanGrows(events: seq<Shared.Event>, e: Shared.Event)
    ensures Ran(events + [e]) == Shared.Step(Ran(events), e)
  {
    Shared.ExecOne(Shared.Fresh(()), events, e);
  }

  lemma StepMatches(s: State, a: Action, d: nat, events: seq<Shared.Event>)
    requires Tasks.Sized(s.tasks) && Matches(s, d, events)
    ensures Matches(Step(s, a), d, events + EventsOf(s, a, d))
  {
    hide Matches, Step, DoCreateEvent;
    if EventsOf(s, a, d) == [] {
      NoEventNoChange(s, a, d);
      SameMatches(s, Step(s, a), d, events);
      assert events + [] == events;
    } else {
      match a
      case BeginPost(_) => BindMatches(s, a, d, events);
      case CreateEvent(p) => CreateMatches(s, p, d, events);
      case CheckPost(p) => RefuseMatches(s, p, d, events);
    }
  }

  lemma InitMatches(nThreads: nat, nClients: nat, d: nat)
    requires Sensible(nThreads, nClients)
    ensures Matches(Init(nThreads, nClients), d, [])
  {
  }

  /** Over every run, the history of every CallData is one of `SharedCall`, and the context agrees with
      it. */
  lemma {:induction false} HistoryMatches(nThreads: nat, nClients: nat, acts: seq<Action>, d: nat)
    requires Sensible(nThreads, nClients)
    ensures Matches(After(nThreads, nClients, acts), d, History(Init(nThreads, nClients), acts, d))
  {
    hide Matches, Step, EventsOf, Init;
    NoSteps(Init(nThreads, nClients));
    var s := Init(nThreads, nClients);
    if acts == [] {
      InitMatches(nThreads, nClients, d);
    } else {
      HistoryMatches(nThreads, nClients, acts[..|acts| - 1], d);
      StepMatches(Exec(s, acts[..|acts| - 1]), acts[|acts| - 1], d, History(s, acts[..|acts| - 1], d));
    }
  }

  // ---------------------------------------------------------------- what the receivers are told

  /** The context is Stopped, and every start of the sender has returned and, if it was refused, told
      its receiver so. */
  ghost predicate Settled(s: State, d: nat) {
    && s.life.Stopped?
    && forall p: nat :: IsStart(s, p, d) ==>
         s.posters[p].pc.PostReturned? && (s.posters[p].pc == PostReturned(false) ==> s.posters[p].refusalTold)
  }

  lemma TakenIsTakes(s: State, p: nat, d: nat, events: seq<Shared.Event>)
    requires Told(s.slots, s.posters) && Matches(s, d, events) && IsStart(s, p, d)
    ensures Taken(events, p) <==> exists r: nat :: Takes(s.posters, r, p)
  {
    TakenIsHeld(events, p);
    hide Lawful, Ran, Taken;
    if Taken(events, p) {
      var r :| r in CallsTo(events, p);
      assert Takes(s.posters, r, p);
    }
    if r: nat :| Takes(s.posters, r, p) {
      assert IsStart(s, r, d) && Accepted(s.posters[r].pc);
      assert r in CallsTo(events, p);
    }
  }

  /** A start's receiver has been told no more than its CallData's history says, and exactly that once
      all is settled. */
  lemma SignalsAre(s: State, p: nat, d: nat, events: seq<Shared.Event>)
    requires Inv(s) && Matches(s, d, events) && IsStart(s, p, d)
    ensures |s.posters[p].signals| <= TimesTold(events, p)
    ensures Settled(s, d) ==> |s.posters[p].signals| == TimesTold(events, p)
  {
    TimesToldIs(events, p);
    TakenIsTakes(s, p, d, events);
    hide Lawful, Ran, Taken, TimesTold, Lives, Counted, NoneAllowed, Downs, StopBounds, Shaped, ServersOk, Tasks.Inv,
         PopCalls;
    assert ToldOk(s.posters, p);
    if Settled(s, d) {
      StoppedIsDrained(s);
      if r: nat :| Takes(s.posters, r, p) {
        CompletedAtLast(s, r);
      }
    }
  }

  /** Nobody else has anything to be told. */
  lemma OthersAreNotTold(events: seq<Shared.Event>, p: nat)
    requires Lawful(events) && Shared.Bind(p) !in events
    ensures TimesTold(events, p) == 0
  {
    LedgerHolds(events);
    if Shared.Refuse(p) in events {
      CreatedIsBound(events, p);
    }
    assert CallsTo(events, p) == {};
  }

  /** Started type-erased RPCs, whose copies share the CallData `d`, in every run. Their receivers are
      told at most one thing each, as long as no call has taken the completion of a refused start. Once
      all is settled: each has been told at most one thing if and only if that is so, and each exactly
      one thing if and only if no start bound or created its call between another's bind and call. */
  lemma EachRpcSignalsOnce(nThreads: nat, nClients: nat, acts: seq<Action>, d: nat)
    requires Sensible(nThreads, nClients)
    ensures var s := After(nThreads, nClients, acts);
            var events := History(Init(nThreads, nClients), acts, d);
            && (NoRefusedTaken(events) ==> forall p: nat :: IsStart(s, p, d) ==> |s.posters[p].signals| <= 1)
            && (Settled(s, d) ==>
                  && ((forall p: nat :: IsStart(s, p, d) ==> |s.posters[p].signals| <= 1) <==> NoRefusedTaken(events))
                  && ((forall p: nat :: IsStart(s, p, d) ==> |s.posters[p].signals| == 1) <==> AllOwn(events)))
  {
    hide Inv, Lawful, Ran, Taken, TimesTold, NoRefusedTaken, AllOwn, Exec, History, Init, Settled;
    Reached(nThreads, nClients, acts);
    HistoryMatches(nThreads, nClients, acts, d);
    SignalsFollow(After(nThreads, nClients, acts), d, History(Init(nThreads, nClients), acts, d));
  }

  lemma SignalsFollow(s: State, d: nat, events: seq<Shared.Event>)
    requires Inv(s) && Matches(s, d, events)
    ensures NoRefusedTaken(events) ==> forall p: nat :: IsStart(s, p, d) ==> |s.posters[p].signals| <= 1
    ensures Settled(s, d) ==>
              && ((forall p: nat :: IsStart(s, p, d) ==> |s.posters[p].signals| <= 1) <==> NoRefusedTaken(events))
              && ((forall p: nat :: IsStart(s, p, d) ==> |s.posters[p].signals| == 1) <==> AllOwn(events))
  {
    hide Inv, Lawful, Ran, Taken, TimesTold, NoRefusedTaken, AllOwn;
    forall p: nat | IsStart(s, p, d)
      ensures |s.posters[p].signals| <= TimesTold(events, p)
      ensures Settled(s, d) ==> |s.posters[p].signals| == TimesTold(events, p)
    {
      SignalsAre(s, p, d, events);
    }
    forall p: nat | !IsStart(s, p, d)
      ensures TimesTold(events, p) == 0
    {
      OthersAreNotTold(events, p);
    }
    ToldAtMostOnceIff(events);
    if Settled(s, d) {
      ToldExactlyOnceIff(events);
    }
  }

  /** Whatever the other starts do: an RPC whose event took its own completion, because no other start
      of its sender came between its bind and its call, has by Stopped told its receiver exactly one
      thing, that of its own event. */
  lemma OwnCallSignalsOnce(nThreads: nat, nClients: nat, acts: seq<Action>, d: nat, k: nat, p: nat)
    requires Sensible(nThreads, nClients)
    requires var events := History(Init(nThreads, nClients), acts, d);
             k < |events| && events[k] == Shared.Create(p) && Shared.BoundLast(events, k, p)
    ensures var s := After(nThreads, nClients, acts);
            && IsStart(s, p, d) && Accepted(s.posters[p].pc) && s.posters[p].callee == Some(p)
            && |s.posters[p].signals| == s.posters[p].completions
            && (s.life.Stopped? ==> |s.posters[p].signals| == 1)
  {
    hide Inv, Lawful, Ran, Exec, History, Init;
    var s, events := After(nThreads, nClients, acts), History(Init(nThreads, nClients), acts, d);
    Reached(nThreads, nClients, acts);
    HistoryMatches(nThreads, nClients, acts, d);
    HoldsLastBind(events, k, p, p);
    assert Shared.Create(p) in events;
    OwnSignals(s, p);
  }

  lemma OwnSignals(s: State, p: nat)
    requires Inv(s) && p < |s.posters| && Accepted(s.posters[p].pc) && s.posters[p].callee == Some(p)
    ensures |s.posters[p].signals| == s.posters[p].completions
    ensures s.life.Stopped? ==> s.posters[p].completions == 1
  {
    hide Lives, Counted, NoneAllowed, Downs, StopBounds, Shaped, ServersOk, Tasks.Inv, PopCalls, EjectCalls, Passes,
         Leavers, Notes;
    assert ToldOk(s.posters, p) && Takes(s.posters, p, p);
    if s.life.Stopped? {
      StoppedIsDrained(s);
      CompletedAtLast(s, p);
    }
  }

  // ---------------------------------------------------------------- what they are told

  /** The step takes the event with tag `r` off its client queue. */
  predicate DeliversPost(s: State, a: Action, r: nat) {
    Progress.Delivers(s, a) && s.workers[a.w].g == 0 && a.answer.tag == r
  }

  /** The step is one at which the receiver of post `p` should be told something: its refusal is told, or
      an event is delivered that took its completion. */
  predicate Telling(s: State, a: Action, p: nat) {
    p < |s.posters| &&
    ((a == TellRefusal(p) && s.posters[p].kind.RpcCall? && s.posters[p].pc == PostReturned(false) &&
      !s.posters[p].refusalTold) ||
     (a.Poll? && a.answer.Event? && DeliversPost(s, a, a.answer.tag) && Takes(s.posters, a.answer.tag, p)))
  }

  /** The signal is what such a step should tell: of an operation that ended as the step says, or of a
      refusal. */
  ghost predicate RightlyTold(a: Action, signal: Rpc.Signal<Payload>) {
    if a.Poll? then a.answer.Event? && Rpc.Right(a.answer.ok, a.status, a.conversion, signal)
    else Rpc.Unavailable(signal)
  }

  /** The steps of the run, in order, at which the receiver of post `p` should be told something. */
  function Tellings(s: State, acts: seq<Action>, p: nat): seq<nat>
    requires Tasks.Sized(s.tasks)
  {
    if acts == [] then []
    else
      var m := |acts| - 1;
      Tellings(s, acts[..m], p) + if Telling(Exec(s, acts[..m]), acts[m], p) then [m] else []
  }

  function SignalsOf(s: State, p: nat): seq<Rpc.Signal<Payload>> {
    if p < |s.posters| then s.posters[p].signals else []
  }

  /** The receiver of post `p` has been told one thing more, and rightly. */
  ghost predicate ToldRightly(before: seq<Rpc.Signal<Payload>>, after: seq<Rpc.Signal<Payload>>, a: Action) {
    |after| == |before| + 1 && before < after && RightlyTold(a, after[|before|])
  }

  lemma PostTells(s: State, a: Action, p: nat)
    requires Tasks.Sized(s.tasks) && IsPost(a)
    ensures if Telling(s, a, p) then ToldRightly(SignalsOf(s, p), SignalsOf(Step(s, a), p), a)
            else SignalsOf(Step(s, a), p) == SignalsOf(s, p)
  {
  }

  lemma PollTells(s: State, a: Action, p: nat)
    requires Inv(s) && Tasks.Sized(s.tasks) && a.Poll?
    ensures if Telling(s, a, p) then ToldRightly(SignalsOf(s, p), SignalsOf(Step(s, a), p), a)
            else SignalsOf(Step(s, a), p) == SignalsOf(s, p)
  {
    hide Inv, Step, CompletePost, Rpc.DeliverySignals, Rpc.Right;
    if Progress.Delivers(s, a) {
      PollIs(s, a);
      if s.workers[a.w].g == 0 && a.answer.tag < |s.posters| {
        DeliverIs(s.posters, a.answer.tag, a.answer.ok, a.status, a.conversion);
        Rpc.CalmSignalIsRight(a.answer.ok, a.status, a.conversion);
      } else if s.workers[a.w].g == 0 {
        CompleteUnknown(s.posters, a.answer.tag, a.answer.ok, a.status, a.conversion);
      }
    } else {
      PollIs(s, a);
    }
  }

  lemma CompleteUnknown(posters: seq<Poster>, tag: nat, ok: bool, status: Rpc.Status,
                        conversion: Rpc.Conversion<Payload>)
    requires tag >= |posters|
    ensures CompletePost(posters, tag, ok, status, conversion) == posters
  {
  }

  /** What a poll does to the posts. */
  lemma PollIs(s: State, a: Action)
    requires Inv(s) && Tasks.Sized(s.tasks) && a.Poll?
    ensures Step(s, a).posters ==
            if Progress.Delivers(s, a) && s.workers[a.w].g == 0 then
              CompletePost(s.posters, a.answer.tag, a.answer.ok, a.status, a.conversion)
            else s.posters
  {
    hide Lives, Counted, NoneAllowed, Downs, StopBounds, Events, Told, ServersOk, Tasks.Inv, PopCalls, EjectCalls,
         Passes, Leavers, Notes, CompletePost;
  }

  lemma SignalsStep(s: State, a: Action, p: nat)
    requires Inv(s) && Tasks.Sized(s.tasks)
    ensures if Telling(s, a, p) then ToldRightly(SignalsOf(s, p), SignalsOf(Step(s, a), p), a)
            else SignalsOf(Step(s, a), p) == SignalsOf(s, p)
  {
    hide Inv, Step, ToldRightly;
    if IsPost(a) {
      PostTells(s, a, p);
    } else if a.Poll? {
      PollTells(s, a, p);
    } else {
      OthersKeepPosters(s, a);
    }
  }

  /** What step `k` of the run, which told post `p` something, leaves behind. */
  predicate Mark(s: State, a: Action, p: nat) {
    if a.Poll? then a.answer.Event? && Takes(s.posters, a.answer.tag, p)
    else p < |s.posters| && s.posters[p].refusalTold
  }

  lemma MarkStaysPost(s: State, a: Action, p: nat, b: Action)
    requires Inv(s) && Tasks.Sized(s.tasks) && IsPost(a) && (Mark(s, b, p) || (a == b && Telling(s, a, p)))
    ensures Mark(Step(s, a), b, p)
  {
    hide Lives, Counted, NoneAllowed, Downs, StopBounds, Shaped, Events, ServersOk, Tasks.Inv, PopCalls, EjectCalls,
         Passes, Leavers, Notes, Answered;
    if b.Poll? {
      assert Takes(s.posters, b.answer.tag, p) ==> Accepted(s.posters[b.answer.tag].pc);
    }
  }

  lemma MarkStays(s: State, a: Action, p: nat, b: Action)
    requires Inv(s) && Tasks.Sized(s.tasks) && (Mark(s, b, p) || (a == b && Telling(s, a, p)))
    ensures Mark(Step(s, a), b, p)
  {
    hide Inv, Step, CompletePost;
    if IsPost(a) {
      MarkStaysPost(s, a, p, b);
    } else if a.Poll? {
      PollIs(s, a);
      if a.answer.Event? {
        CompleteKeepsStarts(s.posters, a.answer.tag, a.answer.ok, a.status, a.conversion);
      }
    } else {
      OthersKeepPosters(s, a);
    }
  }

  /** Step `k` of the run told post `p` this signal, rightly, and its mark is still there. */
  ghost predicate TellingAt(s: State, acts: seq<Action>, p: nat, k: nat, signal: Rpc.Signal<Payload>)
    requires Tasks.Sized(s.tasks)
  {
    k < |acts| && Telling(Exec(s, acts[..k]), acts[k], p) && RightlyTold(acts[k], signal) &&
    Mark(Exec(s, acts), acts[k], p)
  }

  lemma TellingStays(s: State, acts: seq<Action>, p: nat, k: nat, signal: Rpc.Signal<Payload>)
    requires Tasks.Sized(s.tasks) && acts != [] && TellingAt(s, acts[..|acts| - 1], p, k, signal)
    requires Inv(Exec(s, acts[..|acts| - 1]))
    ensures TellingAt(s, acts, p, k, signal)
  {
    hide Inv, Telling, RightlyTold, Mark, Step;
    var m := |acts| - 1;
    assert acts[..m][..k] == acts[..k] && acts[..m][k] == acts[k];
    MarkStays(Exec(s, acts[..m]), acts[m], p, acts[k]);
  }

  /** In every run, whatever its starts do: each post's receiver has been told exactly one thing at every
      step at which it should have been told something, in the order of those steps, and rightly each
      time. */
  lemma {:induction false} SignalsAreRight(nThreads: nat, nClients: nat, acts: seq<Action>, p: nat)
    requires Sensible(nThreads, nClients)
    ensures var signals := SignalsOf(After(nThreads, nClients, acts), p);
            var tellings := Tellings(Init(nThreads, nClients), acts, p);
            && |signals| == |tellings|
            && forall j: nat :: j < |signals| ==> TellingAt(Init(nThreads, nClients), acts, p, tellings[j], signals[j])
  {
    hide Inv, Step, Telling, RightlyTold, Mark, TellingAt;
    var start := Init(nThreads, nClients);
    if acts != [] {
      var m := |acts| - 1;
      var s, tellings := After(nThreads, nClients, acts[..m]), Tellings(start, acts, p);
      var signals := SignalsOf(Step(s, acts[m]), p);
      Reached(nThreads, nClients, acts[..m]);
      SignalsAreRight(nThreads, nClients, acts[..m], p);
      SignalsStep(s, acts[m], p);
      forall j: nat | j < |signals|
        ensures TellingAt(start, acts, p, tellings[j], signals[j])
      {
        if j < |SignalsOf(s, p)| {
          TellingStays(start, acts, p, tellings[j], signals[j]);
        } else {
          LastTelling(start, acts, p, signals[j]);
        }
      }
    }
  }

  lemma LastStep(s: State, acts: seq<Action>)
    requires Tasks.Sized(s.tasks) && acts != []
    ensures Exec(s, acts) == Step(Exec(s, acts[..|acts| - 1]), acts[|acts| - 1])
  {
    hide Step;
  }

  lemma LastTelling(s: State, acts: seq<Action>, p: nat, signal: Rpc.Signal<Payload>)
    requires Tasks.Sized(s.tasks) && acts != [] && Inv(Exec(s, acts[..|acts| - 1]))
    requires Telling(Exec(s, acts[..|acts| - 1]), acts[|acts| - 1], p) && RightlyTold(acts[|acts| - 1], signal)
    ensures TellingAt(s, acts, p, |acts| - 1, signal)
  {
    hide Inv, Telling, RightlyTold, Mark, Exec;
    var m := |acts| - 1;
    MarkStays(Exec(s, acts[..m]), acts[m], p, acts[m]);
    assert Exec(s, acts) == Step(Exec(s, acts[..m]), acts[m]) by { LastStep(s, acts); }
  }

  /** An RPC whose event took its own completion has by Stopped told its receiver one thing. It is what
      the step that delivered its own tag says: the value if and only if the tag was ok, the status OK and
      the conversion a success; otherwise the status of the peer, an internal error if the conversion
      threw, or UNAVAILABLE if the tag was not ok. And gRPC had ended the operation with that flag. */
  lemma OwnCallSignalIsRight(nThreads: nat, nClients: nat, acts: seq<Action>, p: nat) returns (k: nat)
    requires Sensible(nThreads, nClients)
    requires var s := After(nThreads, nClients, acts);
             s.life.Stopped? && p < |s.posters| && Accepted(s.posters[p].pc) && s.posters[p].callee == Some(p)
    ensures k < |acts| && acts[k].Poll? && acts[k].answer.Event?
    ensures DeliversPost(After(nThreads, nClients, acts[..k]), acts[k], p)
    ensures exists i: nat :: EndOperation(0, i, p, acts[k].answer.ok) in acts[..k]
    ensures var signals := After(nThreads, nClients, acts).posters[p].signals;
            |signals| == 1 && Rpc.Right(acts[k].answer.ok, acts[k].status, acts[k].conversion, signals[0])
  {
    hide Inv, Exec, Init, Tellings, Rpc.Right;
    var start, s := Init(nThreads, nClients), After(nThreads, nClients, acts);
    Reached(nThreads, nClients, acts);
    SignalsAreRight(nThreads, nClients, acts, p);
    OwnSignals(s, p);
    k := Tellings(start, acts, p)[0];
    assert TellingAt(start, acts, p, k, s.posters[p].signals[0]);
    OnlyOwnTag(s, acts[k], p);
    DeliveredWasEnded(nThreads, nClients, acts[..k], acts[k], p);
  }

  /** An accepted post with its own completion is told something by its own tag only. */
  lemma OnlyOwnTag(s: State, a: Action, p: nat)
    requires Inv(s) && p < |s.posters| && Accepted(s.posters[p].pc) && s.posters[p].callee == Some(p) && Mark(s, a, p)
    ensures a.Poll? && a.answer.Event? && a.answer.tag == p
  {
    hide Lives, Counted, NoneAllowed, Downs, StopBounds, Shaped, Events, ServersOk, Tasks.Inv, PopCalls, EjectCalls,
         Passes, Leavers, Notes, Answered;
    assert ToldOk(s.posters, p);
    assert Takes(s.posters, p, p);
  }

  lemma DeliveredWasEnded(nThreads: nat, nClients: nat, acts: seq<Action>, a: Action, p: nat)
    requires Sensible(nThreads, nClients) && DeliversPost(After(nThreads, nClients, acts), a, p)
    ensures exists i: nat :: EndOperation(0, i, p, a.answer.ok) in acts
  {
    hide Exec, Init;
    var s := After(nThreads, nClients, acts);
    Histories.ReadyWasEnded(nThreads, nClients, acts, 0, Target(s, a.w), p, a.answer.ok);
  }
}
