/** The concurrent protocol of `AtomicTaskStealingQueue`: any number of `push`, `try_pop` and
    `stop_and_eject` calls interleave, one atomic access to shared memory at a time. Accesses are
    sequentially consistent. A thunk is named by the number of the `push` call that carries it.
    Calls are numbered in the order in which they begin. */
module QueueProtocol {
  import opened Scan
  import opened Bags

  /** Where a `push` call stands. */
  datatype PushPc =
    | PushEntered                            // has raised in_push_, has not read is_done_
    | PushSeeking                            // has read is_done_ false, takes an offset next
    | PushProbing(offset: nat, i: nat)       // tries queue (offset + i) % n_queues_ next
    | PushStored                             // has stored its thunk, has not lowered in_push_
    | PushBarred                             // has read is_done_ true, has not lowered in_push_
    | PushReturned(ok: bool)

  /** Where a `try_pop` call stands, including the caller's execution of what it got. */
  datatype PopPc =
    | PopProbing(offset: nat, i: nat)
    | PopHolding(thunk: nat)
    | PopFinished(ran: seq<nat>)

  /** Where a `stop_and_eject` call stands; once it has returned, the caller executes `got`. */
  datatype EjectPc =
    | Sweeping(i: nat, got: seq<nat>)
    | Executing(got: seq<nat>, k: nat)

  datatype State = State(
    queues: seq<seq<nat>>,                   // the deques
    inserted: seq<seq<nat>>,                 // history: all thunks ever stored, per queue
    removed: seq<seq<nat>>,                  // history: all thunks ever taken out, per queue
    done: bool,                              // is_done_
    inPush: nat,                             // in_push_
    pushIndex: nat,                          // push_index_
    popIndex: nat,                           // pop_index_
    pushers: seq<PushPc>,
    poppers: seq<PopPc>,
    ejectors: seq<EjectPc>)

  /** One atomic step of one call. `locked` is the outcome of `try_to_lock`. */
  datatype Action =
    | EnterPush
    | CheckPush(p: nat)
    | AimPush(p: nat)
    | ProbePush(p: nat, locked: bool)
    | LeavePush(p: nat)
    | EnterPop
    | ProbePop(c: nat, locked: bool)
    | RunPop(c: nat)
    | SignalDone
    | EnterEject
    | EjectQueue(e: nat)
    | TestEject(e: nat)
    | RunEject(e: nat)

  /** A step of a `push` call. */
  predicate IsPush(a: Action) {
    a.EnterPush? || a.CheckPush? || a.AimPush? || a.ProbePush? || a.LeavePush?
  }

  predicate Sized(s: State) {
    0 < |s.queues| == |s.inserted| == |s.removed|
  }

  function Init(n: nat): (s: State)
    requires n > 0
    ensures Sized(s)
  {
    State(seq(n, _ => []), seq(n, _ => []), seq(n, _ => []), false, 0, 0, 0, [], [], [])
  }

  /** `try_push` of thunk `p` on queue `q` with the lock held. */
  function Store(s: State, q: nat, p: nat): (t: State)
    requires Sized(s) && q < |s.queues|
    ensures Sized(t)
  {
    s.(queues := s.queues[q := s.queues[q] + [p]],
       inserted := s.inserted[q := s.inserted[q] + [p]])
  }

  /** Take the first `k` thunks out of queue `q`. */
  function TakeOut(s: State, q: nat, k: nat): (t: State)
    requires Sized(s) && q < |s.queues| && k <= |s.queues[q]|
    ensures Sized(t)
  {
    s.(queues := s.queues[q := s.queues[q][k..]],
       removed := s.removed[q := s.removed[q] + s.queues[q][..k]])
  }

  // Each step of a call that is not at the right point changes nothing.

  function PushEnter(s: State): State {
    s.(inPush := s.inPush + 1, pushers := s.pushers + [PushEntered])
  }

  function PushCheck(s: State, p: nat): State {
    if p < |s.pushers| && s.pushers[p].PushEntered? then
      s.(pushers := s.pushers[p := if s.done then PushBarred else PushSeeking])
    else s
  }

  function PushAim(s: State, p: nat): State {
    if p < |s.pushers| && s.pushers[p].PushSeeking? then
      s.(pushers := s.pushers[p := PushProbing(s.pushIndex, 0)], pushIndex := Next(s.pushIndex))
    else s
  }

  function PushProbe(s: State, p: nat, locked: bool): State
    requires Sized(s)
  {
    if p < |s.pushers| && s.pushers[p].PushProbing? then
      var PushProbing(offset, i) := s.pushers[p];
      if locked then
        Store(s, Probe(offset, i, |s.queues|), p).(pushers := s.pushers[p := PushStored])
      else
        s.(pushers := s.pushers[p := if i + 1 < |s.queues| then PushProbing(offset, i + 1) else PushSeeking])
    else s
  }

  function PushLeave(s: State, p: nat): State {
    if p < |s.pushers| && (s.pushers[p].PushStored? || s.pushers[p].PushBarred?) && s.inPush > 0 then
      s.(pushers := s.pushers[p := PushReturned(s.pushers[p].PushStored?)], inPush := s.inPush - 1)
    else s
  }

  function PopEnter(s: State): State {
    s.(poppers := s.poppers + [PopProbing(s.popIndex, 0)], popIndex := Next(s.popIndex))
  }

  function PopProbe(s: State, c: nat, locked: bool): State
    requires Sized(s)
  {
    if c < |s.poppers| && s.poppers[c].PopProbing? then
      var PopProbing(offset, i) := s.poppers[c];
      var q := Probe(offset, i, |s.queues|);
      if locked && s.queues[q] != [] then
        TakeOut(s, q, 1).(poppers := s.poppers[c := PopHolding(s.queues[q][0])])
      else
        s.(poppers := s.poppers[c := if i + 1 < |s.queues| then PopProbing(offset, i + 1) else PopFinished([])])
    else s
  }

  function PopRun(s: State, c: nat): State {
    if c < |s.poppers| && s.poppers[c].PopHolding? then
      s.(poppers := s.poppers[c := PopFinished([s.poppers[c].thunk])])
    else s
  }

  function EjectEnter(s: State): State {
    s.(done := true, ejectors := s.ejectors + [Sweeping(0, [])])
  }

  function EjectOne(s: State, e: nat): State
    requires Sized(s)
  {
    if e < |s.ejectors| && s.ejectors[e].Sweeping? && s.ejectors[e].i < |s.queues| then
      var Sweeping(i, got) := s.ejectors[e];
      TakeOut(s, i, |s.queues[i]|).(ejectors := s.ejectors[e := Sweeping(i + 1, got + s.queues[i])])
    else s
  }

  function EjectTest(s: State, e: nat): State {
    if e < |s.ejectors| && s.ejectors[e].Sweeping? && s.ejectors[e].i == |s.queues| then
      var got := s.ejectors[e].got;
      s.(ejectors := s.ejectors[e := if s.inPush > 0 then Sweeping(0, got) else Executing(got, 0)])
    else s
  }

  function EjectRun(s: State, e: nat): State {
    if e < |s.ejectors| && s.ejectors[e].Executing? && s.ejectors[e].k < |s.ejectors[e].got| then
      s.(ejectors := s.ejectors[e := Executing(s.ejectors[e].got, s.ejectors[e].k + 1)])
    else s
  }

  /** One step of the system. */
  function Step(s: State, a: Action): (t: State)
    requires Sized(s)
    ensures Sized(t) && |t.queues| == |s.queues|
  {
    match a
    case EnterPush => PushEnter(s)
    case CheckPush(p) => PushCheck(s, p)
    case AimPush(p) => PushAim(s, p)
    case ProbePush(p, locked) => PushProbe(s, p, locked)
    case LeavePush(p) => PushLeave(s, p)
    case EnterPop => PopEnter(s)
    case ProbePop(c, locked) => PopProbe(s, c, locked)
    case RunPop(c) => PopRun(s, c)
    case SignalDone => s.(done := true)
    case EnterEject => EjectEnter(s)
    case EjectQueue(e) => EjectOne(s, e)
    case TestEject(e) => EjectTest(s, e)
    case RunEject(e) => EjectRun(s, e)
  }

  /** The state after a run. Every interleaving is such a run. */
  function Exec(s: State, acts: seq<Action>): (t: State)
    requires Sized(s)
    ensures Sized(t) && |t.queues| == |s.queues|
  {
    if acts == [] then s else Step(Exec(s, acts[..|acts| - 1]), acts[|acts| - 1])
  }

  // ---------------------------------------------------------------- what the calls hold

  /** The call has read `is_done_` false, so its thunk is accepted and already stored. */
  predicate Accepted(pc: PushPc) { pc == PushStored || pc == PushReturned(true) }

  /** Inside the `in_push_` bracket. */
  predicate Bracketed(pc: PushPc) { !pc.PushReturned? }

  /** Has read `is_done_` false but has not stored its thunk yet. */
  predicate Seeking(pc: PushPc) { pc.PushSeeking? || pc.PushProbing? }

  ghost function AcceptedSet(pushers: seq<PushPc>): set<nat> {
    set p: nat | p < |pushers| && Accepted(pushers[p])
  }

  ghost function BracketSet(pushers: seq<PushPc>): set<nat> {
    set p: nat | p < |pushers| && Bracketed(pushers[p])
  }

  function PopBag(pc: PopPc): multiset<nat> {
    match pc
    case PopProbing(_, _) => multiset{}
    case PopHolding(x) => multiset{x}
    case PopFinished(ran) => multiset(ran)
  }

  function EjectBag(pc: EjectPc): multiset<nat> { multiset(pc.got) }

  function PopRanBag(pc: PopPc): multiset<nat> {
    if pc.PopFinished? then multiset(pc.ran) else multiset{}
  }

  function EjectRanBag(pc: EjectPc): multiset<nat> {
    if pc.Executing? && pc.k <= |pc.got| then multiset(pc.got[..pc.k]) else multiset{}
  }

  function QueueBags(queues: seq<seq<nat>>): seq<multiset<nat>> {
    seq(|queues|, q requires 0 <= q < |queues| => multiset(queues[q]))
  }

  function PopBags(poppers: seq<PopPc>): seq<multiset<nat>> {
    seq(|poppers|, c requires 0 <= c < |poppers| => PopBag(poppers[c]))
  }

  function EjectBags(ejectors: seq<EjectPc>): seq<multiset<nat>> {
    seq(|ejectors|, e requires 0 <= e < |ejectors| => EjectBag(ejectors[e]))
  }

  function PopRanBags(poppers: seq<PopPc>): seq<multiset<nat>> {
    seq(|poppers|, c requires 0 <= c < |poppers| => PopRanBag(poppers[c]))
  }

  function EjectRanBags(ejectors: seq<EjectPc>): seq<multiset<nat>> {
    seq(|ejectors|, e requires 0 <= e < |ejectors| => EjectRanBag(ejectors[e]))
  }

  /** Every thunk that is queued, or was popped, or was ejected, as often as it is. */
  ghost function Held(queues: seq<seq<nat>>, poppers: seq<PopPc>, ejectors: seq<EjectPc>): multiset<nat> {
    Total(QueueBags(queues)) + Total(PopBags(poppers)) + Total(EjectBags(ejectors))
  }

  /** Every thunk that some caller has begun to execute, as often as it did. */
  ghost function Ran(poppers: seq<PopPc>, ejectors: seq<EjectPc>): multiset<nat> {
    Total(PopRanBags(poppers)) + Total(EjectRanBags(ejectors))
  }

  // ---------------------------------------------------------------- the invariant

  /** Per queue, what went out followed by what is in is what came in. */
  ghost predicate Ordered(queues: seq<seq<nat>>, inserted: seq<seq<nat>>, removed: seq<seq<nat>>) {
    && |queues| == |inserted| == |removed|
    && forall q :: 0 <= q < |queues| ==> inserted[q] == removed[q] + queues[q]
  }

  /** `in_push_` counts the calls inside the bracket. */
  ghost predicate Counted(inPush: nat, pushers: seq<PushPc>) {
    inPush == |BracketSet(pushers)|
  }

  /** Each accepted thunk is in exactly one place and no other thunk is anywhere. */
  ghost predicate Conserved(queues: seq<seq<nat>>, poppers: seq<PopPc>, ejectors: seq<EjectPc>, pushers: seq<PushPc>) {
    Held(queues, poppers, ejectors) == multiset(AcceptedSet(pushers))
  }

  /** Each accepted thunk was stored exactly once, on one queue, and no other thunk was. */
  ghost predicate StoredOnce(inserted: seq<seq<nat>>, pushers: seq<PushPc>) {
    Total(QueueBags(inserted)) == multiset(AcceptedSet(pushers))
  }

  ghost predicate PushBounds(n: nat, pushers: seq<PushPc>) {
    forall p :: 0 <= p < |pushers| && pushers[p].PushProbing? ==> pushers[p].i < n
  }

  ghost predicate PopBounds(n: nat, poppers: seq<PopPc>) {
    forall c :: 0 <= c < |poppers| && poppers[c].PopProbing? ==> poppers[c].i < n
  }

  ghost predicate EjectBounds(n: nat, ejectors: seq<EjectPc>) {
    forall e :: 0 <= e < |ejectors| ==>
      match ejectors[e]
      case Sweeping(i, _) => i <= n
      case Executing(got, k) => k <= |got|
  }

  ghost predicate Inv(s: State) {
    && Sized(s)
    && Ordered(s.queues, s.inserted, s.removed)
    && Counted(s.inPush, s.pushers)
    && Conserved(s.queues, s.poppers, s.ejectors, s.pushers)
    && StoredOnce(s.inserted, s.pushers)
    && PushBounds(|s.queues|, s.pushers)
    && PopBounds(|s.queues|, s.poppers)
    && EjectBounds(|s.queues|, s.ejectors)
    && (s.ejectors != [] ==> s.done)
  }

  // ---------------------------------------------------------------- bookkeeping

  /** Queue `q` gets `xs` at its end. */
  lemma QueueBagsGrow(queues: seq<seq<nat>>, q: nat, xs: seq<nat>)
    requires q < |queues|
    ensures Total(QueueBags(queues[q := queues[q] + xs])) == Total(QueueBags(queues)) + multiset(xs)
  {
    assert QueueBags(queues[q := queues[q] + xs]) == QueueBags(queues)[q := multiset(queues[q]) + multiset(xs)];
    TotalGrow(QueueBags(queues), q, multiset(xs));
  }

  /** Queue `q` loses its first `k` thunks. */
  lemma QueueBagsShrink(queues: seq<seq<nat>>, q: nat, k: nat)
    requires q < |queues| && k <= |queues[q]|
    ensures Total(QueueBags(queues[q := queues[q][k..]])) + multiset(queues[q][..k]) == Total(QueueBags(queues))
  {
    assert queues[q] == queues[q][..k] + queues[q][k..];
    assert QueueBags(queues[q := queues[q][k..]]) == QueueBags(queues)[q := multiset(queues[q][k..])];
    TotalShrink(QueueBags(queues), q, multiset(queues[q][k..]), multiset(queues[q][..k]));
  }

  lemma PopBagsGrow(poppers: seq<PopPc>, c: nat, pc: PopPc, extra: multiset<nat>)
    requires c < |poppers| && PopBag(pc) == PopBag(poppers[c]) + extra
    ensures Total(PopBags(poppers[c := pc])) == Total(PopBags(poppers)) + extra
  {
    assert PopBags(poppers[c := pc]) == PopBags(poppers)[c := PopBag(poppers[c]) + extra];
    TotalGrow(PopBags(poppers), c, extra);
  }

  lemma PopBagsAppend(poppers: seq<PopPc>, pc: PopPc)
    ensures Total(PopBags(poppers + [pc])) == Total(PopBags(poppers)) + PopBag(pc)
  {
    assert PopBags(poppers + [pc]) == PopBags(poppers) + [PopBag(pc)];
    TotalAppend(PopBags(poppers), PopBag(pc));
  }

  lemma EjectBagsGrow(ejectors: seq<EjectPc>, e: nat, pc: EjectPc, extra: multiset<nat>)
    requires e < |ejectors| && EjectBag(pc) == EjectBag(ejectors[e]) + extra
    ensures Total(EjectBags(ejectors[e := pc])) == Total(EjectBags(ejectors)) + extra
  {
    assert EjectBags(ejectors[e := pc]) == EjectBags(ejectors)[e := EjectBag(ejectors[e]) + extra];
    TotalGrow(EjectBags(ejectors), e, extra);
  }

  lemma EjectBagsAppend(ejectors: seq<EjectPc>, pc: EjectPc)
    ensures Total(EjectBags(ejectors + [pc])) == Total(EjectBags(ejectors)) + EjectBag(pc)
  {
    assert EjectBags(ejectors + [pc]) == EjectBags(ejectors) + [EjectBag(pc)];
    TotalAppend(EjectBags(ejectors), EjectBag(pc));
  }

  lemma AcceptedUpdate(pushers: seq<PushPc>, p: nat, pc: PushPc)
    requires p < |pushers| && (Accepted(pushers[p]) ==> Accepted(pc))
    ensures multiset(AcceptedSet(pushers[p := pc])) ==
            multiset(AcceptedSet(pushers)) +
            (if Accepted(pc) && !Accepted(pushers[p]) then multiset{p} else multiset{})
  {
    if Accepted(pc) && !Accepted(pushers[p]) {
      assert AcceptedSet(pushers[p := pc]) == AcceptedSet(pushers) + {p};
    } else {
      assert AcceptedSet(pushers[p := pc]) == AcceptedSet(pushers);
    }
  }

  lemma BracketUpdate(pushers: seq<PushPc>, p: nat, pc: PushPc)
    requires p < |pushers| && Bracketed(pushers[p])
    ensures |BracketSet(pushers[p := pc])| == |BracketSet(pushers)| - (if Bracketed(pc) then 0 else 1)
  {
    if Bracketed(pc) {
      assert BracketSet(pushers[p := pc]) == BracketSet(pushers);
    } else {
      assert BracketSet(pushers[p := pc]) == BracketSet(pushers) - {p};
      assert p in BracketSet(pushers);
    }
  }

  // ---------------------------------------------------------------- every step keeps the invariant

  /** A push step that stores nothing moves one call between two states that are not accepted, or
      between two that are. */
  lemma PushMoveKeepsInv(s: State, p: nat, pc: PushPc, pushIndex: nat)
    requires Inv(s) && p < |s.pushers| && Bracketed(s.pushers[p]) && Bracketed(pc)
    requires Accepted(s.pushers[p]) <==> Accepted(pc)
    requires pc.PushProbing? ==> pc.i < |s.queues|
    ensures Inv(s.(pushers := s.pushers[p := pc], pushIndex := pushIndex))
  {
    AcceptedUpdate(s.pushers, p, pc);
    BracketUpdate(s.pushers, p, pc);
  }

  lemma PushEnterKeepsInv(s: State)
    requires Inv(s)
    ensures Inv(PushEnter(s))
  {
    var pushers := s.pushers + [PushEntered];
    assert AcceptedSet(pushers) == AcceptedSet(s.pushers);
    assert BracketSet(pushers) == BracketSet(s.pushers) + {|s.pushers|};
  }

  lemma PushLeaveKeepsInv(s: State, p: nat)
    requires Inv(s)
    ensures Inv(PushLeave(s, p))
  {
    if PushLeave(s, p) != s {
      var pc := PushReturned(s.pushers[p].PushStored?);
      AcceptedUpdate(s.pushers, p, pc);
      BracketUpdate(s.pushers, p, pc);
    }
  }

  lemma StoreKeepsOrder(s: State, p: nat, q: nat)
    requires Sized(s) && Ordered(s.queues, s.inserted, s.removed) && q < |s.queues|
    ensures Ordered(Store(s, q, p).queues, Store(s, q, p).inserted, Store(s, q, p).removed)
  {
  }

  /** The stored thunk becomes accepted and is now held by its queue. */
  lemma StoreConserves(queues: seq<seq<nat>>, poppers: seq<PopPc>, ejectors: seq<EjectPc>, pushers: seq<PushPc>,
                       p: nat, q: nat)
    requires Conserved(queues, poppers, ejectors, pushers)
    requires p < |pushers| && Seeking(pushers[p]) && q < |queues|
    ensures Conserved(queues[q := queues[q] + [p]], poppers, ejectors, pushers[p := PushStored])
  {
    AcceptedUpdate(pushers, p, PushStored);
    QueueBagsGrow(queues, q, [p]);
  }

  lemma StoreIsRecorded(inserted: seq<seq<nat>>, pushers: seq<PushPc>, p: nat, q: nat)
    requires StoredOnce(inserted, pushers) && p < |pushers| && Seeking(pushers[p]) && q < |inserted|
    ensures StoredOnce(inserted[q := inserted[q] + [p]], pushers[p := PushStored])
  {
    AcceptedUpdate(pushers, p, PushStored);
    QueueBagsGrow(inserted, q, [p]);
  }

  lemma StoreKeepsInv(s: State, p: nat, q: nat)
    requires Inv(s) && p < |s.pushers| && Seeking(s.pushers[p]) && q < |s.queues|
    ensures Inv(Store(s, q, p).(pushers := s.pushers[p := PushStored]))
  {
    StoreConserves(s.queues, s.poppers, s.ejectors, s.pushers, p, q);
    StoreKeepsOrder(s, p, q);
    StoreIsRecorded(s.inserted, s.pushers, p, q);
    BracketUpdate(s.pushers, p, PushStored);
  }

  lemma PushProbeKeepsInv(s: State, p: nat, locked: bool)
    requires Inv(s)
    ensures Inv(PushProbe(s, p, locked))
  {
    hide Probe, Ordered, Counted, Conserved, StoredOnce, PopBounds, EjectBounds;
    if p < |s.pushers| && s.pushers[p].PushProbing? {
      var PushProbing(offset, i) := s.pushers[p];
      if locked {
        StoreKeepsInv(s, p, Probe(offset, i, |s.queues|));
      } else {
        PushMoveKeepsInv(s, p, if i + 1 < |s.queues| then PushProbing(offset, i + 1) else PushSeeking, s.pushIndex);
      }
    }
  }

  lemma TakeOutKeepsOrder(s: State, q: nat, k: nat)
    requires Inv(s) && q < |s.queues| && k <= |s.queues[q]|
    ensures var t := TakeOut(s, q, k);
            && Ordered(t.queues, t.inserted, t.removed)
            && Total(QueueBags(t.queues)) + multiset(s.queues[q][..k]) == Total(QueueBags(s.queues))
  {
    QueueBagsShrink(s.queues, q, k);
  }

  lemma PopEnterConserves(queues: seq<seq<nat>>, poppers: seq<PopPc>, ejectors: seq<EjectPc>, pushers: seq<PushPc>,
                          pc: PopPc)
    requires Conserved(queues, poppers, ejectors, pushers) && PopBag(pc) == multiset{}
    ensures Conserved(queues, poppers + [pc], ejectors, pushers)
  {
    PopBagsAppend(poppers, pc);
  }

  lemma PopEnterKeepsInv(s: State)
    requires Inv(s)
    ensures Inv(PopEnter(s))
  {
    hide Ordered, Counted, Conserved, StoredOnce, PushBounds, EjectBounds;
    PopEnterConserves(s.queues, s.poppers, s.ejectors, s.pushers, PopProbing(s.popIndex, 0));
  }

  /** A pop step that takes nothing out of a queue. */
  lemma PopMoveKeepsInv(s: State, c: nat, pc: PopPc)
    requires Inv(s) && c < |s.poppers| && PopBag(pc) == PopBag(s.poppers[c])
    requires pc.PopProbing? ==> pc.i < |s.queues|
    ensures Inv(s.(poppers := s.poppers[c := pc]))
  {
    PopBagsGrow(s.poppers, c, pc, multiset{});
  }

  /** The popped thunk leaves its queue for the call that popped it. */
  lemma PopTakeConserves(queues: seq<seq<nat>>, poppers: seq<PopPc>, ejectors: seq<EjectPc>, pushers: seq<PushPc>,
                         c: nat, q: nat)
    requires Conserved(queues, poppers, ejectors, pushers)
    requires c < |poppers| && poppers[c].PopProbing? && q < |queues| && queues[q] != []
    ensures Conserved(queues[q := queues[q][1..]], poppers[c := PopHolding(queues[q][0])], ejectors, pushers)
  {
    var x := queues[q][0];
    QueueBagsShrink(queues, q, 1);
    PopBagsGrow(poppers, c, PopHolding(x), multiset{x});
    assert queues[q][..1] == [x];
    Shift(Total(QueueBags(queues[q := queues[q][1..]])), Total(QueueBags(queues)),
          Total(PopBags(poppers)), Total(EjectBags(ejectors)), multiset{x});
  }

  lemma PopTakeKeepsInv(s: State, c: nat, q: nat)
    requires Inv(s) && c < |s.poppers| && s.poppers[c].PopProbing? && q < |s.queues| && s.queues[q] != []
    ensures Inv(TakeOut(s, q, 1).(poppers := s.poppers[c := PopHolding(s.queues[q][0])]))
  {
    PopTakeConserves(s.queues, s.poppers, s.ejectors, s.pushers, c, q);
    TakeOutKeepsOrder(s, q, 1);
  }

  lemma PopProbeKeepsInv(s: State, c: nat, locked: bool)
    requires Inv(s)
    ensures Inv(PopProbe(s, c, locked))
  {
    hide Probe, Ordered, Counted, Conserved, StoredOnce, PushBounds, EjectBounds;
    if c < |s.poppers| && s.poppers[c].PopProbing? {
      var PopProbing(offset, i) := s.poppers[c];
      var q := Probe(offset, i, |s.queues|);
      if locked && s.queues[q] != [] {
        PopTakeKeepsInv(s, c, q);
      } else {
        PopMoveKeepsInv(s, c, if i + 1 < |s.queues| then PopProbing(offset, i + 1) else PopFinished([]));
      }
    }
  }

  lemma PopRunKeepsInv(s: State, c: nat)
    requires Inv(s)
    ensures Inv(PopRun(s, c))
  {
    if c < |s.poppers| && s.poppers[c].PopHolding? {
      PopMoveKeepsInv(s, c, PopFinished([s.poppers[c].thunk]));
    }
  }

  lemma EjectEnterConserves(queues: seq<seq<nat>>, poppers: seq<PopPc>, ejectors: seq<EjectPc>, pushers: seq<PushPc>,
                            pc: EjectPc)
    requires Conserved(queues, poppers, ejectors, pushers) && pc.got == []
    ensures Conserved(queues, poppers, ejectors + [pc], pushers)
  {
    EjectBagsAppend(ejectors, pc);
  }

  lemma EjectEnterKeepsInv(s: State)
    requires Inv(s)
    ensures Inv(EjectEnter(s))
  {
    EjectEnterConserves(s.queues, s.poppers, s.ejectors, s.pushers, Sweeping(0, []));
  }

  /** An eject step that takes nothing out of a queue. */
  lemma EjectMoveKeepsInv(s: State, e: nat, pc: EjectPc)
    requires Inv(s) && e < |s.ejectors| && pc.got == s.ejectors[e].got
    requires match pc case Sweeping(i, _) => i <= |s.queues| case Executing(got, k) => k <= |got|
    ensures Inv(s.(ejectors := s.ejectors[e := pc]))
  {
    EjectBagsGrow(s.ejectors, e, pc, multiset{});
  }

  lemma EjectOneKeepsInv(s: State, e: nat)
    requires Inv(s)
    ensures Inv(EjectOne(s, e))
  {
    hide Counted, Conserved, StoredOnce, PushBounds, PopBounds;
    if e < |s.ejectors| && s.ejectors[e].Sweeping? && s.ejectors[e].i < |s.queues| {
      TakeOutKeepsOrder(s, s.ejectors[e].i, |s.queues[s.ejectors[e].i]|);
      SweepConserves(s.queues, s.poppers, s.ejectors, s.pushers, e);
    }
  }

  /** The contents of the next queue leave it for the call that sweeps it. */
  lemma SweepConserves(queues: seq<seq<nat>>, poppers: seq<PopPc>, ejectors: seq<EjectPc>, pushers: seq<PushPc>, e: nat)
    requires Conserved(queues, poppers, ejectors, pushers)
    requires e < |ejectors| && ejectors[e].Sweeping? && ejectors[e].i < |queues|
    ensures var Sweeping(i, got) := ejectors[e];
            Conserved(queues[i := queues[i][|queues[i]|..]], poppers, ejectors[e := Sweeping(i + 1, got + queues[i])],
                      pushers)
  {
    var Sweeping(i, got) := ejectors[e];
    assert queues[i][..|queues[i]|] == queues[i];
    QueueBagsShrink(queues, i, |queues[i]|);
    EjectBagsGrow(ejectors, e, Sweeping(i + 1, got + queues[i]), multiset(queues[i]));
    Shift(Total(QueueBags(queues[i := queues[i][|queues[i]|..]])), Total(QueueBags(queues)),
          Total(PopBags(poppers)), Total(EjectBags(ejectors)), multiset(queues[i]));
  }

  lemma EjectTestKeepsInv(s: State, e: nat)
    requires Inv(s)
    ensures Inv(EjectTest(s, e))
  {
    if e < |s.ejectors| && s.ejectors[e].Sweeping? && s.ejectors[e].i == |s.queues| {
      var got := s.ejectors[e].got;
      EjectMoveKeepsInv(s, e, if s.inPush > 0 then Sweeping(0, got) else Executing(got, 0));
    }
  }

  lemma EjectRunKeepsInv(s: State, e: nat)
    requires Inv(s)
    ensures Inv(EjectRun(s, e))
  {
    if e < |s.ejectors| && s.ejectors[e].Executing? && s.ejectors[e].k < |s.ejectors[e].got| {
      EjectMoveKeepsInv(s, e, Executing(s.ejectors[e].got, s.ejectors[e].k + 1));
    }
  }

  lemma StepKeepsInv(s: State, a: Action)
    requires Inv(s)
    ensures Inv(Step(s, a))
  {
    hide Ordered, Counted, Conserved, StoredOnce, PushBounds, PopBounds, EjectBounds;
    hide PushEnter, PushProbe, PushLeave, PopEnter, PopProbe, PopRun, EjectEnter, EjectOne, EjectTest, EjectRun;
    match a
    case EnterPush => PushEnterKeepsInv(s);
    case CheckPush(p) =>
      if p < |s.pushers| && s.pushers[p].PushEntered? {
        PushMoveKeepsInv(s, p, if s.done then PushBarred else PushSeeking, s.pushIndex);
      }
    case AimPush(p) =>
      if p < |s.pushers| && s.pushers[p].PushSeeking? {
        PushMoveKeepsInv(s, p, PushProbing(s.pushIndex, 0), Next(s.pushIndex));
      }
    case ProbePush(p, locked) => PushProbeKeepsInv(s, p, locked);
    case LeavePush(p) => PushLeaveKeepsInv(s, p);
    case EnterPop => PopEnterKeepsInv(s);
    case ProbePop(c, locked) => PopProbeKeepsInv(s, c, locked);
    case RunPop(c) => PopRunKeepsInv(s, c);
    case SignalDone =>
    case EnterEject => EjectEnterKeepsInv(s);
    case EjectQueue(e) => EjectOneKeepsInv(s, e);
    case TestEject(e) => EjectTestKeepsInv(s, e);
    case RunEject(e) => EjectRunKeepsInv(s, e);
  }

  lemma InvSized(s: State)
    requires Inv(s)
    ensures Sized(s)
  {
  }

  lemma {:induction false} EmptyTotal(n: nat)
    ensures Total(QueueBags(seq(n, _ => []))) == multiset{}
  {
    if n > 0 {
      EmptyTotal(n - 1);
      assert QueueBags(seq(n, _ => []))[1..] == QueueBags(seq(n - 1, _ => []));
    }
  }

  lemma InitInv(n: nat)
    requires n > 0
    ensures Inv(Init(n))
  {
    EmptyTotal(n);
    assert AcceptedSet([]) == {} && BracketSet([]) == {};
  }

  lemma {:induction false} ExecKeepsInv(s: State, acts: seq<Action>)
    requires Inv(s)
    ensures Inv(Exec(s, acts))
  {
    if acts != [] {
      ExecKeepsInv(s, acts[..|acts| - 1]);
      StepKeepsInv(Exec(s, acts[..|acts| - 1]), acts[|acts| - 1]);
    }
  }
}
