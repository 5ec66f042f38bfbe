/** How often the receivers of starts that share one `CallData` are told something: once by every call
    that holds their start's completion, and once by the refusal of their own start. */
module SharedSignals {
  import opened Options
  import opened SharedCall

  /** Each start binds once, and after that is created once or refused once. */
  predicate Lawful(events: seq<Event>) {
    events == [] ||
    (var before, last := events[..|events| - 1], events[|events| - 1];
     && Lawful(before)
     && if last.Bind? then last !in before
        else Bind(last.s) in before && Create(last.s) !in before && Refuse(last.s) !in before)
  }

  /** Every start that has begun has been created or refused. */
  ghost predicate Ended(events: seq<Event>) {
    forall s: nat :: Bind(s) in events ==> Create(s) in events || Refuse(s) in events
  }

  function Ran(events: seq<Event>): Shared<()> { Exec(Fresh(()), events) }

  /** The calls that answer to start `s`. */
  ghost function CallsTo(events: seq<Event>, s: nat): set<nat> {
    set r | r in Ran(events).calls && Ran(events).calls[r] == Some(s)
  }

  /** How often the receiver of start `s` is told something once every call has been answered. */
  ghost function TimesTold(events: seq<Event>, s: nat): nat {
    |CallsTo(events, s)| + if Refuse(s) in events then 1 else 0
  }

  // ---------------------------------------------------------------- where the completions are

  /** A completion is in the shared object or in one call; only begun starts have one; and as soon as
      some call is not its own, the completion of some created start is gone. */
  ghost predicate Ledger(d: Shared<()>, events: seq<Event>) {
    && (forall r: nat :: r in d.calls <==> Create(r) in events)
    && (d.completion.Some? ==>
          Bind(d.completion.value) in events && forall r: nat :: r in d.calls ==> d.calls[r] != d.completion)
    && (forall r: nat :: r in d.calls && d.calls[r].Some? ==> Bind(d.calls[r].value) in events)
    && (forall r: nat, q: nat :: r in d.calls && q in d.calls && r != q && d.calls[r].Some? ==>
        d.calls[r] != d.calls[q])
    && ((exists r: nat :: r in d.calls && d.calls[r] != Some(r)) ==> exists p: nat :: Gone(d, p))
  }

  /** Start `p` has its call, but nobody holds its completion. */
  predicate Gone(d: Shared<()>, p: nat) {
    p in d.calls && d.completion != Some(p) && forall r <- d.calls :: d.calls[r] != Some(p)
  }

  lemma LedgerStep(d: Shared<()>, events: seq<Event>, e: Event)
    requires Ledger(d, events) && Lawful(events + [e])
    ensures Ledger(Step(d, e), events + [e])
  {
    var t := Step(d, e);
    assert (events + [e])[..|events|] == events;
    if p: nat :| Gone(d, p) {
      assert Bind(p) in events by { CreatedIsBound(events, p); }
      assert Gone(t, p);
    } else if e.Create? && t.calls[e.s] != Some(e.s) {
      assert Gone(t, e.s);
    }
  }

  lemma {:induction false} CreatedIsBound(events: seq<Event>, s: nat)
    requires Lawful(events) && (Create(s) in events || Refuse(s) in events)
    ensures Bind(s) in events
  {
    var before, last := events[..|events| - 1], events[|events| - 1];
    if last != Create(s) && last != Refuse(s) {
      assert Create(s) in before || Refuse(s) in before;
      CreatedIsBound(before, s);
    }
  }

  lemma {:induction false} LedgerHolds(events: seq<Event>)
    requires Lawful(events)
    ensures Ledger(Ran(events), events)
  {
    if events != [] {
      var before, last := events[..|events| - 1], events[|events| - 1];
      LedgerHolds(before);
      assert before + [last] == events;
      LedgerStep(Ran(before), before, last);
    }
  }

  // ---------------------------------------------------------------- what a call holds

  /** A call keeps the completion it took. */
  lemma {:induction false} CallKept(events: seq<Event>, k: nat, s: nat)
    requires Lawful(events) && k < |events| && events[k] == Create(s)
    ensures s in Ran(events).calls && Ran(events).calls[s] == Ran(events[..k]).completion
  {
    var m := |events| - 1;
    if k < m {
      assert events[..m][..k] == events[..k] && Create(s) in events[..m];
      CallKept(events[..m], k, s);
    }
  }

  /** The call of a start holds the completion of that start whose bind was the last step to touch the
      shared object before the call was created. */
  lemma HoldsLastBind(events: seq<Event>, k: nat, s: nat, p: nat)
    requires Lawful(events) && k < |events| && events[k] == Create(s)
    ensures s in Ran(events).calls && (Ran(events).calls[s] == Some(p) <==> BoundLast(events, k, p))
  {
    CallKept(events, k, s);
    SlotIsLastBind((), events, k, p);
  }

  /** Some call has taken the completion of start `p`. */
  ghost predicate Taken(events: seq<Event>, p: nat) {
    exists k: nat :: k < |events| && events[k].Create? && BoundLast(events, k, p)
  }

  /** No start has bound or created a call between the bind of a created start and its call. */
  ghost predicate AllOwn(events: seq<Event>) {
    forall k: nat :: k < |events| && events[k].Create? ==> BoundLast(events, k, events[k].s)
  }

  /** No call has taken the completion of a start that was refused. */
  ghost predicate NoRefusedTaken(events: seq<Event>) {
    forall p: nat :: Refuse(p) in events ==> !Taken(events, p)
  }

  lemma TakenIsHeld(events: seq<Event>, p: nat)
    requires Lawful(events)
    ensures Taken(events, p) <==> CallsTo(events, p) != {}
  {
    LedgerHolds(events);
    if Taken(events, p) {
      var k: nat :| k < |events| && events[k].Create? && BoundLast(events, k, p);
      HoldsLastBind(events, k, events[k].s, p);
      assert events[k].s in CallsTo(events, p);
    }
    if CallsTo(events, p) != {} {
      var r :| r in CallsTo(events, p);
      assert Create(r) in events;
      var k: nat :| k < |events| && events[k] == Create(r);
      HoldsLastBind(events, k, r, p);
    }
  }

  lemma AtMostOneCall(events: seq<Event>, p: nat)
    requires Lawful(events)
    ensures |CallsTo(events, p)| <= 1
  {
    LedgerHolds(events);
    if r :| r in CallsTo(events, p) {
      assert CallsTo(events, p) == {r};
    }
  }

  // ---------------------------------------------------------------- how often each is told

  /** Over every sequence of events: a start's receiver is told once if some call took its completion,
      its own call or another, and once more if the start was refused. */
  lemma TimesToldIs(events: seq<Event>, s: nat)
    requires Lawful(events)
    ensures TimesTold(events, s) == (if Taken(events, s) then 1 else 0) + (if Refuse(s) in events then 1 else 0)
  {
    TakenIsHeld(events, s);
    AtMostOneCall(events, s);
    if Taken(events, s) {
      assert |CallsTo(events, s)| > 0;
    }
  }

  /** No receiver is told twice if and only if no call took the completion of a refused start. */
  lemma ToldAtMostOnceIff(events: seq<Event>)
    requires Lawful(events)
    ensures (forall s: nat :: TimesTold(events, s) <= 1) <==> NoRefusedTaken(events)
  {
    forall s: nat
      ensures TimesTold(events, s) <= 1 <==> !(Taken(events, s) && Refuse(s) in events)
    {
      TimesToldIs(events, s);
    }
  }

  lemma OwnIsHeld(events: seq<Event>)
    requires Lawful(events)
    ensures AllOwn(events) <==> forall r: nat :: r in Ran(events).calls ==> Ran(events).calls[r] == Some(r)
  {
    LedgerHolds(events);
    var d := Ran(events);
    forall k: nat | k < |events| && events[k].Create?
      ensures events[k].s in d.calls && (d.calls[events[k].s] == Some(events[k].s) <==>
                                         BoundLast(events, k, events[k].s))
    {
      HoldsLastBind(events, k, events[k].s, events[k].s);
    }
    forall r: nat | r in d.calls
      ensures exists k: nat :: k < |events| && events[k] == Create(r)
    {
      assert Create(r) in events;
    }
  }

  /** When every start has been created or refused: each receiver is told exactly once if and only if
      no start came between the bind and the call of another. */
  lemma ToldExactlyOnceIff(events: seq<Event>)
    requires Lawful(events) && Ended(events)
    ensures (forall s: nat :: Bind(s) in events ==> TimesTold(events, s) == 1) <==> AllOwn(events)
  {
    LedgerHolds(events);
    OwnIsHeld(events);
    if AllOwn(events) {
      forall s: nat | Bind(s) in events
        ensures TimesTold(events, s) == 1
      {
        OwnToldOnce(events, s);
      }
    } else {
      var p: nat :| Gone(Ran(events), p);
      GoneIsNotTold(events, p);
    }
  }

  lemma OwnToldOnce(events: seq<Event>, s: nat)
    requires Lawful(events) && (Create(s) in events || Refuse(s) in events)
    requires forall r: nat :: r in Ran(events).calls ==> Ran(events).calls[r] == Some(r)
    ensures TimesTold(events, s) == 1
  {
    LedgerHolds(events);
    CreatedOrRefused(events, s);
    if Create(s) in events {
      assert CallsTo(events, s) == {s};
    } else {
      assert CallsTo(events, s) == {};
    }
  }

  lemma {:induction false} CreatedOrRefused(events: seq<Event>, s: nat)
    requires Lawful(events)
    ensures !(Create(s) in events && Refuse(s) in events)
  {
    if events != [] {
      CreatedOrRefused(events[..|events| - 1], s);
    }
  }

  lemma GoneIsNotTold(events: seq<Event>, p: nat)
    requires Lawful(events) && Gone(Ran(events), p)
    ensures Bind(p) in events && TimesTold(events, p) == 0
  {
    LedgerHolds(events);
    CreatedIsBound(events, p);
    CreatedOrRefused(events, p);
    assert CallsTo(events, p) == {};
  }

  // ---------------------------------------------------------------- two overlapping starts

  lemma LawfulGrows(before: seq<Event>, last: Event)
    requires Lawful(before)
    requires if last.Bind? then last !in before
             else Bind(last.s) in before && Create(last.s) !in before && Refuse(last.s) !in before
    ensures Lawful(before + [last])
  {
    assert (before + [last])[..|before|] == before;
  }

  lemma OverlapIsLawful()
    ensures Lawful([Bind(0), Bind(1), Create(0)])
  {
    LawfulGrows([], Bind(0));
    LawfulGrows([Bind(0)], Bind(1));
    LawfulGrows([Bind(0), Bind(1)], Create(0));
    assert [] + [Bind(0)] == [Bind(0)] && [Bind(0)] + [Bind(1)] == [Bind(0), Bind(1)];
    assert [Bind(0), Bind(1)] + [Create(0)] == [Bind(0), Bind(1), Create(0)];
  }

  /** Both accepted: the receiver of the first is told nothing, that of the second once, by the other's
      call. */
  lemma OverlapTellsOneNothing()
    ensures var events := [Bind(0), Bind(1), Create(0), Create(1)];
            && Lawful(events) && Ended(events)
            && TimesTold(events, 0) == 0 && TimesTold(events, 1) == 1
  {
    var events := [Bind(0), Bind(1), Create(0), Create(1)];
    OverlapIsLawful();
    LawfulGrows([Bind(0), Bind(1), Create(0)], Create(1));
    assert [Bind(0), Bind(1), Create(0)] + [Create(1)] == events;
    assert events[0] == Bind(0) && events[1] == Bind(1) && events[2] == Create(0) && events[3] == Create(1);
    OverlapMisroutes(());
    assert CallsTo(events, 0) == {} && CallsTo(events, 1) == {0};
  }

  /** The second refused: its receiver is told twice, and that of the first nothing. */
  lemma OverlapTellsOneTwice()
    ensures var events := [Bind(0), Bind(1), Create(0), Refuse(1)];
            && Lawful(events) && Ended(events)
            && TimesTold(events, 0) == 0 && TimesTold(events, 1) == 2
  {
    var events := [Bind(0), Bind(1), Create(0), Refuse(1)];
    OverlapIsLawful();
    LawfulGrows([Bind(0), Bind(1), Create(0)], Refuse(1));
    assert [Bind(0), Bind(1), Create(0)] + [Refuse(1)] == events;
    assert events[0] == Bind(0) && events[1] == Bind(1) && events[2] == Create(0) && events[3] == Refuse(1);
    ExecTwo(Fresh(()), [], Bind(0), Bind(1));
    ExecTwo(Fresh(()), [Bind(0), Bind(1)], Create(0), Refuse(1));
    assert [] + [Bind(0), Bind(1)] == [Bind(0), Bind(1)];
    assert [Bind(0), Bind(1)] + [Create(0), Refuse(1)] == events;
    assert Ran(events).calls == map[0 := Some(1)];
    assert CallsTo(events, 0) == {} && CallsTo(events, 1) == {0};
  }
}
