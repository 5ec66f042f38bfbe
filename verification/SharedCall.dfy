/** Copies of one type-erased sender share a single `CallData`. A start first puts its completion in
    the shared object (`bind`) and then asks `post` to create the call, which takes the completion
    out again. */
module SharedCall {
  import opened Options

  /** One step of start number `s`. */
  datatype Event =
    | Bind(s: nat)                           // call_factory_(completion)
    | Create(s: nat)                         // post accepts: the call is created and sent
    | Refuse(s: nat)                         // post refuses

  /** `completion` is the start whose completion the object holds; a moved-from one is empty. A
      created call keeps the completion it took and the request it sent. */
  datatype Shared<Q> = Shared(request: Q, completion: Option<nat>, calls: map<nat, Option<nat>>, sent: map<nat, Q>)

  function Fresh<Q>(request: Q): Shared<Q> { Shared(request, None, map[], map[]) }

  function Step<Q>(d: Shared<Q>, e: Event): Shared<Q> {
    match e
    case Bind(s) => d.(completion := Some(s))
    case Create(s) => d.(completion := None, calls := d.calls[s := d.completion], sent := d.sent[s := d.request])
    case Refuse(_) => d
  }

  function Exec<Q>(d: Shared<Q>, events: seq<Event>): Shared<Q> {
    if events == [] then d else Step(Exec(d, events[..|events| - 1]), events[|events| - 1])
  }

  lemma ExecOne<Q>(d: Shared<Q>, events: seq<Event>, e: Event)
    ensures Exec(d, events + [e]) == Step(Exec(d, events), e)
  {
    assert (events + [e])[..|events + [e]| - 1] == events;
  }

  /** The object itself, and the history of what was done with it. */
  class CallData<Q> {
    const request: Q
    var completion: Option<nat>
    ghost var history: seq<Event>

    ghost function View(): Shared<Q>
      reads this
    {
      Exec(Fresh(request), history)
    }

    ghost predicate Valid()
      reads this
    {
      View().request == request && View().completion == completion
    }

    constructor (request: Q)
      ensures Valid() && this.request == request && history == []
    {
      this.request := request;
      completion := None;
      history := [];
    }

    method Assign(s: nat)
      requires Valid()
      modifies this
      ensures Valid() && history == old(history) + [Bind(s)]
    {
      completion := Some(s);
      ExecOne(Fresh(request), history, Bind(s));
      history := history + [Bind(s)];
    }

    /** `operator()`: the factory gets the request by constant reference, so it stays; the completion
        is moved into the call. */
    method Call(s: nat) returns (callee: Option<nat>, sends: Q)
      requires Valid()
      modifies this
      ensures Valid() && history == old(history) + [Create(s)]
      ensures s in View().calls && View().calls[s] == callee
      ensures s in View().sent && View().sent[s] == sends
    {
      sends := request;
      callee := completion;
      completion := None;
      ExecOne(Fresh(request), history, Create(s));
      history := history + [Create(s)];
    }
  }

  /** Starts run one after the other: each binds and is then accepted or refused. */
  datatype Start = Start(s: nat, accepted: bool)

  function Events(starts: seq<Start>): seq<Event> {
    if starts == [] then []
    else
      var last := starts[|starts| - 1];
      Events(starts[..|starts| - 1]) + [Bind(last.s), if last.accepted then Create(last.s) else Refuse(last.s)]
  }

  lemma ExecTwo<Q>(d: Shared<Q>, events: seq<Event>, a: Event, b: Event)
    ensures Exec(d, events + [a, b]) == Step(Step(Exec(d, events), a), b)
  {
    assert events + [a, b] == (events + [a]) + [b];
    ExecOne(d, events, a);
    ExecOne(d, events + [a], b);
  }

  /** For any starts that do not overlap, refused ones among them: every accepted start sent the
      original request and its response goes to its own receiver. */
  lemma {:induction false} SequentialStartsAreRight<Q>(request: Q, starts: seq<Start>)
    ensures var d := Exec(Fresh(request), Events(starts));
            && d.request == request
            && (forall s: nat :: s in d.calls <==> Start(s, true) in starts)
            && (forall s: nat :: s in d.calls ==> d.calls[s] == Some(s) && s in d.sent && d.sent[s] == request)
  {
    if starts != [] {
      var before, last := starts[..|starts| - 1], starts[|starts| - 1];
      SequentialStartsAreRight(request, before);
      ExecTwo(Fresh(request), Events(before), Bind(last.s),
              if last.accepted then Create(last.s) else Refuse(last.s));
      assert starts == before + [last];
    }
  }

  /** The calls that such starts are meant to make: start, receiver that is answered, request. */
  function Meant<Q>(request: Q, starts: seq<Start>): seq<(nat, Option<nat>, Q)> {
    if starts == [] then []
    else
      var last := starts[|starts| - 1];
      Meant(request, starts[..|starts| - 1]) + if last.accepted then [(last.s, Some(last.s), request)] else []
  }

  /** Starts of copies of one sender, one after the other, on the one shared object. */
  method RunStarts<Q>(request: Q, starts: seq<Start>) returns (calls: seq<(nat, Option<nat>, Q)>)
    ensures calls == Meant(request, starts)
  {
    var data := new CallData(request);
    calls := [];
    for i := 0 to |starts|
      invariant data.Valid() && data.request == request
      invariant calls == Meant(request, starts[..i])
    {
      assert starts[..i + 1][..i] == starts[..i];
      ghost var before := data.history;
      data.Assign(starts[i].s);
      if starts[i].accepted {
        ghost var bound := data.history;
        ExecOne(Fresh(request), before, Bind(starts[i].s));
        ExecOne(Fresh(request), bound, Create(starts[i].s));
        var callee, sends := data.Call(starts[i].s);
        calls := calls + [(starts[i].s, callee, sends)];
      }
    }
    assert starts[..|starts|] == starts;
  }

  // ---------------------------------------------------------------- overlapping starts

  /** The last step before `k` that touched the shared completion was the bind of start `s`. */
  ghost predicate BoundLast(events: seq<Event>, k: nat, s: nat)
    requires k <= |events|
  {
    exists j: nat ::
      && j < k && events[j] == Bind(s)
      && forall i: nat :: j < i < k ==> events[i].Refuse?
  }

  lemma BoundLastStep(events: seq<Event>, k: nat, s: nat)
    requires 0 < k <= |events|
    ensures BoundLast(events, k, s) <==>
            events[k - 1] == Bind(s) || (events[k - 1].Refuse? && BoundLast(events, k - 1, s))
  {
    if events[k - 1].Refuse? && BoundLast(events, k - 1, s) {
      var j: nat :| j < k - 1 && events[j] == Bind(s) && forall i: nat :: j < i < k - 1 ==> events[i].Refuse?;
      assert forall i: nat :: j < i < k ==> events[i].Refuse?;
    }
  }

  lemma {:induction false} SlotIsLastBind<Q>(request: Q, events: seq<Event>, k: nat, s: nat)
    requires k <= |events|
    ensures Exec(Fresh(request), events[..k]).completion == Some(s) <==> BoundLast(events, k, s)
  {
    if k > 0 {
      BoundLastStep(events, k, s);
      SlotIsLastBind(request, events, k - 1, s);
      assert events[..k][..k - 1] == events[..k - 1];
    }
  }

  /** Under any interleaving, the call that a start creates holds that start's completion if and only
      if no other start has bound or created a call since the start's own bind. Otherwise the
      response goes to another start, or, the completion being empty, to none. */
  lemma CallIsOwnIff<Q>(request: Q, events: seq<Event>, s: nat)
    ensures Step(Exec(Fresh(request), events), Create(s)).calls[s] == Some(s) <==> BoundLast(events, |events|, s)
  {
    SlotIsLastBind(request, events, |events|, s);
    assert events[..|events|] == events;
  }

  /** Two overlapping starts: the first call answers to the second start, and the other to nobody. */
  lemma OverlapMisroutes<Q>(request: Q)
    ensures Exec(Fresh(request), [Bind(0), Bind(1), Create(0), Create(1)]).calls == map[0 := Some(1), 1 := None]
  {
    ExecTwo(Fresh(request), [], Bind(0), Bind(1));
    ExecTwo(Fresh(request), [Bind(0), Bind(1)], Create(0), Create(1));
    assert [] + [Bind(0), Bind(1)] == [Bind(0), Bind(1)];
    assert [Bind(0), Bind(1)] + [Create(0), Create(1)] == [Bind(0), Bind(1), Create(0), Create(1)];
  }
}
