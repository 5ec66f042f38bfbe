/** What a receiver is told about a type-erased RPC: the operation state `RpcSenderOpState`, the
    completion that `CallData` wraps around it, and `InflightRpc`, which runs it once. Every call
    that may throw says how it ended, so all catch clauses are here. */
module RpcSignals {
  import opened Options

  const INTERNAL: nat := 13
  const UNAVAILABLE: nat := 14

  /** `grpc::Status`; code 0 is OK. */
  datatype Status = Status(code: nat, message: string) {
    predicate Ok() { code == 0 }
  }

  datatype Exception = StdException(what: string) | OtherException

  /** How a call ended. */
  datatype Outcome = Normal | Thrown(e: Exception)

  /** How `convert(response)` ended. */
  datatype Conversion<R> = Converted(result: R) | ConversionThrew(e: Exception)

  datatype Signal<R> = SetValue(result: R) | SetError(code: nat, message: string)

  function Explain(e: Exception): string {
    match e
    case StdException(what) => "exception unpacking protobuf, " + what
    case OtherException => "exception unpacking protobuf"
  }

  // ---------------------------------------------------------------- specification

  /** The calls made on a receiver and how the last of them ended. */
  datatype Told<R> = Told(signals: seq<Signal<R>>, outcome: Outcome)

  /** What the operation state's completion tells the receiver. `mood(k)` is how the receiver ends
      its call number `k`; `k` calls were made before. */
  function OpTells<R>(isOk: bool, status: Status, result: Option<R>, mood: nat -> Outcome, k: nat): Told<R> {
    if !isOk then
      Told([SetError(UNAVAILABLE, "")], mood(k))
    else if !status.Ok() then
      Told([SetError(status.code, status.message)], mood(k))
    else
      match result
      case None => Told([SetError(INTERNAL, "")], mood(k))
      case Some(r) =>
        match mood(k)
        case Normal => Told([SetValue(r)], Normal)
        case Thrown(StdException(_)) => Told([SetValue(r), SetError(INTERNAL, status.message)], mood(k + 1))
        case Thrown(OtherException) => Told([SetValue(r), SetError(INTERNAL, Explain(OtherException))], mood(k + 1))
  }

  /** What the completion wrapped by `CallData` tells the receiver: conversion first, and a second
      attempt when the conversion or the first attempt threw. */
  function CallTells<R>(isOk: bool, status: Status, conversion: Conversion<R>, mood: nat -> Outcome, k: nat): Told<R> {
    match conversion
    case ConversionThrew(e) => OpTells(isOk, Status(INTERNAL, Explain(e)), None, mood, k)
    case Converted(r) =>
      var first := OpTells(isOk, status, Some(r), mood, k);
      match first.outcome
      case Normal => first
      case Thrown(e) =>
        var second := OpTells(isOk, Status(INTERNAL, Explain(e)), None, mood, k + |first.signals|);
        Told(first.signals + second.signals, second.outcome)
  }

  const CALM: nat -> Outcome := (k: nat) => Normal

  /** What one delivered tag tells a receiver whose signals do not throw. */
  function DeliverySignals<R>(isOk: bool, status: Status, conversion: Conversion<R>): (signals: seq<Signal<R>>) {
    CallTells(isOk, status, conversion, CALM, 0).signals
  }

  /** What a start that `post` refused tells the receiver. */
  function RefusalSignals<R>(): seq<Signal<R>> { [SetError(UNAVAILABLE, "")] }

  // ---------------------------------------------------------------- the objects

  class Receiver<R> {
    const mood: nat -> Outcome
    var signals: seq<Signal<R>>

    constructor (mood: nat -> Outcome)
      ensures signals == [] && this.mood == mood
    {
      this.mood := mood;
      signals := [];
    }

    method Tell(signal: Signal<R>) returns (o: Outcome)
      modifies this`signals
      ensures signals == old(signals) + [signal] && o == mood(|old(signals)|)
    {
      o := mood(|signals|);
      signals := signals + [signal];
    }
  }

  class RpcSenderOpState<R> {
    const receiver: Receiver<R>

    constructor (receiver: Receiver<R>)
      ensures this.receiver == receiver
    {
      this.receiver := receiver;
    }

    /** `invoke`, given the answer of `post`. */
    method Invoke(accepted: bool)
      modifies receiver`signals
      ensures receiver.signals == old(receiver.signals) + if accepted then [] else RefusalSignals()
    {
      if !accepted {
        var _ := receiver.Tell(SetError(UNAVAILABLE, ""));
      }
    }

    /** The completion that `invoke` hands to the call factory. */
    method Complete(isOk: bool, status: Status, result: Option<R>) returns (o: Outcome)
      modifies receiver`signals
      ensures var told := OpTells(isOk, status, result, receiver.mood, |old(receiver.signals)|);
              receiver.signals == old(receiver.signals) + told.signals && o == told.outcome
    {
      if !isOk {
        o := receiver.Tell(SetError(UNAVAILABLE, ""));
      } else if !status.Ok() {
        o := receiver.Tell(SetError(status.code, status.message));
      } else if result.None? {
        o := receiver.Tell(SetError(INTERNAL, ""));
      } else {
        o := receiver.Tell(SetValue(result.value));
        if o.Thrown? {
          if o.e.StdException? {
            o := receiver.Tell(SetError(INTERNAL, status.message));
          } else {
            o := receiver.Tell(SetError(INTERNAL, Explain(OtherException)));
          }
        }
      }
    }
  }

  /** What calling an empty `std::function` throws. */
  const BAD_CALL := StdException("bad_function_call")

  /** One started call; `op` is the operation state whose completion it holds, null if it was created with
      an empty completion. */
  class InflightRpc<R> {
    const op: RpcSenderOpState?<R>
    var deleted: bool

    constructor (op: RpcSenderOpState?<R>)
      ensures this.op == op && !deleted
    {
      this.op := op;
      deleted := false;
    }

    /** The receiver that this call can tell something. */
    ghost function Told(): set<object> { if op == null then {} else {op.receiver} }

    /** `completion(...)`. */
    method CallCompletion(isOk: bool, status: Status, result: Option<R>) returns (o: Outcome)
      modifies Told()
      ensures op == null ==> o == Thrown(BAD_CALL)
      ensures op != null ==>
                var told := OpTells(isOk, status, result, op.receiver.mood, |old(op.receiver.signals)|);
                op.receiver.signals == old(op.receiver.signals) + told.signals && o == told.outcome
    {
      if op == null {
        o := Thrown(BAD_CALL);
      } else {
        o := op.Complete(isOk, status, result);
      }
    }

    /** The completion that `CallData` curries around the operation state's. An empty one throws both
        times. */
    method CurriedCompletion(isOk: bool, status: Status, conversion: Conversion<R>) returns (o: Outcome)
      modifies Told()
      ensures op == null ==> o == Thrown(BAD_CALL)
      ensures op != null ==>
                var told := CallTells(isOk, status, conversion, op.receiver.mood, |old(op.receiver.signals)|);
                op.receiver.signals == old(op.receiver.signals) + told.signals && o == told.outcome
    {
      var e;
      if conversion.Converted? {
        o := CallCompletion(isOk, status, Some(conversion.result));
        if o.Normal? {
          return;
        }
        e := o.e;
      } else {
        e := conversion.e;
      }
      o := CallCompletion(isOk, Status(INTERNAL, Explain(e)), None);
    }

    /** `complete`: runs the completion, swallows whatever it throws, deletes the object. */
    method Complete(isOk: bool, status: Status, conversion: Conversion<R>)
      requires !deleted
      modifies this`deleted, Told()
      ensures deleted
      ensures op != null ==>
                op.receiver.signals == old(op.receiver.signals) +
                  CallTells(isOk, status, conversion, op.receiver.mood, |old(op.receiver.signals)|).signals
    {
      var _ := CurriedCompletion(isOk, status, conversion);
      deleted := true;
    }
  }

  // ---------------------------------------------------------------- how often and what

  /** A receiver is told something again only if its previous call threw, so at most one of its
      calls succeeds, and one does unless the last one threw. */
  lemma ToldAgainOnlyAfterThrow<R>(isOk: bool, status: Status, conversion: Conversion<R>, mood: nat -> Outcome, k: nat)
    ensures var told := CallTells(isOk, status, conversion, mood, k);
            && 1 <= |told.signals| <= 3
            && (forall j: nat :: k <= j < k + |told.signals| - 1 ==> mood(j).Thrown?)
            && told.outcome == mood(k + |told.signals| - 1)
  {
  }

  /** A delivered tag tells the receiver exactly one thing if and only if the conversion throws or
      the receiver's first call does not. */
  lemma ToldOnceIff<R>(isOk: bool, status: Status, conversion: Conversion<R>, mood: nat -> Outcome)
    ensures |CallTells(isOk, status, conversion, mood, 0).signals| == 1 <==>
            conversion.ConversionThrew? || mood(0).Normal?
  {
    ToldAgainOnlyAfterThrow(isOk, status, conversion, mood, 0);
  }

  /** How often a delivered tag tells the receiver something: once as above; three times if and only if
      all is well with tag, status and conversion but the receiver throws on the value and again on
      the error that follows it; and twice otherwise. */
  lemma ToldCount<R>(isOk: bool, status: Status, conversion: Conversion<R>, mood: nat -> Outcome)
    ensures |CallTells(isOk, status, conversion, mood, 0).signals| ==
            if conversion.ConversionThrew? || mood(0).Normal? then 1
            else if isOk && status.Ok() && mood(1).Thrown? then 3
            else 2
  {
  }

  /** A receiver that throws at its first `n` calls. */
  function Moody(n: nat): nat -> Outcome {
    (k: nat) => if k < n then Thrown(OtherException) else Normal
  }

  /** A response that arrives well can be told in one, two or three calls, as the receiver throws never,
      once or twice. */
  lemma OneTwoThreeSignals()
    ensures CallTells(true, Status(0, ""), Converted(7), Moody(0), 0).signals == [SetValue(7)]
    ensures CallTells(true, Status(0, ""), Converted(7), Moody(1), 0).signals ==
            [SetValue(7), SetError(INTERNAL, Explain(OtherException))]
    ensures CallTells(true, Status(0, ""), Converted(7), Moody(2), 0).signals ==
            [SetValue(7), SetError(INTERNAL, Explain(OtherException)), SetError(INTERNAL, Explain(OtherException))]
  {
    assert Moody(1)(0).Thrown? && Moody(1)(1).Normal? && Moody(2)(1).Thrown? && Moody(2)(2).Normal?;
  }

  /** The gRPC status codes that appear here, by number. */
  ghost predicate Unavailable<R>(signal: Signal<R>) { signal == SetError(14, "") }

  ghost predicate Internal<R>(signal: Signal<R>, e: Exception) {
    signal == SetError(13, match e case StdException(what) => "exception unpacking protobuf, " + what
                                   case OtherException => "exception unpacking protobuf")
  }

  /** What a receiver should be told about an operation that ended like this. */
  ghost predicate Right<R>(isOk: bool, status: Status, conversion: Conversion<R>, signal: Signal<R>) {
    if !isOk then Unavailable(signal)
    else if conversion.ConversionThrew? then Internal(signal, conversion.e)
    else if status.code == 0 then signal == SetValue(conversion.result)
    else signal == SetError(status.code, status.message)
  }

  /** What the operation state's own completion tells first, and that only a value that the receiver throws on
      is followed by something, an internal error. */
  lemma OpSignalIsRight<R>(isOk: bool, status: Status, result: Option<R>, mood: nat -> Outcome, k: nat)
    ensures var signals := OpTells(isOk, status, result, mood, k).signals;
            && 1 <= |signals| <= 2
            && signals[0] == (if !isOk then SetError(14, "")
                              else if status.code != 0 then SetError(status.code, status.message)
                              else if result.None? then SetError(13, "")
                              else SetValue(result.value))
            && (|signals| == 2 <==> signals[0].SetValue? && mood(k).Thrown?)
            && (|signals| == 2 ==>
                  signals[1] == SetError(13, if mood(k).e.StdException? then status.message
                                             else "exception unpacking protobuf"))
  {
  }

  /** A calm receiver is told one thing, and that is right in every case. */
  lemma CalmSignalIsRight<R>(isOk: bool, status: Status, conversion: Conversion<R>)
    ensures var signals := DeliverySignals(isOk, status, conversion);
            |signals| == 1 && Right(isOk, status, conversion, signals[0])
  {
  }

  /** A refused start tells its receiver that the service is unavailable. */
  lemma RefusalIsUnavailable<R>()
    ensures var signals: seq<Signal<R>> := RefusalSignals(); |signals| == 1 && Unavailable(signals[0])
  {
  }

  /** The order and contents of everything that is told when the receiver throws on its first call: the
      signal that a calm receiver would get; then, if that was the value, an internal error; and
      unless that was taken, one more attempt, which ends in an internal error again if the tag was
      ok, and in UNAVAILABLE if not. */
  lemma ThrowingSignals<R>(isOk: bool, status: Status, result: R, mood: nat -> Outcome)
    requires mood(0).Thrown?
    ensures var signals := CallTells(isOk, status, Converted(result), mood, 0).signals;
            && 2 <= |signals| <= 3 && Right(isOk, status, Converted(result), signals[0])
            && (!isOk ==> Unavailable(signals[1]))
            && (isOk && status.code != 0 ==> Internal(signals[1], mood(0).e))
            && (isOk && status.code == 0 ==>
                  && signals[1] == SetError(13, if mood(0).e.StdException? then status.message
                                                else "exception unpacking protobuf")
                  && (|signals| == 3 ==> mood(1).Thrown? && Internal(signals[2], mood(1).e)))
  {
  }

  /** The one signal of a calm receiver. It is the value if and only if the tag was ok, the status
      was OK and the conversion succeeded; the peer's own error comes through if and only if the
      conversion of the response that came with it did not throw (or failed alike). */
  lemma CalmSignal<R>(isOk: bool, status: Status, conversion: Conversion<R>)
    ensures var signals := DeliverySignals(isOk, status, conversion);
            && |signals| == 1
            && (forall r :: signals[0] == SetValue(r) <==> isOk && status.Ok() && conversion == Converted(r))
            && (isOk && !status.Ok() ==>
                  (signals[0] == SetError(status.code, status.message) <==>
                   conversion.Converted? || status == Status(INTERNAL, Explain(conversion.e))))
            && (isOk && conversion.ConversionThrew? ==> signals[0] == SetError(INTERNAL, Explain(conversion.e)))
            && (!isOk ==> signals[0] == SetError(UNAVAILABLE, ""))
  {
  }
}
