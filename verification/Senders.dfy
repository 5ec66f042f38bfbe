/** Senders, receivers and operations of the from-scratch example. `connect` turns the tree of a
    sender inside out: the functions of its `then`s end up wrapped around the receiver. All
    stages use one type of values `V`. */
module Senders {

  /** What a receiver may be told. */
  datatype Signal<V> = Value(v: V) | Error(e: int) | Stopped

  /** A receiver given by the user, by number, or one made by `then`. */
  datatype Receiver<!V> = Final(id: nat) | ThenReceiver(receiver: Receiver<V>, apply: V -> V)

  /** A user's receiver was told something. */
  datatype Told<V> = Told(id: nat, signal: Signal<V>)

  datatype Sender<!V> = Just(value: V) | Then(sender: Sender<V>, apply: V -> V) | Schedule

  datatype Operation<!V> =
    | JustOperation(receiver: Receiver<V>, value: V)
    | ThenOperation(op: Operation<V>)
    | LoopOperation(receiver: Receiver<V>)

  // ---------------------------------------------------------------- as written

  function SetValue<V>(r: Receiver<V>, v: V): Told<V> {
    match r
    case Final(id) => Told(id, Value(v))
    case ThenReceiver(receiver, apply) => SetValue(receiver, apply(v))
  }

  function SetError<V>(r: Receiver<V>, e: int): Told<V> {
    match r
    case Final(id) => Told(id, Error(e))
    case ThenReceiver(receiver, _) => SetError(receiver, e)
  }

  function SetStopped<V>(r: Receiver<V>): Told<V> {
    match r
    case Final(id) => Told(id, Stopped)
    case ThenReceiver(receiver, _) => SetStopped(receiver)
  }

  function Connect<V>(s: Sender<V>, r: Receiver<V>): Operation<V> {
    match s
    case Just(value) => JustOperation(r, value)
    case Then(sender, apply) => ThenOperation(Connect(sender, ThenReceiver(r, apply)))
    case Schedule => LoopOperation(r)
  }

  /** `start`: the operation either tells its receiver at once, or puts a task with the receiver on
      the run loop. */
  datatype Started<!V> = AtOnce(told: Told<V>) | OnLoop(receiver: Receiver<V>)

  function Start<V>(op: Operation<V>): Started<V> {
    match op
    case JustOperation(receiver, value) => AtOnce(SetValue(receiver, value))
    case ThenOperation(inner) => Start(inner)
    case LoopOperation(receiver) => OnLoop(receiver)
  }

  // ---------------------------------------------------------------- what it means

  /** The value of a sender; `none` is what the run loop sends. */
  function Eval<V>(s: Sender<V>, none: V): V {
    match s
    case Just(value) => value
    case Then(sender, apply) => apply(Eval(sender, none))
    case Schedule => none
  }

  /** The sender starts from the run loop. */
  predicate Scheduled<V>(s: Sender<V>) {
    match s
    case Just(_) => false
    case Then(sender, _) => Scheduled(sender)
    case Schedule => true
  }

  /** The number of the user's receiver that a receiver wraps. */
  function Target<V>(r: Receiver<V>): nat {
    match r
    case Final(id) => id
    case ThenReceiver(receiver, _) => Target(receiver)
  }

  /** What the receiver is told once the operation has been started and, if it went to the loop,
      executed there. */
  function Outcome<V>(op: Operation<V>, none: V): Told<V> {
    match Start(op)
    case AtOnce(told) => told
    case OnLoop(receiver) => SetValue(receiver, none)
  }

  /** For every sender and receiver the connected operation tells the receiver one value, that of the
      sender evaluated directly, and it goes to the loop exactly if the sender starts there. */
  lemma {:induction false} ConnectPreservesMeaning<V>(s: Sender<V>, r: Receiver<V>, none: V)
    ensures Outcome(Connect(s, r), none) == SetValue(r, Eval(s, none))
    ensures Start(Connect(s, r)).OnLoop? <==> Scheduled(s)
  {
    match s
    case Just(value) =>
    case Then(sender, apply) => ConnectPreservesMeaning(sender, ThenReceiver(r, apply), none);
    case Schedule =>
  }

  /** A scheduled sender's operation goes to the loop. */
  lemma {:induction false} StartsOnLoop<V>(s: Sender<V>, r: Receiver<V>)
    requires Scheduled(s)
    ensures Start(Connect(s, r)).OnLoop?
  {
    if s.Then? {
      StartsOnLoop(s.sender, ThenReceiver(r, s.apply));
    }
  }

  /** Two `then`s are one with the composed function, for every receiver. */
  lemma ThenFuses<V>(s: Sender<V>, f: V -> V, g: V -> V, r: Receiver<V>, none: V)
    ensures Outcome(Connect(Then(Then(s, f), g), r), none) == Outcome(Connect(Then(s, (v: V) => g(f(v))), r), none)
  {
    ConnectPreservesMeaning(Then(Then(s, f), g), r, none);
    ConnectPreservesMeaning(Then(s, (v: V) => g(f(v))), r, none);
  }

  /** Errors and stops pass through every `then` unchanged. */
  lemma {:induction false} ThenForwards<V>(r: Receiver<V>, e: int)
    ensures SetError(r, e) == Told(Target(r), Error(e)) && SetStopped(r) == Told(Target(r), Stopped)
  {
    if r.ThenReceiver? {
      ThenForwards(r.receiver, e);
    }
  }
}
