/** The run loop of the from-scratch example: an intrusive, circular, singly linked list with a
    sentinel `head` and a `tail` pointer. Removing the last node does not reset `tail`, so nodes
    pushed after that hang on the removed node and are never reached from `head` again. */
module RunLoop {
  import opened Senders

  // ---------------------------------------------------------------- what the loop does

  /** The nodes by number, in the order in which they are pushed. */
  datatype Model = Model(pushed: nat, popped: nat, drained: bool)

  datatype Op = PushOp | PopOp

  const EMPTY := Model(0, 0, false)

  /** Some pushed node can still be popped. */
  predicate Reachable(m: Model) { !m.drained && m.popped < m.pushed }

  function PushModel(m: Model): Model { m.(pushed := m.pushed + 1) }

  /** A pop takes the next node, until one pop takes the last; from then on it takes nothing. */
  function PopModel(m: Model): Model {
    if Reachable(m) then m.(popped := m.popped + 1, drained := m.popped + 1 == m.pushed) else m
  }

  function StepModel(m: Model, op: Op): Model {
    match op
    case PushOp => PushModel(m)
    case PopOp => PopModel(m)
  }

  function ExecModel(ops: seq<Op>): Model {
    if ops == [] then EMPTY else StepModel(ExecModel(ops[..|ops| - 1]), ops[|ops| - 1])
  }

  /** How many nodes a correct queue has handed out after the same calls. */
  function FifoPopped(ops: seq<Op>): nat {
    if ops == [] then 0
    else
      var before := ops[..|ops| - 1];
      var k := FifoPopped(before);
      if ops[|ops| - 1].PopOp? && k < ExecModel(before).pushed then k + 1 else k
  }

  /** Some call pops although the list was emptied before and something was pushed since. */
  ghost predicate LatePop(ops: seq<Op>) {
    exists j: nat :: j < |ops| && ops[j].PopOp? && Late(ExecModel(ops[..j]))
  }

  predicate Late(m: Model) { m.drained && m.popped < m.pushed }

  /** Every node that was pushed before the list was first emptied, and none after, can be popped:
      the popped nodes are always the first `popped` ones. */
  lemma {:induction false} ModelBounds(ops: seq<Op>)
    ensures var m := ExecModel(ops);
            m.popped <= m.pushed && (m.drained ==> m.popped > 0) &&
              (m.popped == m.pushed ==> m.drained || m.pushed == 0)
  {
    if ops != [] {
      ModelBounds(ops[..|ops| - 1]);
    }
  }

  /** Once the list has been emptied, nothing is popped any more. */
  lemma {:induction false} DrainedForGood(ops: seq<Op>, more: seq<Op>)
    requires ExecModel(ops).drained
    ensures ExecModel(ops + more).drained && ExecModel(ops + more).popped == ExecModel(ops).popped
  {
    if more == [] {
      assert ops + more == ops;
    } else {
      DrainedForGood(ops, more[..|more| - 1]);
      assert (ops + more)[..|ops + more| - 1] == ops + more[..|more| - 1];
    }
  }

  /** A correct queue never hands out fewer nodes. */
  lemma {:induction false} FifoAhead(ops: seq<Op>)
    ensures ExecModel(ops).popped <= FifoPopped(ops) <= ExecModel(ops).pushed
    ensures LatePop(ops) ==> ExecModel(ops).drained && ExecModel(ops).popped < FifoPopped(ops)
    ensures !LatePop(ops) ==> ExecModel(ops).popped == FifoPopped(ops)
  {
    if ops != [] {
      var n := |ops| - 1;
      var before := ops[..n];
      FifoAhead(before);
      ModelBounds(before);
      LatePopGrows(ops);
    }
  }

  lemma LatePopGrows(ops: seq<Op>)
    requires ops != []
    ensures var n := |ops| - 1;
            LatePop(ops) <==> LatePop(ops[..n]) || (ops[n].PopOp? && Late(ExecModel(ops[..n])))
  {
    var n := |ops| - 1;
    forall j: nat | j < n
      ensures ops[..n][..j] == ops[..j]
    {
    }
    if LatePop(ops) {
      var j: nat :| j < |ops| && ops[j].PopOp? && Late(ExecModel(ops[..j]));
      if j < n {
        assert ops[..n][j].PopOp? && Late(ExecModel(ops[..n][..j]));
      }
    }
    if LatePop(ops[..n]) {
      var j: nat :| j < n && ops[..n][j].PopOp? && Late(ExecModel(ops[..n][..j]));
      assert ops[j].PopOp? && Late(ExecModel(ops[..j]));
    }
  }

  /** The loop hands out as many nodes as a correct queue (and they are the same ones: the first)
      if and only if no call pops after something was pushed onto the emptied list. */
  lemma LoopIsQueueIff(ops: seq<Op>)
    ensures ExecModel(ops).popped == FifoPopped(ops) <==> !LatePop(ops)
  {
    FifoAhead(ops);
  }

  // ---------------------------------------------------------------- the objects

  class Task<!V> {
    const receiver: Receiver<V>
    var next: Task<V>

    constructor (receiver: Receiver<V>)
      ensures this.receiver == receiver && next == this
    {
      this.receiver := receiver;
      next := this;
    }
  }

  /** The nodes that can still be popped. */
  function Rest<V>(pushed: seq<Task<V>>, m: Model): seq<Task<V>>
    requires m.popped <= |pushed|
  {
    if m.drained then [] else pushed[m.popped..]
  }

  lemma RestAfterPop<V>(pushed: seq<Task<V>>, m: Model)
    requires m.popped <= m.pushed == |pushed|
    ensures Rest(pushed, m) == [] <==> !Reachable(m)
    ensures if !Reachable(m) then PopModel(m) == m
            else Rest(pushed, m)[0] == pushed[m.popped] && Rest(pushed, PopModel(m)) == Rest(pushed, m)[1..]
  {
  }

  class Loop<!V> {
    const head: Task<V>
    var tail: Task<V>
    var finishing: bool
    ghost var pushed: seq<Task<V>>
    ghost var popped: nat
    ghost var drained: bool

    ghost function View(): Model
      reads this
    {
      Model(|pushed|, popped, drained)
    }

    /** Until the list is first emptied it leads from `head` through the nodes that are not yet popped
        back to `head`, and `tail` is its last node. Afterwards `head` points to itself and `tail`
        is some node off the list. */
    ghost predicate Valid()
      reads this, head, pushed
    {
      && (forall i :: 0 <= i < |pushed| ==> pushed[i] != head)
      && (forall i, j :: 0 <= i < j < |pushed| ==> pushed[i] != pushed[j])
      && popped <= |pushed|
      && (drained ==> head.next == head && tail != head && tail in pushed)
      && (!drained ==>
            && (popped == |pushed| ==> pushed == [])
            && head.next == Node(popped)
            && tail == (if pushed == [] then head else pushed[|pushed| - 1])
            && forall i :: popped <= i < |pushed| ==> pushed[i].next == Node(i + 1))
    }

    /** Node number `i`, or `head` after the last. */
    ghost function Node(i: nat): Task<V>
      reads this
    {
      if i < |pushed| then pushed[i] else head
    }

    constructor ()
      ensures Valid() && View() == EMPTY && pushed == [] && !finishing && fresh(head)
    {
      var h := new Task<V>(Final(0));
      head, tail := h, h;
      finishing := false;
      pushed, popped, drained := [], 0, false;
    }

    method PushBack(op: Task<V>)
      requires Valid() && op != head && op !in pushed
      modifies this`tail, this`pushed, tail`next, op`next
      ensures Valid() && pushed == old(pushed) + [op] && View() == PushModel(old(View()))
      ensures tail == op && op.next == head
    {
      op.next := head;
      tail.next := op;
      tail := op;
      pushed := pushed + [op];
    }

    /** The tasks that can still be popped. */
    ghost function Pending(): seq<Task<V>>
      reads this
      requires popped <= |pushed|
    {
      Rest(pushed, View())
    }

    /** The wait is over only if there is a node or the loop is finishing. */
    method PopFront() returns (op: Task?<V>)
      requires Valid() && (head.next != head || finishing)
      modifies this`popped, this`drained, head`next
      ensures Valid() && View() == PopModel(old(View()))
      ensures op == if Reachable(old(View())) then pushed[old(popped)] else null
      ensures if old(Pending()) == [] then op == null && Pending() == []
              else op == old(Pending())[0] && Pending() == old(Pending())[1..]
    {
      hide Rest;
      RestAfterPop(pushed, View());
      if head.next == head {
        return null;
      }
      op := head.next;
      head.next := op.next;
      popped := popped + 1;
      drained := popped == |pushed|;
    }

    method Finish()
      requires Valid()
      modifies this`finishing
      ensures Valid() && finishing
    {
      finishing := true;
    }

    /** `run` on a finishing loop: executes what can be popped, each task once, in order, and
        returns. */
    method Run(none: V) returns (log: seq<Told<V>>)
      requires Valid() && finishing
      modifies this`popped, this`drained, head`next
      ensures Valid() && Pending() == []
      ensures log == Execute(old(Pending()), none)
    {
      hide PopModel, PushModel, Reachable, Node;
      log := [];
      ghost var tasks, done: nat := Pending(), 0;
      while true
        invariant Valid() && finishing && done <= |tasks|
        invariant Pending() == tasks[done..] && log == Execute(tasks[..done], none)
        decreases |tasks| - done
      {
        var op := PopFront();
        if op == null {
          break;
        }
        log := log + [SetValue(op.receiver, none)];
        ExecuteOneMore(tasks, done, none);
        done := done + 1;
      }
      assert tasks[..done] == tasks;
    }
  }

  /** Any sequence of pushes of new nodes and of pops, on a loop that is finishing so that no pop waits:
      exactly the first nodes are popped, in order and each once, as many as the model says. */
  method RunCalls<V>(ops: seq<Op>) returns (pushed: seq<Task<V>>, popped: seq<Task<V>>)
    ensures |pushed| == ExecModel(ops).pushed && |popped| == ExecModel(ops).popped
    ensures forall i, j :: 0 <= i < j < |pushed| ==> pushed[i] != pushed[j]
    ensures popped <= pushed
  {
    hide PushModel, PopModel;
    var loop := new Loop<V>();
    loop.Finish();
    pushed, popped := [], [];
    for i := 0 to |ops|
      invariant loop.Valid() && loop.finishing && loop.View() == ExecModel(ops[..i])
      invariant fresh(loop) && fresh(loop.head) && fresh(loop.tail) && fresh(pushed)
      invariant loop.pushed == pushed && loop.popped == |popped| && popped <= pushed
    {
      assert ops[..i + 1][..i] == ops[..i];
      if ops[i].PushOp? {
        var task := new Task<V>(Final(i));
        loop.PushBack(task);
        pushed := pushed + [task];
      } else {
        var op := loop.PopFront();
        PopIs(ExecModel(ops[..i]));
        if op != null {
          popped := popped + [op];
        }
      }
    }
    assert ops[..|ops|] == ops;
  }

  lemma PopIs(m: Model)
    ensures PopModel(m).pushed == m.pushed && PopModel(m).popped == m.popped + if Reachable(m) then 1 else 0
    ensures PushModel(m).pushed == m.pushed + 1 && PushModel(m).popped == m.popped
  {
  }

  /** Each task, executed, tells its receiver the value that the loop sends. */
  function Execute<V>(tasks: seq<Task<V>>, none: V): seq<Told<V>> {
    seq(|tasks|, i requires 0 <= i < |tasks| => SetValue(tasks[i].receiver, none))
  }

  lemma ExecuteOneMore<V>(tasks: seq<Task<V>>, k: nat, none: V)
    requires k < |tasks|
    ensures Execute(tasks[..k + 1], none) == Execute(tasks[..k], none) + [SetValue(tasks[k].receiver, none)]
  {
  }

  // ---------------------------------------------------------------- scheduled chains

  /** The receiver that the task of a scheduled chain holds. */
  function Inner<V>(s: Sender<V>, id: nat): Receiver<V>
    requires Scheduled(s)
  {
    var started := Start(Connect(s, Final(id)));
    if started.OnLoop? then started.receiver else Final(id)
  }

  /** `start` of the operation that connects a scheduled chain to receiver `id`. */
  method StartChain<V>(loop: Loop<V>, s: Sender<V>, id: nat)
    requires loop.Valid() && Scheduled(s)
    modifies loop`tail, loop`pushed, loop.tail`next
    ensures loop.Valid() && loop.View() == PushModel(old(loop.View()))
    ensures |loop.pushed| == |old(loop.pushed)| + 1 && loop.pushed[..|old(loop.pushed)|] == old(loop.pushed)
    ensures fresh(loop.pushed[|old(loop.pushed)|]) && loop.pushed[|old(loop.pushed)|].receiver == Inner(s, id)
    ensures loop.tail == loop.pushed[|old(loop.pushed)|]
  {
    StartsOnLoop(s, Final(id));
    var started := Start(Connect(s, Final(id)));
    var task := new Task<V>(started.receiver);
    loop.PushBack(task);
  }

  /** Start every chain on a new loop, finish, run: each receiver is told exactly one value, that of
      its chain, in the order in which the chains were started. */
  method RunChains<V>(chains: seq<Sender<V>>, none: V) returns (log: seq<Told<V>>)
    requires forall i :: 0 <= i < |chains| ==> Scheduled(chains[i])
    ensures |log| == |chains|
    ensures forall i :: 0 <= i < |chains| ==> log[i] == Told(i, Value(Eval(chains[i], none)))
  {
    var loop := new Loop<V>();
    var i: nat := 0;
    while i < |chains|
      invariant i <= |chains| && loop.Valid() && loop.View() == Model(i, 0, false)
      invariant fresh(loop) && fresh(loop.head) && fresh(loop.tail)
      invariant forall j :: 0 <= j < i ==> loop.pushed[j].receiver == Inner(chains[j], j)
    {
      ghost var before := loop.pushed;
      StartChain(loop, chains[i], i);
      assert forall j :: 0 <= j < i ==> loop.pushed[j] == before[j];
      i := i + 1;
    }
    loop.Finish();
    assert loop.pushed[0..] == loop.pushed;
    log := loop.Run(none);
    forall j | 0 <= j < |chains|
      ensures log[j] == Told(j, Value(Eval(chains[j], none)))
    {
      ConnectPreservesMeaning(chains[j], Final(j), none);
    }
  }
}
