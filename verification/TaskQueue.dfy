/** The task queue as the objects it is made of. Each method runs as one call does between the steps
    of other calls: whether a `try_to_lock` succeeds is decided by others and given to it. */
module TaskQueue {
  import opened Options
  import opened Scan

  class OptimisticLockingQueue<T> {
    var queue: seq<T>

    constructor ()
      ensures queue == []
    {
      queue := [];
    }

    method TryPop(locked: bool) returns (x: Option<T>)
      modifies this
      ensures if locked && old(queue) != [] then x == Some(old(queue)[0]) && queue == old(queue)[1..]
              else x == None && queue == old(queue)
    {
      if !locked || queue == [] {
        return None;
      }
      x := Some(queue[0]);
      queue := queue[1..];
    }

    method TryPush(f: T, locked: bool) returns (ok: bool)
      modifies this
      ensures ok == locked
      ensures queue == if locked then old(queue) + [f] else old(queue)
    {
      if !locked {
        return false;
      }
      queue := queue + [f];
      return true;
    }

    method Eject() returns (result: seq<T>)
      modifies this
      ensures result == old(queue) && queue == []
    {
      result := queue;
      queue := [];
    }
  }

  // ---------------------------------------------------------------- what the calls do

  /** The scan in which a push stores its thunk after `failures` failed attempts, its first offset
      being `index`: the offset of the scan and the number of the probe. Every `n` failures the
      push takes a new offset. */
  function LastScan(index: nat, failures: nat, n: nat): (scan: (nat, nat))
    requires n > 0
    ensures scan.1 < n
    decreases failures
  {
    if failures < n then (index, failures) else LastScan(Next(index), failures - n, n)
  }

  lemma ScanRound(index: nat, left: nat, n: nat)
    requires n > 0
    ensures LastScan(index, left, n) == if left < n then (index, left) else LastScan(Next(index), left - n, n)
  {
  }

  /** Probe `i` of a pop that starts at `offset` finds something. */
  predicate Hits<T>(contents: seq<seq<T>>, locked: seq<bool>, offset: nat, i: nat)
    requires contents != [] && |locked| == |contents| && i < |contents|
  {
    locked[i] && contents[Probe(offset, i, |contents|)] != []
  }

  /** The first probe, from number `i` on, that finds something. */
  function FirstHit<T>(contents: seq<seq<T>>, locked: seq<bool>, offset: nat, i: nat): Option<nat>
    requires contents != [] && |locked| == |contents| && i <= |contents|
    decreases |contents| - i
  {
    if i == |contents| then None
    else if Hits(contents, locked, offset, i) then Some(i)
    else FirstHit(contents, locked, offset, i + 1)
  }

  /** FirstHit is a hit, nothing before it is one, and without it there is none. */
  lemma {:induction false} FirstHitIs<T>(contents: seq<seq<T>>, locked: seq<bool>, offset: nat, i: nat)
    requires contents != [] && |locked| == |contents| && i <= |contents|
    ensures match FirstHit(contents, locked, offset, i)
            case None => forall j: nat :: i <= j < |contents| ==> !Hits(contents, locked, offset, j)
            case Some(k) =>
              && i <= k < |contents| && Hits(contents, locked, offset, k)
              && forall j: nat :: i <= j < k ==> !Hits(contents, locked, offset, j)
    decreases |contents| - i
  {
    if i < |contents| && !Hits(contents, locked, offset, i) {
      FirstHitIs(contents, locked, offset, i + 1);
    }
  }

  /** The contents of the queues, one after the other. */
  function Flatten<T>(contents: seq<seq<T>>): seq<T> {
    if contents == [] then [] else contents[0] + Flatten(contents[1..])
  }

  lemma {:induction false} FlattenSnoc<T>(contents: seq<seq<T>>, last: seq<T>)
    ensures Flatten(contents + [last]) == Flatten(contents) + last
  {
    if contents == [] {
      assert Flatten([last]) == last + [];
    } else {
      assert (contents + [last])[1..] == contents[1..] + [last];
      FlattenSnoc(contents[1..], last);
    }
  }

  /** Thunk `f` is added to queue `q`. */
  function Stored<T>(contents: seq<seq<T>>, q: nat, f: T): seq<seq<T>>
    requires q < |contents|
  {
    contents[q := contents[q] + [f]]
  }

  lemma NextIndex(index: nat, m: nat)
    ensures (Next(index) + m) % U32 == (index + 1 + m) % U32
  {
  }

  /** In closed form: after `r` full rounds of failures and `i` more, the push stores at probe `i` of
      the scan that starts `r` offsets further on. */
  lemma {:induction false} LastScanIs(index: nat, failures: nat, n: nat, r: nat, i: nat)
    requires i < n && index < U32 && failures == r * n + i
    ensures LastScan(index, failures, n) == ((index + r) % U32, i)
    decreases r
  {
    if r == 0 {
      assert failures == i;
    } else {
      assert failures - n == (r - 1) * n + i;
      assert (r - 1) * n >= 0;
      LastScanIs(Next(index), failures - n, n, r - 1, i);
      NextIndex(index, r - 1);
    }
  }

  class AtomicTaskStealingQueue<T> {
    const queues: seq<OptimisticLockingQueue<T>>
    var pushIndex: nat
    var popIndex: nat
    var inPush: nat
    var isDone: bool

    ghost predicate Valid()
      reads this
    {
      && 0 < |queues| < U32
      && (forall i, j :: 0 <= i < j < |queues| ==> queues[i] != queues[j])
      && pushIndex < U32 && popIndex < U32
    }

    ghost function Contents(): (c: seq<seq<T>>)
      reads queues
      ensures |c| == |queues| && forall i :: 0 <= i < |c| ==> c[i] == queues[i].queue
    {
      seq(|queues|, i requires 0 <= i < |queues| reads queues => queues[i].queue)
    }

    constructor (n: nat)
      requires 0 < n < U32
      ensures Valid() && |queues| == n && Contents() == seq(n, _ => [])
      ensures !isDone && inPush == 0 && pushIndex == 0 && popIndex == 0
      ensures fresh(queues)
    {
      var qs: seq<OptimisticLockingQueue<T>> := [];
      while |qs| < n
        invariant |qs| <= n && fresh(qs)
        invariant forall i, j :: 0 <= i < j < |qs| ==> qs[i] != qs[j]
        invariant forall i :: 0 <= i < |qs| ==> qs[i].queue == []
        decreases n - |qs|
      {
        var q := new OptimisticLockingQueue();
        qs := qs + [q];
      }
      queues := qs;
      pushIndex, popIndex, inPush, isDone := 0, 0, 0, false;
    }

    method SignalDone()
      modifies this`isDone
      ensures isDone
    {
      isDone := true;
    }

    /** The inner loop of `push`: one round over the queues, in which all lock attempts before number
        `lucky` fail. */
    method PushRound(thunk: T, offset: nat, lucky: nat) returns (didPush: bool)
      requires Valid()
      modifies queues
      ensures didPush <==> lucky < |queues|
      ensures didPush ==> Contents() == Stored(old(Contents()), Probe(offset, lucky, |queues|), thunk)
      ensures !didPush ==> Contents() == old(Contents())
    {
      hide Probe, Next;
      ghost var before := Contents();
      didPush := false;
      var i: nat := 0;
      while i != |queues| && !didPush
        invariant i <= |queues|
        invariant !didPush ==> i <= lucky && Contents() == before
        invariant didPush ==> lucky < |queues| && Contents() == Stored(before, Probe(offset, lucky, |queues|), thunk)
        decreases |queues| - i, !didPush
      {
        var q := Probe(offset, i, |queues|);
        didPush := queues[q].TryPush(thunk, i == lucky);
        assert Contents() == if didPush then Stored(before, q, thunk) else before;
        i := i + 1;
      }
    }

    /** The outer loop of `push`: rounds until a lock attempt succeeds, which is the one after the
        first `failures`. */
    method PushRounds(thunk: T, failures: nat)
      requires Valid()
      modifies this`pushIndex, queues
      ensures Valid()
      ensures var (offset, i) := LastScan(old(pushIndex), failures, |queues|);
              && Contents() == Stored(old(Contents()), Probe(offset, i, |queues|), thunk)
              && pushIndex == Next(offset)
    {
      hide Probe, Next, LastScan, Stored;
      ghost var before := Contents();
      ghost var last := LastScan(pushIndex, failures, |queues|);
      ghost var after := Stored(before, Probe(last.0, last.1, |queues|), thunk);
      var didPush := false;
      var left: nat := failures;
      while !didPush
        invariant Valid()
        invariant !didPush ==> LastScan(pushIndex, left, |queues|) == last && Contents() == before
        invariant didPush ==> Contents() == after && pushIndex == Next(last.0)
        decreases !didPush, left
      {
        ScanRound(pushIndex, left, |queues|);
        var offset := pushIndex;
        pushIndex := Next(pushIndex);
        didPush := PushRound(thunk, offset, left);
        if !didPush {
          left := left - |queues|;
        }
      }
    }

    /** `push`, when the first `failures` of its lock attempts fail. The thunk is stored exactly once
        if done was not signalled, however many rounds that takes, and otherwise not at all. */
    method Push(thunk: T, failures: nat) returns (ok: bool)
      requires Valid()
      modifies this`inPush, this`pushIndex, queues
      ensures Valid() && inPush == old(inPush)
      ensures ok == !isDone
      ensures ok ==>
                var (offset, i) := LastScan(old(pushIndex), failures, |queues|);
                && Contents() == Stored(old(Contents()), Probe(offset, i, |queues|), thunk)
                && pushIndex == Next(offset)
      ensures !ok ==> Contents() == old(Contents()) && pushIndex == old(pushIndex)
    {
      hide Probe, Next, LastScan, Stored;
      ghost var before := Contents();
      inPush := inPush + 1;
      var done := isDone;
      assert Contents() == before;
      if !done {
        PushRounds(thunk, failures);
      }
      ghost var after := Contents();
      inPush := inPush - 1;
      assert Contents() == after;
      ok := !done;
    }

    /** `try_pop`, when the lock attempt of probe `i` has the outcome `locked[i]`. It pops the front
        of the first probed queue that is neither contended nor empty; if it pops nothing, every
        probe met a contended or an empty queue. */
    method TryPop(locked: seq<bool>) returns (x: Option<T>)
      requires Valid() && |locked| == |queues|
      modifies this`popIndex, queues
      ensures Valid() && popIndex == Next(old(popIndex))
      ensures match FirstHit(old(Contents()), locked, old(popIndex), 0)
              case None => x == None && Contents() == old(Contents())
              case Some(k) =>
                var q := Probe(old(popIndex), k, |queues|);
                && old(Contents())[q] != [] && x == Some(old(Contents())[q][0])
                && Contents() == old(Contents())[q := old(Contents())[q][1..]]
    {
      hide Probe;
      var offset := popIndex;
      popIndex := Next(popIndex);
      var i: nat := 0;
      while i != |queues|
        invariant i <= |queues| && Valid() && popIndex == Next(old(popIndex))
        invariant Contents() == old(Contents())
        invariant FirstHit(old(Contents()), locked, offset, 0) == FirstHit(old(Contents()), locked, offset, i)
        decreases |queues| - i
      {
        var q := Probe(offset, i, |queues|);
        x := queues[q].TryPop(locked[i]);
        if x.Some? {
          assert Contents() == old(Contents())[q := old(Contents())[q][1..]];
          return;
        }
        assert Contents() == old(Contents());
        i := i + 1;
      }
      return None;
    }

    /** The inner loop of `stop_and_eject`. */
    method Sweep() returns (thunks: seq<T>)
      requires Valid()
      modifies queues
      ensures thunks == Flatten(old(Contents()))
      ensures forall i :: 0 <= i < |queues| ==> queues[i].queue == []
    {
      hide Probe;
      ghost var before := Contents();
      thunks := [];
      var i: nat := 0;
      while i != |queues|
        invariant i <= |queues| && thunks == Flatten(before[..i])
        invariant forall j :: 0 <= j < i ==> queues[j].queue == []
        invariant forall j :: i <= j < |queues| ==> queues[j].queue == before[j]
        decreases |queues| - i
      {
        var ejected := queues[i].Eject();
        thunks := thunks + ejected;
        FlattenSnoc(before[..i], ejected);
        assert before[..i + 1] == before[..i] + [ejected];
        i := i + 1;
      }
      assert before[..|queues|] == before;
    }

    /** `stop_and_eject` while no push is under way: everything comes out, queue by queue and each in
        its order, and nothing stays. */
    method StopAndEject() returns (thunks: seq<T>)
      requires Valid() && inPush == 0
      modifies this`isDone, queues
      ensures Valid() && isDone
      ensures thunks == Flatten(old(Contents()))
      ensures forall i :: 0 <= i < |queues| ==> queues[i].queue == []
    {
      SignalDone();
      thunks := [];
      ghost var before := Contents();
      var again := true;
      while again
        invariant Valid() && isDone
        invariant again ==> thunks == [] && Contents() == before
        invariant !again ==> thunks == Flatten(before) && forall i :: 0 <= i < |queues| ==> queues[i].queue == []
        decreases again
      {
        var ejected := Sweep();
        thunks := thunks + ejected;
        again := inPush > 0;
      }
    }
  }

  /** When the wrap is harmless, a `try_pop` that returned false has met every queue contended or
      empty; when it is not, some queue was never looked at. */
  lemma FalsePopSawEverything<T>(contents: seq<seq<T>>, locked: seq<bool>, offset: nat)
    requires 0 < |contents| < U32 && |locked| == |contents| && offset < U32
    requires FirstHit(contents, locked, offset, 0).None?
    ensures Harmless(offset, |contents|) ==>
              forall q: nat :: q < |contents| && contents[q] != [] ==>
                exists i: nat :: i < |contents| && Probe(offset, i, |contents|) == q && !locked[i]
    ensures !Harmless(offset, |contents|) ==> exists q: nat :: q < |contents| && !Visits(offset, |contents|, q)
  {
    var n := |contents|;
    FirstHitIs(contents, locked, offset, 0);
    CoverageIff(offset, n);
    if Harmless(offset, n) {
      forall q: nat | q < n && contents[q] != []
        ensures exists i: nat :: i < n && Probe(offset, i, n) == q && !locked[i]
      {
        assert Visits(offset, n, q);
        var i: nat :| i < n && Probe(offset, i, n) == q;
        assert !Hits(contents, locked, offset, i);
      }
    }
  }
}
