/** What a `try_pop` that found nothing has seen, while any other calls interleave with it. */
module QueueScans {
  import opened Scan
  import opened QueueProtocol

  /** Step `k` of the run is the start of pop `c`, which takes `offset`. */
  predicate BeginsAt(n: nat, acts: seq<Action>, k: nat, c: nat, offset: nat)
    requires n > 0 && k < |acts|
  {
    var s := Exec(Init(n), acts[..k]);
    acts[k].EnterPop? && |s.poppers| == c && s.popIndex == offset
  }

  /** Step `j` of the run is pop `c` looking at queue `q`. */
  predicate LooksAt(n: nat, acts: seq<Action>, j: nat, c: nat, q: nat)
    requires n > 0 && j < |acts|
  {
    var s := Exec(Init(n), acts[..j]);
    && acts[j].ProbePop? && acts[j].c == c && c < |s.poppers| && s.poppers[c].PopProbing?
    && Probe(s.poppers[c].offset, s.poppers[c].i, n) == q
  }

  /** And at that moment the queue is contended or empty. */
  predicate MissesAt(n: nat, acts: seq<Action>, j: nat, c: nat, q: nat)
    requires n > 0 && j < |acts|
  {
    LooksAt(n, acts, j, c, q) && q < n && (!acts[j].locked || Exec(Init(n), acts[..j]).queues[q] == [])
  }

  ghost predicate Missed(n: nat, acts: seq<Action>, c: nat, q: nat)
    requires n > 0
  {
    exists j: nat :: j < |acts| && MissesAt(n, acts, j, c, q)
  }

  ghost predicate NeverLookedAt(n: nat, acts: seq<Action>, c: nat, q: nat)
    requires n > 0
  {
    forall j: nat :: j < |acts| ==> !LooksAt(n, acts, j, c, q)
  }

  /** Pop `c` has missed at its first `i` probes. */
  ghost predicate MissedFirst(n: nat, acts: seq<Action>, c: nat, offset: nat, i: nat)
    requires n > 0
  {
    forall h: nat :: h < i ==> Missed(n, acts, c, Probe(offset, h, n))
  }

  /** What the call's point says about the probes behind it. */
  ghost predicate SeenSoFar(n: nat, acts: seq<Action>, c: nat, offset: nat, pc: PopPc)
    requires n > 0
  {
    match pc
    case PopProbing(o, i) => o == offset && i < n && MissedFirst(n, acts, c, offset, i)
    case PopHolding(_) => true
    case PopFinished(ran) => ran == [] ==> MissedFirst(n, acts, c, offset, n)
  }

  /** Every look of pop `c` is a probe of the scan that starts at `offset`. */
  ghost predicate LooksAlong(n: nat, acts: seq<Action>, c: nat, offset: nat)
    requires n > 0
  {
    forall j: nat, q: nat :: j < |acts| && LooksAt(n, acts, j, c, q) ==> Visits(offset, n, q)
  }

  lemma MissedLater(n: nat, acts: seq<Action>, m: nat, c: nat, q: nat)
    requires n > 0 && m <= |acts| && Missed(n, acts[..m], c, q)
    ensures Missed(n, acts, c, q)
  {
    hide Probe, Exec;
    var j: nat :| j < m && MissesAt(n, acts[..m], j, c, q);
    assert acts[..m][..j] == acts[..j] && acts[..m][j] == acts[j];
    assert MissesAt(n, acts, j, c, q);
  }

  lemma MissedFirstLater(n: nat, acts: seq<Action>, m: nat, c: nat, offset: nat, i: nat)
    requires n > 0 && m <= |acts| && MissedFirst(n, acts[..m], c, offset, i)
    ensures MissedFirst(n, acts, c, offset, i)
  {
    hide Probe, Missed;
    forall h: nat | h < i
      ensures Missed(n, acts, c, Probe(offset, h, n))
    {
      MissedLater(n, acts, m, c, Probe(offset, h, n));
    }
  }

  lemma {:induction false} PopIndexFits(n: nat, acts: seq<Action>)
    requires n > 0
    ensures Exec(Init(n), acts).popIndex < U32
  {
    hide Probe;
    if acts != [] {
      PopIndexFits(n, acts[..|acts| - 1]);
    }
  }

  /** One step of the system moves the call on by at most one probe, and only by looking. */
  lemma PopStep(s: State, a: Action, c: nat)
    requires Sized(s) && c < |s.poppers|
    ensures var t := Step(s, a);
            && c < |t.poppers|
            && (t.poppers[c] == s.poppers[c] || s.poppers[c].PopHolding? ||
                (s.poppers[c].PopProbing? && a.ProbePop? && a.c == c))
            && (s.poppers[c].PopHolding? && !t.poppers[c].PopHolding? ==>
                t.poppers[c] == PopFinished([s.poppers[c].thunk]))
            && (s.poppers[c].PopHolding? && t.poppers[c].PopHolding? ==> t.poppers[c] == s.poppers[c])
  {
    hide Probe;
  }

  /** A look that does not take a thunk misses, and the call goes on to the next probe or ends. */
  lemma LookStep(s: State, c: nat, locked: bool)
    requires Sized(s) && c < |s.poppers| && s.poppers[c].PopProbing?
    ensures var t := Step(s, ProbePop(c, locked));
            var PopProbing(offset, i) := s.poppers[c];
            var q := Probe(offset, i, |s.queues|);
            if locked && s.queues[q] != [] then t.poppers[c].PopHolding?
            else t.poppers[c] == if i + 1 < |s.queues| then PopProbing(offset, i + 1) else PopFinished([])
  {
    hide Probe;
  }

  lemma LookMisses(n: nat, acts: seq<Action>, c: nat, offset: nat, pc: PopPc)
    requires n > 0 && acts != [] && acts[|acts| - 1].ProbePop? && acts[|acts| - 1].c == c
    requires var s := Exec(Init(n), acts[..|acts| - 1]);
             && c < |s.poppers| && s.poppers[c] == pc && pc.PopProbing? &&
                  SeenSoFar(n, acts[..|acts| - 1], c, offset, pc)
    ensures SeenSoFar(n, acts, c, offset, Exec(Init(n), acts).poppers[c])
  {
    hide Probe, Step, Missed;
    var m := |acts| - 1;
    var s := Exec(Init(n), acts[..m]);
    var q := Probe(offset, pc.i, n);
    LookStep(s, c, acts[m].locked);
    MissedFirstLater(n, acts, m, c, offset, pc.i);
    if !acts[m].locked || s.queues[q] == [] {
      assert MissesAt(n, acts, m, c, q);
      LookCounts(n, acts, m, c, q);
    }
  }

  lemma LookCounts(n: nat, acts: seq<Action>, j: nat, c: nat, q: nat)
    requires n > 0 && j < |acts| && MissesAt(n, acts, j, c, q)
    ensures Missed(n, acts, c, q)
  {
  }

  lemma SeenLater(n: nat, acts: seq<Action>, c: nat, offset: nat, pc: PopPc)
    requires n > 0 && acts != [] && SeenSoFar(n, acts[..|acts| - 1], c, offset, pc)
    ensures SeenSoFar(n, acts, c, offset, pc)
  {
    hide Probe, MissedFirst;
    match pc
    case PopProbing(_, i) => MissedFirstLater(n, acts, |acts| - 1, c, offset, i);
    case PopHolding(_) =>
    case PopFinished(ran) =>
      if ran == [] {
        MissedFirstLater(n, acts, |acts| - 1, c, offset, n);
      }
  }

  /** A look at the end of the run is one more probe of the scan. */
  lemma LooksAlongLater(n: nat, acts: seq<Action>, c: nat, offset: nat)
    requires n > 0 && acts != [] && LooksAlong(n, acts[..|acts| - 1], c, offset)
    requires var s := Exec(Init(n), acts[..|acts| - 1]);
             c < |s.poppers| && SeenSoFar(n, acts[..|acts| - 1], c, offset, s.poppers[c])
    ensures LooksAlong(n, acts, c, offset)
  {
    hide Probe, Exec, MissedFirst;
    var m := |acts| - 1;
    forall j: nat, q: nat | j < |acts| && LooksAt(n, acts, j, c, q)
      ensures Visits(offset, n, q)
    {
      if j < m {
        assert acts[..m][..j] == acts[..j] && acts[..m][j] == acts[j];
        assert LooksAt(n, acts[..m], j, c, q);
      }
    }
  }

  lemma {:induction false} PoppersGrow(n: nat, acts: seq<Action>, j: nat)
    requires n > 0 && j <= |acts|
    ensures |Exec(Init(n), acts[..j]).poppers| <= |Exec(Init(n), acts).poppers|
  {
    hide Probe;
    if j == |acts| {
      assert acts[..j] == acts;
    } else {
      PoppersGrow(n, acts[..|acts| - 1], j);
      assert acts[..|acts| - 1][..j] == acts[..j];
    }
  }

  /** A call that has not begun has looked at nothing. */
  lemma LooksAlongAtFirst(n: nat, acts: seq<Action>, c: nat, offset: nat)
    requires n > 0 && acts != [] && c >= |Exec(Init(n), acts[..|acts| - 1]).poppers|
    ensures LooksAlong(n, acts, c, offset)
  {
    hide Probe, Exec;
    var m := |acts| - 1;
    forall j: nat | j < |acts|
      ensures |Exec(Init(n), acts[..j]).poppers| <= c
    {
      PoppersGrow(n, acts[..m], j);
      assert acts[..m][..j] == acts[..j];
    }
  }

  /** The history of every `try_pop` call of a run: where it began and with which offset, what it has
      missed so far, and that it looked at nothing but the probes of its scan. */
  lemma {:induction false} PopHistory(n: nat, acts: seq<Action>, c: nat) returns (k: nat, offset: nat)
    requires n > 0 && c < |Exec(Init(n), acts).poppers|
    ensures k < |acts| && BeginsAt(n, acts, k, c, offset) && offset < U32
    ensures SeenSoFar(n, acts, c, offset, Exec(Init(n), acts).poppers[c])
    ensures LooksAlong(n, acts, c, offset)
  {
    hide Probe, LooksAlong, SeenSoFar;
    var m := |acts| - 1;
    var s := Exec(Init(n), acts[..m]);
    if c < |s.poppers| {
      k, offset := PopHistory(n, acts[..m], c);
      assert acts[..m][..k] == acts[..k];
      LooksAlongLater(n, acts, c, offset);
      PopHistoryStep(n, acts, c, offset);
    } else {
      k, offset := m, s.popIndex;
      PopIndexFits(n, acts[..m]);
      LooksAlongAtFirst(n, acts, c, offset);
      BeginsSeen(n, acts, c, offset);
    }
  }

  lemma BeginsSeen(n: nat, acts: seq<Action>, c: nat, offset: nat)
    requires n > 0 && acts != []
    requires var s := Exec(Init(n), acts[..|acts| - 1]);
             |s.poppers| <= c < |Exec(Init(n), acts).poppers| && offset == s.popIndex
    ensures SeenSoFar(n, acts, c, offset, Exec(Init(n), acts).poppers[c])
    ensures acts[|acts| - 1].EnterPop? && c == |Exec(Init(n), acts[..|acts| - 1]).poppers|
  {
    hide Probe;
  }

  lemma PopHistoryStep(n: nat, acts: seq<Action>, c: nat, offset: nat)
    requires n > 0 && acts != []
    requires var s := Exec(Init(n), acts[..|acts| - 1]);
             c < |s.poppers| && SeenSoFar(n, acts[..|acts| - 1], c, offset, s.poppers[c])
    ensures c < |Exec(Init(n), acts).poppers| && SeenSoFar(n, acts, c, offset, Exec(Init(n), acts).poppers[c])
  {
    hide Probe, MissedFirst, Step;
    var m := |acts| - 1;
    var s := Exec(Init(n), acts[..m]);
    PopStep(s, acts[m], c);
    if s.poppers[c].PopProbing? && acts[m].ProbePop? && acts[m].c == c {
      LookMisses(n, acts, c, offset, s.poppers[c]);
    } else {
      SeenLater(n, acts, c, offset, s.poppers[c]);
    }
  }

  /** Over every run and under any interference: if pop `c` returned false and the wrap is harmless
      for its offset, then it looked at every queue at some moment and found it contended or empty
      then. If the wrap is harmful, there is a queue that it never looked at. */
  lemma FalsePopSawEverything(n: nat, acts: seq<Action>, c: nat) returns (k: nat, offset: nat)
    requires 0 < n < U32
    requires var s := Exec(Init(n), acts); c < |s.poppers| && s.poppers[c] == PopFinished([])
    ensures k < |acts| && BeginsAt(n, acts, k, c, offset)
    ensures Harmless(offset, n) ==> forall q: nat :: q < n ==> Missed(n, acts, c, q)
    ensures !Harmless(offset, n) ==>
              exists q: nat :: q < n && NeverLookedAt(n, acts, c, q)
  {
    hide Probe, Exec, BeginsAt, LooksAt, Missed, Harmless, NoRepeat;
    k, offset := PopHistory(n, acts, c);
    CoverageIff(offset, n);
    if Harmless(offset, n) {
      forall q: nat | q < n
        ensures Missed(n, acts, c, q)
      {
        assert Visits(offset, n, q);
        var i: nat :| i < n && Probe(offset, i, n) == q;
        assert Missed(n, acts, c, Probe(offset, i, n));
      }
    } else {
      var q: nat :| q < n && !Visits(offset, n, q);
      assert NeverLookedAt(n, acts, c, q);
    }
  }
}
