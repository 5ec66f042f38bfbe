/** `ExecutionContext` as an object: each method as one call runs it while no other call interferes.
    `ContextProtocol` is the same object under interference, and every method is a run of it. */
module ExecutionContext {
  import opened Scan
  import opened CompletionQueue
  import Protocol = ContextProtocol
  import Histories = ContextHistories
  import Invariant = ContextInvariant
  import Stranding = ContextStranding
  import Theorems = ContextTheorems

  type Life = Protocol.Life
  type Queue = Protocol.Queue

  // ---------------------------------------------------------------- one pass of a worker

  /** How many polls worker `w` makes in a group whose queues would give these answers, `i` of them
      made already: up to the first event. */
  function Polls(w: nat, answers: seq<Answer>, i: nat): (k: nat)
    requires i <= |answers|
    ensures i <= k <= |answers|
    decreases |answers| - i
  {
    if i == |answers| then i
    else if answers[Probe(w, i, |answers|)].Event? then i + 1
    else Polls(w, answers, i + 1)
  }

  /** The first `k` polls that are answered SHUTDOWN. */
  ghost function Shuts(w: nat, answers: seq<Answer>, k: nat): set<nat>
    requires k <= |answers|
  {
    set i: nat | i < k && answers[Probe(w, i, |answers|)].Shutdown?
  }

  ghost predicate AllPollsShut(w: nat, answers: seq<Answer>) {
    forall i: nat :: i < |answers| ==> answers[Probe(w, i, |answers|)].Shutdown?
  }

  ghost predicate SomePollRuns(w: nat, answers: seq<Answer>) {
    exists i: nat :: i < |answers| && answers[Probe(w, i, |answers|)].Event?
  }

  /** All polls made are answered SHUTDOWN exactly if their number says so. */
  lemma ShutsAll(w: nat, answers: seq<Answer>, k: nat)
    requires k <= |answers|
    ensures |Shuts(w, answers, k)| <= k
    ensures |Shuts(w, answers, k)| == k <==> forall i: nat :: i < k ==> answers[Probe(w, i, |answers|)].Shutdown?
  {
    hide Probe;
    if k > 0 {
      ShutsAll(w, answers, k - 1);
      ShutsOneMore(w, answers, k - 1);
    }
  }

  lemma ShutsOneMore(w: nat, answers: seq<Answer>, k: nat)
    requires k < |answers|
    ensures |Shuts(w, answers, k + 1)| ==
            |Shuts(w, answers, k)| + if answers[Probe(w, k, |answers|)].Shutdown? then 1 else 0
  {
    hide Probe;
    assert Shuts(w, answers, k + 1) ==
           Shuts(w, answers, k) + if answers[Probe(w, k, |answers|)].Shutdown? then {k} else {};
  }

  /** `run_completion_queues` of worker `w` on one group. */
  method RunGroup(w: nat, answers: seq<Answer>) returns (executed: nat, shut: nat)
    ensures executed == if SomePollRuns(w, answers) then 1 else 0
    ensures shut == |Shuts(w, answers, Polls(w, answers, 0))|
    ensures executed + shut <= |answers| && (shut == |answers| <==> AllPollsShut(w, answers))
  {
    hide Probe;
    executed, shut := 0, 0;
    var i: nat := 0;
    while i < |answers| && executed == 0
      invariant i <= |answers| && executed <= 1 && shut == |Shuts(w, answers, i)|
      invariant executed == 0 ==> Polls(w, answers, i) == Polls(w, answers, 0)
      invariant executed == 0 ==> forall j: nat :: j < i ==> !answers[Probe(w, j, |answers|)].Event?
      invariant executed == 1 ==> i > 0 && answers[Probe(w, i - 1, |answers|)].Event? && Polls(w, answers, 0) == i
      decreases |answers| - i
    {
      ShutsOneMore(w, answers, i);
      match answers[Probe(w, i, |answers|)] {
        case Timeout =>
        case Event(_, _) => executed := executed + 1;
        case Shutdown => shut := shut + 1;
      }
      i := i + 1;
    }
    ShutsAll(w, answers, i);
    if executed == 1 {
      ShutsAll(w, answers, i - 1);
      ShutsOneMore(w, answers, i - 1);
    }
  }

  /** Every poll of the pass is answered SHUTDOWN. */
  ghost predicate PassShut(w: nat, groups: seq<seq<Answer>>) {
    forall g: nat :: g < |groups| ==> AllPollsShut(w, groups[g])
  }

  /** Every queue of every group would answer SHUTDOWN. */
  ghost predicate AllShutdown(groups: seq<seq<Answer>>) {
    forall g: nat, i: nat :: g < |groups| && i < |groups[g]| ==> groups[g][i].Shutdown?
  }

  /** One pass of worker `w` over the client queues and the work queues of every server: it leaves its
      main loop if and only if every single poll was answered SHUTDOWN, and then it executed no event. */
  method RunPass(w: nat, groups: seq<seq<Answer>>) returns (leaves: bool, executed: nat)
    ensures leaves <==> PassShut(w, groups)
    ensures leaves ==> executed == 0
    ensures executed > 0 <==> exists g: nat :: g < |groups| && SomePollRuns(w, groups[g])
  {
    hide AllPollsShut, SomePollRuns, Shuts, Polls;
    var shut: nat, total: nat := 0, 0;
    executed := 0;
    var g: nat := 0;
    while g < |groups|
      invariant g <= |groups| && shut + executed <= total
      invariant shut == total <==> PassShut(w, groups[..g])
      invariant executed > 0 <==> exists h: nat :: h < g && SomePollRuns(w, groups[h])
    {
      var ran, down := RunGroup(w, groups[g]);
      total, executed, shut := total + |groups[g]|, executed + ran, shut + down;
      PassShutGrows(w, groups, g);
      g := g + 1;
    }
    assert groups[..|groups|] == groups;
    leaves := shut == total;
  }

  lemma PassShutGrows(w: nat, groups: seq<seq<Answer>>, g: nat)
    requires g < |groups|
    ensures PassShut(w, groups[..g + 1]) <==> PassShut(w, groups[..g]) && AllPollsShut(w, groups[g])
  {
    hide AllPollsShut;
    assert forall h: nat :: h < g ==> groups[..g + 1][h] == groups[..g][h];
    assert groups[..g + 1][g] == groups[g];
  }

  /** When no sum of the worker's number and a queue's number wraps, that means every queue. */
  lemma PassSeesAll(w: nat, groups: seq<seq<Answer>>)
    requires forall g: nat :: g < |groups| ==> w + |groups[g]| < U32
    ensures PassShut(w, groups) <==> AllShutdown(groups)
  {
    hide Probe, AllPollsShut;
    forall g: nat | g < |groups|
      ensures AllPollsShut(w, groups[g]) <==> forall i: nat :: i < |groups[g]| ==> groups[g][i].Shutdown?
    {
      GroupSeesAll(w, groups[g]);
    }
  }

  lemma GroupSeesAll(w: nat, answers: seq<Answer>)
    requires w + |answers| < U32
    ensures AllPollsShut(w, answers) <==> forall i: nat :: i < |answers| ==> answers[i].Shutdown?
  {
    hide Probe;
    if answers != [] && AllPollsShut(w, answers) {
      CoverageIff(w, |answers|);
      forall i: nat | i < |answers|
        ensures answers[i].Shutdown?
      {
        assert Visits(w, |answers|, i);
      }
    }
  }

  // ---------------------------------------------------------------- the object

  /** Every queue of every group has been shut down, and is otherwise as before. */
  predicate Halted(groups: seq<seq<Queue>>, after: seq<seq<Queue>>, g: nat, i: nat) {
    && |after| == |groups|
    && (forall h: nat :: h < |groups| ==> |after[h]| == |groups[h]|)
    && (forall h: nat, j: nat :: h < |groups| && j < |groups[h]| ==>
          after[h][j] == if h < g || (h == g && j < i) then Protocol.HaltQueue(groups[h][j]) else groups[h][j])
  }

  /** Only `stop` takes steps. */
  predicate StopSteps(run: seq<Protocol.Action>) {
    forall k :: 0 <= k < |run| ==> run[k].CallStop? || run[k].StopStep?
  }

  /** The first `n` workers. */
  function Numbers(n: nat): seq<nat> { seq(n, i requires 0 <= i < n => i) }

  lemma NothingHalted(groups: seq<seq<Queue>>)
    ensures Halted(groups, groups, 0, 0)
  {
    hide Protocol.HaltQueue;
  }

  lemma HaltGrows(groups: seq<seq<Queue>>, after: seq<seq<Queue>>, g: nat, i: nat)
    requires Halted(groups, after, g, i) && g < |groups| && i < |groups[g]|
    ensures after[g][i] == groups[g][i]
    ensures Halted(groups, Protocol.SetQueue(after, g, i, Protocol.HaltQueue(after[g][i])), g, i + 1)
  {
    hide Protocol.HaltQueue;
  }

  lemma HaltGroupOver(groups: seq<seq<Queue>>, after: seq<seq<Queue>>, g: nat)
    requires g < |groups| && Halted(groups, after, g, |groups[g]|)
    ensures Halted(groups, after, g + 1, 0)
  {
    hide Protocol.HaltQueue;
  }

  lemma HaltedSizes(groups: seq<seq<Queue>>, after: seq<seq<Queue>>, g: nat, i: nat)
    requires Halted(groups, after, g, i)
    ensures |after| == |groups| && forall h: nat :: h < |groups| ==> |after[h]| == |groups[h]|
  {
  }

  /** The object and, as `model`, where the protocol stands: each method is a run of the protocol. */
  class ExecutionContext {
    const nThreads: nat
    var life: Life                           // state_
    var within: nat                          // within_cq_post_
    var nextWrite: nat                       // next_cq_write_index_
    var groups: seq<seq<Queue>>              // cqs_, then the work queues of each of servers_
    var notifications: seq<nat>              // notifications_
    var threads: seq<nat>                    // threads_, by the number of their worker
    ghost var model: Protocol.State

    ghost predicate Valid()
      reads this
    {
      && Invariant.Inv(model) && Matches()
      && threads == if life.Stopped? then [] else Numbers(|model.workers|)
    }

    /** The fields are those of the protocol. */
    ghost predicate Matches()
      reads this
    {
      && nThreads == model.nThreads && life == model.life && within == model.within && nextWrite == model.nextWrite
      && groups == model.groups && notifications == model.notifications
    }

    constructor (nThreads: nat, nClients: nat)
      requires nThreads > 0 && nClients > 0 && nThreads + nClients <= U32
      ensures Valid() && model == Protocol.Init(nThreads, nClients)
      ensures this.nThreads == nThreads && life.Ready? && within == 0 && nextWrite == 0 && notifications == []
      ensures |groups| == 1 && |groups[0]| == nClients
      ensures forall i: nat :: i < nClients ==> groups[0][i] == Protocol.Client(Cq({}, map[], false))
    {
      this.nThreads := nThreads;
      life, within, nextWrite, threads := Protocol.Ready, 0, 0, [];
      groups, notifications := [seq(nClients, _ => Protocol.Client(FRESH))], [];
      model := Protocol.Init(nThreads, nClients);
      new;
      Invariant.InitInv(nThreads, nClients);
    }

    /** `set_state_`: a compare-and-exchange against the one state that may come before `to`. */
    method SetState(to: Life) returns (ok: bool)
      modifies this`life
      ensures ok <==> Protocol.Follows(old(life), to)
      ensures life == if ok then to else old(life)
    {
      if to.Ready? {
        return false;
      }
      var expected :=
        match to
        case Running => Protocol.Ready
        case ShuttingDown => Protocol.Running
        case _ => Protocol.ShuttingDown;
      ok := life == expected;
      if ok {
        life := to;
      }
    }

    /** `attach_server` of a server whose queue k has lines[k] wired handlers; false stands for its
        exception. */
    method AttachServer(lines: seq<nat>) returns (ok: bool)
      requires Valid() && nThreads + |lines| <= U32
      modifies this`groups, this`model
      ensures Valid() && model == Protocol.Step(old(model), Protocol.Attach(lines))
      ensures ok == life.Ready?
      ensures !ok ==> groups == old(groups)
      ensures ok ==>
                && |groups| == |old(groups)| + 1 && groups[..|old(groups)|] == old(groups)
                && |groups[|old(groups)|]| == |lines|
                && forall k: nat :: k < |lines| ==>
                     && groups[|old(groups)|][k].ServerSide?
                     && Histories.Listens(groups[|old(groups)|][k].server, lines[k])
    {
      hide Invariant.Inv, Protocol.Wired, Histories.Listens;
      Invariant.InvSized(model);
      Invariant.StepKeepsInv(model, Protocol.Attach(lines));
      Histories.AttachAddsServer(model, lines);
      ok := life.Ready?;
      if ok {
        groups := groups + [seq(|lines|, k requires 0 <= k < |lines| => Protocol.ServerSide(Protocol.Wired(lines[k])))];
      }
      model := Protocol.Step(model, Protocol.Attach(lines));
    }

    method AddNotifyAtStopped(thunk: nat)
      requires Valid()
      modifies this`notifications, this`model
      ensures Valid() && model == Protocol.Step(old(model), Protocol.Notify(thunk))
      ensures notifications == old(notifications) + if life.Stopped? then [] else [thunk]
    {
      hide Invariant.Inv;
      Invariant.InvSized(model);
      Invariant.StepKeepsInv(model, Protocol.Notify(thunk));
      if !life.Stopped? {
        notifications := notifications + [thunk];
      }
      model := Protocol.Step(model, Protocol.Notify(thunk));
    }

    /** `post` of an RPC or an alarm, whose event gets the tag `tag`: while Open, the client queues
        take turns. */
    method Post(kind: Protocol.Kind, tag: nat) returns (ok: bool)
      requires Valid() && tag == |model.posters|
      modifies this`within, this`groups, this`nextWrite, this`model
      ensures Valid() && model == Posted(old(model), kind)
      ensures within == old(within) && ok == Protocol.Open(life)
      ensures !ok ==> groups == old(groups) && nextWrite == old(nextWrite)
      ensures ok ==>
                && old(groups) != [] && old(groups)[0] != []
                && var q := old(nextWrite) % |old(groups)[0]|;
                && old(groups)[0][q].Client?
                && groups == Protocol.SetQueue(old(groups), 0, q,
                                               Protocol.Client(Register(old(groups)[0][q].client, tag)))
                && nextWrite == (old(nextWrite) + 1) % Protocol.U64
    {
      hide Invariant.Inv, Protocol.Step;
      Theorems.PostAlone(model, kind);
      Theorems.ClientsFirst(model);
      PostedInv(model, kind);
      within := within + 1;
      ok := Protocol.Open(life);
      if ok {
        var q := nextWrite % |groups[0]|;
        assert groups[0][q].Client?;
        nextWrite := (nextWrite + 1) % Protocol.U64;
        groups := Protocol.SetQueue(groups, 0, q, Protocol.Client(Register(groups[0][q].client, tag)));
      }
      within := within - 1;
      model := Posted(model, kind);
    }

    method RunWhile()
      requires Valid()
      modifies this`life, this`threads, this`model
      ensures Valid() && model == Protocol.Step(old(model), Protocol.Run)
      ensures if old(life).Ready? then life.Running? && threads == Numbers(nThreads)
              else life == old(life) && threads == old(threads)
    {
      hide Invariant.Inv;
      Invariant.InvSized(model);
      Invariant.StepKeepsInv(model, Protocol.Run);
      NoWorkersYet(model);
      var ok := SetState(Protocol.Running);
      model := Protocol.Step(model, Protocol.Run);
      if !ok {
        return;
      }
      var i := 0;
      while i < nThreads
        invariant i <= nThreads && threads == Numbers(i) && Invariant.Inv(model) && Matches()
        invariant life.Running? && model == Protocol.Step(old(model), Protocol.Run)
      {
        threads := threads + [i];
        i := i + 1;
      }
    }

    /** `stop` up to the first join, called when no post is under way, which it would wait for. Only
        a call that finds the context Running does anything: it shuts down every queue. */
    method BeginStop() returns (won: bool, ghost run: seq<Protocol.Action>)
      requires Valid() && within == 0
      modifies this`life, this`groups, this`model
      ensures Valid() && model == Protocol.Exec(old(model), run) && StopSteps(run)
      ensures won == old(life).Running?
      ensures won ==> life.ShuttingDown? && model.stop == Protocol.Joining(0)
      ensures won ==> Halted(old(groups), groups, |groups|, 0)
      ensures !won ==> life == old(life) && groups == old(groups) && model.stop == old(model).stop
    {
      hide Invariant.Inv, Protocol.Exec;
      Invariant.InvSized(model);
      Invariant.StepKeepsInv(model, Protocol.CallStop);
      ghost var start := model;
      Protocol.NoSteps(model);
      run := Protocol.Extend(start, [], Protocol.CallStop);
      won := SetState(Protocol.ShuttingDown);
      model := Protocol.Step(model, Protocol.CallStop);
      if !won {
        return;
      }
      run := StopGoesOn(start, run);
      model := Protocol.Step(model, Protocol.StopStep);
      run := HaltQueues(start, run);
    }

    /** The two loops of `stop` that shut down the client queues and then every server's queues. */
    method HaltQueues(ghost start: Protocol.State, ghost before: seq<Protocol.Action>)
      returns (ghost run: seq<Protocol.Action>)
      requires Valid() && model.stop == Protocol.Halting(0, 0) && !life.Stopped?
      requires Protocol.Tasks.Sized(start.tasks) && model == Protocol.Exec(start, before) && StopSteps(before)
      modifies this`groups, this`model
      ensures Valid() && model == Protocol.Exec(start, run) && StopSteps(run)
      ensures Halted(old(groups), groups, |old(groups)|, 0) && model.stop == Protocol.Joining(0)
    {
      hide Invariant.Inv, Protocol.Exec, StopSteps, Halted;
      run := before;
      NothingHalted(groups);
      var g: nat := 0;
      while g < |groups|
        invariant |groups| == |old(groups)| && g <= |groups| && Halted(old(groups), groups, g, 0)
        invariant Valid() && !life.Stopped? && model.stop == Protocol.Halting(g, 0)
        invariant model == Protocol.Exec(start, run) && StopSteps(run)
      {
        HaltedSizes(old(groups), groups, g, 0);
        var i: nat := 0;
        while i < |groups[g]|
          invariant g < |groups| == |old(groups)| && i <= |groups[g]| == |old(groups)[g]|
          invariant Halted(old(groups), groups, g, i)
          invariant Valid() && !life.Stopped? && model.stop == Protocol.Halting(g, i)
          invariant model == Protocol.Exec(start, run) && StopSteps(run)
          decreases |old(groups)[g]| - i
        {
          HaltGrows(old(groups), groups, g, i);
          run := StopGoesOn(start, run);
          groups := Protocol.SetQueue(groups, g, i, Protocol.HaltQueue(groups[g][i]));
          model := Protocol.Step(model, Protocol.StopStep);
          i := i + 1;
        }
        HaltGroupOver(old(groups), groups, g);
        run := StopGoesOn(start, run);
        model := Protocol.Step(model, Protocol.StopStep);
        g := g + 1;
      }
      run := StopGoesOn(start, run);
      model := Protocol.Step(model, Protocol.StopStep);
    }

    /** `stop` from the first join on, which waits until each worker has ended its thread: it enters
        Stopped and then runs the notifications in the order of their registration. */
    method EndStop() returns (ran: seq<nat>, ghost run: seq<Protocol.Action>)
      requires Valid() && model.stop == Protocol.Joining(0) && Stranding.AllExited(model.workers)
      modifies this`life, this`threads, this`notifications, this`model
      ensures Valid() && model == Protocol.Exec(old(model), run) && StopSteps(run)
      ensures life.Stopped? && threads == [] && model.stop.StopReturned?
      ensures ran == old(notifications) && notifications == []
    {
      hide Invariant.Inv, Protocol.Exec, StopSteps;
      JoiningIsShuttingDown(model);
      ghost var start := model;
      run := JoinThreads();
      var _ := SetState(Protocol.Stopped);
      var taken := notifications;
      notifications := [];
      run := StopGoesOn(start, run);
      model := Protocol.Step(model, Protocol.StopStep);
      ran, run := RunNotifications(taken, start, run);
    }

    method JoinThreads() returns (ghost run: seq<Protocol.Action>)
      requires Valid() && model.stop == Protocol.Joining(0) && Stranding.AllExited(model.workers)
      modifies this`threads, this`model
      ensures Invariant.Inv(model) && Matches() && threads == []
      ensures model.workers == old(model).workers && model.stop == Protocol.Joining(|model.workers|)
      ensures model == Protocol.Exec(old(model), run) && StopSteps(run)
    {
      hide Invariant.Inv, Protocol.Exec, StopSteps;
      JoiningIsShuttingDown(model);
      ghost var start := model;
      run := NoStopSteps(start);
      var w := 0;
      while w < |threads|
        invariant w <= |threads| && threads == Numbers(|model.workers|)
        invariant Invariant.Inv(model) && Matches() && model.workers == start.workers
        invariant model.stop == Protocol.Joining(w)
        invariant Protocol.Tasks.Sized(start.tasks) && model == Protocol.Exec(start, run) && StopSteps(run)
      {
        assert model.workers[threads[w]].Exited?;
        run := StopGoesOn(start, run);
        model := Protocol.Step(model, Protocol.StopStep);
        w := w + 1;
      }
      threads := [];
    }

    method RunNotifications(taken: seq<nat>, ghost start: Protocol.State, ghost before: seq<Protocol.Action>)
      returns (ran: seq<nat>, ghost run: seq<Protocol.Action>)
      requires Valid() && life.Stopped? && model.stop == Protocol.Notifying(taken, 0)
      requires Protocol.Tasks.Sized(start.tasks) && model == Protocol.Exec(start, before) && StopSteps(before)
      modifies this`model
      ensures Valid() && model == Protocol.Exec(start, run) && StopSteps(run)
      ensures ran == taken && model.stop.StopReturned?
    {
      hide Invariant.Inv, Protocol.Exec, StopSteps;
      run, ran := before, [];
      var i := 0;
      while i < |taken|
        invariant i <= |taken| && ran == taken[..i] && Valid()
        invariant model.stop == Protocol.Notifying(taken, i)
        invariant model == Protocol.Exec(start, run) && StopSteps(run)
      {
        ran := ran + [taken[i]];
        run := StopGoesOn(start, run);
        model := Protocol.Step(model, Protocol.StopStep);
        i := i + 1;
      }
      run := StopGoesOn(start, run);
      model := Protocol.Step(model, Protocol.StopStep);
    }
  }

  /** The protocol after an uninterrupted post. */
  function Posted(s: Protocol.State, kind: Protocol.Kind): Protocol.State
    requires Protocol.Tasks.Sized(s.tasks)
  {
    var p := |s.posters|;
    var entered := Protocol.Step(Protocol.Step(s, Protocol.BeginPost(kind)), Protocol.EnterPost(p));
    Protocol.Step(Protocol.Step(Protocol.Step(entered, Protocol.CheckPost(p)), Protocol.CreateEvent(p)),
                  Protocol.LeavePost(p))
  }

  lemma PostedInv(s: Protocol.State, kind: Protocol.Kind)
    requires Invariant.Inv(s) && Protocol.Tasks.Sized(s.tasks)
    ensures Invariant.Inv(Posted(s, kind))
  {
    hide Invariant.Inv, Protocol.Step;
    var p := |s.posters|;
    Invariant.StepKeepsInv(s, Protocol.BeginPost(kind));
    var s0 := Protocol.Step(s, Protocol.BeginPost(kind));
    Invariant.StepKeepsInv(s0, Protocol.EnterPost(p));
    var s1 := Protocol.Step(s0, Protocol.EnterPost(p));
    Invariant.StepKeepsInv(s1, Protocol.CheckPost(p));
    var s2 := Protocol.Step(s1, Protocol.CheckPost(p));
    Invariant.StepKeepsInv(s2, Protocol.CreateEvent(p));
    Invariant.StepKeepsInv(Protocol.Step(s2, Protocol.CreateEvent(p)), Protocol.LeavePost(p));
  }

  lemma NoWorkersYet(s: Protocol.State)
    requires Invariant.Inv(s)
    ensures s.life.Ready? ==> s.workers == []
  {
    hide Invariant.Counted, Invariant.NoneAllowed, Invariant.Downs, Invariant.Shaped, Invariant.Events, Invariant.Told,
         Invariant.ServersOk, Protocol.Tasks.Inv, Invariant.PopCalls, Invariant.EjectCalls, Invariant.Passes;
  }

  lemma JoiningIsShuttingDown(s: Protocol.State)
    requires Invariant.Inv(s) && s.stop.Joining?
    ensures s.life.ShuttingDown? && Protocol.Tasks.Sized(s.tasks)
  {
    hide Invariant.Counted, Invariant.NoneAllowed, Invariant.Downs, Invariant.Shaped, Invariant.Events, Invariant.Told,
         Invariant.ServersOk, Invariant.PopCalls, Invariant.EjectCalls, Invariant.Passes;
  }

  lemma NoStopSteps(s: Protocol.State) returns (run: seq<Protocol.Action>)
    requires Protocol.Tasks.Sized(s.tasks)
    ensures Protocol.Exec(s, run) == s && StopSteps(run)
  {
    run := [];
  }

  /** The run that `stop` is on goes on by one step. */
  lemma StopGoesOn(start: Protocol.State, run: seq<Protocol.Action>) returns (more: seq<Protocol.Action>)
    requires Protocol.Tasks.Sized(start.tasks) && Invariant.Inv(Protocol.Exec(start, run)) && StopSteps(run)
    ensures Protocol.Exec(start, more) == Protocol.Step(Protocol.Exec(start, run), Protocol.StopStep)
    ensures Invariant.Inv(Protocol.Exec(start, more)) && StopSteps(more)
  {
    hide Invariant.Inv, Protocol.Exec, Protocol.Step;
    Invariant.StepKeepsInv(Protocol.Exec(start, run), Protocol.StopStep);
    more := Protocol.Extend(start, run, Protocol.StopStep);
  }
}
