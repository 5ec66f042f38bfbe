/** One complete run of a context with a single worker: an RPC is posted, answered and signalled, a
    thunk is pushed while the context stops, and the context ends Stopped with that accepted
    thunk left behind in its task queue. */
module ContextRuns {
  import opened CompletionQueue
  import opened Options
  import opened ContextProtocol
  import opened Scan
  import Tasks = QueueProtocol
  import Rpc = RpcSignals

  /** One more step, which leads to `u`. */
  lemma Reach(s: State, acts: seq<Action>, a: Action, u: State) returns (more: seq<Action>)
    requires Tasks.Sized(s.tasks) && Step(Exec(s, acts), a) == u
    ensures more == acts + [a] && Exec(s, more) == u
  {
    more := Extend(s, acts, a);
  }

  const POSTED := Poster(RpcCall(0), PostReturned(true), 0, Some(0), 0, false, [])
  const ANSWERED := POSTED.(completions := 1, signals := [Rpc.SetValue(7)])
  const PENDING := Cq({0}, map[], false)
  const READY := Cq({}, map[0 := true], false)
  const NOTHING: seq<nat> := []
  const NONE: seq<seq<nat>> := [NOTHING, NOTHING]
  const ONE: seq<seq<nat>> := [[0], NOTHING]

  /** A state of the run: one post, one client queue, one worker. */
  function Snap(life: Life, post: Poster, cq: Cq, tasks: Tasks.State, popOwner: seq<nat>, ejectOwner: seq<nat>,
                worker: WorkerPc, stop: StopPc): State
  {
    State(1, life, 0, 1, [post], map[], [[Client(cq)]], tasks, popOwner, ejectOwner, [worker], stop,
          if life.Running? then [] else [true], [], [], [])
  }

  /** The task queue in the run: one push, stored or not, and one earlier `try_pop` that failed. */
  function TaskSnap(queues: seq<seq<nat>>, pc: Tasks.PushPc, inPush: nat, pushIndex: nat, poppers: seq<Tasks.PopPc>,
                    ejectors: seq<Tasks.EjectPc>): Tasks.State
  {
    Tasks.State(queues, queues, NONE, ejectors != [], inPush, pushIndex, |poppers|, [pc], poppers, ejectors)
  }

  lemma SetOnly(a: Queue, b: Queue)
    ensures SetQueue([[a]], 0, 0, b) == [[b]]
  {
    assert [a][0 := b] == [b];
  }

  lemma Begin() returns (acts: seq<Action>)
    ensures Exec(Init(1, 1), acts) ==
            State(1, Running, 1, 0, [Begun(RpcCall(0)).(pc := PostAllowed)], map[0 := 0], [[Client(FRESH)]],
                  Tasks.Init(2), [], [], [TOP], NotStopping, [], [], [], [])
  {
    var s := Init(1, 1);
    assert s.groups[0] == [Client(FRESH)];
    var t := s.(life := Running, workers := [TOP]);
    acts := Reach(s, [], Run, t);
    var bound := t.(posters := [Begun(RpcCall(0))], slots := map[0 := 0]);
    acts := Reach(s, acts, BeginPost(RpcCall(0)), bound);
    acts := Reach(s, acts, EnterPost(0), bound.(within := 1, posters := [Begun(RpcCall(0)).(pc := PostEntered)]));
    acts := Reach(s, acts, CheckPost(0), bound.(within := 1, posters := [Begun(RpcCall(0)).(pc := PostAllowed)]));
  }

  lemma PostOne() returns (acts: seq<Action>)
    ensures Exec(Init(1, 1), acts) == Snap(Running, POSTED, READY, Tasks.Init(2), [], [], TOP, NotStopping)
  {
    hide Exec;
    acts := Begin();
    var s := Init(1, 1);
    var t := Snap(Running, POSTED, PENDING, Tasks.Init(2), [], [], TOP, NotStopping);
    SetOnly(Client(FRESH), Client(PENDING));
    assert Register(FRESH, 0) == PENDING;
    acts := Reach(s, acts, CreateEvent(0), t.(within := 1, posters := [POSTED.(pc := PostCreated)]));
    acts := Reach(s, acts, LeavePost(0), t);
    SetOnly(Client(PENDING), Client(READY));
    assert MakeReady(PENDING, 0, true) == READY;
    acts := Reach(s, acts, EndOperation(0, 0, 0, true),
                  Snap(Running, POSTED, READY, Tasks.Init(2), [], [], TOP, NotStopping));
  }

  /** A push passes its check just before `stop` begins. */
  lemma PushAndStop() returns (acts: seq<Action>)
    ensures Exec(Init(1, 1), acts) ==
            Snap(ShuttingDown, POSTED, READY, TaskSnap(NONE, Tasks.PushSeeking, 1, 0, [], []), [], [], TOP,
                 AwaitingPosts)
  {
    hide Exec;
    acts := PostOne();
    var s := Init(1, 1);
    assert Tasks.Init(2).queues == NONE;
    var entered := TaskSnap(NONE, Tasks.PushEntered, 1, 0, [], []);
    var seeking := TaskSnap(NONE, Tasks.PushSeeking, 1, 0, [], []);
    acts := Reach(s, acts, PostTask(Tasks.EnterPush), Snap(Running, POSTED, READY, entered, [], [], TOP, NotStopping));
    acts := Reach(s, acts, PostTask(Tasks.CheckPush(0)),
                  Snap(Running, POSTED, READY, seeking, [], [], TOP, NotStopping));
    acts := Reach(s, acts, CallStop, Snap(ShuttingDown, POSTED, READY, seeking, [], [], TOP, AwaitingPosts));
  }

  const LATE := Cq({}, map[0 := true], true)
  const GONE := Cq({}, map[], true)
  const SEEKING := TaskSnap(NONE, Tasks.PushSeeking, 1, 0, [], [])

  lemma HaltAll() returns (acts: seq<Action>)
    ensures Exec(Init(1, 1), acts) == Snap(ShuttingDown, POSTED, LATE, SEEKING, [], [], TOP, Joining(0))
  {
    hide Exec;
    acts := PushAndStop();
    var s := Init(1, 1);
    acts := Reach(s, acts, StopStep, Snap(ShuttingDown, POSTED, READY, SEEKING, [], [], TOP, Halting(0, 0)));
    SetOnly(Client(READY), Client(LATE));
    acts := Reach(s, acts, StopStep, Snap(ShuttingDown, POSTED, LATE, SEEKING, [], [], TOP, Halting(0, 1)));
    acts := Reach(s, acts, StopStep, Snap(ShuttingDown, POSTED, LATE, SEEKING, [], [], TOP, Halting(1, 0)));
    acts := Reach(s, acts, StopStep, Snap(ShuttingDown, POSTED, LATE, SEEKING, [], [], TOP, Joining(0)));
  }

  /** The task queue after a `try_pop` at this point. */
  function Tried(pc: Tasks.PopPc): Tasks.State {
    TaskSnap(NONE, Tasks.PushSeeking, 1, 0, [pc], [])
  }

  lemma CompleteOne()
    ensures CompletePost([POSTED], 0, true, Rpc.Status(0, ""), Rpc.Converted(7)) == [ANSWERED]
  {
    var told: seq<Rpc.Signal<Payload>> := Rpc.DeliverySignals(true, Rpc.Status(0, ""), Rpc.Converted(7));
    assert told == [Rpc.SetValue(7)];
    assert POSTED.signals + told == told;
    assert [POSTED][0 := POSTED.(completions := 1)] == [POSTED.(completions := 1)];
    assert [POSTED.(completions := 1)][0 := ANSWERED] == [ANSWERED];
  }

  lemma ExecuteOne(s: State)
    requires s.groups == [[Client(LATE)]] && s.posters == [POSTED]
    ensures Execute(s, 0, 0, Event(0, true), Rpc.Status(0, ""), Rpc.Converted(7), false) ==
            s.(groups := [[Client(GONE)]], posters := [ANSWERED])
  {
    SetOnly(Client(LATE), Client(GONE));
    assert Delivered(LATE, 0) == GONE;
    CompleteOne();
  }

  lemma PollOne()
    ensures Step(Snap(ShuttingDown, POSTED, LATE, SEEKING, [], [], TOP, Joining(0)),
                 Poll(0, Event(0, true), Rpc.Status(0, ""), Rpc.Converted(7), false)) ==
            Snap(ShuttingDown, ANSWERED, GONE, SEEKING, [], [], Polling(0, 1, 0, 1, 0, 0), Joining(0))
  {
    assert Probe(0, 0, 1) == 0;
    assert [TOP][0 := Polling(0, 1, 0, 1, 0, 0)] == [Polling(0, 1, 0, 1, 0, 0)];
    ExecuteOne(Snap(ShuttingDown, POSTED, LATE, SEEKING, [], [], Polling(0, 1, 0, 1, 0, 0), Joining(0)));
  }

  lemma AnswerOne() returns (acts: seq<Action>)
    ensures Exec(Init(1, 1), acts) ==
            Snap(ShuttingDown, ANSWERED, GONE, SEEKING, [], [], Polling(0, 1, 0, 1, 0, 0), Joining(0))
  {
    hide Exec;
    acts := HaltAll();
    PollOne();
    acts := Reach(Init(1, 1), acts, Poll(0, Event(0, true), Rpc.Status(0, ""), Rpc.Converted(7), false),
                  Snap(ShuttingDown, ANSWERED, GONE, SEEKING, [], [], Polling(0, 1, 0, 1, 0, 0), Joining(0)));
  }

  lemma EndGroup() returns (acts: seq<Action>)
    ensures Exec(Init(1, 1), acts) ==
            Snap(ShuttingDown, ANSWERED, GONE, SEEKING, [], [], Polling(1, 0, 1, 1, 0, 1), Joining(0))
  {
    hide Exec;
    acts := AnswerOne();
    acts := Reach(Init(1, 1), acts, NextGroup(0),
                  Snap(ShuttingDown, ANSWERED, GONE, SEEKING, [], [], Polling(1, 0, 1, 1, 0, 1), Joining(0)));
  }

  /** The pass ends and the worker tries the task queue. */
  lemma BeginPop()
    ensures Step(Snap(ShuttingDown, ANSWERED, GONE, SEEKING, [], [], Polling(1, 0, 1, 1, 0, 1), Joining(0)),
                 EndPass(0)) ==
            Snap(ShuttingDown, ANSWERED, GONE, Tried(Tasks.PopProbing(0, 0)), [0], [], Popping(0), Joining(0))
  {
    assert Tasks.PopEnter(SEEKING) == Tried(Tasks.PopProbing(0, 0));
  }

  /** The worker completes the RPC and then tries the task queue. */
  lemma AnswerAndTry() returns (acts: seq<Action>)
    ensures Exec(Init(1, 1), acts) ==
            Snap(ShuttingDown, ANSWERED, GONE, Tried(Tasks.PopProbing(0, 0)), [0], [], Popping(0), Joining(0))
  {
    hide Exec;
    acts := EndGroup();
    BeginPop();
    acts := Reach(Init(1, 1), acts, EndPass(0),
                  Snap(ShuttingDown, ANSWERED, GONE, Tried(Tasks.PopProbing(0, 0)), [0], [], Popping(0), Joining(0)));
  }

  lemma TryNothing() returns (acts: seq<Action>)
    ensures Exec(Init(1, 1), acts) ==
            Snap(ShuttingDown, ANSWERED, GONE, Tried(Tasks.PopFinished([])), [0], [], TOP, Joining(0))
  {
    hide Exec;
    acts := AnswerAndTry();
    var s := Init(1, 1);
    acts := Reach(s, acts, Pop(0, true),
                  Snap(ShuttingDown, ANSWERED, GONE, Tried(Tasks.PopProbing(0, 1)), [0], [], Popping(0), Joining(0)));
    acts := Reach(s, acts, Pop(0, true),
                  Snap(ShuttingDown, ANSWERED, GONE, Tried(Tasks.PopFinished([])), [0], [], Popping(0), Joining(0)));
    acts := Reach(s, acts, Pop(0, true),
                  Snap(ShuttingDown, ANSWERED, GONE, Tried(Tasks.PopFinished([])), [0], [], TOP, Joining(0)));
  }

  /** The task queue while and after the worker ejects. */
  function Swept(queues: seq<seq<nat>>, push: Tasks.PushPc, inPush: nat, pushIndex: nat,
                 eject: Tasks.EjectPc): Tasks.State {
    TaskSnap(queues, push, inPush, pushIndex, [Tasks.PopFinished([])], [eject])
  }

  lemma PollShut(tasks: Tasks.State, popOwner: seq<nat>)
    requires Tasks.Sized(tasks)
    ensures Step(Snap(ShuttingDown, ANSWERED, GONE, tasks, popOwner, [], TOP, Joining(0)),
                 Poll(0, Shutdown, Rpc.Status(0, ""), Rpc.Converted(0), false)) ==
            Snap(ShuttingDown, ANSWERED, GONE, tasks, popOwner, [], Polling(0, 1, 0, 0, 1, 0), Joining(0))
  {
    assert Probe(0, 0, 1) == 0;
    assert [TOP][0 := Polling(0, 1, 0, 0, 1, 0)] == [Polling(0, 1, 0, 0, 1, 0)];
  }

  lemma PollDown() returns (acts: seq<Action>)
    ensures Exec(Init(1, 1), acts) ==
            Snap(ShuttingDown, ANSWERED, GONE, Tried(Tasks.PopFinished([])), [0], [], Polling(0, 1, 0, 0, 1, 0),
                 Joining(0))
  {
    hide Exec, Step;
    acts := TryNothing();
    PollShut(Tried(Tasks.PopFinished([])), [0]);
    acts := Reach(Init(1, 1), acts, Poll(0, Shutdown, Rpc.Status(0, ""), Rpc.Converted(0), false),
                  Snap(ShuttingDown, ANSWERED, GONE, Tried(Tasks.PopFinished([])), [0], [], Polling(0, 1, 0, 0, 1, 0),
                       Joining(0)));
  }

  /** The worker's next pass is answered SHUTDOWN throughout and it begins to eject. */
  lemma LeaveLoop() returns (acts: seq<Action>)
    ensures Exec(Init(1, 1), acts) ==
            Snap(ShuttingDown, ANSWERED, GONE, Swept(NONE, Tasks.PushSeeking, 1, 0, Tasks.Sweeping(0, [])), [0], [0],
                 Ejecting(0), Joining(0))
  {
    hide Exec;
    acts := PollDown();
    var s := Init(1, 1);
    acts := Reach(s, acts, NextGroup(0),
                  Snap(ShuttingDown, ANSWERED, GONE, Tried(Tasks.PopFinished([])), [0], [], Polling(1, 0, 0, 0, 1, 1),
                       Joining(0)));
    acts := Reach(s, acts, EndPass(0),
                  Snap(ShuttingDown, ANSWERED, GONE, Swept(NONE, Tasks.PushSeeking, 1, 0, Tasks.Sweeping(0, [])), [0],
                       [0], Ejecting(0), Joining(0)));
  }

  lemma SweepBoth() returns (acts: seq<Action>)
    ensures Exec(Init(1, 1), acts) ==
            Snap(ShuttingDown, ANSWERED, GONE, Swept(NONE, Tasks.PushSeeking, 1, 0, Tasks.Sweeping(2, [])), [0], [0],
                 Ejecting(0), Joining(0))
  {
    hide Exec;
    acts := LeaveLoop();
    var s := Init(1, 1);
    assert NOTHING + NOTHING == NOTHING && NOTHING[0..] == NOTHING && NOTHING[..0] == NOTHING;
    assert NONE[0 := NOTHING] == NONE && NONE[1 := NOTHING] == NONE;
    acts := Reach(s, acts, Eject(0),
                  Snap(ShuttingDown, ANSWERED, GONE, Swept(NONE, Tasks.PushSeeking, 1, 0, Tasks.Sweeping(1, [])), [0],
                       [0], Ejecting(0), Joining(0)));
    acts := Reach(s, acts, Eject(0),
                  Snap(ShuttingDown, ANSWERED, GONE, Swept(NONE, Tasks.PushSeeking, 1, 0, Tasks.Sweeping(2, [])), [0],
                       [0], Ejecting(0), Joining(0)));
  }

  lemma StoreOne()
    ensures Tasks.Step(Swept(NONE, Tasks.PushProbing(0, 0), 1, 1, Tasks.Sweeping(2, [])), Tasks.ProbePush(0, true)) ==
            Swept(ONE, Tasks.PushStored, 1, 1, Tasks.Sweeping(2, []))
  {
    assert Probe(0, 0, 2) == 0;
    assert NONE[0] + [0] == [0];
    assert NONE[0 := [0]] == ONE;
  }

  /** The push stores its thunk behind the sweep and leaves. */
  lemma StoreBehind() returns (acts: seq<Action>)
    ensures Exec(Init(1, 1), acts) ==
            Snap(ShuttingDown, ANSWERED, GONE, Swept(ONE, Tasks.PushReturned(true), 0, 1, Tasks.Sweeping(2, [])), [0],
                 [0], Ejecting(0), Joining(0))
  {
    hide Exec;
    acts := SweepBoth();
    var s := Init(1, 1);
    acts := Reach(s, acts, PostTask(Tasks.AimPush(0)),
                  Snap(ShuttingDown, ANSWERED, GONE, Swept(NONE, Tasks.PushProbing(0, 0), 1, 1, Tasks.Sweeping(2, [])),
                       [0], [0], Ejecting(0), Joining(0)));
    StoreOne();
    acts := Reach(s, acts, PostTask(Tasks.ProbePush(0, true)),
                  Snap(ShuttingDown, ANSWERED, GONE, Swept(ONE, Tasks.PushStored, 1, 1, Tasks.Sweeping(2, [])),
                       [0], [0], Ejecting(0), Joining(0)));
    acts := Reach(s, acts, PostTask(Tasks.LeavePush(0)),
                  Snap(ShuttingDown, ANSWERED, GONE, Swept(ONE, Tasks.PushReturned(true), 0, 1, Tasks.Sweeping(2, [])),
                       [0], [0], Ejecting(0), Joining(0)));
  }

  const LEFT := Swept(ONE, Tasks.PushReturned(true), 0, 1, Tasks.Executing([], 0))

  /** The run ends Stopped, with the winning stop returned: the RPC's receiver got its value once,
      and the thunk whose `post` answered true is still queued and will never run. */
  lemma ThunkLeftBehind() returns (acts: seq<Action>)
    ensures Exec(Init(1, 1), acts) == Snap(Stopped, ANSWERED, GONE, LEFT, [0], [0], Exited(0), StopReturned)
  {
    hide Exec;
    acts := StoreBehind();
    var s := Init(1, 1);
    acts := Reach(s, acts, Eject(0), Snap(ShuttingDown, ANSWERED, GONE, LEFT, [0], [0], Ejecting(0), Joining(0)));
    acts := Reach(s, acts, Eject(0), Snap(ShuttingDown, ANSWERED, GONE, LEFT, [0], [0], Exited(0), Joining(0)));
    acts := Reach(s, acts, StopStep, Snap(ShuttingDown, ANSWERED, GONE, LEFT, [0], [0], Exited(0), Joining(1)));
    acts := Reach(s, acts, StopStep, Snap(Stopped, ANSWERED, GONE, LEFT, [0], [0], Exited(0), Notifying([], 0)));
    acts := Reach(s, acts, StopStep, Snap(Stopped, ANSWERED, GONE, LEFT, [0], [0], Exited(0), StopReturned));
  }

  // ---------------------------------------------------------------- two overlapping starts

  /** A state of the run below: two starts of one sender, one client queue, one worker. */
  function Pair(life: Life, within: nat, first: Poster, second: Poster, slots: map<nat, nat>, nextWrite: nat, cq: Cq,
                worker: WorkerPc, stop: StopPc): State
  {
    State(1, life, within, nextWrite, [first, second], slots, [[Client(cq)]], Tasks.Init(2), [], [], [worker], stop,
          if life.Running? then [] else [true], [], [], [])
  }

  const START := Begun(RpcCall(0))
  const TOOK := START.(pc := PostReturned(true), callee := Some(1))
  const REFUSED := START.(pc := PostReturned(false))
  const TOLD := REFUSED.(refusalTold := true, signals := Rpc.RefusalSignals())

  lemma BeginBoth() returns (acts: seq<Action>)
    ensures Exec(Init(1, 1), acts) == Pair(Running, 0, START, START, map[0 := 1], 0, FRESH, TOP, NotStopping)
  {
    hide Exec;
    var s := Init(1, 1);
    NoSteps(s);
    assert s.groups[0] == [Client(FRESH)];
    var t := s.(life := Running, workers := [TOP]);
    acts := Reach(s, [], Run, t);
    acts := Reach(s, acts, BeginPost(RpcCall(0)), t.(posters := [START], slots := map[0 := 0]));
    acts := Reach(s, acts, BeginPost(RpcCall(0)),
                  Pair(Running, 0, START, START, map[0 := 1], 0, FRESH, TOP, NotStopping));
  }

  /** The first start is accepted, and its event takes the completion of the second. */
  lemma CheckFirst() returns (acts: seq<Action>)
    ensures Exec(Init(1, 1), acts) ==
            Pair(Running, 1, START.(pc := PostAllowed), START, map[0 := 1], 0, FRESH, TOP, NotStopping)
  {
    hide Exec;
    acts := BeginBoth();
    var s := Init(1, 1);
    acts := Reach(s, acts, EnterPost(0),
                  Pair(Running, 1, START.(pc := PostEntered), START, map[0 := 1], 0, FRESH, TOP, NotStopping));
    acts := Reach(s, acts, CheckPost(0),
                  Pair(Running, 1, START.(pc := PostAllowed), START, map[0 := 1], 0, FRESH, TOP, NotStopping));
  }

  lemma AcceptFirst() returns (acts: seq<Action>)
    ensures Exec(Init(1, 1), acts) == Pair(Running, 0, TOOK, START, map[], 1, PENDING, TOP, NotStopping)
  {
    hide Exec;
    acts := CheckFirst();
    var s := Init(1, 1);
    SetOnly(Client(FRESH), Client(PENDING));
    assert Register(FRESH, 0) == PENDING;
    acts := Reach(s, acts, CreateEvent(0),
                  Pair(Running, 1, TOOK.(pc := PostCreated), START, map[], 1, PENDING, TOP, NotStopping));
    acts := Reach(s, acts, LeavePost(0), Pair(Running, 0, TOOK, START, map[], 1, PENDING, TOP, NotStopping));
  }

  /** The context stops, and the second start is refused. */
  lemma RefuseSecond() returns (acts: seq<Action>)
    ensures Exec(Init(1, 1), acts) == Pair(ShuttingDown, 0, TOOK, REFUSED, map[], 1, PENDING, TOP, AwaitingPosts)
  {
    hide Exec;
    acts := AcceptFirst();
    var s := Init(1, 1);
    acts := Reach(s, acts, CallStop, Pair(ShuttingDown, 0, TOOK, START, map[], 1, PENDING, TOP, AwaitingPosts));
    acts := Reach(s, acts, EnterPost(1),
                  Pair(ShuttingDown, 1, TOOK, START.(pc := PostEntered), map[], 1, PENDING, TOP, AwaitingPosts));
    acts := Reach(s, acts, CheckPost(1),
                  Pair(ShuttingDown, 1, TOOK, START.(pc := PostRefused), map[], 1, PENDING, TOP, AwaitingPosts));
    acts := Reach(s, acts, LeavePost(1), Pair(ShuttingDown, 0, TOOK, REFUSED, map[], 1, PENDING, TOP, AwaitingPosts));
  }

  lemma TellSecond() returns (acts: seq<Action>)
    ensures Exec(Init(1, 1), acts) == Pair(ShuttingDown, 0, TOOK, TOLD, map[], 1, READY, TOP, AwaitingPosts)
  {
    hide Exec;
    acts := RefuseSecond();
    var s := Init(1, 1);
    var refusal: seq<Rpc.Signal<Payload>> := Rpc.RefusalSignals();
    assert REFUSED.signals + refusal == refusal;
    acts := Reach(s, acts, TellRefusal(1), Pair(ShuttingDown, 0, TOOK, TOLD, map[], 1, PENDING, TOP, AwaitingPosts));
    SetOnly(Client(PENDING), Client(READY));
    assert MakeReady(PENDING, 0, true) == READY;
    acts := Reach(s, acts, EndOperation(0, 0, 0, true),
                  Pair(ShuttingDown, 0, TOOK, TOLD, map[], 1, READY, TOP, AwaitingPosts));
  }

  const DONE := Cq({}, map[], false)
  const TWICE := TOLD.(signals := Rpc.RefusalSignals() + [Rpc.SetValue(7)])

  lemma DeliverFirst()
    ensures Step(Pair(ShuttingDown, 0, TOOK, TOLD, map[], 1, READY, TOP, AwaitingPosts),
                 Poll(0, Event(0, true), Rpc.Status(0, ""), Rpc.Converted(7), false)) ==
            Pair(ShuttingDown, 0, TOOK.(completions := 1), TWICE, map[], 1, DONE, Polling(0, 1, 0, 1, 0, 0),
                 AwaitingPosts)
  {
    assert Probe(0, 0, 1) == 0;
    assert [TOP][0 := Polling(0, 1, 0, 1, 0, 0)] == [Polling(0, 1, 0, 1, 0, 0)];
    SetOnly(Client(READY), Client(DONE));
    assert Delivered(READY, 0) == DONE;
    var told: seq<Rpc.Signal<Payload>> := Rpc.DeliverySignals(true, Rpc.Status(0, ""), Rpc.Converted(7));
    assert told == [Rpc.SetValue(7)];
    assert [TOOK, TOLD][0 := TOOK.(completions := 1)] == [TOOK.(completions := 1), TOLD];
    assert CompletePost([TOOK, TOLD], 0, true, Rpc.Status(0, ""), Rpc.Converted(7)) == [TOOK.(completions := 1), TWICE];
  }

  /** Two starts of one sender overlap while the context stops: the accepted RPC is answered, but it is
      the receiver of the refused one that gets its value, after its refusal, and that of the accepted
      one will never be told anything. */
  lemma ToldTwice() returns (acts: seq<Action>)
    ensures var s := Exec(Init(1, 1), acts);
            && |s.posters| == 2
            && s.posters[0].pc == PostReturned(true) && s.posters[0].completions == 1 && s.posters[0].signals == []
            && s.posters[1].pc == PostReturned(false) && |s.posters[1].signals| == 2
  {
    hide Exec, Step;
    acts := TellSecond();
    DeliverFirst();
    acts := Reach(Init(1, 1), acts, Poll(0, Event(0, true), Rpc.Status(0, ""), Rpc.Converted(7), false),
                  Pair(ShuttingDown, 0, TOOK.(completions := 1), TWICE, map[], 1, DONE, Polling(0, 1, 0, 1, 0, 0),
                       AwaitingPosts));
  }
}
