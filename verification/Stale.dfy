/** A punctual run in which a time-out left by one client comes due before the time-out of another. */
module Stale {
  import opened Types
  import opened ClientData
  import opened Config
  import opened EngineAgent
  import opened Recorder
  import opened Daemon
  import opened Timing
  import opened Runs

  const LOAD := LoadEnv(true, Accepted, Accepted, Accepted, false, false, false, true, {"en"}, true, true, ["en"])
  const CALLS := Calls(Accepted, Accepted, Accepted, Accepted, Accepted, Accepted)

  /** One engine, and everything works. */
  const WORLD :=
    Env([EngineInfo("e", false)], LOAD, CALLS, Known(PcmS16), true, Accepted, true, true, None, 1,
        true, true, true, true, None, true)

  const CONF := Conf(Some("e"), Some("en"), 1, 0, 0)

  /** The daemon has its engine, loaded if anybody uses it. */
  predicate Up(d: State) {
    && d.hasEngine && d.agent.uuid.Some? && d.agent.lang == "en" && d.agent.conf.engineId.Some?
    && (d.clients != [] ==> d.agent.isLoaded && d.rec.callback && d.rec.audio.PcmS16?)
    && d.settings == []
  }

  lemma BootUp()
    ensures var d := Boot(CONF, WORLD); Up(d) && d.clients == [] && d.loop == Loop(map[], 0, 0)
  {
    var found := WORLD.found;
    var a := Initial(CONF);
    assert found[0].uuid <= "e" && "e" <= found[0].uuid;
    assert Begins(found, "e");
    assert FirstExtending(found, "e") == 0;
    assert InitializeCurrent(a, found).1 == 0;
  }

  lemma InitializeUp(d: State, uid: int)
    requires Up(d) && !Has(d.clients, uid)
    ensures var d' := Step(d, Initialize(0, uid), WORLD);
      Up(d') && d'.clients == d.clients + [Client(0, uid, Ready, None)] && d'.loop == d.loop
  {
    hide LoadCurrent, UnloadCurrent, InitializeCurrent, Has;
    LoadUp(d.agent);
  }

  lemma LoadUp(a: Agent)
    requires a.uuid.Some? && a.lang == "en"
    ensures var (b, ret) := LoadCurrent(a, LOAD);
      && ret == 0 && b.isLoaded && b.uuid == a.uuid && b.lang == a.lang && b.conf.engineId == a.conf.engineId
  {
    if !a.isLoaded { LoadOutcome(a, LOAD); }
  }

  lemma StartUp(d: State, uid: int)
    requires Up(d) && d.clients != [] && StartGuard(d, uid, WORLD) == 0
    ensures var d' := Step(d, Start(uid, "default", 2, 2, 2), WORLD);
      && Up(d') && d'.loop == AddTimer(d.loop, CheckRecording, STATE_CHECK_TIME)
      && d'.clients == WithTimer(WithState(d.clients, uid, Recording), uid, Some(d.loop.next))
  {
    hide WithState, WithTimer, StartGuard, Begin;
    StartAccepted(d.agent);
  }

  lemma StartAccepted(a: Agent)
    requires a.isLoaded
    ensures var (b, ret) := RecognizeStart(a, "default", 2, 2, 2, CALLS);
      && ret == 0 && b.isLoaded && b.uuid == a.uuid && b.lang == a.lang && b.conf == a.conf
  {
  }

  lemma StopUp(d: State, uid: int)
    requires Up(d) && d.clients != [] && StateOf(d.clients, uid) == Some(Recording)
    ensures var d' := Step(d, Stop(uid), WORLD); var l := DelTimer(d.loop, TimerOf(d.clients, uid));
      && Up(d') && d'.loop == AddTimer(l, ProcessingTimeout, STATE_CHECK_TIME)
      && d'.clients == WithTimer(WithState(d.clients, uid, Processing), uid, Some(l.next))
  {
    hide WithState, WithTimer, TimerOf, Chunks;
  }

  lemma FinalizeUp(d: State, uid: int)
    requires Up(d) && Has(d.clients, uid) && Without(d.clients, uid) != []
    ensures var d' := Step(d, Finalize(uid), WORLD);
      Up(d') && d'.loop == d.loop && d'.clients == Without(d.clients, uid)
  {
    hide Without;
  }

  lemma FindsFirst(a: Client, b: Client)
    ensures IndexOf([a, b], a.uid) == 0 && IndexOf([a], a.uid) == 0
    ensures a.uid != b.uid ==> IndexOf([a, b], b.uid) == 1
    ensures b.uid != a.uid ==> IndexOf([a], b.uid) == 1
  {
    assert [a, b][0] == a && [a, b][1] == b;
  }

  /** One step of the run, and a punctual one. */
  ghost predicate Linked(d: State, e: Event, d': State) {
    d.agent.conf.engineId.Some? && d' == Step(d, e, WORLD) && Punctual(d, e)
  }

  const START1 := Start(1, "default", 2, 2, 2)
  const START2 := Start(2, "default", 2, 2, 2)

  lemma TwoRegister() returns (d0: State, d1: State, d2: State)
    ensures d0 == Boot(CONF, WORLD) && Linked(d0, Initialize(0, 1), d1) && Linked(d1, Initialize(0, 2), d2)
    ensures Up(d2) && d2.loop == Loop(map[], 0, 0)
    ensures d2.clients == [Client(0, 1, Ready, None), Client(0, 2, Ready, None)]
  {
    hide Step, Boot;
    BootUp();
    d0 := Boot(CONF, WORLD);
    d1 := Step(d0, Initialize(0, 1), WORLD);
    InitializeUp(d0, 1);
    d2 := Step(d1, Initialize(0, 2), WORLD);
    FindsFirst(Client(0, 1, Ready, None), Client(0, 2, Ready, None));
    InitializeUp(d1, 2);
  }

  lemma FirstSession(d2: State) returns (d3: State, d4: State, d5: State)
    requires Up(d2) && d2.loop == Loop(map[], 0, 0)
    requires d2.clients == [Client(0, 1, Ready, None), Client(0, 2, Ready, None)]
    ensures Linked(d2, START1, d3) && Linked(d3, Stop(1), d4) && Linked(d4, Finalize(1), d5)
    ensures Up(d5) && d5.clients == [Client(0, 2, Ready, None)]
    ensures d5.loop == Loop(map[1 := Timer(ProcessingTimeout, 15500)], 2, 0)
  {
    hide Step, WithState, WithTimer, Without, StateOf, TimerOf, StartGuard;
    d3 := Step(d2, START1, WORLD);
    BothReady(d2);
    StartUp(d2, 1);
    FirstStarts(d2, d3);
    d4 := Step(d3, Stop(1), WORLD);
    StopUp(d3, 1);
    FirstStops(d3, d4);
    d5 := Step(d4, Finalize(1), WORLD);
    FirstLeaves(d4);
    FinalizeUp(d4, 1);
  }

  lemma SecondSession(d5: State) returns (d6: State, d7: State, d8: State)
    requires Up(d5) && d5.clients == [Client(0, 2, Ready, None)]
    requires d5.loop == Loop(map[1 := Timer(ProcessingTimeout, 15500)], 2, 0)
    ensures Linked(d5, Tick(1000), d6) && Linked(d6, START2, d7) && Linked(d7, Stop(2), d8)
    ensures StateOf(d8.clients, 2) == Some(Processing) && TimerOf(d8.clients, 2) == Some(3) && d8.loop.now == 1000
    ensures d8.loop.timers == map[1 := Timer(ProcessingTimeout, 15500), 3 := Timer(ProcessingTimeout, 16500)]
  {
    hide Step, WithState, WithTimer, StateOf, TimerOf, StartGuard;
    d6 := Step(d5, Tick(1000), WORLD);
    TickIs(d5, 1000, WORLD);
    d7 := Step(d6, START2, WORLD);
    OneReady(d6);
    StartUp(d6, 2);
    SecondStarts(d6, d7);
    d8 := Step(d7, Stop(2), WORLD);
    StopUp(d7, 2);
    SecondStops(d7, d8);
  }

  /** Two clients register, the first one starts, stops and leaves, and a second later the other starts and
      stops: its processing begins under a time-out that is due a second before its own, and before anything
      else. */
  lemma StaleTimeoutReached() returns (r: Run)
    ensures IsRun(r, CONF, WORLD) && |r.events| == 8 && (forall k :: 0 <= k < 8 ==> Punctual(r.states[k], r.events[k]))
    ensures var d := r.states[8];
      && StateOf(d.clients, 2) == Some(Processing) && TimerOf(d.clients, 2) == Some(3) && d.loop.now == 1000
      && d.loop.timers == map[1 := Timer(ProcessingTimeout, 15500), 3 := Timer(ProcessingTimeout, 16500)]
  {
    hide Step, Boot, Up, Punctual, StateOf, TimerOf;
    var d0, d1, d2 := TwoRegister();
    var d3, d4, d5 := FirstSession(d2);
    var d6, d7, d8 := SecondSession(d5);
    r := Run([d0, d1, d2, d3, d4, d5, d6, d7, d8],
             [Initialize(0, 1), Initialize(0, 2), START1, Stop(1), Finalize(1), Tick(1000), START2, Stop(2)],
             seq(8, i => WORLD));
  }

  lemma BothReady(d: State)
    requires Up(d) && d.clients == [Client(0, 1, Ready, None), Client(0, 2, Ready, None)]
    ensures StartGuard(d, 1, WORLD) == 0
  {
    FindsFirst(d.clients[0], d.clients[1]);
  }

  lemma OneReady(d: State)
    requires Up(d) && d.clients == [Client(0, 2, Ready, None)]
    ensures StartGuard(d, 2, WORLD) == 0
  {
    FindsFirst(d.clients[0], d.clients[0]);
  }

  lemma FirstStarts(d: State, d': State)
    requires d.clients == [Client(0, 1, Ready, None), Client(0, 2, Ready, None)] && d.loop == Loop(map[], 0, 0)
    requires d'.clients == WithTimer(WithState(d.clients, 1, Recording), 1, Some(d.loop.next))
    requires d'.loop == AddTimer(d.loop, CheckRecording, STATE_CHECK_TIME)
    ensures d'.clients == [Client(0, 1, Recording, Some(0)), Client(0, 2, Ready, None)]
    ensures StateOf(d'.clients, 1) == Some(Recording) && TimerOf(d'.clients, 1) == Some(0)
    ensures d'.loop == Loop(map[0 := Timer(CheckRecording, 15500)], 1, 0)
  {
    FindsFirst(d.clients[0], d.clients[1]);
    FindsFirst(Client(0, 1, Recording, None), d.clients[1]);
    FindsFirst(Client(0, 1, Recording, Some(0)), d.clients[1]);
  }

  lemma FirstStops(d: State, d': State)
    requires d.clients == [Client(0, 1, Recording, Some(0)), Client(0, 2, Ready, None)]
    requires d.loop == Loop(map[0 := Timer(CheckRecording, 15500)], 1, 0) && TimerOf(d.clients, 1) == Some(0)
    requires d'.clients == WithTimer(WithState(d.clients, 1, Processing), 1, Some(1))
    requires d'.loop == AddTimer(DelTimer(d.loop, Some(0)), ProcessingTimeout, STATE_CHECK_TIME)
    ensures d'.clients == [Client(0, 1, Processing, Some(1)), Client(0, 2, Ready, None)]
    ensures d'.loop == Loop(map[1 := Timer(ProcessingTimeout, 15500)], 2, 0)
  {
    FindsFirst(d.clients[0], d.clients[1]);
    FindsFirst(Client(0, 1, Processing, Some(0)), d.clients[1]);
  }

  lemma FirstLeaves(d: State)
    requires d.clients == [Client(0, 1, Processing, Some(1)), Client(0, 2, Ready, None)]
    ensures Has(d.clients, 1) && Without(d.clients, 1) == [Client(0, 2, Ready, None)]
  {
    FindsFirst(d.clients[0], d.clients[1]);
  }

  lemma SecondStarts(d: State, d': State)
    requires d.clients == [Client(0, 2, Ready, None)]
    requires d.loop == Loop(map[1 := Timer(ProcessingTimeout, 15500)], 2, 1000)
    requires d'.clients == WithTimer(WithState(d.clients, 2, Recording), 2, Some(d.loop.next))
    requires d'.loop == AddTimer(d.loop, CheckRecording, STATE_CHECK_TIME)
    ensures d'.clients == [Client(0, 2, Recording, Some(2))]
    ensures StateOf(d'.clients, 2) == Some(Recording) && TimerOf(d'.clients, 2) == Some(2)
    ensures d'.loop == Loop(map[1 := Timer(ProcessingTimeout, 15500), 2 := Timer(CheckRecording, 16500)], 3, 1000)
  {
    FindsFirst(d.clients[0], d.clients[0]);
    FindsFirst(Client(0, 2, Recording, None), d.clients[0]);
    FindsFirst(Client(0, 2, Recording, Some(2)), d.clients[0]);
  }

  lemma SecondStops(d: State, d': State)
    requires d.clients == [Client(0, 2, Recording, Some(2))] && TimerOf(d.clients, 2) == Some(2)
    requires d.loop == Loop(map[1 := Timer(ProcessingTimeout, 15500), 2 := Timer(CheckRecording, 16500)], 3, 1000)
    requires d'.clients == WithTimer(WithState(d.clients, 2, Processing), 2, Some(3))
    requires d'.loop == AddTimer(DelTimer(d.loop, Some(2)), ProcessingTimeout, STATE_CHECK_TIME)
    ensures StateOf(d'.clients, 2) == Some(Processing) && TimerOf(d'.clients, 2) == Some(3)
    ensures d'.loop.now == 1000
    ensures d'.loop.timers == map[1 := Timer(ProcessingTimeout, 15500), 3 := Timer(ProcessingTimeout, 16500)]
  {
    FindsFirst(d.clients[0], d.clients[0]);
    FindsFirst(Client(0, 2, Processing, Some(2)), d.clients[0]);
    FindsFirst(Client(0, 2, Processing, Some(3)), d.clients[0]);
  }
}
