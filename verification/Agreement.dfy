/** Runs of the whole system, what breaks agreement, and how the watchdog mends it. */
module Agreement {
  import opened Types
  import opened ClientData
  import Config
  import opened EngineAgent
  import opened Recorder
  import opened Daemon
  import opened Sessions
  import opened Devices
  import opened Effects
  import opened ClientLibrary
  import opened Composition
  import opened Cleanup
  import Runs

  // ---- Runs ----

  datatype SysRun = SysRun(states: seq<Sys>, actions: seq<Action>)

  ghost predicate IsSysRun(r: SysRun, conf: Config.Conf, env: Env) {
    && |r.states| == |r.actions| + 1 && conf.language.Some? && conf.engineId.Some?
    && r.states[0] == Sys(Boot(conf, env), map[])
    && (forall i :: 0 <= i < |r.actions| ==>
          r.states[i].d.agent.conf.engineId.Some? && r.states[i + 1] == NextSys(r.states[i], r.actions[i]))
  }

  ghost predicate Relied(r: SysRun, i: nat)
    requires |r.states| == |r.actions| + 1 && i <= |r.actions|
  {
    forall j :: 0 <= j < i ==> Rely(r.states[j], r.actions[j])
  }

  /** In every reachable state of the whole system the two copies of every session's state agree. */
  lemma {:induction false} AlwaysAgrees(r: SysRun, conf: Config.Conf, env: Env, i: nat)
    requires IsSysRun(r, conf, env) && i < |r.states| && Relied(r, i)
    ensures Coherent(r.states[i])
  {
    hide NextSys, Coherent, Rely;
    if i == 0 {
      BootCoherent(conf, env);
    } else {
      AlwaysAgrees(r, conf, env, i - 1);
      StepAgrees(r.states[i - 1], r.actions[i - 1]);
    }
  }

  lemma BootCoherent(conf: Config.Conf, env: Env)
    requires conf.language.Some? && conf.engineId.Some?
    ensures Coherent(Sys(Boot(conf, env), map[]))
  {
    hide Boot, Good, Sound;
    Runs.BootState(conf, env);
    BootEmpty(conf, env);
  }

  lemma BootEmpty(conf: Config.Conf, env: Env)
    requires conf.language.Some? && conf.engineId.Some?
    ensures Boot(conf, env).clients == [] && Boot(conf, env).bus == []
  {
  }

  /** A result only ever reaches a client that is processing. */
  lemma ResultsReachProcessing(r: SysRun, conf: Config.Conf, env: Env, i: nat, k: nat)
    requires IsSysRun(r, conf, env) && i < |r.actions| && Relied(r, i)
    requires r.actions[i] == Deliver(k) && k < |r.states[i].d.bus|
    ensures var uid := r.states[i].d.bus[k].uid; uid in r.states[i].h ==> r.states[i].h[uid].state == Processing
  {
    hide NextSys, Coherent, Rely;
    AlwaysAgrees(r, conf, env, i);
    DeliverKeeps(r.states[i], k);
  }

  predicate InAgreement(s: Sys, uid: int) {
    uid in s.h && Agree(s.h[uid].state, StatusOf(s.d, uid))
  }

  // ---- Allocation ----

  /** Every live handle carries the id its process's allocation gave it. */
  ghost predicate FromLibraries(h: map<int, Handle>) {
    forall uid :: uid in h ==> h[uid].serial > 0 && uid == UidOf(h[uid].pid, h[uid].serial)
  }

  /** The library of a process whose live handles, the new one included, are among its last 999 allocations
      hands out an id that no live handle of any process has. */
  lemma LibraryIdsAreFree(h: map<int, Handle>, hs: seq<Handle>, pid: int, n: nat)
    requires FromLibraries(h) && Numbered(hs, pid, n) && pid >= 1
    requires forall i :: 0 <= i < |hs| ==> hs[i].serial > n + 1 - MAX_HANDLE
    requires forall uid :: uid in h && h[uid].pid == pid ==> Live(hs, uid)
    ensures var handle := NewHandle(pid, n + 1);
      && handle.uid !in h && handle.uid > 0 && handle.before == handle.state == Created
      && FromLibraries(h[handle.uid := handle])
  {
    hide UidOf, Find, Numbered;
    var handle := NewHandle(pid, n + 1);
    NewIdIsFree(hs, pid, n);
    UidsMeet(pid, pid, n + 1, n + 1);
    if handle.uid in h {
      UidsMeet(h[handle.uid].pid, pid, h[handle.uid].serial, n + 1);
    }
  }

  /** A handle under an id of no live handle starts out in agreement exactly if the daemon has forgotten who
      had the id before, and nothing is on its way to it. */
  lemma CreateAgreesWhen(s: Sys, handle: Handle)
    requires Coherent(s) && handle.uid !in s.h && handle.state == Created && s.d.agent.conf.engineId.Some?
    ensures var s' := NextSys(s, Create(handle));
      InAgreement(s', handle.uid) <==>
        !Has(s.d.clients, handle.uid) && InFlight(s.d.bus, handle.uid) == 0
  {
    hide Good, Sound;
    StatusHas(s.d, handle.uid);
  }

  // ---- What breaks agreement, exactly ----

  /** Stopping keeps a recording client in agreement exactly when the engine's stop succeeds: if it fails the
      daemon goes back to READY while the client still takes itself to be recording. */
  lemma StopAgreesWhen(s: Sys, uid: int, env: Env)
    requires Coherent(s) && s.d.agent.conf.engineId.Some? && uid in s.h && s.h[uid].state == Recording
    ensures var s' := NextSys(s, Ask(uid, CallStop, "", 0, 0, 0, env));
      InAgreement(s', uid) <==> EngineStops(s.d, env)
  {
    hide Good, Sound, DoStop, StatusOf, RecognizeStop, OnlyTouches;
    StopStatus(s.d, uid, env);
    StatusState(s.d, uid);
  }

  /** A result keeps its client in agreement exactly when that client is ready already, or is processing and
      the result can be sent: not one that comes too early, is empty, lacks a string or is lost. */
  lemma ResultAgreesWhen(s: Sys, e: Event, env: Env)
    requires Coherent(s) && s.d.agent.conf.engineId.Some? && s.d.agent.isLoaded
    requires e.Result? && e.uid in s.h && Has(s.d.clients, e.uid)
    ensures var s' := NextSys(s, OfDaemon(e, env)); var st := StateOf(s.d.clients, e.uid);
      InAgreement(s', e.uid) <==>
        st == Some(Ready) || (st == Some(Processing) && Deliverable(e.outcome, e.data, env))
  {
    hide Good, Sound, Step, DoResult, OnlyTouches, Deliverable, StatusOf, SessionOf;
    var uid := e.uid;
    StepResults(s.d, e, env);
    StatusPid(s.d, uid);
    ResultStatus(s.d, uid, e.outcome, e.kind, e.data, e.text, env);
    StatusHas(s.d, uid);
    StatusState(s.d, uid);
    SessionIs(s.d.clients, uid);
    assert Agree(s.h[uid].state, StatusOf(s.d, uid));
  }

  /** The time-out keeps its client in agreement exactly when the message can be sent. */
  lemma TimeoutAgreesWhen(s: Sys, id: nat, env: Env)
    requires Coherent(s) && s.d.agent.conf.engineId.Some?
    requires IsDue(s.d.loop, id) && s.d.loop.timers[id].kind.ProcessingTimeout?
    requires FirstIn(s.d.clients, Processing) in s.h
    ensures var uid := FirstIn(s.d.clients, Processing); var s' := NextSys(s, OfDaemon(Fire(id), env));
      InAgreement(s', uid) <==> env.send
  {
    hide Good, Sound, NextSys, DoFire, DoTimeout, OnlyTouches, StatusOf, IsDue;
    var uid, d1 := FirstIn(s.d.clients, Processing), DoTimeout(s.d, env);
    SysFires(s, id, env);
    FireTimesOut(s.d, id, env);
    TimeoutStatus(s.d, env);
    LoopTouches(s.d, d1, DoFire(s.d, id, env).0.loop, uid);
    StatusState(s.d, uid);
    StatusPid(s.d, uid);
    assert Agree(s.h[uid].state, StatusOf(s.d, uid));
  }

  lemma FireTimesOut(d: State, id: nat, env: Env)
    requires IsDue(d.loop, id) && d.loop.timers[id].kind.ProcessingTimeout?
    ensures DoFire(d, id, env) == (DoTimeout(d, env).(loop := DoFire(d, id, env).0.loop), None)
  {
    hide DoTimeout;
  }

  /** The watchdog keeps a recording client in agreement exactly when the client answers in time: one that does
      not is forgotten while it lives, and goes on recording. */
  lemma CheckAgreesWhen(s: Sys, id: nat, env: Env)
    requires Coherent(s) && s.d.agent.conf.engineId.Some?
    requires IsDue(s.d.loop, id) && s.d.loop.timers[id].kind.CheckRecording?
    requires FirstIn(s.d.clients, Recording) in s.h && AnswersFor(s, FirstIn(s.d.clients, Recording), env.getState)
    ensures var uid := FirstIn(s.d.clients, Recording); var s' := NextSys(s, OfDaemon(Fire(id), env));
      InAgreement(s', uid) <==> env.getState.Some?
  {
    hide Good, Sound, NextSys, DoFire, DoCheck, DoFinalize, DoCancel, OnlyTouches, StatusOf, IsDue, FirstIn;
    var uid, d1 := FirstIn(s.d.clients, Recording), DoCheck(s.d, env).0;
    CurrentNotNone(s, uid);
    CurrentIs(s.d.clients, Recording);
    SysFires(s, id, env);
    FireChecks(s.d, id, env);
    CheckCases(s.d, env);
    AgreedAt(s, uid);
    FinalizeStatus(s.d, uid, env);
    NobodyTouched(s.d, s.d, uid);
    LoopTouches(s.d, d1, DoFire(s.d, id, env).0.loop, uid);
    assert Agree(s.h[uid].state, StatusOf(s.d, uid));
  }

  lemma CurrentNotNone(s: Sys, uid: int)
    requires Recorded(s) && uid in s.h
    ensures uid != -1 && uid > 0
  {
  }

  /** A stop by silence keeps a recording client in agreement exactly when the engine stops and the client takes
      its new state. */
  lemma SilenceAgreesWhen(s: Sys, id: nat, env: Env)
    requires Coherent(s) && s.d.agent.conf.engineId.Some?
    requires IsDue(s.d.loop, id) && s.d.loop.timers[id].kind.StopBySilence?
    requires FirstIn(s.d.clients, Recording) in s.h
    ensures var uid := FirstIn(s.d.clients, Recording); var s' := NextSys(s, OfDaemon(Fire(id), env));
      InAgreement(s', uid) <==> EngineStops(s.d, env) && env.setState
  {
    hide Good, Sound, NextSys, DoFire, DoStop, DoFinalize, OnlyTouches, StatusOf, IsDue, FirstIn;
    hide SessionOf, EngineStops;
    var uid := FirstIn(s.d.clients, Recording);
    var d1, d2 := DoStop(s.d, uid, env).0, DoSilence(s.d, env).0;
    CurrentNotNone(s, uid);
    CurrentIs(s.d.clients, Recording);
    SysFires(s, id, env);
    FireSilences(s.d, id, env);
    AgreedAt(s, uid);
    StopStatus(s.d, uid, env);
    StopSession(s.d, uid, env);
    FinalizeStatus(d1, uid, env);
    if d2 == d1 {
      LoopTouches(s.d, d1, DoFire(s.d, id, env).0.loop, uid);
    } else {
      LoopTouches(d1, d2, DoFire(s.d, id, env).0.loop, uid);
    }
    StatusPid(s.d, uid);
    StatusPid(d1, uid);
    assert Agree(s.h[uid].state, StatusOf(s.d, uid));
  }

  lemma FireSilences(d: State, id: nat, env: Env)
    requires IsDue(d.loop, id) && d.loop.timers[id].kind.StopBySilence?
    ensures DoFire(d, id, env) == (DoSilence(d, env).0.(loop := DoFire(d, id, env).0.loop), DoSilence(d, env).1)
  {
    hide DoSilence;
  }

  /** A cleanup pass keeps a registered live client in agreement exactly when its hello is not answered with 0,
      as an answer that does not arrive is taken to be. */
  lemma CleanupAgreesWhen(s: Sys, visits: seq<Visit>, env: Env, i: nat)
    requires Coherent(s) && s.d.agent.conf.engineId.Some? && |visits| == |s.d.clients|
    requires i < |visits| && s.d.clients[i].uid in s.h
    ensures var uid := s.d.clients[i].uid; var s' := NextSys(s, OfDaemon(Event.Cleanup(visits), env));
      InAgreement(s', uid) <==> visits[i].hello != 0
  {
    hide Good, Sound, CleanupFrom, StatusOf, Uids, Survivors;
    var uid, uids := s.d.clients[i].uid, Uids(s.d.clients);
    var s' := NextSys(s, OfDaemon(Event.Cleanup(visits), env));
    ListedAt(s.d.clients, i);
    CleanupFilters(s.d, visits);
    SurvivesWhen(s.d.clients, visits, i);
    CleanupStatus(s.d, uids, visits, uid);
    StatusPid(s.d, uid);
    StatusPid(s'.d, uid);
    assert Agree(s.h[uid].state, StatusOf(s.d, uid));
  }

  lemma ListedAt(cs: seq<Client>, i: nat)
    requires Good(cs) && i < |cs|
    ensures Unique(cs) && Has(cs, cs[i].uid) && PidOf(cs, cs[i].uid) == cs[i].pid
  {
    IndexOfIs(cs, i);
  }

  lemma StepResults(d: State, e: Event, env: Env)
    requires d.agent.conf.engineId.Some? && e.Result?
    ensures Step(d, e, env) == DoResult(d, e.uid, e.outcome, e.kind, e.data, e.text, env)
  {
    hide DoResult;
  }

  // ---- The watchdog ----

  /** The client is forgotten, or both sides are in the same state. */
  predicate Settled(s: Sys, uid: int) {
    !Has(s.d.clients, uid) || (uid in s.h && StateOf(s.d.clients, uid) == Some(s.h[uid].state))
  }

  /** What may come back when a recording client is asked for its state: nothing, from a client that is gone
      or does not answer in time, or the state of its handle, or -1 for a handle that is no more. */
  predicate AnswersFor(s: Sys, uid: int, getState: Option<int>) {
    getState.None? || getState == Some(if uid in s.h then StateCode(s.h[uid].state) else -1)
  }

  predicate EngineCancels(d: State, env: Env) {
    d.agent.isLoaded && env.calls.cancel.Accepted?
  }

  /** When one firing of the recording check settles the daemon's recording client. */
  predicate Mends(s: Sys, uid: int, env: Env) {
    || PidOf(s.d.clients, uid) < 0 || env.getState.None?
    || (uid in s.h &&
          match s.h[uid].state
          case Recording => true
          case Ready => EngineCancels(s.d, env)
          case Processing => EngineCancels(s.d, env) && env.setState
          case Created => false)
  }

  /** From any state of the client, in agreement or not, answering or not: one firing of the check settles it
      exactly when `Mends` says, and no other client's record changes on either side. The check takes a handle
      that was destroyed in a living process, or one in CREATED, for a client in order. */
  lemma WatchdogConverges(s: Sys, id: nat, env: Env)
    requires Good(s.d.clients) && s.d.agent.conf.engineId.Some?
    requires IsDue(s.d.loop, id) && s.d.loop.timers[id].kind.CheckRecording?
    requires FirstIn(s.d.clients, Recording) != -1
    requires AnswersFor(s, FirstIn(s.d.clients, Recording), env.getState)
    ensures var uid := FirstIn(s.d.clients, Recording); var s' := NextSys(s, OfDaemon(Fire(id), env));
      && (Settled(s', uid) <==> Mends(s, uid, env))
      && OnlyTouches(s.d, s'.d, uid)
      && (forall v :: v != uid ==> (v in s'.h <==> v in s.h) && (v in s.h ==> s'.h[v] == s.h[v]))
      && s'.d.bus == s.d.bus
  {
    hide Good, DoFinalize, DoCancel, DoCheck, DoFire, NextSys;
    hide OnlyTouches, StatusOf, IsDue, FirstIn, Has, PidOf, StateOf;
    var uid, s' := FirstIn(s.d.clients, Recording), NextSys(s, OfDaemon(Fire(id), env));
    SysFires(s, id, env);
    CurrentIs(s.d.clients, Recording);
    FireChecks(s.d, id, env);
    CheckCases(s.d, env);
    var d1 := DoCheck(s.d, env).0;
    if PidOf(s.d.clients, uid) < 0 || env.getState.None? {
      FinalizeStatus(s.d, uid, env);
      FinalizeBus(s.d, uid, env);
    } else if env.getState.value == 1 || env.getState.value == 3 {
      CancelStatus(s.d, uid, env);
      CancelBus(s.d, uid, env);
    } else {
      NobodyTouched(s.d, s.d, uid);
    }
    LoopTouches(s.d, d1, s'.d.loop, uid);
    StatusPid(s.d, uid);
    StatusPid(d1, uid);
    StatusState(s.d, uid);
    StatusState(d1, uid);
    SettledIs(s'.d, d1, uid);
  }

  lemma SettledIs(d: State, d1: State, uid: int)
    requires d.clients == d1.clients
    ensures Has(d.clients, uid) == StateOf(d1.clients, uid).Some? && StateOf(d.clients, uid) == StateOf(d1.clients, uid)
  {
  }

  lemma SysFires(s: Sys, id: nat, env: Env)
    requires s.d.agent.conf.engineId.Some?
    ensures var (d, push) := DoFire(s.d, id, env);
      NextSys(s, OfDaemon(Fire(id), env)) == s.(d := d, h := Receive(s.h, push))
  {
    hide DoFire;
  }

  lemma FireChecks(d: State, id: nat, env: Env)
    requires IsDue(d.loop, id) && d.loop.timers[id].kind.CheckRecording?
    ensures DoFire(d, id, env).0 == DoCheck(d, env).0.(loop := DoFire(d, id, env).0.loop)
    ensures DoFire(d, id, env).1 == DoCheck(d, env).2
  {
    hide DoCheck;
  }

  lemma StatusPid(d: State, uid: int)
    ensures StatusOf(d, uid).pid == PidOf(d.clients, uid) && (StatusOf(d, uid).st.Some? <==> Has(d.clients, uid))
  {
  }

  lemma CancelBus(d: State, uid: int, env: Env)
    ensures DoCancel(d, uid, env).0.bus == d.bus
  {
  }
}
