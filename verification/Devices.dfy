/** Who may be using the engine and the recorder. */
module Devices {
  import opened Types
  import opened ClientData
  import opened EngineAgent
  import opened Recorder
  import opened Daemon
  import opened Sessions

  /** The agent's own invariant, and a current engine exists exactly when the daemon thinks so. */
  ghost predicate Sound(d: State) {
    AgentOk(d.agent) && (d.hasEngine <==> d.agent.uuid.Some?)
  }

  /** The engine is in recognition only on behalf of the client that holds the session. */
  predicate EngineOwned(d: State) {
    d.agent.plug.busy ==> SessionOf(d.clients).Held?
  }

  /** The recorder's flag says recording only while the session is one of recording. */
  predicate RecorderOwned(d: State) {
    d.rec.recording ==> SessionOf(d.clients).Held? && SessionOf(d.clients).st.Recording?
  }

  /** The engine's answer to a stop that does not leave it in recognition for nobody. */
  predicate Yields(ans: Answer) {
    ans.Accepted? || (ans.Refused? && !ans.holds)
  }

  /** A busy engine obeys a cancel, has a stop function, and if that refuses is idle. */
  predicate EngineObeys(d: State, env: Env) {
    d.agent.plug.busy ==> env.calls.cancel.Accepted? && Yields(env.calls.stop)
  }

  /** While it records, the recorder can be stopped and cancelled. */
  predicate RecorderObeys(d: State, env: Env) {
    d.rec.recording ==> env.recCancel && StopSucceeds(d.rec, env.file)
  }

  /** Whoever uses the engine, a client or a setting application, finds it loaded. */
  predicate LoadedWhileUsed(d: State) {
    RefCount(d) > 0 ==> d.agent.isLoaded
  }

  /** `d'` follows `d` keeping the agent sound, the engine chosen, and loaded if it was in use. */
  ghost predicate Steady(d: State, d': State) {
    && Sound(d') && SameEngine(d.agent, d'.agent)
    && (LoadedWhileUsed(d) ==> LoadedWhileUsed(d'))
  }

  lemma EngineIdStays(d: State)
    requires Sound(d)
    ensures d.agent.conf.engineId.Some?
  {
  }

  // ---- The agent's invariant through every handler, with no assumption ----

  lemma InitializeSound(d: State, pid: int, uid: int, env: Env)
    requires Sound(d)
    ensures Sound(DoInitialize(d, pid, uid, env).0)
  {
    hide EnsureEngine, LoadCurrent, UnloadCurrent;
    EnsureSound(d, env);
    var d1 := EnsureEngine(d, env).0;
    LoadKeepsOk(d1.agent, env.load);
    LoadKeepsPlug(d1.agent, env.load);
    UnloadKeepsOk(d1.agent);
    UnloadKeepsOk(LoadCurrent(d1.agent, env.load).0);
  }

  lemma EnsureSound(d: State, env: Env)
    requires Sound(d)
    ensures Sound(EnsureEngine(d, env).0)
    ensures EnsureEngine(d, env).0.agent.plug == d.agent.plug
  {
    if !d.hasEngine { InitializeKeepsOk(d.agent, env.found); }
  }

  lemma FinalizeSound(d: State, uid: int, env: Env)
    requires Sound(d)
    ensures Steady(d, DoFinalize(d, uid, env).0)
  {
    hide RecognizeCancel, UnloadCurrent, CancelRec, Without, StateOf, AgentOk;
    WithoutLength(d.clients, uid);
    CancelKeepsOk(d.agent, env.calls.cancel);
    UnloadKeepsOk(d.agent);
    UnloadKeepsOk(RecognizeCancel(d.agent, env.calls.cancel).0);
  }

  lemma WithoutLength(cs: seq<Client>, uid: int)
    ensures |Without(cs, uid)| == if Has(cs, uid) then |cs| - 1 else |cs|
  {
  }

  lemma StartSound(d: State, uid: int, lang: string, p: int, u: int, s: int, env: Env)
    requires Sound(d)
    ensures Steady(d, DoStart(d, uid, lang, p, u, s, env).0)
  {
    hide RecognizeStart, SetOptions;
    StartKeepsOk(d.agent, lang, p, u, s, env.calls);
    StartKeepsUuid(d.agent, lang, p, u, s, env.calls);
  }

  lemma StartKeepsUuid(a: Agent, lang: string, p: int, u: int, s: int, calls: Calls)
    ensures var b := RecognizeStart(a, lang, p, u, s, calls).0;
      SameEngine(a, b) && b.isLoaded == a.isLoaded
  {
    hide SetOptions;
  }

  lemma StopSound(d: State, uid: int, env: Env)
    requires Sound(d)
    ensures Steady(d, DoStop(d, uid, env).0)
  {
    hide StopRecorder, RecognizeStop, AgentOk, WithState, WithTimer, StateOf, TimerOf, Has;
    StopRecorderKeepsClients(d, env);
    StopKeepsOk(d.agent, env.calls.stop);
  }

  lemma CancelSound(d: State, uid: int, env: Env)
    requires Sound(d)
    ensures Steady(d, DoCancel(d, uid, env).0)
  {
    hide RecognizeCancel, CancelRec, AgentOk;
    CancelKeepsOk(d.agent, env.calls.cancel);
  }

  lemma SendResultKeeps(d: State, uid: int, kind: Option<string>, data: seq<Option<string>>, text: Option<string>,
                        env: Env)
    ensures var d' := SendResult(d, uid, kind, data, text, env).0;
      |d'.clients| <= |d.clients| && d'.agent == d.agent && d'.hasEngine == d.hasEngine && d'.rec == d.rec
        && d'.loop == d.loop && d'.settings == d.settings
  {
  }

  lemma TimeoutSound(d: State, env: Env)
    requires Sound(d)
    ensures Steady(d, DoTimeout(d, env))
  {
    hide SendResult;
    var d1 := d.(agent := RecognizeCancel(d.agent, env.calls.cancel).0);
    SendResultKeeps(d1, FirstIn(d.clients, Processing), Some(FREE), [], Some(TIMED_OUT_TEXT), env);
  }

  lemma CheckSound(d: State, env: Env)
    requires Sound(d)
    ensures Steady(d, DoCheck(d, env).0)
  {
    hide DoFinalize, DoCancel, AgentOk;
    var uid := FirstIn(d.clients, Recording);
    FinalizeSound(d, uid, env);
    CancelSound(d, uid, env);
  }

  lemma SilenceSound(d: State, env: Env)
    requires Sound(d)
    ensures Steady(d, DoSilence(d, env).0)
  {
    hide DoStop, DoFinalize, AgentOk;
    var uid := FirstIn(d.clients, Recording);
    StopSound(d, uid, env);
    FinalizeSound(DoStop(d, uid, env).0, uid, env);
  }

  lemma FireSound(d: State, id: nat, env: Env)
    requires Sound(d)
    ensures Steady(d, DoFire(d, id, env).0)
  {
    hide DoCheck, DoSilence, DoTimeout, AgentOk;
    CheckSound(d, env);
    SilenceSound(d, env);
    TimeoutSound(d, env);
  }

  lemma {:induction false} CleanupSound(d: State, uids: seq<int>, visits: seq<Visit>)
    requires Sound(d) && |uids| == |visits|
    ensures Steady(d, CleanupFrom(d, uids, visits))
    decreases |uids|
  {
    hide DoFinalize;
    if uids != [] {
      FinalizeSound(d, uids[0], visits[0].env);
      var d1 := if HelloResult(d, uids[0], visits[0].hello) == 0 then DoFinalize(d, uids[0], visits[0].env).0 else d;
      CleanupSound(d1, uids[1..], visits[1..]);
    }
  }

  lemma SettingSound(d: State, e: Event, env: Env)
    requires Sound(d)
    ensures Sound(DoSetting(d, e, env).0)
  {
    hide SetEngine, SetDefault;
    match e
    case SettingEngine(pid, engine) =>
      SetEngineKeepsOk(d.agent, engine, env.load);
      SetEngineKeepsSet(d.agent, engine, env.load);
    case SettingDefault(pid, which, value) =>
      SetDefaultKeepsOk(d.agent, which, value, env.calls);
      SetDefaultKeepsUuid(d.agent, which, value, env.calls);
    case _ =>
  }

  lemma SetDefaultKeepsUuid(a: Agent, which: Which, value: bool, calls: Calls)
    ensures var b := SetDefault(a, which, value, calls).0;
      b.uuid == a.uuid && b.plug == a.plug && b.isLoaded == a.isLoaded && b.conf.engineId == a.conf.engineId
      && b.engines == a.engines && b.lang == a.lang
  {
  }

  lemma SetEngineKeepsSet(a: Agent, id: string, le: LoadEnv)
    ensures var b := SetEngine(a, id, le).0;
      (b.uuid.Some? <==> a.uuid.Some?) && b.plug.misused == a.plug.misused && (b.plug.busy ==> a.plug.busy)
        && b.engines == a.engines
  {
    hide LoadCurrent;
    if a.uuid.Some? {
      var b := SetCurrent(UnloadCurrent(a).0, id).0;
      LoadKeepsPlug(SetCurrent(b, a.uuid.value).0, le);
      LoadKeepsPlug(b, le);
    }
  }

  lemma LoadKeepsPlug(a: Agent, le: LoadEnv)
    ensures var b := LoadCurrent(a, le).0;
      b.uuid == a.uuid && b.plug.busy == a.plug.busy && b.plug.misused == a.plug.misused && b.engines == a.engines
      && b.conf.engineId == a.conf.engineId
  {
  }

  lemma ResultSound(d: State, uid: int, outcome: Outcome, kind: Option<string>, data: seq<Option<string>>,
                    text: Option<string>, env: Env)
    requires Sound(d)
    ensures Steady(d, DoResult(d, uid, outcome, kind, data, text, env))
  {
    hide SendResult;
    var d1 := d.(agent := ResultReported(d.agent, env.resultEnds), loop := DelTimer(d.loop, TimerOf(d.clients, uid)));
    SendResultKeeps(d1, uid, kind, if outcome.Success? then data else [], text, env);
  }

  lemma SettingInitializeSound(d: State, pid: int, env: Env)
    requires Sound(d)
    ensures Sound(DoSettingInitialize(d, pid, env).0)
  {
    hide EnsureEngine, LoadCurrent;
    EnsureSound(d, env);
    LoadKeepsOk(EnsureEngine(d, env).0.agent, env.load);
    LoadKeepsPlug(EnsureEngine(d, env).0.agent, env.load);
  }

  lemma SettingFinalizeSound(d: State, pid: int)
    requires Sound(d)
    ensures Sound(DoSettingFinalize(d, pid).0)
  {
    UnloadKeepsOk(d.agent);
  }

  lemma StepSound(d: State, e: Event, env: Env)
    requires Sound(d)
    ensures Sound(Step(d, e, env))
  {
    hide DoInitialize, DoFinalize, DoStart, DoStop, DoCancel, DoResult, DoFire, CleanupFrom, StopRecorder;
    hide DoSetting, DoSettingInitialize, DoSettingFinalize, AgentOk;
    match e
    case Initialize(pid, uid) => InitializeSound(d, pid, uid, env);
    case Finalize(uid) => FinalizeSound(d, uid, env);
    case Start(uid, lang, p, u, s) => StartSound(d, uid, lang, p, u, s, env);
    case Stop(uid) => StopSound(d, uid, env);
    case Cancel(uid) => CancelSound(d, uid, env);
    case Result(uid, outcome, kind, data, text) => ResultSound(d, uid, outcome, kind, data, text, env);
    case CamcorderStops => StopRecorderKeepsClients(d, env);
    case Fire(id) => FireSound(d, id, env);
    case Cleanup(visits) => if |visits| == |d.clients| { CleanupSound(d, Uids(d.clients), visits); }
    case SettingInitialize(pid) => SettingInitializeSound(d, pid, env);
    case SettingFinalize(pid) => SettingFinalizeSound(d, pid);
    case SilenceDetected =>
    case AudioChunk =>
    case CamcorderCancels =>
    case Tick(ms) =>
    case _ => SettingSound(d, e, env);
  }

  // ---- Ownership of the engine and of the recorder ----

  /** `d'` follows `d` keeping both ownerships, each under its own assumption on the device. */
  ghost predicate KeepsOwners(d: State, env: Env, d': State) {
    && d'.agent.plug.misused == d.agent.plug.misused
    && (EngineOwned(d) && EngineObeys(d, env) ==> EngineOwned(d'))
    && (RecorderOwned(d) && RecorderObeys(d, env) ==> RecorderOwned(d'))
  }

  /** A device is not taken up. */
  predicate Relaxes(d: State, d': State) {
    && (d'.agent.plug.busy ==> d.agent.plug.busy)
    && (d'.rec.recording ==> d.rec.recording)
    && d'.rec.callback == d.rec.callback && d'.rec.audio == d.rec.audio
  }

  lemma InitializeOwners(d: State, pid: int, uid: int, env: Env)
    requires Good(d.clients) && Sound(d) && uid > 0
    ensures var d' := DoInitialize(d, pid, uid, env).0;
      d'.agent.plug.misused == d.agent.plug.misused
      && (EngineOwned(d) ==> EngineOwned(d')) && (RecorderOwned(d) ==> RecorderOwned(d'))
  {
    hide EnsureEngine, LoadCurrent, SessionOf;
    InitializeSession(d, pid, uid, env);
    EnsureSound(d, env);
    var d1 := EnsureEngine(d, env).0;
    EnsureKeeps(d, env);
    LoadKeepsPlug(d1.agent, env.load);
  }

  lemma EnsureKeeps(d: State, env: Env)
    requires d.agent.conf.engineId.Some?
    ensures var d1 := EnsureEngine(d, env).0;
      d1.clients == d.clients && d1.rec == d.rec && d1.settings == d.settings && d1.loop == d.loop && d1.bus == d.bus
  {
  }

  lemma FinalizeOwners(d: State, uid: int, env: Env)
    requires Good(d.clients) && Sound(d)
    ensures var d' := DoFinalize(d, uid, env).0; KeepsOwners(d, env, d') && Relaxes(d, d')
  {
    hide RecognizeCancel, UnloadCurrent, Without, SessionOf, AgentOk;
    FinalizeSession(d, uid, env);
    SessionIs(d.clients, uid);
    CancelKeepsOk(d.agent, env.calls.cancel);
    UnloadKeepsOk(d.agent);
    UnloadKeepsOk(RecognizeCancel(d.agent, env.calls.cancel).0);
  }

  lemma StartTakesEngine(a: Agent, lang: string, p: int, u: int, s: int, calls: Calls)
    requires AgentOk(a) && !a.plug.busy
    ensures var (b, ret) := RecognizeStart(a, lang, p, u, s, calls);
      && b.plug.misused == a.plug.misused && b.isLoaded == a.isLoaded
      && (ret == 0 <==> a.isLoaded && SetOptions(a.opts, p, u, s, calls).1 && calls.start.Accepted?)
      && (b.plug.busy <==> ret == 0 || (a.isLoaded && SetOptions(a.opts, p, u, s, calls).1 && Holds(calls.start)))
  {
    hide SetOptions;
  }

  /** A start whose call is refused leaves the engine idle, and one that the recorder does not follow can be
      taken back. */
  predicate StartYields(env: Env) {
    !Holds(env.calls.start) && (env.calls.start.Accepted? && !env.camcorder.Accepted? ==> env.calls.cancel.Accepted?)
  }

  /** A start reaches the engine only when the engine is idle, and takes up devices only for its client. */
  lemma StartOwners(d: State, uid: int, lang: string, p: int, u: int, s: int, env: Env)
    requires Good(d.clients) && Sound(d)
    ensures var d' := DoStart(d, uid, lang, p, u, s, env).0;
      && (EngineOwned(d) ==> d'.agent.plug.misused == d.agent.plug.misused)
      && (EngineOwned(d) && StartYields(env) ==> EngineOwned(d'))
      && (RecorderOwned(d) ==> RecorderOwned(d'))
  {
    hide RecognizeStart, SessionOf, RecognizeCancel, AgentOk;
    StartSession(d, uid, lang, p, u, s, env);
    if StartGuard(d, uid, env) == 0 {
      FreeIsAllReady(d.clients);
      if !d.agent.plug.busy { StartTakesEngine(d.agent, lang, p, u, s, env.calls); }
      StartKeepsOk(d.agent, lang, p, u, s, env.calls);
      CancelKeepsOk(RecognizeStart(d.agent, lang, p, u, s, env.calls).0, env.calls.cancel);
    }
  }

  lemma StopRecorderEffect(d: State, env: Env)
    ensures var d1 := StopRecorder(d, env);
      && d1.rec == StopRec(d.rec, env.file, env.recCommit).0
      && (RecorderObeys(d, env) ==> !d1.rec.recording)
  {
  }

  lemma StopOwners(d: State, uid: int, env: Env)
    requires Good(d.clients) && Sound(d)
    ensures var d' := DoStop(d, uid, env).0; KeepsOwners(d, env, d') && Relaxes(d, d')
  {
    hide StopRecorder, RecognizeStop, SessionOf, WithState, WithTimer, AgentOk;
    StopSession(d, uid, env);
    StopRecorderKeepsClients(d, env);
    StopRecorderEffect(d, env);
    StopKeepsOk(d.agent, env.calls.stop);
  }

  lemma CancelOwners(d: State, uid: int, env: Env)
    requires Good(d.clients) && Sound(d)
    ensures var d' := DoCancel(d, uid, env).0; KeepsOwners(d, env, d') && Relaxes(d, d')
  {
    hide RecognizeCancel, SessionOf, WithState, AgentOk;
    CancelSession(d, uid, env);
    SessionIs(d.clients, uid);
    CancelKeepsOk(d.agent, env.calls.cancel);
  }

  /** Results come after the recording was stopped: never for the client that still records. */
  predicate ResultInTime(d: State, e: Event) {
    e.Result? ==> StateOf(d.clients, e.uid) != Some(Recording)
  }

  /** The engine reports only after the stop, and with its report its recognition is over. */
  predicate ResultEnds(d: State, e: Event, env: Env) {
    ResultInTime(d, e) && (e.Result? && StateOf(d.clients, e.uid) == Some(Processing) ==> env.resultEnds)
  }

  lemma ResultOwners(d: State, uid: int, outcome: Outcome, kind: Option<string>, data: seq<Option<string>>,
                     text: Option<string>, env: Env)
    requires Good(d.clients) && Sound(d)
    ensures var d' := DoResult(d, uid, outcome, kind, data, text, env);
      && d'.agent.plug.misused == d.agent.plug.misused
      && (EngineOwned(d) && (StateOf(d.clients, uid) in {Some(Recording), Some(Processing)} ==> env.resultEnds) ==>
            EngineOwned(d'))
      && (RecorderOwned(d) && StateOf(d.clients, uid) != Some(Recording) ==> RecorderOwned(d'))
  {
    hide SendResult, SessionOf;
    ResultSession(d, uid, outcome, kind, data, text, env);
    SessionIs(d.clients, uid);
    var d1 := d.(agent := ResultReported(d.agent, env.resultEnds), loop := DelTimer(d.loop, TimerOf(d.clients, uid)));
    SendResultKeeps(d1, uid, kind, if outcome.Success? then data else [], text, env);
  }

  lemma TimeoutOwners(d: State, env: Env)
    requires Good(d.clients) && Sound(d)
    ensures KeepsOwners(d, env, DoTimeout(d, env))
  {
    hide SendResult, SessionOf, RecognizeCancel, AgentOk;
    TimeoutSession(d, env);
    CancelKeepsOk(d.agent, env.calls.cancel);
    var d1 := d.(agent := RecognizeCancel(d.agent, env.calls.cancel).0);
    SendResultKeeps(d1, FirstIn(d.clients, Processing), Some(FREE), [], Some(TIMED_OUT_TEXT), env);
  }

  lemma CheckOwners(d: State, env: Env)
    requires Good(d.clients) && Sound(d)
    ensures KeepsOwners(d, env, DoCheck(d, env).0)
  {
    hide DoFinalize, DoCancel, EngineOwned, RecorderOwned, EngineObeys, RecorderObeys, AgentOk;
    var uid := FirstIn(d.clients, Recording);
    FinalizeOwners(d, uid, env);
    CancelOwners(d, uid, env);
  }

  lemma SilenceOwners(d: State, env: Env)
    requires Good(d.clients) && Sound(d)
    ensures KeepsOwners(d, env, DoSilence(d, env).0)
  {
    hide DoStop, DoFinalize, EngineOwned, RecorderOwned, AgentOk;
    var uid := FirstIn(d.clients, Recording);
    StopOwners(d, uid, env);
    StopSession(d, uid, env);
    StopSound(d, uid, env);
    FinalizeOwners(DoStop(d, uid, env).0, uid, env);
  }

  lemma FireOwners(d: State, id: nat, env: Env)
    requires Good(d.clients) && Sound(d)
    ensures KeepsOwners(d, env, DoFire(d, id, env).0)
  {
    hide DoCheck, DoTimeout, DoSilence, SessionOf, AgentOk;
    CheckOwners(d, env);
    TimeoutOwners(d, env);
    SilenceOwners(d, env);
  }

  /** Every visit of a cleanup meets obedient devices. */
  predicate VisitsObey(d: State, visits: seq<Visit>) {
    && (forall i :: 0 <= i < |visits| ==> EngineObeys(d, visits[i].env))
  }

  predicate VisitsObeyRecorder(d: State, visits: seq<Visit>) {
    && (forall i :: 0 <= i < |visits| ==> RecorderObeys(d, visits[i].env))
  }

  lemma {:induction false} CleanupOwners(d: State, uids: seq<int>, visits: seq<Visit>)
    requires Good(d.clients) && Sound(d) && |uids| == |visits|
    ensures var d' := CleanupFrom(d, uids, visits);
      && d'.agent.plug.misused == d.agent.plug.misused
      && (EngineOwned(d) && VisitsObey(d, visits) ==> EngineOwned(d'))
      && (RecorderOwned(d) && VisitsObeyRecorder(d, visits) ==> RecorderOwned(d'))
    decreases |uids|
  {
    hide DoFinalize, SessionOf, AgentOk;
    if uids != [] {
      FinalizeOwners(d, uids[0], visits[0].env);
      FinalizeSession(d, uids[0], visits[0].env);
      FinalizeSound(d, uids[0], visits[0].env);
      var d1 := if HelloResult(d, uids[0], visits[0].hello) == 0 then DoFinalize(d, uids[0], visits[0].env).0 else d;
      assert VisitsObey(d, visits) ==> VisitsObey(d1, visits[1..]) && EngineObeys(d, visits[0].env);
      assert VisitsObeyRecorder(d, visits) ==> VisitsObeyRecorder(d1, visits[1..]) && RecorderObeys(d, visits[0].env);
      CleanupOwners(d1, uids[1..], visits[1..]);
    }
  }

  lemma SettingOwners(d: State, e: Event, env: Env)
    requires Sound(d)
    ensures var d' := DoSetting(d, e, env).0;
      && d'.agent.plug.misused == d.agent.plug.misused && (d'.agent.plug.busy ==> d.agent.plug.busy)
      && d'.rec == d.rec && d'.clients == d.clients
  {
    hide SetEngine, SetDefault;
    match e
    case SettingEngine(pid, engine) => SetEngineKeepsSet(d.agent, engine, env.load);
    case SettingDefault(pid, which, value) => SetDefaultKeepsUuid(d.agent, which, value, env.calls);
    case _ =>
  }

  lemma SettingInitializeOwners(d: State, pid: int, env: Env)
    requires Sound(d)
    ensures var d' := DoSettingInitialize(d, pid, env).0;
      && d'.agent.plug.misused == d.agent.plug.misused && (d'.agent.plug.busy ==> d.agent.plug.busy)
      && d'.rec == d.rec && d'.clients == d.clients
  {
    hide EnsureEngine, LoadCurrent;
    EnsureSound(d, env);
    EnsureKeeps(d, env);
    LoadKeepsPlug(EnsureEngine(d, env).0.agent, env.load);
  }

  /** What one step assumes of the engine. */
  predicate EngineRely(d: State, e: Event, env: Env) {
    && EngineObeys(d, env)
    && (e.Start? ==> StartYields(env))
    && ResultEnds(d, e, env)
    && (e.Cleanup? ==> VisitsObey(d, e.visits))
  }

  /** What one step assumes of the recorder. */
  predicate RecorderRely(d: State, e: Event, env: Env) {
    RecorderObeys(d, env) && (e.Cleanup? ==> VisitsObeyRecorder(d, e.visits)) && ResultInTime(d, e)
  }

  /** With the same clients, a device that is not taken up stays owned. */
  lemma OwnedAlike(d: State, d': State)
    ensures d'.clients == d.clients && (d'.agent.plug.busy ==> d.agent.plug.busy) && EngineOwned(d) ==> EngineOwned(d')
    ensures d'.clients == d.clients && (d'.rec.recording ==> d.rec.recording) && RecorderOwned(d) ==> RecorderOwned(d')
  {
  }

  /** The engine is never started while in recognition, and is in recognition only for the session's holder. */
  lemma StepEngine(d: State, e: Event, env: Env)
    requires Good(d.clients) && Sound(d) && PositiveUid(e) && EngineRely(d, e, env)
    requires EngineOwned(d) && !d.agent.plug.misused
    ensures EngineOwned(Step(d, e, env)) && !Step(d, e, env).agent.plug.misused
  {
    hide DoInitialize, DoFinalize, DoStart, DoStop, DoCancel, DoResult, DoFire, CleanupFrom, StopRecorder, SessionOf;
    hide DoSetting, DoSettingInitialize, AgentOk, EngineOwned, RecorderOwned, RecorderObeys, VisitsObeyRecorder, Good;
    EngineIdStays(d);
    OwnedAlike(d, Step(d, e, env));
    match e
    case Initialize(pid, uid) => InitializeOwners(d, pid, uid, env);
    case Finalize(uid) => FinalizeOwners(d, uid, env);
    case Start(uid, lang, p, u, s) => StartOwners(d, uid, lang, p, u, s, env);
    case Stop(uid) => StopOwners(d, uid, env);
    case Cancel(uid) => CancelOwners(d, uid, env);
    case Result(uid, outcome, kind, data, text) => ResultOwners(d, uid, outcome, kind, data, text, env);
    case CamcorderStops => StopRecorderKeepsClients(d, env);
    case Fire(id) => FireOwners(d, id, env);
    case Cleanup(visits) => if |visits| == |d.clients| { CleanupOwners(d, Uids(d.clients), visits); }
    case SettingInitialize(pid) => SettingInitializeOwners(d, pid, env);
    case SettingFinalize(pid) =>
    case SilenceDetected =>
    case AudioChunk =>
    case CamcorderCancels =>
    case Tick(ms) =>
    case _ => SettingOwners(d, e, env);
  }

  /** The recorder records only for the session's holder. */
  lemma StepRecorder(d: State, e: Event, env: Env)
    requires Good(d.clients) && Sound(d) && PositiveUid(e) && RecorderRely(d, e, env)
    requires RecorderOwned(d)
    ensures RecorderOwned(Step(d, e, env))
  {
    hide DoInitialize, DoFinalize, DoStart, DoStop, DoCancel, DoResult, DoFire, CleanupFrom, StopRecorder, SessionOf;
    hide DoSetting, DoSettingInitialize, AgentOk, EngineOwned, RecorderOwned, EngineObeys, VisitsObey, Good;
    EngineIdStays(d);
    OwnedAlike(d, Step(d, e, env));
    match e
    case Initialize(pid, uid) => InitializeOwners(d, pid, uid, env);
    case Finalize(uid) => FinalizeOwners(d, uid, env);
    case Start(uid, lang, p, u, s) => StartOwners(d, uid, lang, p, u, s, env);
    case Stop(uid) => StopOwners(d, uid, env);
    case Cancel(uid) => CancelOwners(d, uid, env);
    case Result(uid, outcome, kind, data, text) => ResultOwners(d, uid, outcome, kind, data, text, env);
    case CamcorderStops =>
      StopRecorderKeepsClients(d, env);
      StopRecorderEffect(d, env);
    case Fire(id) => FireOwners(d, id, env);
    case Cleanup(visits) => if |visits| == |d.clients| { CleanupOwners(d, Uids(d.clients), visits); }
    case SettingInitialize(pid) => SettingInitializeOwners(d, pid, env);
    case SettingFinalize(pid) =>
    case SilenceDetected =>
    case AudioChunk =>
    case CamcorderCancels =>
    case Tick(ms) =>
    case _ => SettingOwners(d, e, env);
  }

  // ---- Where the assumptions are needed ----

  /** After a cancel that succeeded, the recorder is owned exactly if it obeyed. */
  lemma CancelNeedsRecorder(d: State, uid: int, env: Env)
    requires Good(d.clients) && Sound(d) && RecorderOwned(d) && DoCancel(d, uid, env).1 == 0
    ensures RecorderOwned(DoCancel(d, uid, env).0) <==> (d.rec.recording ==> env.recCancel)
  {
    hide RecognizeCancel, SessionOf, WithState, AgentOk;
    CancelSession(d, uid, env);
    SessionIs(d.clients, uid);
  }

  /** After a stop, whatever the engine makes of it, the recorder is owned exactly if it was not recording, or has
      its callback and, for AMR, the recorded file. */
  lemma StopNeedsRecorder(d: State, uid: int, env: Env)
    requires Good(d.clients) && Sound(d) && StateOf(d.clients, uid) == Some(Recording)
    ensures RecorderOwned(DoStop(d, uid, env).0) <==>
      (d.rec.recording ==> d.rec.callback && (d.rec.audio.Amr? ==> env.file.Some?))
  {
    hide StopRecorder, RecognizeStop, SessionOf, WithState, WithTimer, TimerOf, AgentOk;
    StopSession(d, uid, env);
    StopRecorderEffect(d, env);
    StopCode(d.agent, env.calls.stop);
  }

  /** An engine without a stop function, and one that refuses the stop and goes on, are left in recognition for
      nobody; no other is. */
  lemma StopNeedsEngine(d: State, uid: int, env: Env)
    requires Good(d.clients) && Sound(d) && StateOf(d.clients, uid) == Some(Recording)
    ensures EngineOwned(DoStop(d, uid, env).0) <==> (d.agent.plug.busy ==> Yields(env.calls.stop))
  {
    hide StopRecorder, SessionOf, WithState, WithTimer;
    StopSession(d, uid, env);
    StopRecorderKeepsClients(d, env);
  }

  /** A start that gets as far as the engine's own start function leaves the engine in recognition for nobody
      exactly if that refuses and goes on, or if the recorder does not follow and the cancel fails. */
  lemma StartNeedsEngine(d: State, uid: int, lang: string, p: int, u: int, s: int, env: Env)
    requires Good(d.clients) && Sound(d) && EngineOwned(d) && StartGuard(d, uid, env) == 0
    requires d.agent.isLoaded && SetOptions(d.agent.opts, p, u, s, env.calls).1
    ensures EngineOwned(DoStart(d, uid, lang, p, u, s, env).0) <==> StartYields(env)
  {
    hide RecognizeStart, SessionOf, SetOptions, AgentOk;
    StartSession(d, uid, lang, p, u, s, env);
    FreeIsAllReady(d.clients);
    StartTakesEngine(d.agent, lang, p, u, s, env.calls);
  }

  /** After a result for the session's holder the engine is owned exactly if its recognition is over. */
  lemma ResultNeedsEnd(d: State, uid: int, outcome: Outcome, kind: Option<string>, data: seq<Option<string>>,
                       text: Option<string>, env: Env)
    requires Good(d.clients) && Sound(d) && d.agent.isLoaded
    requires SessionOf(d.clients).Held? && SessionOf(d.clients).uid == uid
    ensures EngineOwned(DoResult(d, uid, outcome, kind, data, text, env)) <==> (d.agent.plug.busy ==> env.resultEnds)
  {
    hide SendResult, SessionOf;
    ResultSession(d, uid, outcome, kind, data, text, env);
    var d1 := d.(agent := ResultReported(d.agent, env.resultEnds), loop := DelTimer(d.loop, TimerOf(d.clients, uid)));
    SendResultKeeps(d1, uid, kind, if outcome.Success? then data else [], text, env);
  }

  /** A result for a client that still records ends its session and leaves the recorder running. */
  lemma ResultNeedsTiming(d: State, uid: int, outcome: Outcome, kind: Option<string>, data: seq<Option<string>>,
                          text: Option<string>, env: Env)
    requires Good(d.clients) && Sound(d) && d.agent.isLoaded && RecorderOwned(d)
    ensures RecorderOwned(DoResult(d, uid, outcome, kind, data, text, env)) <==>
      !(d.rec.recording && StateOf(d.clients, uid) == Some(Recording))
  {
    hide SendResult, SessionOf;
    ResultSession(d, uid, outcome, kind, data, text, env);
    SessionIs(d.clients, uid);
    var d1 := d.(agent := ResultReported(d.agent, env.resultEnds), loop := DelTimer(d.loop, TimerOf(d.clients, uid)));
    SendResultKeeps(d1, uid, kind, if outcome.Success? then data else [], text, env);
  }
}
