/** A session that is held has an engine in recognition, so that no stop and no cancel reaches an idle one. */
module Usage {
  import opened Types
  import opened ClientData
  import Config
  import opened EngineAgent
  import opened Recorder
  import opened Daemon
  import opened Sessions
  import opened Devices
  import opened Runs

  /** The engine is in recognition while the session is held, and was never stopped or cancelled out of it. */
  predicate InUse(d: State) {
    (SessionOf(d.clients).Held? ==> d.agent.plug.busy) && !d.agent.plug.idleCalls
  }

  /** While somebody holds the session: no report ends the recognition but the holder's, and the engine is not
      taken away by a switch or by a registration that unloads it. */
  predicate UseRely(d: State, e: Event, env: Env) {
    SessionOf(d.clients).Held? ==>
      && (e.Result? && env.resultEnds ==> e.uid == SessionOf(d.clients).uid)
      && (e.SettingEngine? && e.pid in d.settings ==> d.agent.uuid.Some? && d.agent.uuid.value <= e.engine)
      && (e.Initialize? ==> !env.format.Unknown?)
  }

  // ---- The two calls on a busy engine ----

  lemma CancelOnBusy(a: Agent, ans: Answer)
    requires a.plug.busy
    ensures var b := RecognizeCancel(a, ans).0;
      && b.plug.idleCalls == a.plug.idleCalls && (RecognizeCancel(a, ans).1 != 0 ==> b.plug.busy)
  {
  }

  lemma StopOnBusy(a: Agent, ans: Answer)
    requires a.plug.busy
    ensures var (b, ret) := RecognizeStop(a, ans);
      b.plug.idleCalls == a.plug.idleCalls && (ret == 0 ==> b.plug.busy)
  {
  }

  lemma UnloadOnly(a: Agent)
    ensures UnloadCurrent(a).0.plug.idleCalls == a.plug.idleCalls
  {
  }

  lemma ActiveHolds(d: State, uid: int)
    requires Good(d.clients) && InUse(d) && StateOf(d.clients, uid).Some? && StateOf(d.clients, uid) != Some(Ready)
    ensures SessionOf(d.clients).Held? && SessionOf(d.clients).uid == uid && d.agent.plug.busy
  {
    SessionIs(d.clients, uid);
  }

  lemma HasClients(d: State)
    requires Good(d.clients) && SessionOf(d.clients).Held?
    ensures d.clients != []
  {
    SessionIs(d.clients, SessionOf(d.clients).uid);
  }

  // ---- Handlers ----

  lemma InitializeUses(d: State, pid: int, uid: int, env: Env)
    requires Good(d.clients) && Sound(d) && InUse(d) && uid > 0 && (SessionOf(d.clients).Held? ==> !env.format.Unknown?)
    ensures InUse(DoInitialize(d, pid, uid, env).0)
  {
    hide EnsureEngine, LoadCurrent, UnloadCurrent, SessionOf, Good;
    InitializeSession(d, pid, uid, env);
    EnsureSound(d, env);
    var d1 := EnsureEngine(d, env).0;
    EnsureKeeps(d, env);
    LoadUses(d1.agent, env.load);
    UnloadOnly(d1.agent);
    UnloadOnly(LoadCurrent(d1.agent, env.load).0);
  }

  lemma LoadUses(a: Agent, le: LoadEnv)
    ensures LoadCurrent(a, le).0.plug.idleCalls == a.plug.idleCalls && LoadCurrent(a, le).0.plug.busy == a.plug.busy
  {
  }

  lemma FinalizeUses(d: State, uid: int, env: Env)
    requires Good(d.clients) && Sound(d) && InUse(d)
    ensures InUse(DoFinalize(d, uid, env).0)
  {
    hide RecognizeCancel, UnloadCurrent, Without, SessionOf, Good, AgentOk, CancelRec;
    FinalizeSession(d, uid, env);
    var d' := DoFinalize(d, uid, env).0;
    var a := RecognizeCancel(d.agent, env.calls.cancel).0;
    UnloadOnly(d.agent);
    UnloadOnly(a);
    SessionIs(d.clients, uid);
    if d.agent.plug.busy { CancelOnBusy(d.agent, env.calls.cancel); }
    if SessionOf(d'.clients).Held? { HasClients(d'); }
  }

  lemma StartUses(d: State, uid: int, lang: string, p: int, u: int, s: int, env: Env)
    requires Good(d.clients) && Sound(d) && InUse(d)
    ensures InUse(DoStart(d, uid, lang, p, u, s, env).0)
  {
    hide RecognizeStart, RecognizeCancel, SessionOf, Good, AgentOk, StartGuard, WithState, WithTimer;
    StartSession(d, uid, lang, p, u, s, env);
    StartIsFree(d, uid, env);
    StartBusy(d.agent, lang, p, u, s, env.calls);
    var a := RecognizeStart(d.agent, lang, p, u, s, env.calls).0;
    if a.plug.busy { CancelOnBusy(a, env.calls.cancel); }
  }

  lemma StartIsFree(d: State, uid: int, env: Env)
    requires Good(d.clients)
    ensures StartGuard(d, uid, env) == 0 ==> SessionOf(d.clients) == Free
  {
    if StartGuard(d, uid, env) == 0 { FreeIsAllReady(d.clients); }
  }

  lemma StartBusy(a: Agent, lang: string, p: int, u: int, s: int, calls: Calls)
    ensures var (b, ret) := RecognizeStart(a, lang, p, u, s, calls);
      (ret == 0 ==> b.plug.busy) && b.plug.idleCalls == a.plug.idleCalls
  {
    hide SetOptions;
  }

  lemma StopUses(d: State, uid: int, env: Env)
    requires Good(d.clients) && InUse(d)
    ensures InUse(DoStop(d, uid, env).0)
  {
    hide StopRecorder, RecognizeStop, SessionOf, Good, WithState, WithTimer;
    StopSession(d, uid, env);
    StopCode(d.agent, env.calls.stop);
    StopRecorderKeepsClients(d, env);
    if StateOf(d.clients, uid) == Some(Recording) {
      ActiveHolds(d, uid);
      StopOnBusy(d.agent, env.calls.stop);
    }
  }

  lemma CancelUses(d: State, uid: int, env: Env)
    requires Good(d.clients) && InUse(d)
    ensures InUse(DoCancel(d, uid, env).0)
  {
    hide RecognizeCancel, SessionOf, Good, WithState, CancelRec;
    CancelSession(d, uid, env);
    if Has(d.clients, uid) && StateOf(d.clients, uid) != Some(Ready) {
      ActiveHolds(d, uid);
      CancelOnBusy(d.agent, env.calls.cancel);
    }
  }

  lemma ResultUses(d: State, uid: int, outcome: Outcome, kind: Option<string>, data: seq<Option<string>>,
                   text: Option<string>, env: Env)
    requires Good(d.clients) && InUse(d)
    requires SessionOf(d.clients).Held? && env.resultEnds ==> uid == SessionOf(d.clients).uid
    ensures InUse(DoResult(d, uid, outcome, kind, data, text, env))
  {
    hide SendResult, SessionOf, WithState;
    ResultSession(d, uid, outcome, kind, data, text, env);
    var d1 := d.(agent := ResultReported(d.agent, env.resultEnds), loop := DelTimer(d.loop, TimerOf(d.clients, uid)));
    SendResultKeeps(d1, uid, kind, if outcome.Success? then data else [], text, env);
  }

  lemma TimeoutUses(d: State, env: Env)
    requires Good(d.clients) && InUse(d)
    ensures InUse(DoTimeout(d, env))
  {
    hide SendResult, SessionOf, RecognizeCancel, WithState, Good;
    TimeoutSession(d, env);
    var uid := FirstIn(d.clients, Processing);
    if uid != -1 {
      CurrentIs(d.clients, Processing);
      ActiveHolds(d, uid);
      SessionIs(d.clients, uid);
      CancelOnBusy(d.agent, env.calls.cancel);
      var d1 := d.(agent := RecognizeCancel(d.agent, env.calls.cancel).0);
      SendResultKeeps(d1, uid, Some(FREE), [], Some(TIMED_OUT_TEXT), env);
    }
  }

  lemma CheckUses(d: State, env: Env)
    requires Good(d.clients) && Sound(d) && InUse(d)
    ensures InUse(DoCheck(d, env).0)
  {
    hide DoCheck, DoFinalize, DoCancel, FirstIn, PidOf, Acknowledged, Good, Sound, InUse;
    CheckCases(d, env);
    FinalizeUses(d, FirstIn(d.clients, Recording), env);
    CancelUses(d, FirstIn(d.clients, Recording), env);
  }

  lemma SilenceUses(d: State, env: Env)
    requires Good(d.clients) && Sound(d) && InUse(d)
    ensures InUse(DoSilence(d, env).0)
  {
    hide DoStop, DoFinalize, FirstIn, Acknowledged, SessionOf, Good, Sound, InUse;
    var uid := FirstIn(d.clients, Recording);
    StopUses(d, uid, env);
    StopSession(d, uid, env);
    StopStaysSound(d, uid, env);
    FinalizeUses(DoStop(d, uid, env).0, uid, env);
  }

  lemma FireUses(d: State, id: nat, env: Env)
    requires Good(d.clients) && Sound(d) && InUse(d)
    ensures InUse(DoFire(d, id, env).0)
  {
    hide DoCheck, DoTimeout, DoSilence, SessionOf, Good, Sound;
    CheckUses(d, env);
    TimeoutUses(d, env);
    SilenceUses(d, env);
  }

  lemma StopStaysSound(d: State, uid: int, env: Env)
    requires Sound(d)
    ensures Sound(DoStop(d, uid, env).0)
  {
    hide DoStop, AgentOk;
    StopSound(d, uid, env);
  }

  lemma {:induction false} CleanupUses(d: State, uids: seq<int>, visits: seq<Visit>)
    requires Good(d.clients) && Sound(d) && InUse(d) && |uids| == |visits|
    ensures InUse(CleanupFrom(d, uids, visits))
    decreases |uids|
  {
    hide DoFinalize, SessionOf, Good, AgentOk, InUse;
    if uids != [] {
      FinalizeUses(d, uids[0], visits[0].env);
      FinalizeSession(d, uids[0], visits[0].env);
      FinalizeSound(d, uids[0], visits[0].env);
      var d1 := if HelloResult(d, uids[0], visits[0].hello) == 0 then DoFinalize(d, uids[0], visits[0].env).0 else d;
      CleanupUses(d1, uids[1..], visits[1..]);
    }
  }

  lemma SettingInitializeUses(d: State, pid: int, env: Env)
    requires Sound(d) && InUse(d)
    ensures InUse(DoSettingInitialize(d, pid, env).0)
  {
    hide SessionOf, AgentOk, EnsureEngine, LoadCurrent;
    EngineIdStays(d);
    EnsureSound(d, env);
    EnsureKeeps(d, env);
    LoadUses(EnsureEngine(d, env).0.agent, env.load);
  }

  lemma SettingFinalizeUses(d: State, pid: int)
    requires Good(d.clients) && InUse(d)
    ensures InUse(DoSettingFinalize(d, pid).0)
  {
    hide SessionOf, Good, UnloadCurrent;
    UnloadOnly(d.agent);
    if SessionOf(d.clients).Held? { HasClients(d); }
  }

  lemma SettingUses(d: State, e: Event, env: Env)
    requires Good(d.clients) && Sound(d) && InUse(d) && IsSetting(e) && UseRely(d, e, env)
    ensures InUse(Step(d, e, env))
  {
    hide SessionOf, Good, AgentOk, SetEngine, SetDefault, SetDefaultLang, RefreshList;
    hide DoSettingInitialize, DoSettingFinalize;
    EngineIdStays(d);
    match e
    case SettingInitialize(pid) => SettingInitializeUses(d, pid, env);
    case SettingFinalize(pid) => SettingFinalizeUses(d, pid);
    case SettingEngine(pid, engine) => SwitchUses(d.agent, engine, env.load);
    case SettingLang(pid, lang) => LangUses(d.agent, lang, env.validator);
    case SettingDefault(pid, which, value) => SetDefaultKeepsUuid(d.agent, which, value, env.calls);
    case SettingList(pid) => ListUses(d.agent, env.found);
  }

  lemma SwitchUses(a: Agent, id: string, le: LoadEnv)
    ensures SetEngine(a, id, le).0.plug.idleCalls == a.plug.idleCalls
    ensures a.uuid.Some? && a.uuid.value <= id ==> SetEngine(a, id, le).0 == a
  {
    hide LoadCurrent;
    if a.uuid.Some? {
      var b := SetCurrent(UnloadCurrent(a).0, id).0;
      LoadUses(SetCurrent(b, a.uuid.value).0, le);
      LoadUses(b, le);
    }
  }

  lemma LangUses(a: Agent, lang: string, validator: bool)
    ensures SetDefaultLang(a, lang, validator).0.plug == a.plug
  {
  }

  lemma ListUses(a: Agent, found: seq<EngineInfo>)
    ensures RefreshList(a, found).0.plug == a.plug
  {
  }

  // ---- Steps and runs ----

  lemma StepUses(d: State, e: Event, env: Env)
    requires Good(d.clients) && Sound(d) && PositiveUid(e) && InUse(d) && UseRely(d, e, env)
    ensures d.agent.conf.engineId.Some? && InUse(Step(d, e, env))
  {
    hide DoInitialize, DoFinalize, DoStart, DoStop, DoCancel, DoResult, DoFire, CleanupFrom, StopRecorder, Good;
    hide DoSetting, DoSettingInitialize, DoSettingFinalize, SessionOf, AgentOk, SomebodyRecords;
    EngineIdStays(d);
    match e
    case Initialize(pid, uid) => InitializeUses(d, pid, uid, env);
    case Finalize(uid) => FinalizeUses(d, uid, env);
    case Start(uid, lang, p, u, s) => StartUses(d, uid, lang, p, u, s, env);
    case Stop(uid) => StopUses(d, uid, env);
    case Cancel(uid) => CancelUses(d, uid, env);
    case Result(uid, outcome, kind, data, text) => ResultUses(d, uid, outcome, kind, data, text, env);
    case CamcorderStops => StopRecorderKeepsClients(d, env);
    case Fire(id) => FireUses(d, id, env);
    case Cleanup(visits) => if |visits| == |d.clients| { CleanupUses(d, Uids(d.clients), visits); }
    case CamcorderCancels =>
    case SilenceDetected =>
    case AudioChunk =>
    case Tick(ms) =>
    case _ => SettingUses(d, e, env);
  }

  ghost predicate UseRelied(r: Run, i: nat)
    requires Follows(r) && i <= |r.events|
  {
    forall j :: 0 <= j < i ==> UseRely(r.states[j], r.events[j], r.envs[j])
  }

  /** No stop and no cancel ever reaches an engine that is not in recognition, whatever the devices answer. */
  lemma {:induction false} AlwaysInUse(r: Run, conf: Config.Conf, env: Env, i: nat)
    requires IsRun(r, conf, env) && i < |r.states| && UseRelied(r, i)
    ensures InUse(r.states[i])
  {
    hide Step, Good, Sound, InUse, UseRely;
    if i == 0 {
      BootUnused(conf, env);
    } else {
      AlwaysExclusive(r, conf, env, i - 1);
      AlwaysInUse(r, conf, env, i - 1);
      StepUses(r.states[i - 1], r.events[i - 1], r.envs[i - 1]);
    }
  }

  lemma BootUnused(conf: Config.Conf, env: Env)
    requires conf.language.Some? && conf.engineId.Some?
    ensures InUse(Boot(conf, env))
  {
    BootState(conf, env);
  }

  /** Together with an engine that obeys: it is in recognition exactly while the session is held. */
  lemma BusyWhenHeld(r: Run, conf: Config.Conf, env: Env, i: nat)
    requires IsRun(r, conf, env) && i < |r.states| && UseRelied(r, i)
    requires forall j :: 0 <= j < i ==> EngineRely(r.states[j], r.events[j], r.envs[j])
    ensures r.states[i].agent.plug.busy <==> SessionOf(r.states[i].clients).Held?
  {
    hide IsRun, EngineRely, UseRely, SessionOf;
    AlwaysInUse(r, conf, env, i);
    EngineContract(r, conf, env, i);
  }
}
