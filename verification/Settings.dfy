/** The registrations of setting applications. */
module Settings {
  import opened Types
  import opened ClientData
  import Config
  import opened EngineAgent
  import opened Recorder
  import opened Daemon
  import opened Sessions
  import opened Devices
  import opened Cleanup
  import opened Runs

  lemma {:induction false} CleanupKeepsSettings(d: State, uids: seq<int>, visits: seq<Visit>)
    requires |uids| == |visits|
    ensures CleanupFrom(d, uids, visits).settings == d.settings
    decreases |uids|
  {
    hide DoFinalize;
    if uids != [] {
      FinalizedClients(d, uids[0], visits[0].env);
      var d1 := if HelloResult(d, uids[0], visits[0].hello) == 0 then DoFinalize(d, uids[0], visits[0].env).0 else d;
      CleanupKeepsSettings(d1, uids[1..], visits[1..]);
    }
  }

  lemma StopKeepsSettings(d: State, uid: int, env: Env)
    ensures DoStop(d, uid, env).0.settings == d.settings
  {
    hide StopRecorder, RecognizeStop, WithState, WithTimer, StateOf, TimerOf;
    StopRecorderKeepsClients(d, env);
  }

  lemma TimeoutKeepsSettings(d: State, env: Env)
    ensures DoTimeout(d, env).settings == d.settings
  {
    hide SendResult, RecognizeCancel, FirstIn;
    var d1 := d.(agent := RecognizeCancel(d.agent, env.calls.cancel).0);
    SendResultKeeps(d1, FirstIn(d.clients, Processing), Some(FREE), [], Some(TIMED_OUT_TEXT), env);
  }

  lemma CancelKeepsSettings(d: State, uid: int, env: Env)
    ensures DoCancel(d, uid, env).0.settings == d.settings
  {
    hide RecognizeCancel, CancelRec, WithState, StateOf, TimerOf;
  }

  lemma FireKeepsSettings(d: State, id: nat, env: Env)
    ensures DoFire(d, id, env).0.settings == d.settings
  {
    hide DoFinalize, DoStop, DoCancel, DoTimeout, FirstIn, PidOf, Acknowledged;
    var uid := FirstIn(d.clients, Recording);
    FinalizedClients(d, uid, env);
    FinalizedClients(DoStop(d, uid, env).0, uid, env);
    CancelKeepsSettings(d, uid, env);
    StopKeepsSettings(d, uid, env);
    TimeoutKeepsSettings(d, env);
  }

  lemma ResultKeepsSettings(d: State, e: Event, env: Env)
    requires e.Result?
    ensures DoResult(d, e.uid, e.outcome, e.kind, e.data, e.text, env).settings == d.settings
  {
    hide SendResult;
    var d1 := d.(agent := ResultReported(d.agent, env.resultEnds), loop := DelTimer(d.loop, TimerOf(d.clients, e.uid)));
    SendResultKeeps(d1, e.uid, e.kind, if e.outcome.Success? then e.data else [], e.text, env);
  }

  lemma StartKeepsSettings(d: State, uid: int, lang: string, p: int, u: int, s: int, env: Env)
    ensures DoStart(d, uid, lang, p, u, s, env).0.settings == d.settings
  {
    hide RecognizeStart, RecognizeCancel, StartGuard, WithState, WithTimer;
  }

  /** The answer to a registration: refused if no engine can be found, if the pid is registered already, or if it
      is the first user's and the engine does not load. */
  lemma RegisteredWhen(d: State, pid: int, env: Env)
    requires Sound(d)
    ensures var (d', ret) := DoSettingInitialize(d, pid, env); var (d1, found) := EnsureEngine(d, env);
      && (ret == ERROR_ENGINE_NOT_FOUND <==> found != 0)
      && (ret == ERROR_INVALID_PARAMETER <==> found == 0 && pid in d.settings)
      && (ret == 0 <==>
            && found == 0 && pid !in d.settings
            && (RefCount(d) > 0 || d1.agent.isLoaded || LoadSucceeds(d1.agent.lang, env.load)))
      && d'.settings == if ret == 0 then SettingPlus(d.settings, pid) else d.settings
  {
    hide EnsureEngine, LoadCurrent;
    EngineIdStays(d);
    EnsureKeeps(d, env);
    EnsureSound(d, env);
    FoundHasId(d, env);
    var a := EnsureEngine(d, env).0.agent;
    if a.uuid.Some? && !a.isLoaded { LoadOutcome(a, env.load); }
    LoadedLoads(a, env.load);
  }

  lemma FoundHasId(d: State, env: Env)
    requires Sound(d)
    ensures EnsureEngine(d, env).1 == 0 ==> EnsureEngine(d, env).0.agent.uuid.Some?
    ensures EnsureEngine(d, env).1 == 0 || EnsureEngine(d, env).1 == ERROR_ENGINE_NOT_FOUND
  {
  }

  lemma LoadedLoads(a: Agent, le: LoadEnv)
    ensures a.uuid.Some? && a.isLoaded ==> LoadCurrent(a, le) == (a, 0)
  {
  }

  /** Whoever is registered has been registered successfully, and has not left since. */
  lemma StepSettings(d: State, e: Event, env: Env, q: int)
    requires Sound(d) && Distinct(d.settings)
    ensures Distinct(Step(d, e, env).settings)
    ensures d.agent.conf.engineId.Some? && (q in Step(d, e, env).settings <==>
        || (q in d.settings && e != Event.SettingFinalize(q))
        || (e == Event.SettingInitialize(q) && DoSettingInitialize(d, q, env).1 == 0))
  {
    hide DoInitialize, DoFinalize, DoStart, DoStop, DoCancel, DoResult, DoFire, CleanupFrom, StopRecorder;
    hide DoSettingInitialize, SettingPlus, SettingWithout, AgentOk;
    EngineIdStays(d);
    match e
    case Initialize(pid, uid) => InitializeClients(d, pid, uid, env);
    case Finalize(uid) => FinalizedClients(d, uid, env);
    case Start(uid, lang, p, u, s) => StartKeepsSettings(d, uid, lang, p, u, s, env);
    case Stop(uid) => StopKeepsSettings(d, uid, env);
    case Cancel(uid) => CancelKeepsSettings(d, uid, env);
    case Result(uid, outcome, kind, data, text) => ResultKeepsSettings(d, e, env);
    case CamcorderStops => StopRecorderKeepsClients(d, env);
    case Fire(id) => FireKeepsSettings(d, id, env);
    case Cleanup(visits) => if |visits| == |d.clients| { CleanupKeepsSettings(d, Uids(d.clients), visits); }
    case SettingInitialize(pid) =>
      RegisteredWhen(d, pid, env);
      AfterSettingPlus(d.settings, pid, q);
    case SettingFinalize(pid) => AfterSettingWithout(d.settings, pid, q);
    case SilenceDetected =>
    case AudioChunk =>
    case CamcorderCancels =>
    case Tick(ms) =>
    case _ => SettingKeepsSettings(d, e, env);
  }

  lemma SettingKeepsSettings(d: State, e: Event, env: Env)
    ensures DoSetting(d, e, env).0.settings == d.settings
  {
    hide SetEngine, SetDefault, SetDefaultLang, RefreshList;
  }

  /** No pid is ever registered twice. */
  lemma {:induction false} AlwaysOnce(r: Run, conf: Config.Conf, env: Env, i: nat)
    requires IsRun(r, conf, env) && i < |r.states|
    ensures Distinct(r.states[i].settings)
  {
    hide Step, Good, Sound;
    if i > 0 {
      AlwaysExclusive(r, conf, env, i - 1);
      AlwaysOnce(r, conf, env, i - 1);
      StepSettings(r.states[i - 1], r.events[i - 1], r.envs[i - 1], 0);
    }
  }
}
