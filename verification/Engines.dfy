/** The engine stays loaded while it is used, and the persisted engine id keeps naming it. */
module Engines {
  import opened Types
  import opened ClientData
  import opened EngineAgent
  import opened Recorder
  import opened Daemon
  import opened Devices
  import Sessions

  // ---- Reference-counted loading ----

  predicate SwitchesAway(a: Agent, id: string) {
    a.uuid.Some? && !(a.uuid.value <= id)
  }

  /** No format outside the recorder's three, no switch or rollback whose load fails. */
  predicate LoadRely(d: State, e: Event, env: Env) {
    && (e.Initialize? ==> !env.format.Unknown?)
    && (e.SettingEngine? && SwitchesAway(d.agent, e.engine) ==> LoadSucceeds(d.agent.lang, env.load))
  }

  lemma InitializeLoads(d: State, pid: int, uid: int, env: Env)
    requires Sound(d) && LoadedWhileUsed(d)
    ensures var (d', ret) := DoInitialize(d, pid, uid, env);
      && (!env.format.Unknown? ==> LoadedWhileUsed(d'))
      && (ret == 0 ==> d'.agent.isLoaded)
  {
    hide LoadCurrent;
    EnsureSound(d, env);
    EnsureKeeps(d, env);
    LoadedAfter(EnsureEngine(d, env).0.agent, env.load);
  }

  lemma LoadedAfter(a: Agent, le: LoadEnv)
    ensures LoadCurrent(a, le).1 == 0 ==> LoadCurrent(a, le).0.isLoaded
    ensures a.isLoaded && a.uuid.Some? ==> LoadCurrent(a, le) == (a, 0)
  {
  }

  lemma SettingInitializeLoads(d: State, pid: int, env: Env)
    requires Sound(d) && LoadedWhileUsed(d)
    ensures LoadedWhileUsed(DoSettingInitialize(d, pid, env).0)
  {
    hide LoadCurrent;
    EnsureSound(d, env);
    EnsureKeeps(d, env);
    LoadedAfter(EnsureEngine(d, env).0.agent, env.load);
  }

  lemma SwitchLoads(a: Agent, id: string, le: LoadEnv)
    requires AgentOk(a) && a.isLoaded
    ensures SetEngine(a, id, le).0.isLoaded <==> (SwitchesAway(a, id) ==> LoadSucceeds(a.lang, le))
  {
    if SwitchesAway(a, id) {
      if FirstExtending(a.engines, id) == |a.engines| {
        UnknownSwitch(a, id, le);
      } else {
        KnownSwitch(a, id, le);
      }
    }
  }

  lemma SettingLoads(d: State, e: Event, env: Env)
    requires Sound(d) && LoadedWhileUsed(d) && LoadRely(d, e, env)
    ensures LoadedWhileUsed(DoSetting(d, e, env).0)
  {
    hide SetEngine, SetDefault;
    match e
    case SettingEngine(pid, engine) => if pid in d.settings { SwitchLoads(d.agent, engine, env.load); }
    case SettingDefault(pid, which, value) => SetDefaultKeepsUuid(d.agent, which, value, env.calls);
    case _ =>
  }

  lemma SettingWithoutLength(settings: seq<int>, pid: int)
    ensures |SettingWithout(settings, pid)| <= |settings|
  {
  }

  lemma SettingFinalizeLoads(d: State, pid: int)
    requires Sound(d) && LoadedWhileUsed(d)
    ensures LoadedWhileUsed(DoSettingFinalize(d, pid).0)
  {
    SettingWithoutLength(d.settings, pid);
  }

  /** Kept by every step. */
  lemma StepLoaded(d: State, e: Event, env: Env)
    requires Sound(d) && LoadedWhileUsed(d) && LoadRely(d, e, env)
    ensures LoadedWhileUsed(Step(d, e, env))
  {
    hide DoInitialize, DoFinalize, DoStart, DoStop, DoCancel, DoResult, DoFire, CleanupFrom, StopRecorder;
    hide DoSetting, DoSettingInitialize, DoSettingFinalize, AgentOk;
    match e
    case Initialize(pid, uid) => InitializeLoads(d, pid, uid, env);
    case Finalize(uid) => FinalizeSound(d, uid, env);
    case Start(uid, lang, p, u, s) => StartSound(d, uid, lang, p, u, s, env);
    case Stop(uid) => StopSound(d, uid, env);
    case Cancel(uid) => CancelSound(d, uid, env);
    case Result(uid, outcome, kind, data, text) => ResultSound(d, uid, outcome, kind, data, text, env);
    case CamcorderStops => Sessions.StopRecorderKeepsClients(d, env);
    case Fire(id) => FireSound(d, id, env);
    case Cleanup(visits) => if |visits| == |d.clients| { CleanupSound(d, Uids(d.clients), visits); }
    case SettingInitialize(pid) => SettingInitializeLoads(d, pid, env);
    case SettingFinalize(pid) => SettingFinalizeLoads(d, pid);
    case SilenceDetected =>
    case AudioChunk =>
    case CamcorderCancels =>
    case Tick(ms) =>
    case _ => SettingLoads(d, e, env);
  }

  /** The last one out unloads the engine. */
  lemma FinalizeUnloads(d: State, uid: int, env: Env)
    requires Sound(d) && Has(d.clients, uid) && RefCount(DoFinalize(d, uid, env).0) == 0
    ensures !DoFinalize(d, uid, env).0.agent.isLoaded
  {
    hide RecognizeCancel, CancelRec, Without;
    CancelKeepsOk(d.agent, env.calls.cancel);
  }

  lemma SettingFinalizeUnloads(d: State, pid: int)
    requires Sound(d) && RefCount(DoSettingFinalize(d, pid).0) == 0
    ensures !DoSettingFinalize(d, pid).0.agent.isLoaded
  {
  }

  /** While others use the engine, a newcomer's registration keeps it loaded exactly when the engine does
      not report a format the recorder cannot take. */
  lemma UnknownFormatUnloads(d: State, pid: int, uid: int, env: Env)
    requires Sound(d) && LoadedWhileUsed(d) && RefCount(d) > 0 && !Has(d.clients, uid)
    ensures LoadedWhileUsed(DoInitialize(d, pid, uid, env).0) <==> !env.format.Unknown?
  {
    hide LoadCurrent;
    InitializeLoads(d, pid, uid, env);
  }

  // ---- The persisted engine id ----

  ghost predicate Named(a: Agent) {
    a.uuid.Some? ==> a.conf.engineId == a.uuid && PrefixFree(a.engines + [EngineInfo(a.uuid.value, false)])
  }

  ghost predicate PrefixFreeWith(found: seq<EngineInfo>, current: Option<string>) {
    PrefixFree(if current.Some? then found + [EngineInfo(current.value, false)] else found)
  }

  /** Ids found in the engine directory never begin one another; a switch names a listed engine that
      loads, or nothing listed. */
  ghost predicate NameRely(d: State, e: Event, env: Env) {
    && (e.Initialize? || e.SettingInitialize? || e.SettingList? ==> PrefixFreeWith(env.found, d.agent.uuid))
    && (e.SettingEngine? && SwitchesAway(d.agent, e.engine)
        && FirstExtending(d.agent.engines, e.engine) < |d.agent.engines| ==>
          Listed(d.agent.engines, e.engine) && LoadSucceeds(d.agent.lang, env.load))
  }

  lemma PrefixFreePlus(engines: seq<EngineInfo>, i: nat)
    requires PrefixFree(engines) && i < |engines|
    ensures PrefixFree(engines + [EngineInfo(engines[i].uuid, false)])
  {
    var all := engines + [EngineInfo(engines[i].uuid, false)];
    forall j, k | 0 <= j < |all| && 0 <= k < |all| && all[j].uuid <= all[k].uuid ensures all[j].uuid == all[k].uuid {
      var j', k' := if j == |engines| then i else j, if k == |engines| then i else k;
      PrefixFreePair(engines, j', k');
    }
  }

  lemma PrefixFreeFront(engines: seq<EngineInfo>, e: EngineInfo)
    requires PrefixFree(engines + [e])
    ensures PrefixFree(engines)
  {
    forall j, k | 0 <= j < |engines| && 0 <= k < |engines| && engines[j].uuid <= engines[k].uuid
      ensures engines[j].uuid == engines[k].uuid
    {
      PrefixFreePair(engines + [e], j, k);
    }
  }

  lemma EnsureNames(d: State, env: Env)
    requires Sound(d) && Named(d.agent) && PrefixFreeWith(env.found, d.agent.uuid)
    ensures Named(EnsureEngine(d, env).0.agent)
  {
    if !d.hasEngine && InitializeCurrent(d.agent, env.found).1 == 0 {
      InitializationAgrees(d.agent, env.found);
      var kept := Begins(env.found, d.agent.conf.engineId.value);
      var id := if kept then d.agent.conf.engineId.value else env.found[0].uuid;
      PrefixFreePlus(env.found, FirstExtending(env.found, id));
    }
  }

  lemma SwitchNames(d: State, id: string, env: Env)
    requires Sound(d) && Named(d.agent)
    requires SwitchesAway(d.agent, id) && FirstExtending(d.agent.engines, id) < |d.agent.engines| ==>
      Listed(d.agent.engines, id) && LoadSucceeds(d.agent.lang, env.load)
    ensures Named(SetEngine(d.agent, id, env.load).0)
  {
    hide SetEngine;
    var a := d.agent;
    SetEngineKeepsSet(a, id, env.load);
    if !SwitchesAway(a, id) {
      SwitchIdle(a, id, env.load);
    } else {
      var i := FirstExtending(a.engines, id);
      if i == |a.engines| {
        UnknownSwitch(a, id, env.load);
      } else {
        KnownSwitch(a, id, env.load);
        SwitchAgrees(a, id, env.load);
        PrefixFreeFront(a.engines, EngineInfo(a.uuid.value, false));
        var j :| 0 <= j < |a.engines| && a.engines[j].uuid == id;
        PrefixFreePlus(a.engines, j);
      }
    }
  }

  lemma SwitchIdle(a: Agent, id: string, le: LoadEnv)
    requires !SwitchesAway(a, id)
    ensures SetEngine(a, id, le).0 == a
  {
  }

  lemma NamedAlike(a: Agent, b: Agent)
    ensures SameEngine(a, b) && Named(a) ==> Named(b)
  {
  }

  /** The persisted id names the current engine after every step. */
  lemma StepNamed(d: State, e: Event, env: Env)
    requires Sound(d) && Named(d.agent) && NameRely(d, e, env)
    ensures Named(Step(d, e, env).agent)
  {
    hide DoInitialize, DoFinalize, DoStart, DoStop, DoCancel, DoResult, DoFire, CleanupFrom, StopRecorder;
    hide DoSetting, DoSettingInitialize, AgentOk, PrefixFree, LoadCurrent, SetEngine, Named;
    EngineIdStays(d);
    NamedAlike(d.agent, Step(d, e, env).agent);
    match e
    case Initialize(pid, uid) => InitializeNames(d, pid, uid, env);
    case Finalize(uid) => FinalizeSound(d, uid, env);
    case Start(uid, lang, p, u, s) => StartSound(d, uid, lang, p, u, s, env);
    case Stop(uid) => StopSound(d, uid, env);
    case Cancel(uid) => CancelSound(d, uid, env);
    case Result(uid, outcome, kind, data, text) => ResultSound(d, uid, outcome, kind, data, text, env);
    case CamcorderStops => Sessions.StopRecorderKeepsClients(d, env);
    case Fire(id) => FireSound(d, id, env);
    case Cleanup(visits) => if |visits| == |d.clients| { CleanupSound(d, Uids(d.clients), visits); }
    case SettingInitialize(pid) => SettingInitializeNames(d, pid, env);
    case SettingFinalize(pid) =>
    case SilenceDetected =>
    case AudioChunk =>
    case CamcorderCancels =>
    case Tick(ms) =>
    case _ => SettingNames(d, e, env);
  }

  lemma InitializeNames(d: State, pid: int, uid: int, env: Env)
    requires Sound(d) && Named(d.agent) && PrefixFreeWith(env.found, d.agent.uuid)
    ensures Named(DoInitialize(d, pid, uid, env).0.agent)
  {
    hide EnsureEngine, LoadCurrent, PrefixFree;
    EnsureNames(d, env);
    LoadKeepsPlug(EnsureEngine(d, env).0.agent, env.load);
  }

  lemma SettingInitializeNames(d: State, pid: int, env: Env)
    requires Sound(d) && Named(d.agent) && PrefixFreeWith(env.found, d.agent.uuid)
    ensures Named(DoSettingInitialize(d, pid, env).0.agent)
  {
    hide EnsureEngine, LoadCurrent, PrefixFree;
    EnsureNames(d, env);
    LoadKeepsPlug(EnsureEngine(d, env).0.agent, env.load);
  }

  lemma SettingNames(d: State, e: Event, env: Env)
    requires Sound(d) && Named(d.agent) && NameRely(d, e, env)
    ensures Named(DoSetting(d, e, env).0.agent)
  {
    hide SetEngine, SetDefault;
    match e
    case SettingEngine(pid, engine) => SwitchNames(d, engine, env);
    case SettingDefault(pid, which, value) => SetDefaultKeepsUuid(d.agent, which, value, env.calls);
    case SettingList(pid) =>
      if d.agent.isLoaded && env.found == [] {
        assert [] + [EngineInfo(d.agent.uuid.value, false)] == [EngineInfo(d.agent.uuid.value, false)];
      }
    case _ =>
  }
}
