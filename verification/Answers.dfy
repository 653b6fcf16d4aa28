/** The daemon's answer to every request: each code has its one reason. */
module Answers {
  import opened Types
  import opened ClientData
  import opened EngineAgent
  import opened Recorder
  import opened Daemon
  import opened Sessions
  import opened Devices
  import opened Effects
  import opened Timing

  // ---- Registration ----

  /** There is a current engine, or the first initialization will find one. */
  predicate EngineFound(d: State, found: seq<EngineInfo>)
    requires d.agent.conf.engineId.Some?
  {
    var id := d.agent.conf.engineId.value;
    d.hasEngine || (found != [] && (Begins(found, id) ==> Extends(found, id)))
  }

  /** The id begins some listed one. */
  predicate Extends(found: seq<EngineInfo>, id: string) {
    exists n :: 0 <= n < |found| && id <= found[n].uuid
  }

  lemma EnsureAnswers(d: State, env: Env)
    requires Sound(d)
    ensures d.agent.conf.engineId.Some?
    ensures EnsureEngine(d, env).1 == if EngineFound(d, env.found) then 0 else ERROR_ENGINE_NOT_FOUND
    ensures var a := EnsureEngine(d, env).0.agent;
      a.lang == d.agent.lang && a.isLoaded == d.agent.isLoaded && (EngineFound(d, env.found) ==> a.uuid.Some?)
  {
    EngineIdStays(d);
    if !d.hasEngine && env.found != [] {
      var id := if Begins(env.found, d.agent.conf.engineId.value) then d.agent.conf.engineId.value
        else env.found[0].uuid;
      ExtendsWhen(env.found, id);
      assert env.found[0].uuid <= env.found[0].uuid;
    }
  }

  lemma ExtendsWhen(found: seq<EngineInfo>, id: string)
    ensures FirstExtending(found, id) < |found| <==> Extends(found, id)
  {
    var n := FirstExtending(found, id);
    if n < |found| { assert id <= found[n].uuid; }
  }

  /** The engine is loaded, or the newcomer is the first user and it loads. */
  predicate EngineReady(d: State, env: Env) {
    d.agent.isLoaded || (RefCount(d) == 0 && LoadSucceeds(d.agent.lang, env.load))
  }

  lemma LoadAnswers(d: State, env: Env)
    requires d.agent.uuid.Some?
    ensures var (d2, ret) := LoadIfFirst(d, env);
      && (ret == 0 && d2.agent.isLoaded <==> EngineReady(d, env))
      && (ret == 0 <==> RefCount(d) > 0 || EngineReady(d, env))
      && (ret != 0 ==> ret == ERROR_OPERATION_FAILED)
      && d2.rec == d.rec && d2.clients == d.clients
  {
    hide LoadCurrent;
    if d.agent.isLoaded {
      LoadedStays(d.agent, env.load);
    } else {
      LoadOutcome(d.agent, env.load);
    }
  }

  lemma LoadedStays(a: Agent, le: LoadEnv)
    requires a.uuid.Some? && a.isLoaded
    ensures LoadCurrent(a, le) == (a, 0)
  {
  }

  /** A client is turned away if no engine can be found, if it is registered already, and otherwise unless the engine
      is ready and reports a format the recorder knows; then the recorder is set to it. */
  lemma InitializeAnswers(d: State, pid: int, uid: int, env: Env)
    requires Sound(d)
    ensures d.agent.conf.engineId.Some?
    ensures var (d', ret) := DoInitialize(d, pid, uid, env); var found := EngineFound(d, env.found);
      && (ret == ERROR_ENGINE_NOT_FOUND <==> !found)
      && (ret == ERROR_INVALID_PARAMETER <==> found && Has(d.clients, uid))
      && (ret == 0 <==> found && !Has(d.clients, uid) && EngineReady(d, env) && env.format.Known?)
      && (ret == 0 ==> d'.rec.audio == env.format.audio && d'.rec.callback)
      && (ret != 0 ==> d'.rec == d.rec)
  {
    hide EnsureEngine, LoadIfFirst, UnloadCurrent, Plus, Has, EngineFound, EngineReady;
    EnsureAnswers(d, env);
    EnsureKeeps(d, env);
    var d1 := EnsureEngine(d, env).0;
    SameReady(d, d1, env);
    if EngineFound(d, env.found) { LoadAnswers(d1, env); }
  }

  lemma SameReady(d: State, d1: State, env: Env)
    requires d1.clients == d.clients && d1.settings == d.settings
    requires d1.agent.isLoaded == d.agent.isLoaded && d1.agent.lang == d.agent.lang
    ensures EngineReady(d1, env) == EngineReady(d, env) && RefCount(d1) == RefCount(d)
  {
  }

  /** A client that is READY leaves without touching recorder or engine, unless it is the last one out. */
  lemma FinalizeAnswers(d: State, uid: int, env: Env)
    ensures var (d', ret) := DoFinalize(d, uid, env);
      && ret == (if Has(d.clients, uid) then 0 else ERROR_INVALID_PARAMETER)
      && (!Has(d.clients, uid) ==> d' == d)
      && (StateOf(d.clients, uid) == Some(Ready) ==>
            d'.rec == d.rec && (RefCount(d') > 0 ==> d'.agent == d.agent))
  {
    hide RecognizeCancel, CancelRec, UnloadCurrent, Without;
  }

  // ---- Sessions ----

  /** The engine takes the start. */
  predicate EngineStarts(d: State, p: int, u: int, s: int, env: Env) {
    d.agent.isLoaded && SetOptions(d.agent.opts, p, u, s, env.calls).1 && env.calls.start.Accepted?
  }

  /** Which answer a start gets: each refusal has its one reason, and the reasons are tried in this order. */
  lemma StartAnswers(d: State, uid: int, lang: string, p: int, u: int, s: int, env: Env)
    requires Good(d.clients)
    ensures var ret := DoStart(d, uid, lang, p, u, s, env).1;
      var ready := StateOf(d.clients, uid) == Some(Ready); var free := SessionOf(d.clients).Free?;
      var offline := !env.network && (d.agent.isLoaded ==> d.agent.needNetwork);
      && (ret == ERROR_INVALID_PARAMETER <==> !Has(d.clients, uid))
      && (ret == ERROR_INVALID_STATE <==> Has(d.clients, uid) && !ready)
      && (ret == ERROR_RECORDER_BUSY <==> ready && !free)
      && (ret == ERROR_OUT_OF_NETWORK <==> ready && free && offline)
      && (ret == 0 <==> ready && free && !offline && EngineStarts(d, p, u, s, env) && env.camcorder.Accepted?)
  {
    hide SessionOf, Good, RecognizeCancel, BeginSession, SetOptions, StateOf, FirstIn;
    FreeIsAllReady(d.clients);
    StartsWhen(d.agent, lang, p, u, s, env.calls);
    StateMeansHas(d.clients, uid);
    StartsCodes(d, uid, lang, p, u, s, env);
  }

  lemma StartsWhen(a: Agent, lang: string, p: int, u: int, s: int, calls: Calls)
    ensures RecognizeStart(a, lang, p, u, s, calls).1 ==
      if a.isLoaded && SetOptions(a.opts, p, u, s, calls).1 && calls.start.Accepted? then 0 else ERROR_OPERATION_FAILED
  {
    hide SetOptions;
  }

  lemma StartsCodes(d: State, uid: int, lang: string, p: int, u: int, s: int, env: Env)
    ensures DoStart(d, uid, lang, p, u, s, env).1 ==
      if StartGuard(d, uid, env) != 0 then StartGuard(d, uid, env)
      else if RecognizeStart(d.agent, lang, p, u, s, env.calls).1 == 0 && env.camcorder.Accepted? then 0
      else ERROR_OPERATION_FAILED
  {
    hide StartGuard, RecognizeStart, RecognizeCancel, BeginSession;
  }

  lemma StopAnswers(d: State, uid: int, env: Env)
    requires Good(d.clients)
    ensures var ret := DoStop(d, uid, env).1; var records := StateOf(d.clients, uid) == Some(Recording);
      && (ret == ERROR_INVALID_PARAMETER <==> !Has(d.clients, uid))
      && (ret == ERROR_INVALID_STATE <==> Has(d.clients, uid) && !records)
      && (ret == ERROR_OPERATION_FAILED <==> records && !EngineStops(d, env))
      && (ret == 0 <==> records && EngineStops(d, env))
  {
    hide RecognizeStop, StopRecorder, WithState, WithTimer, StateOf, TimerOf, Has;
    StateMeansHas(d.clients, uid);
    StopRecorderKeepsClients(d, env);
    StopCode(d.agent, env.calls.stop);
  }

  /** Only a recording client's cancel reaches the recorder, and does so even if the engine then refuses. */
  lemma CancelAnswers(d: State, uid: int, env: Env)
    ensures var (d', ret) := DoCancel(d, uid, env); var st := StateOf(d.clients, uid);
      var cancels := d.agent.isLoaded && env.calls.cancel.Accepted?;
      && (ret == ERROR_INVALID_PARAMETER <==> !Has(d.clients, uid))
      && (ret == ERROR_INVALID_STATE <==> st == Some(Ready))
      && (ret == ERROR_OPERATION_FAILED <==> st.Some? && st != Some(Ready) && !cancels)
      && (ret == 0 <==> st.Some? && st != Some(Ready) && cancels)
      && (d'.rec.recording <==> d.rec.recording && !(st == Some(Recording) && env.recCancel))
      && (d'.rec.running <==> d.rec.running && !(st == Some(Recording) && env.recCancel))
  {
    StateMeansHas(d.clients, uid);
  }

  // ---- Settings ----

  /** Requests of a setting application that is not registered change nothing. */
  lemma StrangersRefused(d: State, e: Event, env: Env)
    requires d.agent.conf.engineId.Some?
    requires e.SettingEngine? || e.SettingLang? || e.SettingDefault? || e.SettingList?
    requires e.pid !in d.settings
    ensures DoSetting(d, e, env).1 == ERROR_INVALID_PARAMETER && Step(d, e, env) == d
  {
    hide SetEngine, SetDefault;
  }

  predicate Loads(a: Agent, id: string, le: LoadEnv) {
    Extends(a.engines, id) && LoadSucceeds(a.lang, le)
  }

  /** A registered setting client's switch succeeds if the id begins with the current one, or begins a listed one
      that loads; without a current engine it is answered in its own way. */
  lemma SwitchAnswers(d: State, e: Event, env: Env)
    requires Sound(d) && e.SettingEngine? && e.pid in d.settings
    ensures var ret, a := DoSetting(d, e, env).1, d.agent;
      && (ret == ERROR_OUT_OF_MEMORY <==> a.uuid.None?)
      && (ret == 0 <==> a.uuid.Some? && (a.uuid.value <= e.engine || Loads(a, e.engine, env.load)))
      && (ret != 0 && a.uuid.Some? ==> ret == ERROR_OPERATION_FAILED)
  {
    hide LoadCurrent, LoadSucceeds;
    ExtendsWhen(d.agent.engines, e.engine);
    if d.agent.uuid.Some? && !(d.agent.uuid.value <= e.engine) {
      if Extends(d.agent.engines, e.engine) {
        KnownSwitch(d.agent, e.engine, env.load);
      } else {
        UnknownSwitch(d.agent, e.engine, env.load);
      }
    }
  }

  /** Asking for the engines reads the directory if the engine is loaded, and finds an error in an empty one. */
  lemma ListAnswers(d: State, e: Event, env: Env)
    requires d.agent.conf.engineId.Some? && e.SettingList? && e.pid in d.settings
    ensures var ret, d' := DoSetting(d, e, env).1, Step(d, e, env);
      && (ret == 0 <==> d.agent.isLoaded && env.found != [])
      && (ret == ERROR_OPERATION_FAILED <==> !d.agent.isLoaded)
      && d'.agent == d.agent.(engines := if d.agent.isLoaded then env.found else d.agent.engines)
      && d' == d.(agent := d'.agent)
  {
  }
}
