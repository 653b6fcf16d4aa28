/** The daemon's session manager as it runs: handlers over the client list, the engine host and the recorder
    (server/sttd_server.c). Each is proved to do what the transition system says. */
module Server {
  import opened Types
  import opened ClientData
  import opened Config
  import opened EngineAgent
  import opened Recorder
  import opened Daemon
  import Sessions

  class SttServer {
    const list: ClientList
    const agent: EngineHost
    const recorder: RecorderObject
    var hasEngine: bool
    var timers: map<nat, Timer>
    var nextTimer: nat
    var now: int
    var bus: seq<Message>

    /** The list is well formed, and a restart would find the configuration as it is. */
    ghost predicate Valid()
      reads this, list, agent.config
    {
      list.Valid() && agent.config.Durable()
    }

    ghost function View(): State
      reads this, list, list.clients, agent, agent.config, recorder
    {
      State(list.Contents(), list.settings, agent.View(), hasEngine, recorder.View(), Loop(timers, nextTimer, now), bus)
    }

    constructor (config: ConfigFile, env: Env)
      requires config.language.Some? && config.engineId.Some? && config.Durable()
      modifies config
      ensures Valid() && fresh(list) && fresh(agent) && fresh(recorder) && agent.config == config
      ensures View() == Boot(old(config.Values()), env)
    {
      list := new ClientList();
      agent := new EngineHost(config);
      recorder := new RecorderObject();
      hasEngine, timers, nextTimer, now, bus := false, map[], 0, 0, [];
      new;
      var ret := agent.InitializeCurrentEngine(env.found);
      hasEngine := ret == 0;
    }

    // ---- Timers ----

    method AddTimer(kind: TimerKind, delay: int) returns (id: nat)
      requires Valid()
      modifies this`timers, this`nextTimer
      ensures Valid()
      ensures View() == old(View()).(loop := Daemon.AddTimer(old(View().loop), kind, delay))
      ensures id == old(View().loop.next)
    {
      id := nextTimer;
      timers := timers[id := Timer(kind, now + delay)];
      nextTimer := nextTimer + 1;
    }

    method DelTimer(t: Option<nat>)
      requires Valid()
      modifies this`timers
      ensures Valid()
      ensures View() == old(View()).(loop := Daemon.DelTimer(old(View().loop), t))
    {
      if t.Some? { timers := timers - {t.value}; }
    }

    // ---- Single steps, in terms of the whole state ----

    method GetState(uid: int) returns (st: Option<AppState>)
      requires Valid()
      ensures st == StateOf(View().clients, uid)
    {
      st := list.GetState(uid);
    }

    method GetTimer(uid: int) returns (t: Option<nat>)
      requires Valid()
      ensures t == TimerOf(View().clients, uid)
    {
      t := list.GetTimer(uid);
    }

    method GetCurrent(st: AppState) returns (uid: int)
      requires Valid()
      ensures uid == FirstIn(View().clients, st)
    {
      uid := list.GetCurrent(st);
    }

    method SetState(uid: int, st: AppState)
      requires Valid()
      modifies list.clients
      ensures Valid() && View() == old(View()).(clients := WithState(old(View().clients), uid, st))
    {
      hide WithState;
      var _ := list.SetState(uid, st);
    }

    method SetTimer(uid: int, t: nat)
      requires Valid()
      modifies list.clients
      ensures Valid() && View() == old(View()).(clients := WithTimer(old(View().clients), uid, Some(t)))
    {
      hide WithTimer;
      list.SetTimer(uid, Some(t));
    }

    method Delete(uid: int)
      requires Valid()
      modifies list`clients
      ensures Valid() && View() == old(View()).(clients := Without(old(View().clients), uid))
      ensures forall r :: r in list.clients ==> r in old(list.clients)
    {
      hide Without;
      var _ := list.Delete(uid);
    }

    method CancelRecorder(env: Env)
      requires Valid()
      modifies recorder
      ensures Valid()
      ensures View() == old(View()).(rec := CancelRec(old(View().rec), env.recCancel).0)
    {
      hide CancelRec;
      var _ := recorder.Cancel(env.recCancel);
    }

    method CancelEngine(env: Env) returns (ret: int)
      requires Valid()
      modifies agent
      ensures Valid()
      ensures var (a, r) := RecognizeCancel(old(View().agent), env.calls.cancel);
        View() == old(View()).(agent := a) && ret == r
    {
      hide RecognizeCancel;
      ret := agent.Cancel(env.calls.cancel);
    }

    // ---- The current engine ----

    method EnsureEngine(env: Env) returns (ret: int)
      requires Valid()
      requires agent.config.engineId.Some?
      modifies this`hasEngine, agent, agent.config
      ensures Valid()
      ensures (View(), ret) == Daemon.EnsureEngine(old(View()), env)
    {
      if hasEngine { return 0; }
      ret := agent.InitializeCurrentEngine(env.found);
      hasEngine := ret == 0;
      return if ret == 0 then 0 else ERROR_ENGINE_NOT_FOUND;
    }

    method LoadIfFirst(env: Env) returns (ret: int)
      requires Valid()
      modifies agent, agent.config
      ensures Valid()
      ensures (View(), ret) == Daemon.LoadIfFirst(old(View()), env)
    {
      var n := list.GetRefCount();
      if n != 0 { return 0; }
      ret := agent.LoadCurrentEngine(env.load);
      if ret != 0 { return ERROR_OPERATION_FAILED; }
    }

    method UnloadIfUnused()
      requires Valid()
      modifies agent
      ensures Valid()
      ensures View() == Daemon.UnloadIfUnused(old(View()))
    {
      var n := list.GetRefCount();
      if n == 0 { var _ := agent.UnloadCurrentEngine(); }
    }

    // ---- Requests of clients ----

    /** The client is told which options the engine supports; a refused one is told of none. */
    method Initialize(pid: int, uid: int, env: Env) returns (ret: int, supported: Supported)
      requires Valid() && agent.config.engineId.Some?
      modifies this, list, agent, agent.config, recorder
      ensures Valid() && (View(), ret) == DoInitialize(old(View()), pid, uid, env)
      ensures supported == if ret == 0 then SupportedBy(View().agent) else NOTHING
      ensures forall r :: r in list.clients ==> r in old(list.clients) || fresh(r)
    {
      hide View, Valid, Daemon.EnsureEngine, Daemon.LoadIfFirst, UnloadCurrent, SetFormat, Plus, StateOf;
      supported := NOTHING;
      ret := EnsureEngine(env);
      if ret != 0 { return; }
      var st := GetState(uid);
      StateTellsHas(View().clients, uid);
      if st.Some? { return ERROR_INVALID_PARAMETER, NOTHING; }
      ret := LoadIfFirst(env);
      if ret != 0 { return; }
      var loaded := IsLoaded();
      if !loaded || env.format.Unavailable? { return ERROR_OPERATION_FAILED, NOTHING; }
      if env.format.Unknown? {
        UnloadEngine();
        return ERROR_OPERATION_FAILED, NOTHING;
      }
      SetRecorder(env.format.audio, env);
      Add(pid, uid);
      ret, supported := GetOptionSupported();
    }

    method GetOptionSupported() returns (ret: int, supported: Supported)
      ensures ret == if View().agent.isLoaded then 0 else ERROR_OPERATION_FAILED
      ensures supported == if View().agent.isLoaded then SupportedBy(View().agent) else NOTHING
    {
      ret, supported := agent.GetOptionSupported();
    }

    method IsLoaded() returns (loaded: bool)
      ensures loaded == View().agent.isLoaded
    {
      loaded := agent.isLoaded;
    }

    method UnloadEngine()
      requires Valid()
      modifies agent
      ensures Valid() && View() == old(View()).(agent := UnloadCurrent(old(View().agent)).0)
    {
      hide UnloadCurrent;
      var _ := agent.UnloadCurrentEngine();
    }

    method SetRecorder(audio: Audio, env: Env)
      requires Valid()
      modifies recorder
      ensures Valid() && View() == old(View()).(rec := SetFormat(old(View().rec), audio, env.recCancel))
    {
      recorder.Set(audio, env.recCancel);
    }

    method Add(pid: int, uid: int)
      requires Valid()
      modifies list`clients
      ensures Valid() && View() == old(View()).(clients := Plus(old(View().clients), pid, uid))
      ensures forall r :: r in list.clients ==> r in old(list.clients) || fresh(r)
    {
      hide Plus;
      var _ := list.Add(pid, uid);
    }

    method Finalize(uid: int, env: Env) returns (ret: int)
      requires Valid()
      modifies list`clients, agent, recorder
      ensures Valid() && (View(), ret) == DoFinalize(old(View()), uid, env)
      ensures forall r :: r in list.clients ==> r in old(list.clients)
    {
      hide View, Valid, RecognizeCancel, CancelRec, Without, StateOf, Daemon.UnloadIfUnused;
      var st := GetState(uid);
      if st.None? { return ERROR_INVALID_PARAMETER; }
      if st == Some(Recording) || st == Some(Processing) {
        CancelRecorder(env);
        var _ := CancelEngine(env);
      }
      Delete(uid);
      UnloadIfUnused();
      return 0;
    }

    method NeedsNetwork() returns (needed: bool)
      ensures needed <==> NeedNetwork(View().agent)
    {
      needed := !agent.isLoaded || agent.needNetwork;
    }

    method CheckStart(uid: int, env: Env) returns (ret: int)
      requires Valid()
      ensures ret == StartGuard(View(), uid, env)
    {
      hide View, Valid, StateOf, FirstIn, NeedNetwork;
      var st := GetState(uid);
      StateTellsHas(View().clients, uid);
      if st.None? { return ERROR_INVALID_PARAMETER; }
      if st != Some(Ready) { return ERROR_INVALID_STATE; }
      var recording := GetCurrent(Recording);
      if 0 < recording { return ERROR_RECORDER_BUSY; }
      var thinking := GetCurrent(Processing);
      if 0 < thinking { return ERROR_RECORDER_BUSY; }
      var needed := NeedsNetwork();
      if needed && !env.network { return ERROR_OUT_OF_NETWORK; }
      return 0;
    }

    method StartEngine(lang: string, p: int, u: int, s: int, env: Env) returns (ret: int)
      requires Valid()
      modifies agent
      ensures Valid()
      ensures var (a, r) := RecognizeStart(old(View().agent), lang, p, u, s, env.calls);
        View() == old(View()).(agent := a) && ret == r
    {
      hide RecognizeStart;
      ret := agent.Start(lang, p, u, s, env.calls);
    }

    method StopEngine(env: Env) returns (ret: int)
      requires Valid()
      modifies agent
      ensures Valid()
      ensures var (a, r) := RecognizeStop(old(View().agent), env.calls.stop);
        View() == old(View()).(agent := a) && ret == r
    {
      hide RecognizeStop;
      ret := agent.Stop(env.calls.stop);
    }

    method StartRecorder(env: Env) returns (ret: int)
      requires Valid()
      modifies recorder
      ensures Valid()
      ensures var (r, code) := StartRec(old(View().rec), env.camcorder, env.recCancel);
        View() == old(View()).(rec := r) && ret == code
    {
      ret := recorder.Start(env.camcorder, env.recCancel);
    }

    method Start(uid: int, lang: string, p: int, u: int, s: int, env: Env) returns (ret: int)
      requires Valid()
      modifies this, list.clients, agent, recorder
      ensures Valid() && (View(), ret) == DoStart(old(View()), uid, lang, p, u, s, env)
    {
      hide View, Valid, RecognizeStart, RecognizeCancel, StartGuard, WithState, WithTimer;
      ret := CheckStart(uid, env);
      if ret != 0 { return; }
      ret := StartEngine(lang, p, u, s, env);
      if ret != 0 { return ERROR_OPERATION_FAILED; }
      ret := StartRecorder(env);
      if ret != 0 {
        var _ := CancelEngine(env);
        return ERROR_OPERATION_FAILED;
      }
      SetState(uid, Recording);
      var timer := AddTimer(CheckRecording, STATE_CHECK_TIME);
      SetTimer(uid, timer);
      return 0;
    }

    /** Stopping the recorder may hand a refused chunk back, which queues a stop by silence. */
    method StopRecorder(env: Env)
      requires Valid()
      modifies this`timers, this`nextTimer, recorder
      ensures Valid() && View() == Daemon.StopRecorder(old(View()), env)
    {
      hide ReplayRefused, StopRec, Daemon.QueueSilence;
      var accepts := if agent.isLoaded then env.accepts else 0;
      var _, refused := recorder.Stop(env.file, accepts, env.recCommit);
      if refused { QueueSilence(); }
    }

    /** The common end of the audio, replay and silence callbacks. */
    method QueueSilence()
      requires Valid()
      modifies this`timers, this`nextTimer
      ensures Valid() && View() == Daemon.QueueSilence(old(View()))
    {
      hide View, Valid, StateOf, FirstIn;
      var uid := GetCurrent(Recording);
      var st := GetState(uid);
      if st != Some(Recording) { return; }
      var _ := AddTimer(StopBySilence, 0);
    }

    method Stop(uid: int, env: Env) returns (ret: int)
      requires Valid()
      modifies this`timers, this`nextTimer, list.clients, agent, recorder
      ensures Valid() && (View(), ret) == DoStop(old(View()), uid, env)
    {
      hide View, Valid, Daemon.StopRecorder, RecognizeStop, WithState, WithTimer, TimerOf, StateOf;
      var st := GetState(uid);
      StateTellsHas(View().clients, uid);
      if st.None? { return ERROR_INVALID_PARAMETER; }
      if st != Some(Recording) { return ERROR_INVALID_STATE; }
      StopRecorder(env);
      ret := StopEngine(env);
      if ret != 0 {
        SetState(uid, Ready);
        return ERROR_OPERATION_FAILED;
      }
      var timer := GetTimer(uid);
      DelTimer(timer);
      SetState(uid, Processing);
      var id := AddTimer(ProcessingTimeout, STATE_CHECK_TIME);
      SetTimer(uid, id);
      Sessions.StopRecorderKeepsClients(old(View()), env);
      return 0;
    }

    method Cancel(uid: int, env: Env) returns (ret: int)
      requires Valid()
      modifies this`timers, list.clients, agent, recorder
      ensures Valid() && (View(), ret) == DoCancel(old(View()), uid, env)
    {
      hide View, Valid, RecognizeCancel, WithState, TimerOf, StateOf;
      var st := GetState(uid);
      StateTellsHas(View().clients, uid);
      if st.None? { return ERROR_INVALID_PARAMETER; }
      if st == Some(Ready) { return ERROR_INVALID_STATE; }
      if st == Some(Recording) { CancelRecorder(env); }
      ret := CancelEngine(env);
      if ret != 0 { return ERROR_OPERATION_FAILED; }
      var timer := GetTimer(uid);
      DelTimer(timer);
      SetState(uid, Ready);
      return 0;
    }

    // ---- Messages to clients ----

    method GetPid(uid: int) returns (pid: int)
      requires Valid()
      ensures pid == PidOf(View().clients, uid)
    {
      pid := list.GetPid(uid);
    }

    /** Sends a result; `Strings` of the data travel in order, unless one is missing. */
    method SendResult(uid: int, kind: Option<string>, data: seq<Option<string>>, text: Option<string>, env: Env)
      returns (ret: int)
      requires Valid()
      modifies this`bus, list`clients
      ensures Valid() && (View(), ret) == Daemon.SendResult(old(View()), uid, kind, data, text, env)
      ensures forall r :: r in list.clients ==> r in old(list.clients)
    {
      hide View, Valid, PidOf, Without;
      var pid := GetPid(uid);
      if pid < 0 { return -1; }
      var strings := [];
      for i := 0 to |data|
        invariant |strings| == i && forall k :: 0 <= k < i ==> data[k] == Some(strings[k])
      {
        if data[i].None? {
          if !env.error { Delete(uid); }
          return -1;
        }
        strings := strings + [data[i].value];
      }
      if !env.send { return -1; }
      assert strings == Strings(data);
      Post(Message(uid, kind, text, strings));
      return 0;
    }

    method Post(m: Message)
      requires Valid()
      modifies this`bus
      ensures Valid()
      ensures View() == old(View()).(bus := old(View().bus) + [m])
    {
      bus := bus + [m];
    }

    // ---- Engine and device callbacks ----

    method OnResult(uid: int, outcome: Outcome, kind: Option<string>, data: seq<Option<string>>,
        text: Option<string>, env: Env)
      requires Valid()
      modifies this`timers, this`bus, list`clients, list.clients, agent
      ensures Valid() && View() == DoResult(old(View()), uid, outcome, kind, data, text, env)
    {
      hide View, Valid, ResultReported, WithState, TimerOf, StateOf, Daemon.SendResult;
      var heeded := Report(env);
      if !heeded { return; }
      var st := GetState(uid);
      StateTellsHas(View().clients, uid);
      if st.None? { return; }
      var timer := GetTimer(uid);
      DelTimer(timer);
      if st == Some(Processing) {
        if outcome.Success? && |data| > 0 {
          var _ := SendResult(uid, kind, data, text, env);
        } else if !outcome.Success? {
          var _ := SendResult(uid, kind, [], text, env);
        }
      }
      assert forall k :: 0 <= k < |list.clients| ==> list.clients[k] in old(list.clients);
      SetState(uid, Ready);
    }

    method Report(env: Env) returns (heeded: bool)
      requires Valid()
      modifies agent
      ensures Valid()
      ensures View() == old(View()).(agent := ResultReported(old(View().agent), env.resultEnds))
      ensures heeded == old(View().agent.isLoaded)
    {
      hide ResultReported;
      heeded := agent.Report(env.resultEnds);
    }

    method OnSilence()
      requires Valid()
      modifies this`timers, this`nextTimer
      ensures Valid() && View() == DoSilenceDetected(old(View()))
    {
      hide Daemon.QueueSilence;
      if agent.isLoaded && agent.sil.cached { QueueSilence(); }
    }

    method OnAudio(env: Env)
      requires Valid()
      modifies this`timers, this`nextTimer
      ensures Valid() && View() == DoAudioChunk(old(View()), env)
    {
      hide Daemon.QueueSilence;
      if !(agent.isLoaded && env.accepts > 0) { QueueSilence(); }
    }

    // ---- Timer callbacks ----

    method TimeOutForProcessing(env: Env)
      requires Valid()
      modifies this`bus, list`clients, list.clients, agent
      ensures Valid() && View() == DoTimeout(old(View()), env)
      ensures timers == old(timers) && nextTimer == old(nextTimer)
    {
      hide View, Valid, RecognizeCancel, WithState, FirstIn, Daemon.SendResult;
      var uid := GetCurrent(Processing);
      if uid == -1 { return; }
      var _ := CancelEngine(env);
      var _ := SendResult(uid, Some(FREE), [], Some(TIMED_OUT_TEXT), env);
      assert forall k :: 0 <= k < |list.clients| ==> list.clients[k] in old(list.clients);
      SetState(uid, Ready);
    }

    /** The state pushed to a client, if the client takes it. */
    method SendSetState(uid: int, st: AppState, env: Env) returns (ret: int, push: Push)
      requires Valid()
      ensures ret == 0 <==> Acknowledged(View(), uid, env)
      ensures push == if Acknowledged(View(), uid, env) then Some((uid, st)) else None
    {
      hide View, Valid, PidOf;
      var pid := GetPid(uid);
      if pid < 0 || !env.setState { return -1, None; }
      return 0, Some((uid, st));
    }

    method CheckRecordingState(env: Env) returns (renew: bool, push: Push)
      requires Valid()
      modifies this`timers, list`clients, list.clients, agent, recorder
      ensures Valid() && (View(), renew, push) == DoCheck(old(View()), env)
      ensures now == old(now)
    {
      hide View, Valid, DoFinalize, DoCancel, FirstIn, PidOf, Acknowledged;
      var uid := GetCurrent(Recording);
      if uid == -1 { return false, None; }
      var pid := GetPid(uid);
      if pid < 0 || env.getState.None? {
        var _ := Finalize(uid, env);
        return false, None;
      }
      if env.getState.value == 1 {
        var _ := Cancel(uid, env);
        return false, None;
      } else if env.getState.value == 3 {
        var _ := Cancel(uid, env);
        var ret;
        ret, push := SendSetState(uid, Ready, env);
        return false, push;
      } else {
        return true, None;
      }
    }

    method StopBySilenceNow(env: Env) returns (push: Push)
      requires Valid()
      modifies this`timers, this`nextTimer, list`clients, list.clients, agent, recorder
      ensures Valid() && (View(), push) == DoSilence(old(View()), env)
    {
      hide View, Valid, DoFinalize, DoStop, FirstIn, Acknowledged;
      var uid := GetCurrent(Recording);
      if uid > 0 {
        var ret := Stop(uid, env);
        if ret != 0 { return None; }
        ret, push := SendSetState(uid, Processing, env);
        if ret != 0 {
          var _ := Finalize(uid, env);
        }
        return;
      }
      return None;
    }

    /** The main loop runs a timer that is due; a callback that asks for it is called again a period later. */
    method Fire(id: nat, env: Env) returns (push: Push)
      requires Valid()
      modifies this, list`clients, list.clients, agent, recorder
      ensures Valid() && (View(), push) == DoFire(old(View()), id, env)
    {
      hide Valid, DoCheck, DoTimeout, DoSilence;
      if id !in timers || timers[id].due > now { return None; }
      var timer := timers[id];
      var renew := false;
      push := None;
      match timer.kind {
        case CheckRecording => renew, push := CheckRecordingState(env);
        case ProcessingTimeout => TimeOutForProcessing(env);
        case StopBySilence => push := StopBySilenceNow(env);
      }
      if renew { Renew(id, timer.due + STATE_CHECK_TIME); } else { DelTimer(Some(id)); }
    }

    method Renew(id: nat, due: int)
      requires Valid()
      modifies this`timers
      ensures Valid()
      ensures var l := old(View().loop);
        View() == old(View()).(loop := l.(timers := l.timers[id := Timer(CheckRecording, due)]))
    {
      timers := timers[id := Timer(CheckRecording, due)];
    }

    // ---- Cleanup ----

    /** Asks every client of a snapshot whether it is still there, and finalizes those that are not. */
    method CleanupClient(visits: seq<Visit>)
      requires Valid() && |visits| == |list.clients|
      modifies list`clients, agent, recorder
      ensures Valid() && View() == DoCleanup(old(View()), visits)
    {
      hide View, Valid, DoFinalize, HelloResult;
      var ret, uids := GetList();
      if ret != 0 { return; }
      ghost var snapshot := uids[..];
      for i := 0 to uids.Length
        invariant Valid() && uids[..] == snapshot && |snapshot| == |visits|
        invariant CleanupFrom(old(View()), snapshot, visits) == CleanupFrom(View(), snapshot[i..], visits[i..])
        invariant forall r :: r in list.clients ==> r in old(list.clients)
      {
        var result := SendHello(uids[i], visits[i].hello);
        if result == 0 { var _ := Finalize(uids[i], visits[i].env); }
      }
      assert snapshot[|visits|..] == [] && visits[|visits|..] == [];
    }

    method CleanupAll(visits: seq<Visit>)
      requires Valid()
      modifies list`clients, agent, recorder
      ensures Valid() && View() == DoCleanup(old(View()), visits)
    {
      hide CleanupFrom;
      if |visits| == |list.clients| { CleanupClient(visits); }
    }

    method GetList() returns (ret: int, uids: array<int>)
      requires Valid()
      ensures ret == if View().clients == [] then -1 else 0
      ensures fresh(uids) && uids[..] == Uids(View().clients)
      ensures |View().clients| == |list.clients|
    {
      ret, uids := list.GetList();
    }

    method SendHello(uid: int, hello: int) returns (result: int)
      requires Valid()
      ensures result == HelloResult(View(), uid, hello)
    {
      var pid := list.GetPid(uid);
      if pid < 0 { return -1; }
      return hello;
    }

    // ---- Requests of the setting application ----

    method SettingInitialize(pid: int, env: Env) returns (ret: int)
      requires Valid() && agent.config.engineId.Some?
      modifies this`hasEngine, list`settings, agent, agent.config
      ensures Valid() && (View(), ret) == DoSettingInitialize(old(View()), pid, env)
    {
      hide Daemon.EnsureEngine, Daemon.LoadIfFirst;
      ret := EnsureEngine(env);
      if ret != 0 { return; }
      var found := list.SettingIs(pid);
      if found { return ERROR_INVALID_PARAMETER; }
      ret := LoadIfFirst(env);
      if ret != 0 { return; }
      var added := list.SettingAdd(pid);
      return 0;
    }

    method SettingFinalize(pid: int) returns (ret: int)
      requires Valid()
      modifies list`settings, agent
      ensures Valid() && (View(), ret) == DoSettingFinalize(old(View()), pid)
    {
      hide Daemon.UnloadIfUnused;
      var _ := list.SettingDelete(pid);
      UnloadIfUnused();
      return 0;
    }

    method SettingSetEngine(pid: int, engine: string, env: Env) returns (ret: int)
      requires Valid()
      modifies agent, agent.config
      ensures Valid() && (View(), ret) == DoSetting(old(View()), SettingEngine(pid, engine), env)
    {
      hide SetEngine;
      var known := list.SettingIs(pid);
      if !known { return ERROR_INVALID_PARAMETER; }
      ret := agent.SettingSetEngine(engine, env.load);
    }

    method SettingSetLang(pid: int, lang: string, env: Env) returns (ret: int)
      requires Valid()
      modifies agent, agent.config
      ensures Valid() && (View(), ret) == DoSetting(old(View()), SettingLang(pid, lang), env)
    {
      hide SetDefaultLang;
      var known := list.SettingIs(pid);
      if !known { return ERROR_INVALID_PARAMETER; }
      ret := agent.SettingSetLang(lang, env.validator);
    }

    method SettingSetDefault(pid: int, which: Which, value: bool, env: Env) returns (ret: int)
      requires Valid()
      modifies agent, agent.config
      ensures Valid() && (View(), ret) == DoSetting(old(View()), SettingDefault(pid, which, value), env)
    {
      hide SetDefault;
      var known := list.SettingIs(pid);
      if !known { return ERROR_INVALID_PARAMETER; }
      ret := agent.SettingSetDefault(which, value, env.calls);
    }

    method SettingGetEngineList(pid: int, env: Env) returns (ret: int, ids: seq<string>)
      requires Valid()
      modifies agent, agent.config
      ensures Valid() && (View(), ret) == DoSetting(old(View()), SettingList(pid), env)
      ensures |ids| == if ret == 0 then |env.found| else 0
      ensures forall i :: 0 <= i < |ids| ==> ids[i] == env.found[i].uuid
    {
      hide RefreshList;
      var known := list.SettingIs(pid);
      if !known { return ERROR_INVALID_PARAMETER, []; }
      ret, ids := agent.SettingRefreshList(env.found);
    }

    // ---- All events ----

    method Sleep(ms: nat)
      requires Valid()
      modifies this`now
      ensures Valid() && View() == old(View()).(loop := old(View().loop).(now := old(View().loop.now) + ms))
    {
      now := now + ms;
    }

    /** Whatever reaches the daemon, its handler makes of the daemon what the transition function says. */
    method Handle(e: Event, env: Env)
      requires Valid() && agent.config.engineId.Some?
      modifies this, list, list.clients, agent, agent.config, recorder
      ensures Valid() && View() == Step(old(View()), e, env)
    {
      hide View, Valid, Step, IsRequest, IsSetting;
      ViewHasId();
      if IsRequest(e) {
        HandleRequest(e, env);
      } else if IsSetting(e) {
        HandleSetting(e, env);
      } else {
        HandleCallback(e, env);
      }
    }

    method HandleRequest(e: Event, env: Env)
      requires Valid() && agent.config.engineId.Some?
      requires IsRequest(e)
      modifies this, list, list.clients, agent, agent.config, recorder
      ensures Valid() && View() == Step(old(View()), e, env)
    {
      hide View, Valid, DoInitialize, DoFinalize, DoStart, DoStop, DoCancel;
      ViewHasId();
      match e {
        case Initialize(pid, uid) => var _, _ := Initialize(pid, uid, env);
        case Finalize(uid) => var _ := Finalize(uid, env);
        case Start(uid, lang, p, u, s) => var _ := Start(uid, lang, p, u, s, env);
        case Stop(uid) => var _ := Stop(uid, env);
        case Cancel(uid) => var _ := Cancel(uid, env);
      }
    }

    method HandleCallback(e: Event, env: Env)
      requires Valid() && agent.config.engineId.Some?
      requires !IsRequest(e) && !IsSetting(e)
      modifies this, list, list.clients, agent, recorder
      ensures Valid() && View() == Step(old(View()), e, env)
    {
      hide View, Valid, DoResult, DoFire, DoCleanup, Daemon.StopRecorder, DoSilenceDetected, DoAudioChunk, CancelRec;
      ViewHasId();
      match e {
        case Result(uid, outcome, kind, data, text) => OnResult(uid, outcome, kind, data, text, env);
        case SilenceDetected => OnSilence();
        case AudioChunk => OnAudio(env);
        case CamcorderStops => StopRecorder(env);
        case CamcorderCancels => CancelRecorder(env);
        case Cleanup(visits) => CleanupAll(visits);
        case Fire(id) => var _ := Fire(id, env);
        case Tick(ms) => Sleep(ms);
      }
    }

    method HandleSetting(e: Event, env: Env)
      requires Valid() && agent.config.engineId.Some?
      requires IsSetting(e)
      modifies this`hasEngine, list`settings, agent, agent.config
      ensures Valid() && View() == Step(old(View()), e, env)
    {
      hide View, Valid, DoSettingInitialize, DoSettingFinalize, DoSetting;
      ViewHasId();
      match e {
        case SettingInitialize(pid) => var _ := SettingInitialize(pid, env);
        case SettingFinalize(pid) => var _ := SettingFinalize(pid);
        case SettingEngine(pid, engine) => var _ := SettingSetEngine(pid, engine, env);
        case SettingLang(pid, lang) => var _ := SettingSetLang(pid, lang, env);
        case SettingDefault(pid, which, value) => var _ := SettingSetDefault(pid, which, value, env);
        case SettingList(pid) => var _, _ := SettingGetEngineList(pid, env);
      }
    }

    lemma ViewHasId()
      ensures View().agent.conf.engineId == agent.config.engineId
    {
    }
  }

  lemma StateTellsHas(cs: seq<Client>, uid: int)
    ensures StateOf(cs, uid).Some? <==> Has(cs, uid)
  {
  }
}
