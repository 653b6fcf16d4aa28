/** The daemon's session manager as a transition system (server/sttd_server.c). */
module Daemon {
  import opened Types
  import opened ClientData
  import Config
  import opened EngineAgent
  import opened Recorder

  // ---- State ----

  datatype TimerKind = CheckRecording | ProcessingTimeout | StopBySilence

  /** `due` in milliseconds. */
  datatype Timer = Timer(kind: TimerKind, due: int)

  /** The main loop: live timers, the next timer's id, the clock. */
  datatype Loop = Loop(timers: map<nat, Timer>, next: nat, now: int)

  const STATE_CHECK_TIME := 15500

  /** A result on its way to a client; absent strings travel as "None". */
  datatype Message = Message(uid: int, kind: Option<string>, text: Option<string>, data: seq<string>)

  datatype State = State(
    clients: seq<Client>,
    settings: seq<int>,
    agent: Agent,
    hasEngine: bool,
    rec: Rec,
    loop: Loop,
    bus: seq<Message>)

  // ---- Environment ----

  /** The engine's recording format: the query failed, a format the recorder knows, or another one. */
  datatype Format = Unavailable | Known(audio: Audio) | Unknown

  /** What the daemon meets in one step: the engine directory, the engine, the camcorder, the network, the bus
      and the client process. `error` says the error message can be created, `resultEnds` that a recognition
      is over with its report, and `getState` is the client's answer, if it answers. */
  datatype Env = Env(
    found: seq<EngineInfo>, load: LoadEnv, calls: Calls, format: Format, validator: bool,
    camcorder: Answer, recCancel: bool, recCommit: bool, file: Option<seq<byte>>, accepts: nat,
    network: bool, send: bool, error: bool, resultEnds: bool, getState: Option<int>, setState: bool)

  datatype Outcome = Success | NoResult | Error

  datatype Visit = Visit(hello: int, env: Env)

  datatype Event =
    | Initialize(pid: int, uid: int)
    | Finalize(uid: int)
    | Start(uid: int, lang: string, p: int, u: int, s: int)
    | Stop(uid: int)
    | Cancel(uid: int)
    | Result(uid: int, outcome: Outcome, kind: Option<string>, data: seq<Option<string>>, text: Option<string>)
    | SilenceDetected
    | AudioChunk
    | CamcorderStops
    | CamcorderCancels
    | Fire(id: nat)
    | Tick(ms: nat)
    | Cleanup(visits: seq<Visit>)
    | SettingInitialize(pid: int)
    | SettingFinalize(pid: int)
    | SettingEngine(pid: int, engine: string)
    | SettingLang(pid: int, lang: string)
    | SettingDefault(pid: int, which: Which, value: bool)
    | SettingList(pid: int)

  /** A state the daemon pushed into a client and the client acknowledged. */
  type Push = Option<(int, AppState)>

  // ---- Small steps ----

  function AddTimer(l: Loop, kind: TimerKind, delay: int): Loop {
    l.(timers := l.timers[l.next := Timer(kind, l.now + delay)], next := l.next + 1)
  }

  function DelTimer(l: Loop, t: Option<nat>): Loop {
    if t.Some? then l.(timers := l.timers - {t.value}) else l
  }

  function RefCount(d: State): nat {
    |d.clients| + |d.settings|
  }

  function UnloadIfUnused(d: State): State {
    if RefCount(d) == 0 then d.(agent := UnloadCurrent(d.agent).0) else d
  }

  /** Uses the current engine, choosing one first if none has been found yet. */
  function EnsureEngine(d: State, env: Env): (State, int)
    requires d.agent.conf.engineId.Some?
  {
    if d.hasEngine then (d, 0)
    else
      var (a, ret) := InitializeCurrent(d.agent, env.found);
      (d.(agent := a, hasEngine := ret == 0), if ret == 0 then 0 else ERROR_ENGINE_NOT_FOUND)
  }

  function LoadIfFirst(d: State, env: Env): (State, int) {
    if RefCount(d) > 0 then (d, 0)
    else
      var (a, ret) := LoadCurrent(d.agent, env.load);
      (d.(agent := a), if ret == 0 then 0 else ERROR_OPERATION_FAILED)
  }

  predicate SomebodyRecords(cs: seq<Client>) {
    StateOf(cs, FirstIn(cs, Recording)) == Some(Recording)
  }

  function QueueSilence(d: State): State {
    if SomebodyRecords(d.clients) then d.(loop := AddTimer(d.loop, StopBySilence, 0)) else d
  }

  /** Stopping the recorder; a replayed chunk the engine refuses queues a stop by silence. */
  function StopRecorder(d: State, env: Env): State {
    var accepts := if d.agent.isLoaded then env.accepts else 0;
    var refused := ReplayRefused(d.rec, env.file, accepts);
    var d1 := d.(rec := StopRec(d.rec, env.file, env.recCommit).0);
    if refused then QueueSilence(d1) else d1
  }

  // ---- Requests of clients ----

  function DoInitialize(d: State, pid: int, uid: int, env: Env): (State, int)
    requires d.agent.conf.engineId.Some?
  {
    var (d1, r1) := EnsureEngine(d, env);
    if r1 != 0 then (d1, r1)
    else if Has(d1.clients, uid) then (d1, ERROR_INVALID_PARAMETER)
    else
      var (d2, r2) := LoadIfFirst(d1, env);
      if r2 != 0 then (d2, r2)
      else if !d2.agent.isLoaded || env.format.Unavailable? then (d2, ERROR_OPERATION_FAILED)
      else if env.format.Unknown? then (d2.(agent := UnloadCurrent(d2.agent).0), ERROR_OPERATION_FAILED)
      else (d2.(rec := SetFormat(d2.rec, env.format.audio, env.recCancel), clients := Plus(d2.clients, pid, uid)), 0)
  }

  function CancelDevices(d: State, env: Env): State {
    d.(rec := CancelRec(d.rec, env.recCancel).0, agent := RecognizeCancel(d.agent, env.calls.cancel).0)
  }

  function DoFinalize(d: State, uid: int, env: Env): (State, int) {
    match StateOf(d.clients, uid)
    case None => (d, ERROR_INVALID_PARAMETER)
    case Some(st) =>
      var d1 := if st.Recording? || st.Processing? then CancelDevices(d, env) else d;
      (UnloadIfUnused(d1.(clients := Without(d1.clients, uid))), 0)
  }

  /** Why a start is turned away before the engine is called, or 0. */
  function StartGuard(d: State, uid: int, env: Env): int {
    if !Has(d.clients, uid) then ERROR_INVALID_PARAMETER
    else if StateOf(d.clients, uid) != Some(Ready) then ERROR_INVALID_STATE
    else if 0 < FirstIn(d.clients, Recording) then ERROR_RECORDER_BUSY
    else if 0 < FirstIn(d.clients, Processing) then ERROR_RECORDER_BUSY
    else if NeedNetwork(d.agent) && !env.network then ERROR_OUT_OF_NETWORK
    else 0
  }

  function BeginSession(d: State, uid: int): State {
    var cs := WithTimer(WithState(d.clients, uid, Recording), uid, Some(d.loop.next));
    d.(clients := cs, loop := AddTimer(d.loop, CheckRecording, STATE_CHECK_TIME))
  }

  function DoStart(d: State, uid: int, lang: string, p: int, u: int, s: int, env: Env): (State, int) {
    var guard := StartGuard(d, uid, env);
    if guard != 0 then (d, guard)
    else
      var (a, r1) := RecognizeStart(d.agent, lang, p, u, s, env.calls);
      if r1 != 0 then (d.(agent := a), ERROR_OPERATION_FAILED)
      else
        var (r, r2) := StartRec(d.rec, env.camcorder, env.recCancel);
        if r2 != 0 then (d.(rec := r, agent := RecognizeCancel(a, env.calls.cancel).0), ERROR_OPERATION_FAILED)
        else (BeginSession(d.(agent := a, rec := r), uid), 0)
  }

  function BeginProcessing(d: State, uid: int): State {
    var l := DelTimer(d.loop, TimerOf(d.clients, uid));
    var cs := WithTimer(WithState(d.clients, uid, Processing), uid, Some(l.next));
    d.(clients := cs, loop := AddTimer(l, ProcessingTimeout, STATE_CHECK_TIME))
  }

  function DoStop(d: State, uid: int, env: Env): (State, int) {
    if !Has(d.clients, uid) then (d, ERROR_INVALID_PARAMETER)
    else if StateOf(d.clients, uid) != Some(Recording) then (d, ERROR_INVALID_STATE)
    else
      var d1 := StopRecorder(d, env);
      var (a, ret) := RecognizeStop(d1.agent, env.calls.stop);
      var d2 := d1.(agent := a);
      if ret != 0 then (d2.(clients := WithState(d2.clients, uid, Ready)), ERROR_OPERATION_FAILED)
      else (BeginProcessing(d2, uid), 0)
  }

  function DoCancel(d: State, uid: int, env: Env): (State, int) {
    if !Has(d.clients, uid) then (d, ERROR_INVALID_PARAMETER)
    else if StateOf(d.clients, uid) == Some(Ready) then (d, ERROR_INVALID_STATE)
    else
      var d1 := if StateOf(d.clients, uid) == Some(Recording) then d.(rec := CancelRec(d.rec, env.recCancel).0) else d;
      var (a, ret) := RecognizeCancel(d1.agent, env.calls.cancel);
      var d2 := d1.(agent := a);
      if ret != 0 then (d2, ERROR_OPERATION_FAILED)
      else
        (d2.(loop := DelTimer(d2.loop, TimerOf(d2.clients, uid)), clients := WithState(d2.clients, uid, Ready)), 0)
  }

  // ---- Engine and device callbacks ----

  predicate AllPresent(data: seq<Option<string>>) {
    forall i :: 0 <= i < |data| ==> data[i].Some?
  }

  function Strings(data: seq<Option<string>>): (r: seq<string>)
    requires AllPresent(data)
    ensures |r| == |data|
  {
    seq(|data|, i requires 0 <= i < |data| => data[i].value)
  }

  /** Hands a result to the bus. An absent string turns it into an error signal; should the message for
      that not be created, the client's record is dropped. */
  function SendResult(d: State, uid: int, kind: Option<string>, data: seq<Option<string>>, text: Option<string>,
                      env: Env): (State, int)
  {
    if PidOf(d.clients, uid) < 0 then (d, -1)
    else if !AllPresent(data) then
      (if env.error then d else d.(clients := Without(d.clients, uid)), -1)
    else if !env.send then (d, -1)
    else (d.(bus := d.bus + [Message(uid, kind, text, Strings(data))]), 0)
  }

  function DoResult(d: State, uid: int, outcome: Outcome, kind: Option<string>, data: seq<Option<string>>,
                    text: Option<string>, env: Env): State
  {
    var d0 := d.(agent := ResultReported(d.agent, env.resultEnds));
    if !d.agent.isLoaded || !Has(d.clients, uid) then d0
    else
      var processing := StateOf(d0.clients, uid) == Some(Processing);
      var d1 := d0.(loop := DelTimer(d0.loop, TimerOf(d0.clients, uid)));
      var d2 :=
        if !processing || (outcome.Success? && data == []) then d1
        else SendResult(d1, uid, kind, if outcome.Success? then data else [], text, env).0;
      d2.(clients := WithState(d2.clients, uid, Ready))
  }

  function DoSilenceDetected(d: State): State {
    if d.agent.isLoaded && d.agent.opts.sil.cached then QueueSilence(d) else d
  }

  /** A recorded chunk goes to the engine, which takes it unless it is unloaded or `accepts` is 0. */
  function DoAudioChunk(d: State, env: Env): State {
    if d.agent.isLoaded && env.accepts > 0 then d else QueueSilence(d)
  }

  // ---- Timer callbacks ----

  const FREE := "stt.recognition.type.FREE"
  const TIMED_OUT_TEXT := "Time out not to receive recognition result."

  function DoTimeout(d: State, env: Env): State {
    var uid := FirstIn(d.clients, Processing);
    if uid == -1 then d
    else
      var d1 := d.(agent := RecognizeCancel(d.agent, env.calls.cancel).0);
      var d2 := SendResult(d1, uid, Some(FREE), [], Some(TIMED_OUT_TEXT), env).0;
      d2.(clients := WithState(d2.clients, uid, Ready))
  }

  predicate Acknowledged(d: State, uid: int, env: Env) {
    PidOf(d.clients, uid) >= 0 && env.setState
  }

  /** The watchdog: the new state, whether the timer is renewed, and what was pushed to the client. */
  function DoCheck(d: State, env: Env): (State, bool, Push) {
    var uid := FirstIn(d.clients, Recording);
    if uid == -1 then (d, false, None)
    else if PidOf(d.clients, uid) < 0 || env.getState.None? then (DoFinalize(d, uid, env).0, false, None)
    else if env.getState.value == StateCode(Ready) then (DoCancel(d, uid, env).0, false, None)
    else if env.getState.value == StateCode(Processing) then
      var d1 := DoCancel(d, uid, env).0;
      (d1, false, if Acknowledged(d1, uid, env) then Some((uid, Ready)) else None)
    else (d, true, None)
  }

  function DoSilence(d: State, env: Env): (State, Push) {
    var uid := FirstIn(d.clients, Recording);
    if uid <= 0 then (d, None)
    else
      var (d1, ret) := DoStop(d, uid, env);
      if ret != 0 then (d1, None)
      else if Acknowledged(d1, uid, env) then (d1, Some((uid, Processing)))
      else (DoFinalize(d1, uid, env).0, None)
  }

  predicate IsDue(l: Loop, id: nat) {
    id in l.timers && l.timers[id].due <= l.now
  }

  function DoFire(d: State, id: nat, env: Env): (State, Push) {
    if !IsDue(d.loop, id) then (d, None)
    else
      match d.loop.timers[id].kind
      case CheckRecording =>
        var (d1, renew, push) := DoCheck(d, env);
        var again := Timer(CheckRecording, d.loop.timers[id].due + STATE_CHECK_TIME);
        var l := if renew then d1.loop.(timers := d1.loop.timers[id := again]) else DelTimer(d1.loop, Some(id));
        (d1.(loop := l), push)
      case ProcessingTimeout =>
        var d1 := DoTimeout(d, env);
        (d1.(loop := DelTimer(d1.loop, Some(id))), None)
      case StopBySilence =>
        var (d1, push) := DoSilence(d, env);
        (d1.(loop := DelTimer(d1.loop, Some(id))), push)
  }

  // ---- Cleanup ----

  /** A client whose pid cannot be looked up is never asked. */
  function HelloResult(d: State, uid: int, hello: int): int {
    if PidOf(d.clients, uid) < 0 then -1 else hello
  }

  function CleanupFrom(d: State, uids: seq<int>, visits: seq<Visit>): State
    requires |uids| == |visits|
    decreases |uids|
  {
    if uids == [] then d
    else
      var d1 := if HelloResult(d, uids[0], visits[0].hello) == 0 then DoFinalize(d, uids[0], visits[0].env).0 else d;
      CleanupFrom(d1, uids[1..], visits[1..])
  }

  function DoCleanup(d: State, visits: seq<Visit>): State {
    if |visits| == |d.clients| then CleanupFrom(d, Uids(d.clients), visits) else d
  }

  // ---- Requests of the setting application ----

  function DoSettingInitialize(d: State, pid: int, env: Env): (State, int)
    requires d.agent.conf.engineId.Some?
  {
    var (d1, r1) := EnsureEngine(d, env);
    if r1 != 0 then (d1, r1)
    else if pid in d1.settings then (d1, ERROR_INVALID_PARAMETER)
    else
      var (d2, r2) := LoadIfFirst(d1, env);
      if r2 != 0 then (d2, r2) else (d2.(settings := SettingPlus(d2.settings, pid)), 0)
  }

  function DoSettingFinalize(d: State, pid: int): (State, int) {
    (UnloadIfUnused(d.(settings := SettingWithout(d.settings, pid))), 0)
  }

  function DoSetting(d: State, e: Event, env: Env): (State, int) {
    match e
    case SettingEngine(pid, engine) =>
      var (a, ret) := SetEngine(d.agent, engine, env.load);
      if pid in d.settings then (d.(agent := a), ret) else (d, ERROR_INVALID_PARAMETER)
    case SettingLang(pid, lang) =>
      var (a, ret) := SetDefaultLang(d.agent, lang, env.validator);
      if pid in d.settings then (d.(agent := a), ret) else (d, ERROR_INVALID_PARAMETER)
    case SettingDefault(pid, which, value) =>
      var (a, ret) := SetDefault(d.agent, which, value, env.calls);
      if pid in d.settings then (d.(agent := a), ret) else (d, ERROR_INVALID_PARAMETER)
    case SettingList(pid) =>
      var (a, ret) := RefreshList(d.agent, env.found);
      if pid in d.settings then (d.(agent := a), ret) else (d, ERROR_INVALID_PARAMETER)
    case _ => (d, 0)
  }

  /** A request of a client. */
  predicate IsRequest(e: Event) {
    e.Initialize? || e.Finalize? || e.Start? || e.Stop? || e.Cancel?
  }

  /** A request of the setting application. */
  predicate IsSetting(e: Event) {
    || e.SettingInitialize? || e.SettingFinalize? || e.SettingEngine?
    || e.SettingLang? || e.SettingDefault? || e.SettingList?
  }

  // ---- The transition function ----

  function Step(d: State, e: Event, env: Env): State
    requires d.agent.conf.engineId.Some?
  {
    match e
    case Initialize(pid, uid) => DoInitialize(d, pid, uid, env).0
    case Finalize(uid) => DoFinalize(d, uid, env).0
    case Start(uid, lang, p, u, s) => DoStart(d, uid, lang, p, u, s, env).0
    case Stop(uid) => DoStop(d, uid, env).0
    case Cancel(uid) => DoCancel(d, uid, env).0
    case Result(uid, outcome, kind, data, text) => DoResult(d, uid, outcome, kind, data, text, env)
    case SilenceDetected => DoSilenceDetected(d)
    case AudioChunk => DoAudioChunk(d, env)
    case CamcorderStops => StopRecorder(d, env)
    case CamcorderCancels => d.(rec := CancelRec(d.rec, env.recCancel).0)
    case Fire(id) => DoFire(d, id, env).0
    case Tick(ms) => d.(loop := d.loop.(now := d.loop.now + ms))
    case Cleanup(visits) => DoCleanup(d, visits)
    case SettingInitialize(pid) => DoSettingInitialize(d, pid, env).0
    case SettingFinalize(pid) => DoSettingFinalize(d, pid).0
    case _ => DoSetting(d, e, env).0
  }

  /** The daemon just started on a readable configuration. */
  function Boot(conf: Config.Conf, env: Env): State
    requires conf.language.Some? && conf.engineId.Some?
  {
    var (a, ret) := InitializeCurrent(Initial(conf), env.found);
    State([], [], a, ret == 0, Rec(false, false, PcmS16, false), Loop(map[], 0, 0), [])
  }
}
