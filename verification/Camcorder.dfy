/** The recorder's flag against the camcorder it stands for. */
module Camcorder {
  import opened Types
  import opened ClientData
  import Config
  import opened EngineAgent
  import opened Recorder
  import opened Daemon
  import opened Sessions
  import opened Devices
  import opened Runs

  predicate InTune(r: Rec) {
    r.recording == r.running
  }

  /** While it runs, the camcorder can be cancelled, and stopped with its recorded file in place. */
  predicate CamcorderObeys(d: State, env: Env) {
    d.rec.running ==> env.recCancel && env.recCommit && StopSucceeds(d.rec, env.file)
  }

  /** What one step assumes of the camcorder; nothing is assumed of one that does not run. */
  predicate CamcorderRely(d: State, e: Event, env: Env) {
    && CamcorderObeys(d, env) && ResultInTime(d, e)
    && (e.Cleanup? ==> forall i :: 0 <= i < |e.visits| ==> CamcorderObeys(d, e.visits[i].env))
  }

  /** A client registers while another one's recording is under way. */
  predicate Interrupts(d: State, e: Event, env: Env)
    requires d.agent.conf.engineId.Some?
  {
    e.Initialize? && d.rec.recording && env.recCancel && DoInitialize(d, e.pid, e.uid, env).1 == 0
  }

  // ---- Handlers ----

  lemma LoadLeavesRecorder(d: State, env: Env)
    ensures LoadIfFirst(d, env).0.rec == d.rec
  {
    hide LoadCurrent;
  }

  lemma InitializeTunes(d: State, pid: int, uid: int, env: Env)
    requires d.agent.conf.engineId.Some?
    ensures var (d', ret) := DoInitialize(d, pid, uid, env);
      && (ret != 0 ==> d'.rec == d.rec)
      && (ret == 0 ==> d'.rec.recording == d.rec.recording)
      && (ret == 0 ==> d'.rec.running == (d.rec.running && !(d.rec.recording && env.recCancel)))
  {
    hide EnsureEngine, LoadIfFirst, UnloadCurrent, Plus, Has;
    EnsureKeeps(d, env);
    LoadLeavesRecorder(EnsureEngine(d, env).0, env);
  }

  lemma FinalizeTunes(d: State, uid: int, env: Env)
    ensures InTune(d.rec) ==> InTune(DoFinalize(d, uid, env).0.rec)
  {
    hide RecognizeCancel, UnloadCurrent, Without, StateOf;
  }

  lemma StartTunes(d: State, uid: int, lang: string, p: int, u: int, s: int, env: Env)
    requires Good(d.clients) && RecorderOwned(d) && InTune(d.rec)
    ensures InTune(DoStart(d, uid, lang, p, u, s, env).0.rec)
  {
    hide RecognizeStart, RecognizeCancel, SessionOf, WithState, WithTimer;
    if StartGuard(d, uid, env) == 0 { FreeIsAllReady(d.clients); }
  }

  lemma StopRecorderTunes(d: State, env: Env)
    requires InTune(d.rec) && CamcorderObeys(d, env)
    ensures InTune(StopRecorder(d, env).rec)
  {
    StopRecorderEffect(d, env);
  }

  lemma StopTunes(d: State, uid: int, env: Env)
    requires InTune(d.rec) && CamcorderObeys(d, env)
    ensures InTune(DoStop(d, uid, env).0.rec)
  {
    hide StopRecorder, RecognizeStop, WithState, WithTimer, InTune, CamcorderObeys;
    StopRecorderTunes(d, env);
  }

  lemma CancelTunes(d: State, uid: int, env: Env)
    ensures InTune(d.rec) ==> InTune(DoCancel(d, uid, env).0.rec)
  {
    hide RecognizeCancel, WithState, StateOf, TimerOf;
  }

  lemma ResultTunes(d: State, uid: int, outcome: Outcome, kind: Option<string>, data: seq<Option<string>>,
                    text: Option<string>, env: Env)
    ensures DoResult(d, uid, outcome, kind, data, text, env).rec == d.rec
  {
    hide SendResult, WithState;
    var d1 := d.(agent := ResultReported(d.agent, env.resultEnds), loop := DelTimer(d.loop, TimerOf(d.clients, uid)));
    SendResultKeeps(d1, uid, kind, if outcome.Success? then data else [], text, env);
  }

  lemma TimeoutTunes(d: State, env: Env)
    ensures DoTimeout(d, env).rec == d.rec
  {
    hide SendResult, WithState, RecognizeCancel, FirstIn;
    var d1 := d.(agent := RecognizeCancel(d.agent, env.calls.cancel).0);
    SendResultKeeps(d1, FirstIn(d.clients, Processing), Some(FREE), [], Some(TIMED_OUT_TEXT), env);
  }

  lemma FireTunes(d: State, id: nat, env: Env)
    requires InTune(d.rec) && CamcorderObeys(d, env)
    ensures InTune(DoFire(d, id, env).0.rec)
  {
    hide DoCheck, DoTimeout, DoStop, DoFinalize, DoCancel, FirstIn, PidOf, Acknowledged, InTune, CamcorderObeys;
    var uid := FirstIn(d.clients, Recording);
    CheckCases(d, env);
    TimeoutTunes(d, env);
    FinalizeTunes(d, uid, env);
    CancelTunes(d, uid, env);
    StopTunes(d, uid, env);
    FinalizeTunes(DoStop(d, uid, env).0, uid, env);
  }

  lemma {:induction false} CleanupTunes(d: State, uids: seq<int>, visits: seq<Visit>)
    requires |uids| == |visits| && InTune(d.rec)
    ensures InTune(CleanupFrom(d, uids, visits).rec)
    decreases |uids|
  {
    hide DoFinalize, InTune;
    if uids != [] {
      FinalizeTunes(d, uids[0], visits[0].env);
      var d1 := if HelloResult(d, uids[0], visits[0].hello) == 0 then DoFinalize(d, uids[0], visits[0].env).0 else d;
      CleanupTunes(d1, uids[1..], visits[1..]);
    }
  }

  lemma SettingTunes(d: State, e: Event, env: Env)
    requires d.agent.conf.engineId.Some?
    requires IsSetting(e)
    ensures Step(d, e, env).rec == d.rec
  {
    hide SetEngine, SetDefault, SetDefaultLang, RefreshList, LoadCurrent, UnloadCurrent, InitializeCurrent;
  }

  // ---- Steps and runs ----

  /** Flag and camcorder part exactly when a client registers during a recording. */
  lemma StepInTune(d: State, e: Event, env: Env)
    requires Good(d.clients) && RecorderOwned(d) && d.agent.conf.engineId.Some? && CamcorderRely(d, e, env)
    requires InTune(d.rec)
    ensures InTune(Step(d, e, env).rec) <==> !Interrupts(d, e, env)
  {
    hide DoInitialize, DoFinalize, DoStart, DoStop, DoCancel, DoResult, DoFire, CleanupFrom, StopRecorder, Good;
    hide DoSetting, DoSettingInitialize, DoSettingFinalize, RecorderOwned;
    match e
    case Initialize(pid, uid) => InitializeTunes(d, pid, uid, env);
    case Finalize(uid) => FinalizeTunes(d, uid, env);
    case Start(uid, lang, p, u, s) => StartTunes(d, uid, lang, p, u, s, env);
    case Stop(uid) => StopTunes(d, uid, env);
    case Cancel(uid) => CancelTunes(d, uid, env);
    case Result(uid, outcome, kind, data, text) => ResultTunes(d, uid, outcome, kind, data, text, env);
    case CamcorderStops => StopRecorderTunes(d, env);
    case Fire(id) => FireTunes(d, id, env);
    case Cleanup(visits) => if |visits| == |d.clients| { CleanupTunes(d, Uids(d.clients), visits); }
    case CamcorderCancels =>
    case SilenceDetected =>
    case AudioChunk =>
    case Tick(ms) =>
    case _ => SettingTunes(d, e, env);
  }

  lemma TunedRely(d: State, e: Event, env: Env)
    requires InTune(d.rec) && CamcorderRely(d, e, env)
    ensures RecorderRely(d, e, env)
  {
  }

  ghost predicate CamcorderRelied(r: Run, n: nat)
    requires Follows(r) && n <= |r.events|
  {
    forall j :: 0 <= j < n ==> CamcorderRely(r.states[j], r.events[j], r.envs[j])
  }

  ghost predicate Uninterrupted(r: Run, n: nat)
    requires Follows(r) && n <= |r.events|
  {
    forall j :: 0 <= j < n ==> !Interrupts(r.states[j], r.events[j], r.envs[j])
  }

  ghost predicate Tuned(r: Run, n: nat)
    requires Follows(r) && n <= |r.events|
  {
    forall k :: 0 <= k <= n ==> InTune(r.states[k].rec)
  }

  /** Relying on a running camcorder only: if no client registers during a recording, the recorder's flag says
      what the camcorder does, and says recording only for the client that is RECORDING. */
  lemma {:induction false} UninterruptedContract(r: Run, conf: Config.Conf, env: Env, n: nat)
    requires IsRun(r, conf, env) && n <= |r.events| && CamcorderRelied(r, n) && Uninterrupted(r, n)
    ensures InTune(r.states[n].rec) && RecorderOwned(r.states[n])
  {
    hide Step, Good, Sound, InTune, RecorderOwned, CamcorderRely, RecorderRely, Interrupts;
    if n == 0 {
      BootOwned(conf, env);
      BootTuned(conf, env);
    } else {
      UninterruptedContract(r, conf, env, n - 1);
      AlwaysExclusive(r, conf, env, n - 1);
      StepInTune(r.states[n - 1], r.events[n - 1], r.envs[n - 1]);
      TunedRely(r.states[n - 1], r.events[n - 1], r.envs[n - 1]);
      StepRecorder(r.states[n - 1], r.events[n - 1], r.envs[n - 1]);
    }
  }

  lemma BootTuned(conf: Config.Conf, env: Env)
    requires conf.language.Some? && conf.engineId.Some?
    ensures InTune(Boot(conf, env).rec)
  {
  }

  /** Flag and camcorder agree in all states of a run exactly if no client registers during a recording. */
  lemma {:induction false} TunedWhen(r: Run, conf: Config.Conf, env: Env, n: nat)
    requires IsRun(r, conf, env) && n <= |r.events| && CamcorderRelied(r, n)
    ensures Tuned(r, n) <==> Uninterrupted(r, n)
  {
    hide Step, Good, Sound, InTune, RecorderOwned, CamcorderRely, Interrupts;
    if n == 0 {
      BootTuned(conf, env);
    } else {
      TunedWhen(r, conf, env, n - 1);
      assert Tuned(r, n) <==> Tuned(r, n - 1) && InTune(r.states[n].rec);
      var d, e := r.states[n - 1], r.events[n - 1];
      assert Uninterrupted(r, n) <==> Uninterrupted(r, n - 1) && !Interrupts(d, e, r.envs[n - 1]);
      if Uninterrupted(r, n - 1) {
        UninterruptedContract(r, conf, env, n - 1);
        AlwaysExclusive(r, conf, env, n - 1);
        StepInTune(d, e, r.envs[n - 1]);
      }
    }
  }
}
