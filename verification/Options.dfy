/** The engine options of a session: what a start makes of defaults and choices, over all daemon steps. */
module Options {
  import opened Types
  import opened ClientData
  import opened EngineAgent
  import opened Recorder
  import opened Daemon
  import opened Devices
  import Engines
  import Sessions

  // ---- Only the setting setters part the cache from the engine ----

  /** A setting application changes an option default of a loaded engine. */
  predicate SetsDefault(d: State, e: Event, env: Env) {
    e.SettingDefault? && e.pid in d.settings && SetDefault(d.agent, e.which, e.value, env.calls).1 == 0
  }

  /** The engine may be unloaded, but its options are not touched. */
  predicate OptionsRest(a: Agent, b: Agent) {
    b.isLoaded ==> a.isLoaded && b.opts == a.opts
  }

  lemma FinalizeRests(d: State, uid: int, env: Env)
    ensures OptionsRest(d.agent, DoFinalize(d, uid, env).0.agent)
  {
  }

  lemma {:induction false} CleanupRests(d: State, uids: seq<int>, visits: seq<Visit>)
    requires |uids| == |visits|
    ensures OptionsRest(d.agent, CleanupFrom(d, uids, visits).agent)
    decreases |uids|
  {
    hide DoFinalize;
    if uids != [] {
      FinalizeRests(d, uids[0], visits[0].env);
      var d1 := if HelloResult(d, uids[0], visits[0].hello) == 0 then DoFinalize(d, uids[0], visits[0].env).0 else d;
      CleanupRests(d1, uids[1..], visits[1..]);
    }
  }

  lemma StopRests(d: State, uid: int, env: Env)
    ensures OptionsRest(d.agent, DoStop(d, uid, env).0.agent)
  {
    hide StopRecorder;
    Sessions.StopRecorderKeepsClients(d, env);
  }

  lemma CancelRests(d: State, uid: int, env: Env)
    ensures OptionsRest(d.agent, DoCancel(d, uid, env).0.agent)
  {
  }

  lemma FireRests(d: State, id: nat, env: Env)
    ensures OptionsRest(d.agent, DoFire(d, id, env).0.agent)
  {
    hide DoFinalize, DoStop, DoCancel, DoTimeout, OptionsRest;
    var uid := FirstIn(d.clients, Recording);
    FinalizeRests(d, uid, env);
    CancelRests(d, uid, env);
    StopRests(d, uid, env);
    RestsChain(d.agent, DoStop(d, uid, env).0.agent, DoFinalize(DoStop(d, uid, env).0, uid, env).0.agent);
    FinalizeRests(DoStop(d, uid, env).0, uid, env);
    TimeoutRests(d, env);
  }

  lemma RestsChain(a: Agent, b: Agent, c: Agent)
    ensures OptionsRest(a, a)
    ensures OptionsRest(a, b) && OptionsRest(b, c) ==> OptionsRest(a, c)
  {
  }

  lemma TimeoutRests(d: State, env: Env)
    ensures OptionsRest(d.agent, DoTimeout(d, env).agent)
  {
    hide SendResult;
    var d1 := d.(agent := RecognizeCancel(d.agent, env.calls.cancel).0);
    SendResultKeeps(d1, FirstIn(d.clients, Processing), Some(FREE), [], Some(TIMED_OUT_TEXT), env);
  }

  lemma ResultRests(d: State, e: Event, env: Env)
    requires e.Result?
    ensures OptionsRest(d.agent, DoResult(d, e.uid, e.outcome, e.kind, e.data, e.text, env).agent)
  {
    hide SendResult;
    var d1 := d.(agent := ResultReported(d.agent, env.resultEnds), loop := DelTimer(d.loop, TimerOf(d.clients, e.uid)));
    SendResultKeeps(d1, e.uid, e.kind, if e.outcome.Success? then e.data else [], e.text, env);
  }

  lemma LoadIfFirstInStep(d: State, env: Env)
    requires InStep(d.agent)
    ensures InStep(LoadIfFirst(d, env).0.agent)
  {
    LoadInStep(d.agent, env.load);
  }

  lemma EnsureInStep(d: State, env: Env)
    requires Sound(d) && InStep(d.agent)
    ensures InStep(EnsureEngine(d, env).0.agent)
  {
  }

  lemma RestsInStep(a: Agent, b: Agent)
    ensures OptionsRest(a, b) && InStep(a) ==> InStep(b)
    ensures (b.isLoaded ==> a.isLoaded) && b.opts == a.opts ==> OptionsRest(a, b)
  {
  }

  /** Cache and engine stay in step through every step but an accepted setting of a default. */
  lemma StepInStep(d: State, e: Event, env: Env)
    requires Sound(d) && InStep(d.agent) && !SetsDefault(d, e, env)
    ensures InStep(Step(d, e, env).agent)
  {
    hide DoFinalize, DoStop, DoResult, DoFire, CleanupFrom, StopRecorder, EnsureEngine, LoadIfFirst;
    hide OptsInStep, AgentOk;
    hide SetEngine, SetOptions, RecognizeStart, SameEngine, InStep, OptionsRest;
    EngineIdStays(d);
    RestsInStep(d.agent, Step(d, e, env).agent);
    match e
    case Initialize(pid, uid) => InitializeInStep(d, pid, uid, env);
    case Finalize(uid) => FinalizeRests(d, uid, env);
    case Start(uid, lang, p, u, s) => StartKeepsStep(d, uid, lang, p, u, s, env);
    case Stop(uid) => StopRests(d, uid, env);
    case Result(uid, outcome, kind, data, text) => ResultRests(d, e, env);
    case CamcorderStops => Sessions.StopRecorderKeepsClients(d, env);
    case Fire(id) => FireRests(d, id, env);
    case Cleanup(visits) => if |visits| == |d.clients| { CleanupRests(d, Uids(d.clients), visits); }
    case SettingInitialize(pid) =>
      EnsureInStep(d, env);
      LoadIfFirstInStep(EnsureEngine(d, env).0, env);
    case SettingEngine(pid, engine) => SetEngineInStep(d.agent, engine, env.load);
    case _ =>
  }

  lemma InitializeInStep(d: State, pid: int, uid: int, env: Env)
    requires Sound(d) && InStep(d.agent)
    ensures InStep(DoInitialize(d, pid, uid, env).0.agent)
  {
    hide EnsureEngine, LoadIfFirst, OptsInStep;
    EnsureInStep(d, env);
    LoadIfFirstInStep(EnsureEngine(d, env).0, env);
  }

  lemma StartKeepsStep(d: State, uid: int, lang: string, p: int, u: int, s: int, env: Env)
    requires InStep(d.agent)
    ensures InStep(DoStart(d, uid, lang, p, u, s, env).0.agent)
  {
    hide RecognizeStart, StartGuard, OptsInStep;
    StartInStep(d.agent, lang, p, u, s, env.calls);
  }

  lemma StartInStep(a: Agent, lang: string, p: int, u: int, s: int, calls: Calls)
    requires InStep(a)
    ensures InStep(RecognizeStart(a, lang, p, u, s, calls).0)
  {
    if a.isLoaded { SetOptionsInStep(a.opts, p, u, s, calls); }
  }

  // ---- A session that was started ----

  /** AUTO runs the engine at the default; any other value it was asked for, if that is a truth value. */
  ghost predicate AsAsked(o: Opt, choice: int) {
    o.supported ==> (choice == 2 ==> o.actual == o.byDefault) && (0 <= choice <= 1 ==> o.actual == (choice == 1))
  }

  ghost predicate AsDefault(o: Opt, choice: int) {
    o.supported && choice == 2 ==> o.actual == o.byDefault
  }

  lemma StartedAgent(d: State, uid: int, lang: string, p: int, u: int, s: int, env: Env)
    requires DoStart(d, uid, lang, p, u, s, env).1 == 0
    ensures RecognizeStart(d.agent, lang, p, u, s, env.calls).1 == 0
    ensures DoStart(d, uid, lang, p, u, s, env).0.agent == RecognizeStart(d.agent, lang, p, u, s, env.calls).0
  {
    hide RecognizeStart;
  }

  /** In any state the daemon can be in: AUTO means the present default. */
  lemma StartUsesDefaults(d: State, uid: int, lang: string, p: int, u: int, s: int, env: Env)
    requires Sound(d) && DoStart(d, uid, lang, p, u, s, env).1 == 0
    ensures var os := DoStart(d, uid, lang, p, u, s, env).0.agent.opts;
      AsDefault(os.prof, p) && AsDefault(os.punc, u) && AsDefault(os.sil, s)
  {
    hide DoStart, RecognizeStart;
    StartedAgent(d, uid, lang, p, u, s, env);
    StartAppliesOptions(d.agent, lang, p, u, s, env.calls);
  }

  /** While no setting setter has intervened, an explicit choice is what the engine runs with. */
  lemma StartUsesChoices(d: State, uid: int, lang: string, p: int, u: int, s: int, env: Env)
    requires Sound(d) && InStep(d.agent) && DoStart(d, uid, lang, p, u, s, env).1 == 0
    ensures var os := DoStart(d, uid, lang, p, u, s, env).0.agent.opts;
      AsAsked(os.prof, p) && AsAsked(os.punc, u) && AsAsked(os.sil, s)
  {
    hide DoStart;
    StartedAgent(d, uid, lang, p, u, s, env);
    StartAppliesOptions(d.agent, lang, p, u, s, env.calls);
  }

  /** A session runs in the language asked for; "default" stands for the persisted default, which the
      engine accepts. */
  lemma StartSpeaks(d: State, uid: int, lang: string, p: int, u: int, s: int, env: Env)
    requires Sound(d) && DoStart(d, uid, lang, p, u, s, env).1 == 0
    ensures var a := DoStart(d, uid, lang, p, u, s, env).0.agent;
      && (!("default" <= lang) ==> a.plug.heard == lang)
      && ("default" <= lang ==> Some(a.plug.heard) == d.agent.conf.language && a.plug.heard in a.plug.valid)
  {
    hide DoStart, SetOptions, OptsOk, Mirrors;
    StartedAgent(d, uid, lang, p, u, s, env);
  }

  function ChoiceOf(which: Which, p: int, u: int, s: int): int {
    match which case Profanity => p case Punctuation => u case Silence => s
  }

  /** A default set through the setting application is persisted, and is what the engine runs with in the
      next session that leaves the option to AUTO, whatever happened to the other options. */
  lemma DefaultReachesEngine(d: State, e: Event, env: Env, uid: int, lang: string, p: int, u: int, s: int, env': Env)
    requires Sound(d) && e.SettingDefault? && SetsDefault(d, e, env) && ChoiceOf(e.which, p, u, s) == 2
    requires d.agent.conf.engineId.Some?
    requires DoStart(Step(d, e, env), uid, lang, p, u, s, env').1 == 0
    ensures var a := DoStart(Step(d, e, env), uid, lang, p, u, s, env').0.agent;
      && (OptOf(a.opts, e.which).supported ==> OptOf(a.opts, e.which).actual == e.value)
      && OptOf(a.opts, e.which).byDefault == e.value
  {
    hide DoStart, RecognizeStart;
    var d1 := Step(d, e, env);
    SettingSound(d, e, env);
    StartedAgent(d1, uid, lang, p, u, s, env');
    StartAppliesOptions(d1.agent, lang, p, u, s, env'.calls);
  }

  // ---- The option defaults ----

  /** The one option of the three that the request names is at the value, in engine, default and configuration;
      its cached value and the other two options stay. */
  ghost predicate DefaultSet(a: Agent, which: Which, value: bool, b: Agent) {
    match which
    case Profanity =>
      && b.opts == a.opts.(prof := Opt(value, a.opts.prof.cached, value, a.opts.prof.supported))
      && b.conf == a.conf.(profanity := BoolCode(value))
    case Punctuation =>
      && b.opts == a.opts.(punc := Opt(value, a.opts.punc.cached, value, a.opts.punc.supported))
      && b.conf == a.conf.(punctuation := BoolCode(value))
    case Silence =>
      && b.opts == a.opts.(sil := Opt(value, a.opts.sil.cached, value, a.opts.sil.supported))
      && b.conf == a.conf.(silence := BoolCode(value))
  }

  /** The engine's call for that option is accepted. */
  predicate Takes(calls: Calls, which: Which) {
    && (which.Profanity? ==> calls.prof.Accepted?)
    && (which.Punctuation? ==> calls.punc.Accepted?)
    && (which.Silence? ==> calls.sil.Accepted?)
  }

  /** A request for a default succeeds exactly when it comes from a registered setting client and the loaded engine
      takes the value. */
  lemma DefaultSetWhen(d: State, e: Event, env: Env)
    requires d.agent.conf.engineId.Some? && e.SettingDefault?
    ensures DoSetting(d, e, env).1 == 0 <==>
      e.pid in d.settings && d.agent.isLoaded && Takes(env.calls, e.which)
    ensures DoSetting(d, e, env).1 == 0 <==> SetsDefault(d, e, env)
    ensures SetsDefault(d, e, env) ==> DefaultSet(d.agent, e.which, e.value, Step(d, e, env).agent)
    ensures !SetsDefault(d, e, env) ==> Step(d, e, env) == d
  {
  }

  // ---- The default language ----

  /** A setting application changes the default language. */
  predicate SetsLanguage(d: State, e: Event, env: Env) {
    e.SettingLang? && e.pid in d.settings && d.agent.isLoaded && env.validator && e.lang in d.agent.plug.valid
  }

  /** A step that may load an engine, and one that does not take the default language. */
  predicate MayReplaceLanguage(d: State, e: Event, env: Env) {
    (e.Initialize? || e.SettingInitialize? || e.SettingEngine?) && d.agent.lang !in env.load.valid
  }

  /** A request for a default language succeeds exactly when it comes from a registered setting client and the
      loaded engine takes the language; then it is the default, and persisted, and otherwise nothing changes. */
  lemma LanguageSetWhen(d: State, e: Event, env: Env)
    requires Sound(d) && e.SettingLang?
    ensures DoSetting(d, e, env).1 == 0 <==> SetsLanguage(d, e, env)
    ensures DoSetting(d, e, env).1 == ERROR_INVALID_LANGUAGE <==>
      e.pid in d.settings && d.agent.isLoaded && env.validator && e.lang !in d.agent.plug.valid
    ensures SetsLanguage(d, e, env) ==>
      var a := Step(d, e, env).agent;
      && a.lang == e.lang && a.conf == d.agent.conf.(language := Some(e.lang))
      && a.plug == d.agent.plug && a.opts == d.agent.opts && a.isLoaded && a.uuid == d.agent.uuid
    ensures !SetsLanguage(d, e, env) ==> Step(d, e, env) == d
  {
    EngineIdStays(d);
  }

  lemma LoadLeavesLanguage(a: Agent, le: LoadEnv)
    ensures a.lang in le.valid ==> LoadCurrent(a, le).0.lang == a.lang
  {
  }

  lemma InitializeLeavesLanguage(d: State, pid: int, uid: int, env: Env)
    requires Sound(d) && d.agent.lang in env.load.valid
    ensures DoInitialize(d, pid, uid, env).0.agent.lang == d.agent.lang
  {
    hide EnsureEngine, LoadCurrent, Plus, SetFormat;
    EnsureLeavesLanguage(d, env);
    LoadLeavesLanguage(EnsureEngine(d, env).0.agent, env.load);
  }

  lemma EnsureLeavesLanguage(d: State, env: Env)
    requires Sound(d)
    ensures EnsureEngine(d, env).0.agent.lang == d.agent.lang
  {
  }

  lemma SwitchLeavesLanguage(a: Agent, id: string, le: LoadEnv)
    requires a.lang in le.valid
    ensures SetEngine(a, id, le).0.lang == a.lang
  {
    hide LoadCurrent;
    if a.uuid.Some? {
      var b := SetCurrent(UnloadCurrent(a).0, id).0;
      LoadLeavesLanguage(SetCurrent(b, a.uuid.value).0, le);
      LoadLeavesLanguage(b, le);
    }
  }

  lemma SettingLeavesLanguage(d: State, e: Event, env: Env)
    requires Sound(d) && IsSetting(e) && !SetsLanguage(d, e, env) && !MayReplaceLanguage(d, e, env)
    ensures Step(d, e, env).agent.lang == d.agent.lang
  {
    hide EnsureEngine, LoadCurrent, SetEngine, SetDefault, SetDefaultLang, AgentOk, SetsLanguage;
    EngineIdStays(d);
    match e
    case SettingLang(pid, lang) => LanguageSetWhen(d, e, env);
    case SettingInitialize(pid) =>
      EnsureLeavesLanguage(d, env);
      LoadLeavesLanguage(EnsureEngine(d, env).0.agent, env.load);
    case SettingEngine(pid, engine) => SwitchLeavesLanguage(d.agent, engine, env.load);
    case SettingDefault(pid, which, value) => SetDefaultKeepsUuid(d.agent, which, value, env.calls);
    case _ =>
  }

  /** Nothing else changes the default language. */
  lemma LanguageStays(d: State, e: Event, env: Env)
    requires Sound(d) && !SetsLanguage(d, e, env) && !MayReplaceLanguage(d, e, env)
    ensures Step(d, e, env).agent.lang == d.agent.lang
  {
    hide DoInitialize, DoFinalize, DoStart, DoStop, DoCancel, DoResult, DoFire, CleanupFrom, StopRecorder, Step;
    hide AgentOk, SetsLanguage;
    if IsSetting(e) {
      SettingLeavesLanguage(d, e, env);
    } else {
      ClientLeavesLanguage(d, e, env);
    }
  }

  lemma ClientLeavesLanguage(d: State, e: Event, env: Env)
    requires Sound(d) && !IsSetting(e) && !MayReplaceLanguage(d, e, env)
    ensures Step(d, e, env).agent.lang == d.agent.lang
  {
    hide DoInitialize, DoFinalize, DoStart, DoStop, DoCancel, DoResult, DoFire, CleanupFrom, StopRecorder, AgentOk;
    match e
    case Initialize(pid, uid) => InitializeLeavesLanguage(d, pid, uid, env);
    case Finalize(uid) => FinalizeSound(d, uid, env);
    case Start(uid, lang, p, u, s) => StartSound(d, uid, lang, p, u, s, env);
    case Stop(uid) => StopSound(d, uid, env);
    case Cancel(uid) => CancelSound(d, uid, env);
    case Result(uid, outcome, kind, data, text) => ResultSound(d, uid, outcome, kind, data, text, env);
    case CamcorderStops => Sessions.StopRecorderKeepsClients(d, env);
    case Fire(id) => FireSound(d, id, env);
    case Cleanup(visits) => if |visits| == |d.clients| { CleanupSound(d, Uids(d.clients), visits); }
    case SilenceDetected =>
    case AudioChunk =>
    case CamcorderCancels =>
    case Tick(ms) =>
  }

  // ---- What a client is told of the engine ----

  /** A step after which a loaded engine is one that was loaded in it. */
  predicate Reloads(d: State, e: Event) {
    !d.agent.isLoaded || (e.SettingEngine? && e.pid in d.settings && Engines.SwitchesAway(d.agent, e.engine))
  }

  /** What the engine answered to the three option calls when it was loaded. */
  function TakenAtLoad(le: LoadEnv): Supported {
    Supported(silence := le.sil.Accepted?, profanity := le.prof.Accepted?, punctuation := le.punc.Accepted?)
  }

  /** `b` follows `a` and counts the same options as supported, or if newly loaded what the load told. */
  predicate Tells(a: Agent, b: Agent, le: LoadEnv, reloads: bool) {
    b.isLoaded ==> SupportedBy(b) == if reloads then TakenAtLoad(le) else SupportedBy(a)
  }

  lemma RestTells(a: Agent, b: Agent, le: LoadEnv)
    ensures OptionsRest(a, b) ==> Tells(a, b, le, !a.isLoaded)
  {
  }

  lemma LoadTells(a: Agent, le: LoadEnv)
    ensures Tells(a, LoadCurrent(a, le).0, le, !a.isLoaded)
  {
    if a.uuid.Some? && !a.isLoaded {
      LoadOutcome(a, le);
      if LoadCurrent(a, le).1 == 0 { SupportedAfterLoad(a, le); }
    }
  }

  lemma EnsureTells(d: State, env: Env)
    requires Sound(d)
    ensures var a := EnsureEngine(d, env).0.agent; a.isLoaded == d.agent.isLoaded && (a.isLoaded ==> a == d.agent)
  {
  }

  lemma InitializeTells(d: State, pid: int, uid: int, env: Env)
    requires Sound(d)
    ensures Tells(d.agent, DoInitialize(d, pid, uid, env).0.agent, env.load, !d.agent.isLoaded)
  {
    hide EnsureEngine, LoadCurrent, Plus, SetFormat, SupportedBy;
    EnsureTells(d, env);
    LoadTells(EnsureEngine(d, env).0.agent, env.load);
  }

  lemma SettingInitializeTells(d: State, pid: int, env: Env)
    requires Sound(d)
    ensures Tells(d.agent, DoSettingInitialize(d, pid, env).0.agent, env.load, !d.agent.isLoaded)
  {
    hide EnsureEngine, LoadCurrent, SupportedBy;
    EnsureTells(d, env);
    LoadTells(EnsureEngine(d, env).0.agent, env.load);
  }

  lemma ChooseKeepsSupport(o: Opt, choice: int, ans: Answer)
    ensures Choose(o, choice, ans).0.supported == o.supported
  {
  }

  lemma StartTells(d: State, uid: int, lang: string, p: int, u: int, s: int, env: Env)
    ensures Tells(d.agent, DoStart(d, uid, lang, p, u, s, env).0.agent, env.load, !d.agent.isLoaded)
  {
    hide StartGuard, RecognizeStart, StartRec, SupportedBy;
    RecognizeTells(d.agent, lang, p, u, s, env.calls);
    CancelTells(d.agent, env.calls.cancel);
    CancelTells(RecognizeStart(d.agent, lang, p, u, s, env.calls).0, env.calls.cancel);
  }

  lemma RecognizeTells(a: Agent, lang: string, p: int, u: int, s: int, calls: Calls)
    ensures var b := RecognizeStart(a, lang, p, u, s, calls).0;
      SupportedBy(b) == SupportedBy(a) && b.isLoaded == a.isLoaded
  {
    hide SetOptions;
    SetOptionsKeepsSupport(a.opts, p, u, s, calls);
  }

  lemma SetOptionsKeepsSupport(os: Opts, p: int, u: int, s: int, calls: Calls)
    ensures var r := SetOptions(os, p, u, s, calls).0;
      && r.prof.supported == os.prof.supported && r.punc.supported == os.punc.supported
      && r.sil.supported == os.sil.supported
  {
    hide Choose;
    ChooseKeepsSupport(os.prof, p, calls.prof);
    ChooseKeepsSupport(os.punc, u, calls.punc);
    ChooseKeepsSupport(os.sil, s, calls.sil);
  }

  lemma CancelTells(a: Agent, ans: Answer)
    ensures var b := RecognizeCancel(a, ans).0; SupportedBy(b) == SupportedBy(a) && b.isLoaded == a.isLoaded
  {
  }

  lemma SwitchTells(a: Agent, id: string, le: LoadEnv)
    ensures Tells(a, SetEngine(a, id, le).0, le, !a.isLoaded || Engines.SwitchesAway(a, id))
  {
    hide LoadCurrent, SetCurrent, SupportedBy;
    if Engines.SwitchesAway(a, id) {
      var u := UnloadCurrent(a).0;
      var b := SetCurrent(u, id).0;
      ChoiceUnloaded(u, id);
      ChoiceUnloaded(b, a.uuid.value);
      LoadTells(b, le);
      LoadTells(SetCurrent(b, a.uuid.value).0, le);
      NamingTells(LoadCurrent(b, le).0, Some(id));
    }
  }

  lemma ChoiceUnloaded(a: Agent, id: string)
    requires !a.isLoaded
    ensures !SetCurrent(a, id).0.isLoaded
  {
  }

  lemma NamingTells(a: Agent, id: Option<string>)
    ensures SupportedBy(a.(conf := a.conf.(engineId := id))) == SupportedBy(a)
  {
  }

  lemma SettingTells(d: State, e: Event, env: Env)
    ensures Tells(d.agent, DoSetting(d, e, env).0.agent, env.load, Reloads(d, e))
  {
    hide SetEngine;
    if e.SettingEngine? { SwitchTells(d.agent, e.engine, env.load); }
  }

  /** What counts as supported changes only by loading an engine. */
  lemma StepTells(d: State, e: Event, env: Env)
    requires Sound(d)
    ensures Tells(d.agent, Step(d, e, env).agent, env.load, Reloads(d, e))
  {
    hide DoInitialize, DoFinalize, DoStart, DoStop, DoResult, DoFire, CleanupFrom, StopRecorder;
    hide DoSetting, DoSettingInitialize, AgentOk, Tells, OptionsRest;
    EngineIdStays(d);
    RestsInStep(d.agent, Step(d, e, env).agent);
    RestTells(d.agent, Step(d, e, env).agent, env.load);
    match e
    case Initialize(pid, uid) => InitializeTells(d, pid, uid, env);
    case Finalize(uid) => FinalizeRests(d, uid, env);
    case Start(uid, lang, p, u, s) => StartTells(d, uid, lang, p, u, s, env);
    case Stop(uid) => StopRests(d, uid, env);
    case Result(uid, outcome, kind, data, text) => ResultRests(d, e, env);
    case CamcorderStops => Sessions.StopRecorderKeepsClients(d, env);
    case Fire(id) => FireRests(d, id, env);
    case Cleanup(visits) => if |visits| == |d.clients| { CleanupRests(d, Uids(d.clients), visits); }
    case SettingInitialize(pid) => SettingInitializeTells(d, pid, env);
    case SettingFinalize(pid) =>
    case Cancel(uid) => CancelRests(d, uid, env);
    case SilenceDetected =>
    case AudioChunk =>
    case CamcorderCancels =>
    case Tick(ms) =>
    case _ => SettingTells(d, e, env);
  }
}
