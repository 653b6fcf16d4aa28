/** The agent between the daemon and the current recognition engine (server/sttd_engine_agent.c). */
module EngineAgent {
  import opened Types
  import opened Config

  datatype EngineInfo = EngineInfo(uuid: string, useNetwork: bool)

  /** One engine option: the process-wide default, the value the agent believes the engine has,
      the value the engine does have, and whether the engine took it when it was loaded. */
  datatype Opt = Opt(byDefault: bool, cached: bool, actual: bool, supported: bool)

  datatype Opts = Opts(prof: Opt, punc: Opt, sil: Opt)

  /** What the plug-in holds besides option values: its language predicate, whether a recognition is under
      way, whether it was ever started in that state, whether it was ever stopped or cancelled out of that
      state, and the language last passed to it. */
  datatype Plug = Plug(valid: set<string>, busy: bool, misused: bool, idleCalls: bool, heard: string)

  /** The agent's globals together with what the plug-in holds. */
  datatype Agent = Agent(
    engines: seq<EngineInfo>,
    uuid: Option<string>,
    isLoaded: bool,
    needNetwork: bool,
    opts: Opts,
    lang: string,
    plug: Plug,
    conf: Conf)

  /** The plug-in's answers to the calls one daemon step may make. */
  datatype Calls = Calls(prof: Answer, punc: Answer, sil: Answer, start: Answer, stop: Answer, cancel: Answer)

  /** What meets the agent when it loads an engine: linking, the three option calls, the option values the
      plug-in wakes up with, its language predicate and its language list. */
  datatype LoadEnv = LoadEnv(
    linked: bool,
    prof: Answer, punc: Answer, sil: Answer,
    ownProf: bool, ownPunc: bool, ownSil: bool,
    validator: bool, valid: set<string>,
    lister: bool, listed: bool, langs: seq<string>)

  // ---- Specification ----

  function Initial(conf: Conf): Agent
    requires conf.language.Some?
  {
    Agent([], None, false, false,
          Opts(Opt(conf.profanity != 0, false, false, false),
               Opt(conf.punctuation != 0, false, false, false),
               Opt(conf.silence != 0, false, false, false)),
          conf.language.value, Plug({}, false, false, false, ""), conf)
  }

  /** First listed engine whose id begins with `id`, or the length of the list. */
  function FirstExtending(engines: seq<EngineInfo>, id: string): (i: nat)
    ensures i <= |engines|
    ensures i < |engines| ==> id <= engines[i].uuid
    ensures forall j :: 0 <= j < i ==> !(id <= engines[j].uuid)
  {
    if engines == [] then 0
    else if id <= engines[0].uuid then 0
    else 1 + FirstExtending(engines[1..], id)
  }

  /** Some listed engine's id begins the given one. */
  predicate Begins(engines: seq<EngineInfo>, id: string) {
    exists j :: 0 <= j < |engines| && engines[j].uuid <= id
  }

  function Reset(os: Opts): Opts {
    Opts(os.prof.(cached := os.prof.byDefault), os.punc.(cached := os.punc.byDefault),
         os.sil.(cached := os.sil.byDefault))
  }

  function SetCurrent(a: Agent, id: string): (Agent, int) {
    var i := FirstExtending(a.engines, id);
    if i == |a.engines| then (a, ERROR_INVALID_PARAMETER)
    else if a.uuid.Some? && id <= a.uuid.value then (a, 0)
    else
      var e := a.engines[i];
      (a.(uuid := Some(e.uuid), isLoaded := false, needNetwork := e.useNetwork, opts := Reset(a.opts)), 0)
  }

  function UpdateList(a: Agent, found: seq<EngineInfo>): (Agent, int) {
    (a.(engines := found), if found == [] then ERROR_ENGINE_NOT_FOUND else 0)
  }

  function InitializeCurrent(a: Agent, found: seq<EngineInfo>): (Agent, int)
    requires a.conf.engineId.Some?
  {
    var b := UpdateList(a, found).0;
    if found == [] then (b, ERROR_ENGINE_NOT_FOUND)
    else
      var kept := Begins(found, a.conf.engineId.value);
      var id := if kept then a.conf.engineId.value else found[0].uuid;
      var (c, ret) := SetCurrent(b, id);
      if ret != 0 then (c, ERROR_ENGINE_NOT_FOUND)
      else if kept then (c, 0)
      else (c.(conf := c.conf.(engineId := Some(id))), 0)
  }

  /** The load-time call that pushes the cached value and learns whether the option is supported;
      `own` is the value the plug-in wakes up with. */
  function Arm(o: Opt, own: bool, ans: Answer): Opt {
    match ans
    case Missing => o.(actual := own)
    case Refused(_) => o.(actual := own, supported := false)
    case Accepted => o.(actual := o.cached, supported := true)
  }

  /** The three option calls of a load, up to the first empty slot. */
  function ArmAll(os: Opts, le: LoadEnv): (Opts, bool) {
    var punc := if le.prof.Missing? then Missing else le.punc;
    var sil := if punc.Missing? then Missing else le.sil;
    (Opts(Arm(os.prof, le.ownProf, le.prof), Arm(os.punc, le.ownPunc, punc), Arm(os.sil, le.ownSil, sil)),
     !sil.Missing?)
  }

  /** The default language if the engine takes it, else the first one it lists and takes. */
  function SelectLang(lang: string, le: LoadEnv): Option<string> {
    if !le.validator then None
    else if lang in le.valid then Some(lang)
    else if !le.lister || !le.listed || le.langs == [] || le.langs[0] !in le.valid then None
    else Some(le.langs[0])
  }

  function LoadCurrent(a: Agent, le: LoadEnv): (Agent, int) {
    if a.uuid.None? then (a, -1)
    else if a.isLoaded then (a, 0)
    else if !le.linked then (a, ERROR_OPERATION_FAILED)
    else
      var (os, armed) := ArmAll(a.opts, le);
      var b := a.(opts := os, plug := a.plug.(valid := le.valid));
      var lang := SelectLang(a.lang, le);
      if !armed || lang.None? then (b, ERROR_OPERATION_FAILED)
      else if lang.value == a.lang then (b.(isLoaded := true), 0)
      else (b.(isLoaded := true, lang := lang.value, conf := a.conf.(language := lang)), 0)
  }

  function Idle(p: Plug): Plug {
    p.(busy := false)
  }

  function UnloadCurrent(a: Agent): (Agent, int) {
    if a.uuid.None? then (a, -1) else (a.(isLoaded := false, plug := Idle(a.plug)), 0)
  }

  /** An unloaded engine counts as one that needs the network: an error code read as a truth value. */
  predicate NeedNetwork(a: Agent) {
    !a.isLoaded || a.needNetwork
  }

  /** One option of a start request: 2 asks for the default, anything else for its truth value. */
  function Choose(o: Opt, choice: int, ans: Answer): (Opt, bool) {
    var target := if choice == 2 then o.byDefault else choice != 0;
    var needed := if choice == 2 then o.byDefault != o.cached else BoolCode(o.cached) != choice;
    if !needed then (o, true)
    else if ans.Accepted? then (o.(cached := target, actual := target), true)
    else (o, false)
  }

  function SetOptions(os: Opts, p: int, u: int, s: int, calls: Calls): (Opts, bool) {
    var (x, okX) := Choose(os.prof, p, calls.prof);
    var (y, okY) := Choose(os.punc, u, calls.punc);
    var (z, okZ) := Choose(os.sil, s, calls.sil);
    if !okX then (os, false)
    else if !okY then (os.(prof := x), false)
    else if !okZ then (os.(prof := x, punc := y), false)
    else (Opts(x, y, z), true)
  }

  /** The call failed, and the plug-in is in recognition nevertheless. */
  predicate Holds(ans: Answer) {
    ans.Refused? && ans.holds
  }

  function Begin(p: Plug, lang: string, ans: Answer): Plug {
    p.(misused := p.misused || p.busy, heard := lang, busy := ans.Accepted? || Holds(ans))
  }

  function RecognizeStart(a: Agent, lang: string, p: int, u: int, s: int, calls: Calls): (Agent, int) {
    if !a.isLoaded then (a, ERROR_OPERATION_FAILED)
    else
      var (os, ok) := SetOptions(a.opts, p, u, s, calls);
      if !ok || calls.start.Missing? then (a.(opts := os), ERROR_OPERATION_FAILED)
      else
        (a.(opts := os, plug := Begin(a.plug, if "default" <= lang then a.lang else lang, calls.start)),
         if calls.start.Accepted? then 0 else ERROR_OPERATION_FAILED)
  }

  /** A stop or a cancel gets through to the plug-in. */
  function Reached(p: Plug): Plug {
    p.(idleCalls := p.idleCalls || !p.busy)
  }

  /** An accepted stop leaves the plug-in working on the result; a refused one leaves it idle or in recognition. */
  function RecognizeStop(a: Agent, ans: Answer): (Agent, int) {
    if !a.isLoaded || ans.Missing? then (a, ERROR_OPERATION_FAILED)
    else if ans.Accepted? then (a.(plug := Reached(a.plug)), 0)
    else (a.(plug := if ans.holds then Reached(a.plug) else Idle(Reached(a.plug))), ERROR_OPERATION_FAILED)
  }

  function RecognizeCancel(a: Agent, ans: Answer): (Agent, int) {
    if !a.isLoaded || ans.Missing? then (a, ERROR_OPERATION_FAILED)
    else if ans.Accepted? then (a.(plug := Idle(Reached(a.plug))), 0)
    else (a.(plug := Reached(a.plug)), ERROR_OPERATION_FAILED)
  }

  function SetEngine(a: Agent, id: string, le: LoadEnv): (Agent, int) {
    if a.uuid.Some? && a.uuid.value <= id then (a, 0)
    else if a.uuid.None? then (a, ERROR_OUT_OF_MEMORY)
    else
      var (b, ret) := SetCurrent(UnloadCurrent(a).0, id);
      if ret != 0 then (LoadCurrent(SetCurrent(b, a.uuid.value).0, le).0, ERROR_OPERATION_FAILED)
      else
        var (c, loaded) := LoadCurrent(b, le);
        if loaded != 0 then (c, ERROR_OPERATION_FAILED)
        else (c.(conf := c.conf.(engineId := Some(id))), 0)
  }

  function SetDefaultLang(a: Agent, lang: string, validator: bool): (Agent, int) {
    if !a.isLoaded || !validator then (a, ERROR_OPERATION_FAILED)
    else if lang !in a.plug.valid then (a, ERROR_INVALID_LANGUAGE)
    else (a.(lang := lang, conf := a.conf.(language := Some(lang))), 0)
  }

  datatype Which = Profanity | Punctuation | Silence

  function OptOf(os: Opts, which: Which): Opt {
    match which case Profanity => os.prof case Punctuation => os.punc case Silence => os.sil
  }

  function AnswerOf(calls: Calls, which: Which): Answer {
    match which case Profanity => calls.prof case Punctuation => calls.punc case Silence => calls.sil
  }

  function WithOpt(os: Opts, which: Which, o: Opt): Opts {
    match which
    case Profanity => os.(prof := o)
    case Punctuation => os.(punc := o)
    case Silence => os.(sil := o)
  }

  function WithDefault(c: Conf, which: Which, value: int): Conf {
    match which
    case Profanity => c.(profanity := value)
    case Punctuation => c.(punctuation := value)
    case Silence => c.(silence := value)
  }

  /** The three setting setters: engine and default change, the cached value does not. */
  function SetDefault(a: Agent, which: Which, value: bool, calls: Calls): (Agent, int) {
    if !a.isLoaded || !AnswerOf(calls, which).Accepted? then (a, ERROR_OPERATION_FAILED)
    else
      (a.(opts := WithOpt(a.opts, which, OptOf(a.opts, which).(byDefault := value, actual := value)),
          conf := WithDefault(a.conf, which, BoolCode(value))), 0)
  }

  /** What registration tells a client about the engine. */
  datatype Supported = Supported(silence: bool, profanity: bool, punctuation: bool)

  const NOTHING := Supported(false, false, false)

  function SupportedBy(a: Agent): Supported {
    Supported(a.opts.sil.supported, a.opts.prof.supported, a.opts.punc.supported)
  }

  function RefreshList(a: Agent, found: seq<EngineInfo>): (Agent, int) {
    if !a.isLoaded then (a, ERROR_OPERATION_FAILED)
    else if found == [] then (a.(engines := []), -1)
    else (a.(engines := found), 0)
  }

  // ---- The agent's invariant ----

  /** The engine's own value of a supported option is what the agent remembers or the default. */
  ghost predicate OptOk(o: Opt) {
    o.supported ==> o.actual == o.cached || o.actual == o.byDefault
  }

  ghost predicate OptsOk(os: Opts) {
    OptOk(os.prof) && OptOk(os.punc) && OptOk(os.sil)
  }

  /** The option defaults are the persisted integers read as truth values. */
  ghost predicate Mirrors(os: Opts, c: Conf) {
    && (os.prof.byDefault <==> c.profanity != 0)
    && (os.punc.byDefault <==> c.punctuation != 0)
    && (os.sil.byDefault <==> c.silence != 0)
  }

  ghost predicate AgentOk(a: Agent) {
    && (a.isLoaded ==> a.uuid.Some? && a.lang in a.plug.valid && OptsOk(a.opts))
    && (!a.isLoaded ==> !a.plug.busy)
    && a.conf.engineId.Some? && a.conf.language == Some(a.lang)
    && Mirrors(a.opts, a.conf)
  }

  /** Nothing but the load flag, the option values and what the plug-in is doing differs. */
  ghost predicate SameEngine(a: Agent, b: Agent) {
    && b.uuid == a.uuid && b.needNetwork == a.needNetwork && b.conf == a.conf && b.engines == a.engines
    && b.lang == a.lang
  }

  lemma CancelKeepsOk(a: Agent, ans: Answer)
    requires AgentOk(a)
    ensures var b := RecognizeCancel(a, ans).0;
      && AgentOk(b) && SameEngine(a, b) && b.isLoaded == a.isLoaded && b.plug.misused == a.plug.misused
      && (b.plug.busy ==> a.plug.busy && !ans.Accepted?)
      && (RecognizeCancel(a, ans).1 == 0 ==> !b.plug.busy)
  {
  }

  lemma StopKeepsOk(a: Agent, ans: Answer)
    requires AgentOk(a)
    ensures var (b, ret) := RecognizeStop(a, ans);
      && AgentOk(b) && SameEngine(a, b) && b.isLoaded == a.isLoaded && b.plug.misused == a.plug.misused
      && (b.plug.busy ==> a.plug.busy && (ret != 0 ==> ans.Missing? || Holds(ans)))
  {
  }

  lemma UnloadKeepsOk(a: Agent)
    requires AgentOk(a)
    ensures var b := UnloadCurrent(a).0;
      AgentOk(b) && SameEngine(a, b) && !b.plug.busy && b.plug.misused == a.plug.misused && !b.isLoaded
  {
  }

  /** The plug-in's record of its calls is true to them: of a start while in recognition, and of a stop or cancel
      out of it. */
  lemma CallsTracked(a: Agent, lang: string, p: int, u: int, s: int, calls: Calls)
    ensures var b := RecognizeStart(a, lang, p, u, s, calls).0.plug;
      var called := a.isLoaded && SetOptions(a.opts, p, u, s, calls).1 && !calls.start.Missing?;
      b.misused == (a.plug.misused || (called && a.plug.busy)) && b.idleCalls == a.plug.idleCalls
    ensures var b := RecognizeStop(a, calls.stop).0.plug;
      && b.idleCalls == (a.plug.idleCalls || (a.isLoaded && !calls.stop.Missing? && !a.plug.busy))
      && b.misused == a.plug.misused
    ensures var b := RecognizeCancel(a, calls.cancel).0.plug;
      && b.idleCalls == (a.plug.idleCalls || (a.isLoaded && !calls.cancel.Missing? && !a.plug.busy))
      && b.misused == a.plug.misused
  {
    hide SetOptions;
  }

  /** Everything the agent can be asked to do. */
  datatype Op =
    | OpInitialize(found: seq<EngineInfo>)
    | OpLoad(le: LoadEnv)
    | OpUnload
    | OpStart(lang: string, p: int, u: int, s: int)
    | OpStop
    | OpCancel
    | OpResult(ends: bool)
    | OpSetEngine(id: string, le: LoadEnv)
    | OpSetLang(lang: string, validator: bool)
    | OpSetDefault(which: Which, value: bool)
    | OpRefresh(found: seq<EngineInfo>)

  /** The engine reports a result; `ends` says its recognition is over with it. */
  function ResultReported(a: Agent, ends: bool): Agent {
    if a.isLoaded && ends then a.(plug := Idle(a.plug)) else a
  }

  function Apply(a: Agent, op: Op, calls: Calls): (Agent, int)
    requires a.conf.engineId.Some?
  {
    match op
    case OpInitialize(found) => if a.isLoaded then (a, 0) else InitializeCurrent(a, found)
    case OpLoad(le) => LoadCurrent(a, le)
    case OpUnload => UnloadCurrent(a)
    case OpStart(lang, p, u, s) => RecognizeStart(a, lang, p, u, s, calls)
    case OpStop => RecognizeStop(a, calls.stop)
    case OpCancel => RecognizeCancel(a, calls.cancel)
    case OpResult(ends) => (ResultReported(a, ends), 0)
    case OpSetEngine(id, le) => SetEngine(a, id, le)
    case OpSetLang(lang, validator) => SetDefaultLang(a, lang, validator)
    case OpSetDefault(which, value) => SetDefault(a, which, value, calls)
    case OpRefresh(found) => RefreshList(a, found)
  }

  lemma InitialOk(conf: Conf)
    requires conf.language.Some? && conf.engineId.Some?
    ensures AgentOk(Initial(conf))
  {
  }

  lemma ArmFacts(o: Opt, own: bool, ans: Answer)
    ensures var r := Arm(o, own, ans);
      && r.byDefault == o.byDefault
      && (!ans.Missing? && r.supported ==> r.actual == r.cached)
  {
  }

  lemma ArmAllFacts(os: Opts, le: LoadEnv, c: Conf)
    ensures ArmAll(os, le).1 ==> OptsInStep(ArmAll(os, le).0) && OptsOk(ArmAll(os, le).0)
    ensures Mirrors(os, c) ==> Mirrors(ArmAll(os, le).0, c)
  {
    var punc := if le.prof.Missing? then Missing else le.punc;
    ArmFacts(os.prof, le.ownProf, le.prof);
    ArmFacts(os.punc, le.ownPunc, punc);
    ArmFacts(os.sil, le.ownSil, if punc.Missing? then Missing else le.sil);
  }

  lemma LoadKeepsOk(a: Agent, le: LoadEnv)
    requires AgentOk(a)
    ensures AgentOk(LoadCurrent(a, le).0)
  {
    ArmAllFacts(a.opts, le, a.conf);
  }

  lemma SetCurrentKeepsOk(a: Agent, id: string)
    requires AgentOk(a) && !a.isLoaded
    ensures AgentOk(SetCurrent(a, id).0) && !SetCurrent(a, id).0.isLoaded
  {
  }

  lemma ChooseKeepsOk(o: Opt, choice: int, ans: Answer)
    ensures Choose(o, choice, ans).0.byDefault == o.byDefault
    ensures OptOk(o) ==> OptOk(Choose(o, choice, ans).0)
  {
  }

  lemma SetOptionsKeepsOk(os: Opts, p: int, u: int, s: int, calls: Calls, c: Conf)
    ensures OptsOk(os) ==> OptsOk(SetOptions(os, p, u, s, calls).0)
    ensures Mirrors(os, c) ==> Mirrors(SetOptions(os, p, u, s, calls).0, c)
  {
    ChooseKeepsOk(os.prof, p, calls.prof);
    ChooseKeepsOk(os.punc, u, calls.punc);
    ChooseKeepsOk(os.sil, s, calls.sil);
  }

  lemma StartKeepsOk(a: Agent, lang: string, p: int, u: int, s: int, calls: Calls)
    requires AgentOk(a)
    ensures AgentOk(RecognizeStart(a, lang, p, u, s, calls).0)
  {
    SetOptionsKeepsOk(a.opts, p, u, s, calls, a.conf);
  }

  lemma SetDefaultKeepsOk(a: Agent, which: Which, value: bool, calls: Calls)
    requires AgentOk(a)
    ensures AgentOk(SetDefault(a, which, value, calls).0)
  {
  }

  lemma SetEngineKeepsOk(a: Agent, id: string, le: LoadEnv)
    requires AgentOk(a)
    ensures AgentOk(SetEngine(a, id, le).0)
  {
    hide LoadCurrent, SetCurrent, UnloadCurrent, AgentOk;
    if a.uuid.Some? {
      var u := UnloadCurrent(a).0;
      UnloadKeepsOk(a);
      SetCurrentKeepsOk(u, id);
      var b := SetCurrent(u, id).0;
      SetCurrentKeepsOk(b, a.uuid.value);
      LoadKeepsOk(SetCurrent(b, a.uuid.value).0, le);
      LoadKeepsOk(b, le);
      NamingKeepsOk(LoadCurrent(b, le).0, id);
    }
  }

  lemma NamingKeepsOk(a: Agent, id: string)
    requires AgentOk(a)
    ensures AgentOk(a.(conf := a.conf.(engineId := Some(id))))
  {
  }

  lemma InitializeKeepsOk(a: Agent, found: seq<EngineInfo>)
    requires AgentOk(a) && !a.isLoaded
    ensures AgentOk(InitializeCurrent(a, found).0)
  {
    if found != [] {
      var id := if Begins(found, a.conf.engineId.value) then a.conf.engineId.value else found[0].uuid;
      SetCurrentKeepsOk(a.(engines := found), id);
    }
  }

  /** Option cache, language and persistence invariants hold after any operation, whatever the plug-in answers. */
  lemma ApplyKeepsOk(a: Agent, op: Op, calls: Calls)
    requires AgentOk(a)
    ensures AgentOk(Apply(a, op, calls).0)
  {
    hide InitializeCurrent, LoadCurrent, UnloadCurrent, RecognizeStart, RecognizeStop;
    hide RecognizeCancel, SetEngine, SetDefault;
    match op
    case OpUnload => UnloadKeepsOk(a);
    case OpStop => StopKeepsOk(a, calls.stop);
    case OpCancel => CancelKeepsOk(a, calls.cancel);
    case OpInitialize(found) => if !a.isLoaded { InitializeKeepsOk(a, found); }
    case OpLoad(le) => LoadKeepsOk(a, le);
    case OpStart(lang, p, u, s) => StartKeepsOk(a, lang, p, u, s, calls);
    case OpSetDefault(which, value) => SetDefaultKeepsOk(a, which, value, calls);
    case OpSetEngine(id, le) => SetEngineKeepsOk(a, id, le);
    case _ =>
  }

  // ---- Options ----

  /** A started recognition runs every supported option left to AUTO at the present default; an explicit
      choice is held exactly when it differs from the cache or the cache agrees with the engine. */
  lemma StartAppliesOptions(a: Agent, lang: string, p: int, u: int, s: int, calls: Calls)
    requires AgentOk(a)
    requires RecognizeStart(a, lang, p, u, s, calls).1 == 0
    ensures var b := RecognizeStart(a, lang, p, u, s, calls).0;
      && Applied(a.opts.prof, p, b.opts.prof) && Applied(a.opts.punc, u, b.opts.punc)
      && Applied(a.opts.sil, s, b.opts.sil)
      && ("default" <= lang ==> b.plug.heard in b.plug.valid)
  {
    ChooseApplies(a.opts.prof, p, calls.prof);
    ChooseApplies(a.opts.punc, u, calls.punc);
    ChooseApplies(a.opts.sil, s, calls.sil);
  }

  ghost predicate Applied(before: Opt, choice: int, after: Opt) {
    && after.byDefault == before.byDefault && after.supported == before.supported
    && (choice == 2 && after.supported ==> after.actual == after.byDefault)
    && (0 <= choice <= 1 ==>
          (after.actual == (choice == 1) <==> BoolCode(before.cached) != choice || before.actual == before.cached))
  }

  lemma ChooseApplies(o: Opt, choice: int, ans: Answer)
    requires OptOk(o) && Choose(o, choice, ans).1
    ensures Applied(o, choice, Choose(o, choice, ans).0)
  {
  }

  /** Cache and engine agree on every supported option. */
  ghost predicate InStep(a: Agent) {
    a.isLoaded ==> OptsInStep(a.opts)
  }

  ghost predicate OptsInStep(os: Opts) {
    && (os.prof.supported ==> os.prof.actual == os.prof.cached)
    && (os.punc.supported ==> os.punc.actual == os.punc.cached)
    && (os.sil.supported ==> os.sil.actual == os.sil.cached)
  }

  lemma ChooseInStep(o: Opt, choice: int, ans: Answer)
    requires o.supported ==> o.actual == o.cached
    ensures var r := Choose(o, choice, ans).0; r.supported ==> r.actual == r.cached
  {
  }

  lemma SetOptionsInStep(os: Opts, p: int, u: int, s: int, calls: Calls)
    requires OptsInStep(os)
    ensures OptsInStep(SetOptions(os, p, u, s, calls).0)
  {
    ChooseInStep(os.prof, p, calls.prof);
    ChooseInStep(os.punc, u, calls.punc);
    ChooseInStep(os.sil, s, calls.sil);
  }

  /** Only a setting setter can put the cache out of step with the engine. */
  lemma OnlySettersBreakStep(a: Agent, op: Op, calls: Calls)
    requires AgentOk(a) && InStep(a)
    requires !op.OpSetDefault? || Apply(a, op, calls).1 != 0
    ensures InStep(Apply(a, op, calls).0)
  {
    match op
    case OpLoad(le) => LoadInStep(a, le);
    case OpStart(lang, p, u, s) => if a.isLoaded { SetOptionsInStep(a.opts, p, u, s, calls); }
    case OpSetEngine(id, le) => SetEngineInStep(a, id, le);
    case _ =>
  }

  lemma SetEngineInStep(a: Agent, id: string, le: LoadEnv)
    requires InStep(a)
    ensures InStep(SetEngine(a, id, le).0)
  {
    if a.uuid.Some? {
      var b := SetCurrent(UnloadCurrent(a).0, id).0;
      LoadInStep(SetCurrent(b, a.uuid.value).0, le);
      LoadInStep(b, le);
    }
  }

  lemma LoadInStep(a: Agent, le: LoadEnv)
    requires InStep(a)
    ensures InStep(LoadCurrent(a, le).0)
  {
    ArmAllFacts(a.opts, le, a.conf);
  }

  /** And it does so exactly when the engine supports the option and the value is not the cached one. */
  lemma SetterBreaksStep(a: Agent, which: Which, value: bool, calls: Calls)
    requires AgentOk(a) && InStep(a) && SetDefault(a, which, value, calls).1 == 0
    ensures InStep(SetDefault(a, which, value, calls).0) <==>
      !OptOf(a.opts, which).supported || value == OptOf(a.opts, which).cached
  {
  }

  /** The agent makes a call for the option. */
  predicate NeedsCall(o: Opt, choice: int) {
    if choice == 2 then o.cached != o.byDefault else choice != BoolCode(o.cached)
  }

  predicate Turned(o: Opt, choice: int, ans: Answer) {
    NeedsCall(o, choice) && !ans.Accepted?
  }

  /** The option as the call leaves it: the agent and, if there was a call, the engine hold what was asked for. */
  ghost predicate TakenUp(before: Opt, choice: int, after: Opt) {
    && after.cached == (if choice == 2 then before.byDefault else choice != 0)
    && after.actual == (if NeedsCall(before, choice) then after.cached else before.actual)
    && after.byDefault == before.byDefault && after.supported == before.supported
  }

  /** Options are set in the order profanity, punctuation, silence up to the first that the engine turns down;
      that one and those behind it stay as they are. */
  lemma OptionsUpTo(os: Opts, p: int, u: int, s: int, calls: Calls)
    requires 0 <= p <= 2 && 0 <= u <= 2 && 0 <= s <= 2
    ensures var (r, ok) := SetOptions(os, p, u, s, calls);
      var t1 := Turned(os.prof, p, calls.prof);
      var t2 := t1 || Turned(os.punc, u, calls.punc);
      var t3 := t2 || Turned(os.sil, s, calls.sil);
      && (ok <==> !t3)
      && (if t1 then r.prof == os.prof else TakenUp(os.prof, p, r.prof))
      && (if t2 then r.punc == os.punc else TakenUp(os.punc, u, r.punc))
      && (if t3 then r.sil == os.sil else TakenUp(os.sil, s, r.sil))
  {
    hide Choose;
    ChooseSettles(os.prof, p, calls.prof);
    ChooseSettles(os.punc, u, calls.punc);
    ChooseSettles(os.sil, s, calls.sil);
  }

  lemma ChooseSettles(o: Opt, choice: int, ans: Answer)
    requires 0 <= choice <= 2
    ensures Choose(o, choice, ans).1 == !Turned(o, choice, ans)
    ensures var r := Choose(o, choice, ans).0; if Turned(o, choice, ans) then r == o else TakenUp(o, choice, r)
  {
  }

  /** The supported options run at their defaults. */
  ghost predicate AtDefaults(os: Opts) {
    && (os.prof.supported ==> os.prof.actual == os.prof.byDefault == os.prof.cached)
    && (os.punc.supported ==> os.punc.actual == os.punc.byDefault == os.punc.cached)
    && (os.sil.supported ==> os.sil.actual == os.sil.byDefault == os.sil.cached)
  }

  // ---- Engine switch ----

  /** Exactly when loading an unloaded engine succeeds, as its answers tell. */
  predicate LoadSucceeds(lang: string, le: LoadEnv) {
    && le.linked && !le.prof.Missing? && !le.punc.Missing? && !le.sil.Missing? && le.validator
    && (lang in le.valid || (le.lister && le.listed && le.langs != [] && le.langs[0] in le.valid))
  }

  lemma LoadOutcome(a: Agent, le: LoadEnv)
    requires a.uuid.Some? && !a.isLoaded
    ensures var (b, ret) := LoadCurrent(a, le);
      && (ret == 0 <==> LoadSucceeds(a.lang, le)) && b.isLoaded == (ret == 0)
      && b.uuid == a.uuid && b.conf.engineId == a.conf.engineId && b.engines == a.engines
  {
  }

  /** After a successful load each of the three options counts as supported exactly when the engine took it. */
  lemma SupportedAfterLoad(a: Agent, le: LoadEnv)
    requires a.uuid.Some? && !a.isLoaded && LoadCurrent(a, le).1 == 0
    ensures var told := SupportedBy(LoadCurrent(a, le).0);
      && (told.silence <==> le.sil.Accepted?)
      && (told.profanity <==> le.prof.Accepted?)
      && (told.punctuation <==> le.punc.Accepted?)
  {
    LoadOutcome(a, le);
  }

  /** A load that succeeds keeps a default language the engine accepts; otherwise the first language the
      engine lists takes its place, and is persisted. */
  lemma LoadLanguage(a: Agent, le: LoadEnv)
    requires AgentOk(a) && a.uuid.Some? && !a.isLoaded && LoadCurrent(a, le).1 == 0
    ensures var b := LoadCurrent(a, le).0;
      && b.plug.valid == le.valid && b.lang in le.valid && b.conf.language == Some(b.lang)
      && (a.lang in le.valid ==> b.lang == a.lang && b.conf == a.conf)
      && (a.lang !in le.valid ==> le.langs != [] && b.lang == le.langs[0])
  {
    LoadOutcome(a, le);
  }

  /** An id that begins no listed engine's id changes nothing but whether the old engine is loaded again. */
  lemma UnknownSwitch(a: Agent, id: string, le: LoadEnv)
    requires AgentOk(a) && a.uuid.Some? && !(a.uuid.value <= id)
    requires FirstExtending(a.engines, id) == |a.engines|
    ensures var (b, ret) := SetEngine(a, id, le);
      && ret == ERROR_OPERATION_FAILED && b.uuid == a.uuid && b.conf.engineId == a.conf.engineId
      && (b.isLoaded <==> LoadSucceeds(a.lang, le))
  {
    LoadOutcome(UnloadCurrent(a).0, le);
  }

  /** An id that begins a listed one is adopted; the persisted id follows only if the new engine loads,
      and the old engine does not come back if it does not. */
  lemma KnownSwitch(a: Agent, id: string, le: LoadEnv)
    requires AgentOk(a) && a.uuid.Some? && !(a.uuid.value <= id)
    requires FirstExtending(a.engines, id) < |a.engines|
    ensures var (b, ret) := SetEngine(a, id, le);
      && (ret == 0 <==> LoadSucceeds(a.lang, le)) && (b.isLoaded <==> ret == 0)
      && b.uuid == (if id <= a.uuid.value then a.uuid else Some(a.engines[FirstExtending(a.engines, id)].uuid))
      && b.conf.engineId == (if ret == 0 then Some(id) else a.conf.engineId)
  {
    LoadOutcome(SetCurrent(UnloadCurrent(a).0, id).0, le);
  }

  /** A newly chosen engine that loads runs at the defaults, whatever the last one was set to. */
  lemma SwitchAppliesDefaults(a: Agent, id: string, le: LoadEnv)
    requires AgentOk(a) && a.uuid.Some? && !(a.uuid.value <= id) && !(id <= a.uuid.value)
    requires SetEngine(a, id, le).1 == 0
    ensures var b := SetEngine(a, id, le).0; AtDefaults(b.opts) && Mirrors(b.opts, a.conf)
  {
    hide LoadCurrent, SetCurrent, AtDefaults, Mirrors, OptsOk;
    var u := UnloadCurrent(a).0;
    ChoiceResets(u, id);
    assert Mirrors(u.opts, a.conf);
    LoadAppliesDefaults(SetCurrent(u, id).0, le, u.opts);
  }

  /** And so does the first one, when it is loaded first. */
  lemma FirstLoadAppliesDefaults(a: Agent, found: seq<EngineInfo>, le: LoadEnv)
    requires AgentOk(a) && a.uuid.None? && InitializeCurrent(a, found).1 == 0
    requires LoadCurrent(InitializeCurrent(a, found).0, le).1 == 0
    ensures var b := LoadCurrent(InitializeCurrent(a, found).0, le).0; AtDefaults(b.opts) && Mirrors(b.opts, a.conf)
  {
    hide LoadCurrent, SetCurrent, AtDefaults, Mirrors, OptsOk;
    var b := a.(engines := found);
    ChoiceResets(b, if Begins(found, a.conf.engineId.value) then a.conf.engineId.value else found[0].uuid);
    var c := InitializeCurrent(a, found).0;
    assert Mirrors(a.opts, c.conf) by { MirrorsRest(a.opts, a.conf, c.conf.engineId); }
    LoadAppliesDefaults(c, le, a.opts);
    MirrorsRest(LoadCurrent(c, le).0.opts, a.conf, c.conf.engineId);
  }

  lemma MirrorsRest(os: Opts, c: Conf, id: Option<string>)
    ensures Mirrors(os, c) <==> Mirrors(os, c.(engineId := id))
  {
  }

  lemma ChoiceResets(a: Agent, id: string)
    requires (a.uuid.Some? ==> !(id <= a.uuid.value)) && !a.isLoaded
    ensures var (b, ret) := SetCurrent(a, id);
      ret == 0 ==> b.uuid.Some? && !b.isLoaded && b.opts == Reset(a.opts) && b.conf == a.conf
  {
  }

  lemma LoadAppliesDefaults(a: Agent, le: LoadEnv, os: Opts)
    requires a.uuid.Some? && !a.isLoaded && a.opts == Reset(os) && Mirrors(os, a.conf) && LoadCurrent(a, le).1 == 0
    ensures var b := LoadCurrent(a, le).0; AtDefaults(b.opts) && Mirrors(b.opts, a.conf)
  {
    hide ArmAll;
    ArmAllFacts(a.opts, le, a.conf);
    ArmAllDefaults(os, le);
  }

  lemma ArmAllDefaults(os: Opts, le: LoadEnv)
    ensures ArmAll(Reset(os), le).1 ==> AtDefaults(ArmAll(Reset(os), le).0)
  {
  }

  /** No listed id begins another. */
  ghost predicate PrefixFree(engines: seq<EngineInfo>) {
    forall i, j :: 0 <= i < |engines| && 0 <= j < |engines| && engines[i].uuid <= engines[j].uuid ==>
      engines[i].uuid == engines[j].uuid
  }

  lemma PrefixFreePair(engines: seq<EngineInfo>, i: nat, j: nat)
    requires PrefixFree(engines) && i < |engines| && j < |engines|
    ensures engines[i].uuid <= engines[j].uuid ==> engines[i].uuid == engines[j].uuid
  {
  }

  ghost predicate Listed(engines: seq<EngineInfo>, id: string) {
    exists i :: 0 <= i < |engines| && engines[i].uuid == id
  }

  /** A first successful initialization leaves the persisted id naming the current engine. */
  lemma InitializationAgrees(a: Agent, found: seq<EngineInfo>)
    requires a.uuid.None? && a.conf.engineId.Some?
    requires PrefixFree(found)
    requires InitializeCurrent(a, found).1 == 0
    ensures var b := InitializeCurrent(a, found).0; b.uuid.Some? && b.conf.engineId == b.uuid
  {
    var kept := Begins(found, a.conf.engineId.value);
    var id := if kept then a.conf.engineId.value else found[0].uuid;
    var i := FirstExtending(found, id);
    if kept {
      var j :| 0 <= j < |found| && found[j].uuid <= id;
      if i < |found| { BeginsThrough(found[j].uuid, id, found[i].uuid); }
    }
  }

  lemma BeginsThrough(x: string, y: string, z: string)
    requires x <= y <= z
    ensures x <= z && (x == z ==> y == z)
  {
  }

  /** After a successful switch the persisted id names the current engine exactly when the id was listed
      in full; a mere beginning of a listed id is accepted and persisted as it stands. */
  lemma SwitchAgrees(a: Agent, id: string, le: LoadEnv)
    requires AgentOk(a) && a.uuid.Some? && a.conf.engineId == a.uuid
    requires PrefixFree(a.engines + [EngineInfo(a.uuid.value, false)])
    requires SetEngine(a, id, le).1 == 0 && !(a.uuid.value <= id)
    ensures var b := SetEngine(a, id, le).0; b.conf.engineId == b.uuid <==> Listed(a.engines, id)
  {
    var i := FirstExtending(a.engines, id);
    if i == |a.engines| {
      UnknownSwitch(a, id, le);
    } else {
      KnownSwitch(a, id, le);
      var all := a.engines + [EngineInfo(a.uuid.value, false)];
      assert forall j :: 0 <= j < |a.engines| ==> all[j] == a.engines[j];
      if Listed(a.engines, id) {
        var j :| 0 <= j < |a.engines| && a.engines[j].uuid == id;
        PrefixFreePair(all, j, i);
        PrefixFreePair(all, j, |a.engines|);
      }
    }
  }

  // ---- The agent as the daemon keeps it ----

  class EngineHost {
    const config: ConfigFile
    var engines: seq<EngineInfo>
    var uuid: Option<string>
    var isLoaded: bool
    var needNetwork: bool
    var prof: Opt
    var punc: Opt
    var sil: Opt
    var lang: string
    var plug: Plug

    ghost function View(): Agent
      reads this, config
    {
      Agent(engines, uuid, isLoaded, needNetwork, Opts(prof, punc, sil), lang, plug, config.Values())
    }

    constructor (config: ConfigFile)
      requires config.engineId.Some? && config.language.Some?
      ensures this.config == config && View() == Initial(config.Values())
    {
      this.config := config;
      engines, uuid, isLoaded, needNetwork := [], None, false, false;
      lang := config.language.value;
      prof := Opt(config.profanity != 0, false, false, false);
      punc := Opt(config.punctuation != 0, false, false, false);
      sil := Opt(config.silence != 0, false, false, false);
      plug := Plug({}, false, false, false, "");
    }

    method CheckEngineId(id: string) returns (known: bool)
      ensures known <==> Begins(engines, id)
    {
      var i := 0;
      while i < |engines|
        invariant i <= |engines|
        invariant forall j :: 0 <= j < i ==> !(engines[j].uuid <= id)
      {
        if engines[i].uuid <= id { return true; }
        i := i + 1;
      }
      return false;
    }

    method SetCurrentEngine(id: string) returns (ret: int)
      modifies this
      ensures (View(), ret) == SetCurrent(old(View()), id)
    {
      var i := 0;
      while i < |engines|
        invariant i <= |engines|
        invariant forall j :: 0 <= j < i ==> !(id <= engines[j].uuid)
      {
        if id <= engines[i].uuid { break; }
        i := i + 1;
      }
      assert i == FirstExtending(engines, id);
      if i == |engines| { return ERROR_INVALID_PARAMETER; }
      if uuid.Some? && id <= uuid.value { return 0; }
      uuid := Some(engines[i].uuid);
      isLoaded := false;
      needNetwork := engines[i].useNetwork;
      prof := prof.(cached := prof.byDefault);
      punc := punc.(cached := punc.byDefault);
      sil := sil.(cached := sil.byDefault);
      return 0;
    }

    method UpdateEngineList(found: seq<EngineInfo>) returns (ret: int)
      modifies this`engines
      ensures (View(), ret) == UpdateList(old(View()), found)
    {
      engines := [];
      for i := 0 to |found|
        invariant engines == found[..i]
      {
        engines := engines + [found[i]];
      }
      assert engines == found;
      return if |engines| == 0 then ERROR_ENGINE_NOT_FOUND else 0;
    }

    method InitializeCurrentEngine(found: seq<EngineInfo>) returns (ret: int)
      requires config.engineId.Some?
      requires config.Durable()
      modifies this, config
      ensures config.Durable()
      ensures (View(), ret) == InitializeCurrent(old(View()), found)
    {
      ret := UpdateEngineList(found);
      if ret != 0 { return ERROR_ENGINE_NOT_FOUND; }
      var id := config.engineId.value;
      var kept := CheckEngineId(id);
      if !kept { id := engines[0].uuid; }
      ret := SetCurrentEngine(id);
      if ret != 0 { return ERROR_ENGINE_NOT_FOUND; }
      if !kept { config.SetEngine(id); }
      return 0;
    }

    method ArmOptions(le: LoadEnv) returns (armed: bool)
      modifies this`prof, this`punc, this`sil
      ensures (View().opts, armed) == ArmAll(old(View().opts), le)
      ensures View() == old(View()).(opts := View().opts)
    {
      prof, armed := ArmOne(prof, le.ownProf, le.prof, true);
      punc, armed := ArmOne(punc, le.ownPunc, le.punc, armed);
      sil, armed := ArmOne(sil, le.ownSil, le.sil, armed);
    }

    /** The plug-in wakes up with its `own` value; the call is made unless an earlier slot was empty. */
    static method ArmOne(o: Opt, own: bool, ans: Answer, reached: bool) returns (r: Opt, armed: bool)
      ensures r == Arm(o, own, if reached then ans else Missing)
      ensures armed <==> reached && !ans.Missing?
    {
      r := o.(actual := own);
      armed := reached && !ans.Missing?;
      if !armed { return; }
      if ans.Accepted? { r := r.(actual := r.cached); }
      r := r.(supported := ans.Accepted?);
    }

    method LoadCurrentEngine(le: LoadEnv) returns (ret: int)
      requires config.Durable()
      modifies this, config
      ensures config.Durable()
      ensures (View(), ret) == LoadCurrent(old(View()), le)
    {
      if uuid.None? { return -1; }
      if isLoaded { return 0; }
      if !le.linked { return ERROR_OPERATION_FAILED; }
      plug := plug.(valid := le.valid);
      var armed := ArmOptions(le);
      if !armed || !le.validator { return ERROR_OPERATION_FAILED; }
      if lang !in plug.valid {
        if !le.lister || !le.listed || |le.langs| == 0 || le.langs[0] !in plug.valid { return ERROR_OPERATION_FAILED; }
        config.SetLanguage(le.langs[0]);
        lang := le.langs[0];
      }
      isLoaded := true;
      return 0;
    }

    method UnloadCurrentEngine() returns (ret: int)
      modifies this
      ensures (View(), ret) == UnloadCurrent(old(View()))
    {
      if uuid.None? { return -1; }
      plug := Idle(plug);
      isLoaded := false;
      return 0;
    }

    method SetOption(p: int, u: int, s: int, calls: Calls) returns (ok: bool)
      modifies this`prof, this`punc, this`sil
      ensures (View().opts, ok) == SetOptions(old(View().opts), p, u, s, calls)
      ensures View() == old(View()).(opts := View().opts)
    {
      prof, ok := SetOne(prof, p, calls.prof);
      if !ok { return; }
      punc, ok := SetOne(punc, u, calls.punc);
      if !ok { return; }
      sil, ok := SetOne(sil, s, calls.sil);
    }

    static method SetOne(o: Opt, choice: int, ans: Answer) returns (r: Opt, ok: bool)
      ensures (r, ok) == Choose(o, choice, ans)
    {
      r, ok := o, true;
      if choice == 2 {
        if r.byDefault != r.cached {
          if !ans.Accepted? { return r, false; }
          r := r.(actual := r.byDefault);
          r := r.(cached := r.byDefault);
        }
      } else if BoolCode(r.cached) != choice {
        if !ans.Accepted? { return r, false; }
        r := r.(actual := choice != 0);
        r := r.(cached := choice != 0);
      }
    }

    method Start(language: string, p: int, u: int, s: int, calls: Calls) returns (ret: int)
      modifies this
      ensures (View(), ret) == RecognizeStart(old(View()), language, p, u, s, calls)
    {
      if !isLoaded { return ERROR_OPERATION_FAILED; }
      var ok := SetOption(p, u, s, calls);
      if !ok || calls.start.Missing? { return ERROR_OPERATION_FAILED; }
      var spoken := if "default" <= language then lang else language;
      plug := Begin(plug, spoken, calls.start);
      return if calls.start.Accepted? then 0 else ERROR_OPERATION_FAILED;
    }

    method Stop(ans: Answer) returns (ret: int)
      modifies this`plug
      ensures (View(), ret) == RecognizeStop(old(View()), ans)
    {
      if !isLoaded || ans.Missing? { return ERROR_OPERATION_FAILED; }
      plug := Reached(plug);
      if ans.Refused? {
        if !ans.holds { plug := Idle(plug); }
        return ERROR_OPERATION_FAILED;
      }
      return 0;
    }

    method Cancel(ans: Answer) returns (ret: int)
      modifies this`plug
      ensures (View(), ret) == RecognizeCancel(old(View()), ans)
    {
      if !isLoaded || ans.Missing? { return ERROR_OPERATION_FAILED; }
      plug := Reached(plug);
      if !ans.Accepted? { return ERROR_OPERATION_FAILED; }
      plug := Idle(plug);
      return 0;
    }

    /** The engine's own step when it reports a result; `heeded` says the agent passes it on. */
    method Report(ends: bool) returns (heeded: bool)
      modifies this`plug
      ensures View() == ResultReported(old(View()), ends) && heeded == isLoaded
    {
      if isLoaded && ends { plug := Idle(plug); }
      return isLoaded;
    }

    method SettingSetEngine(id: string, le: LoadEnv) returns (ret: int)
      requires config.Durable()
      modifies this, config
      ensures config.Durable()
      ensures (View(), ret) == SetEngine(old(View()), id, le)
    {
      if uuid.Some? && uuid.value <= id { return 0; }
      if uuid.None? { return ERROR_OUT_OF_MEMORY; }
      var previous := uuid.value;
      var _ := UnloadCurrentEngine();
      ret := SetCurrentEngine(id);
      if ret != 0 {
        var _ := SetCurrentEngine(previous);
        var _ := LoadCurrentEngine(le);
        return ERROR_OPERATION_FAILED;
      }
      ret := LoadCurrentEngine(le);
      if ret != 0 { return ERROR_OPERATION_FAILED; }
      config.SetEngine(id);
      return 0;
    }

    method SettingSetLang(language: string, validator: bool) returns (ret: int)
      requires config.Durable()
      modifies this, config
      ensures config.Durable()
      ensures (View(), ret) == SetDefaultLang(old(View()), language, validator)
    {
      if !isLoaded || !validator { return ERROR_OPERATION_FAILED; }
      if language !in plug.valid { return ERROR_INVALID_LANGUAGE; }
      lang := language;
      config.SetLanguage(language);
      return 0;
    }

    method SettingSetDefault(which: Which, value: bool, calls: Calls) returns (ret: int)
      requires config.Durable()
      modifies this, config
      ensures config.Durable()
      ensures (View(), ret) == SetDefault(old(View()), which, value, calls)
    {
      if !isLoaded || !AnswerOf(calls, which).Accepted? { return ERROR_OPERATION_FAILED; }
      match which {
        case Profanity =>
          prof := prof.(byDefault := value, actual := value);
          config.SetProfanity(BoolCode(value));
        case Punctuation =>
          punc := punc.(byDefault := value, actual := value);
          config.SetPunctuation(BoolCode(value));
        case Silence =>
          sil := sil.(byDefault := value, actual := value);
          config.SetSilence(BoolCode(value));
      }
      return 0;
    }

    /** The caller gets the ids of the list as it was just read. */
    method SettingRefreshList(found: seq<EngineInfo>) returns (ret: int, ids: seq<string>)
      modifies this`engines
      ensures (View(), ret) == RefreshList(old(View()), found)
      ensures |ids| == if ret == 0 then |found| else 0
      ensures forall i :: 0 <= i < |ids| ==> ids[i] == found[i].uuid
    {
      ids := [];
      if !isLoaded { return ERROR_OPERATION_FAILED, []; }
      ret := UpdateEngineList(found);
      if ret != 0 { return -1, []; }
      for i := 0 to |engines|
        invariant |ids| == i && forall k :: 0 <= k < i ==> ids[k] == found[k].uuid
      {
        ids := ids + [engines[i].uuid];
      }
    }

    /** Which options the engine took when it was loaded. */
    method GetOptionSupported() returns (ret: int, supported: Supported)
      ensures ret == if isLoaded then 0 else ERROR_OPERATION_FAILED
      ensures supported == if isLoaded then SupportedBy(View()) else NOTHING
    {
      if !isLoaded { return ERROR_OPERATION_FAILED, NOTHING; }
      return 0, Supported(sil.supported, prof.supported, punc.supported);
    }
  }
}
