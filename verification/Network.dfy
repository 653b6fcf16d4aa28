/** Which entry of the engine list the current engine was taken from, and what that means for starts without
    a network. */
module Network {
  import opened Types
  import opened ClientData
  import Config
  import opened EngineAgent
  import opened Recorder
  import opened Daemon
  import opened Sessions
  import opened Devices
  import opened Runs
  import Answers
  import Timing

  /** `n` is the first entry of the list with this id. */
  ghost predicate EntryAt(list: seq<EngineInfo>, id: string, n: nat) {
    n < |list| && list[n].uuid == id && forall j :: 0 <= j < n ==> list[j].uuid != id
  }

  /** The current engine, if any, is that of the list's first entry with its id, and has the entry's network flag. */
  ghost predicate TakenFrom(a: Agent, list: seq<EngineInfo>) {
    a.uuid.Some? ==> exists n: nat :: EntryAt(list, a.uuid.value, n) && a.needNetwork == list[n].useNetwork
  }

  ghost predicate SameChoice(a: Agent, b: Agent) {
    b.uuid == a.uuid && b.needNetwork == a.needNetwork
  }

  /** The engine stays the one it was, or is taken from the list as it now stands. */
  ghost predicate Chosen(a: Agent, b: Agent) {
    SameChoice(a, b) || TakenFrom(b, b.engines)
  }

  /** Choosing by an id that does not begin the current one takes the first listed entry whose id it begins. */
  lemma ChoiceTakes(a: Agent, id: string)
    ensures var (b, ret) := SetCurrent(a, id);
      && (ret == 0 <==> Answers.Extends(a.engines, id))
      && (ret != 0 || (a.uuid.Some? && id <= a.uuid.value) ==> b == a)
      && (ret == 0 && !(a.uuid.Some? && id <= a.uuid.value) ==>
            b.uuid.Some? && id <= b.uuid.value && TakenFrom(b, a.engines) && b.engines == a.engines)
  {
    var n := FirstExtending(a.engines, id);
    Answers.ExtendsWhen(a.engines, id);
    if n < |a.engines| {
      forall j | 0 <= j < n ensures a.engines[j].uuid != a.engines[n].uuid {
        assert !(id <= a.engines[j].uuid);
      }
      assert EntryAt(a.engines, a.engines[n].uuid, n);
    }
  }

  lemma InitializationTakes(a: Agent, found: seq<EngineInfo>)
    requires a.conf.engineId.Some?
    ensures Chosen(a, InitializeCurrent(a, found).0)
    ensures InitializeCurrent(a, found).0.engines == found
  {
    hide SetCurrent, TakenFrom;
    if found != [] {
      var id := if Begins(found, a.conf.engineId.value) then a.conf.engineId.value else found[0].uuid;
      ChoiceTakes(a.(engines := found), id);
      var c := SetCurrent(a.(engines := found), id).0;
      ConfChosen(c, c.conf.(engineId := Some(id)), found);
    }
  }

  /** The first initialization: if no listed id begins the persisted one, the first listed engine becomes current
      and its id is persisted; otherwise the first engine whose id the persisted one begins, if there is one. */
  lemma FirstChoice(a: Agent, found: seq<EngineInfo>)
    requires a.uuid.None? && a.conf.engineId.Some?
    ensures var (b, ret) := InitializeCurrent(a, found); var id := a.conf.engineId.value;
      && (found != [] && !Begins(found, id) ==>
            ret == 0 && b.uuid == Some(found[0].uuid) && b.needNetwork == found[0].useNetwork
            && b.conf == a.conf.(engineId := b.uuid))
      && (found != [] && Begins(found, id) ==>
            && (ret == 0 <==> Answers.Extends(found, id))
            && (ret == 0 ==> b.uuid.Some? && id <= b.uuid.value && TakenFrom(b, found)) && b.conf == a.conf)
      && (found == [] ==> ret == ERROR_ENGINE_NOT_FOUND && b == a.(engines := []))
  {
    hide TakenFrom;
    if found != [] {
      var id := if Begins(found, a.conf.engineId.value) then a.conf.engineId.value else found[0].uuid;
      ChoiceTakes(a.(engines := found), id);
      assert found[0].uuid <= found[0].uuid;
    }
  }

  lemma ConfChosen(a: Agent, c: Config.Conf, list: seq<EngineInfo>)
    ensures TakenFrom(a, list) ==> TakenFrom(a.(conf := c), list)
  {
  }

  lemma LoadChooses(a: Agent, le: LoadEnv)
    ensures SameChoice(a, LoadCurrent(a, le).0) && LoadCurrent(a, le).0.engines == a.engines
  {
  }

  lemma TakenAlike(a: Agent, b: Agent, list: seq<EngineInfo>)
    ensures SameChoice(a, b) && TakenFrom(a, list) ==> TakenFrom(b, list)
  {
  }

  lemma SwitchTakes(a: Agent, id: string, le: LoadEnv)
    ensures var b := SetEngine(a, id, le).0; Chosen(a, b) && b.engines == a.engines
  {
    hide SetCurrent, TakenFrom, LoadCurrent;
    if a.uuid.Some? && !(a.uuid.value <= id) {
      var u := UnloadCurrent(a).0;
      var b := SetCurrent(u, id).0;
      ChoiceTakes(u, id);
      ChoiceTakes(b, a.uuid.value);
      LoadChooses(SetCurrent(b, a.uuid.value).0, le);
      LoadChooses(b, le);
      TakenAlike(b, SetEngine(a, id, le).0, a.engines);
    }
  }

  /** The engine list is the one that was there, or the one found in this step. */
  ghost predicate Listing(a: Agent, b: Agent, found: seq<EngineInfo>) {
    b.engines == a.engines || b.engines == found
  }

  lemma EnsureTakes(d: State, env: Env)
    requires d.agent.conf.engineId.Some?
    ensures var b := EnsureEngine(d, env).0.agent; Chosen(d.agent, b) && Listing(d.agent, b, env.found)
  {
    hide InitializeCurrent, TakenFrom;
    if !d.hasEngine { InitializationTakes(d.agent, env.found); }
  }

  lemma ChosenThen(a: Agent, b: Agent, c: Agent)
    requires Chosen(a, b) && SameChoice(b, c) && c.engines == b.engines
    ensures Chosen(a, c)
  {
    TakenAlike(b, c, b.engines);
  }

  lemma InitializeTakes(d: State, pid: int, uid: int, env: Env)
    requires d.agent.conf.engineId.Some?
    ensures var b := DoInitialize(d, pid, uid, env).0.agent; Chosen(d.agent, b) && Listing(d.agent, b, env.found)
  {
    hide EnsureEngine, LoadCurrent, Chosen, Plus, SetFormat;
    EnsureTakes(d, env);
    var a := EnsureEngine(d, env).0.agent;
    LoadChooses(a, env.load);
    ChosenThen(d.agent, a, DoInitialize(d, pid, uid, env).0.agent);
  }

  lemma SettingInitializeTakes(d: State, pid: int, env: Env)
    requires d.agent.conf.engineId.Some?
    ensures var b := DoSettingInitialize(d, pid, env).0.agent; Chosen(d.agent, b) && Listing(d.agent, b, env.found)
  {
    hide EnsureEngine, LoadCurrent, Chosen;
    EnsureTakes(d, env);
    var a := EnsureEngine(d, env).0.agent;
    LoadChooses(a, env.load);
    ChosenThen(d.agent, a, DoSettingInitialize(d, pid, env).0.agent);
  }

  lemma SettingTakes(d: State, e: Event, env: Env)
    ensures var b := DoSetting(d, e, env).0.agent; Chosen(d.agent, b) && Listing(d.agent, b, env.found)
  {
    hide SetEngine, SetDefault, TakenFrom;
    match e
    case SettingEngine(pid, engine) => SwitchTakes(d.agent, engine, env.load);
    case SettingDefault(pid, which, value) => DefaultChooses(d.agent, which, value, env.calls);
    case _ =>
  }

  lemma DefaultChooses(a: Agent, which: Which, value: bool, calls: Calls)
    ensures var b := SetDefault(a, which, value, calls).0; SameChoice(a, b) && b.engines == a.engines
  {
  }

  /** No step changes engine or network flag but by taking an entry of the list. */
  lemma StepTakes(d: State, e: Event, env: Env)
    requires Sound(d)
    ensures var b := Step(d, e, env).agent; Chosen(d.agent, b) && Listing(d.agent, b, env.found)
  {
    hide DoInitialize, DoFinalize, DoStart, DoStop, DoCancel, DoResult, DoFire, CleanupFrom, StopRecorder;
    hide DoSetting, DoSettingInitialize, DoSettingFinalize, AgentOk, TakenFrom;
    EngineIdStays(d);
    match e
    case Initialize(pid, uid) => InitializeTakes(d, pid, uid, env);
    case Finalize(uid) => FinalizeSound(d, uid, env);
    case Start(uid, lang, p, u, s) => StartSound(d, uid, lang, p, u, s, env);
    case Stop(uid) => StopSound(d, uid, env);
    case Cancel(uid) => CancelSound(d, uid, env);
    case Result(uid, outcome, kind, data, text) => ResultSound(d, uid, outcome, kind, data, text, env);
    case CamcorderStops => StopRecorderKeepsClients(d, env);
    case Fire(id) => FireSound(d, id, env);
    case Cleanup(visits) => if |visits| == |d.clients| { CleanupSound(d, Uids(d.clients), visits); }
    case SettingInitialize(pid) => SettingInitializeTakes(d, pid, env);
    case SettingFinalize(pid) => UnloadChooses(d, pid);
    case SilenceDetected =>
    case AudioChunk =>
    case CamcorderCancels =>
    case Tick(ms) =>
    case _ => SettingTakes(d, e, env);
  }

  lemma UnloadChooses(d: State, pid: int)
    ensures var b := DoSettingFinalize(d, pid).0.agent; SameChoice(d.agent, b) && b.engines == d.agent.engines
  {
    hide SettingWithout;
  }

  // ---- Over runs ----

  /** The current engine and its network flag are as they were in all states from `k` to `i`. */
  ghost predicate ChosenSince(r: Run, k: nat, i: nat)
    requires k <= i < |r.states|
  {
    forall j :: k <= j <= i ==> SameChoice(r.states[i].agent, r.states[j].agent)
  }

  ghost predicate TakenAt(r: Run, k: nat, i: nat)
    requires k <= i < |r.states|
  {
    ChosenSince(r, k, i) && TakenFrom(r.states[i].agent, r.states[k].agent.engines)
  }

  lemma BootTakes(conf: Config.Conf, env: Env)
    requires conf.language.Some? && conf.engineId.Some?
    ensures TakenFrom(Boot(conf, env).agent, Boot(conf, env).agent.engines)
    ensures Boot(conf, env).agent.engines == env.found
  {
    hide InitializeCurrent;
    InitializationTakes(Initial(conf), env.found);
  }

  /** In every state of every run the current engine was taken, with its network flag, from the list of some
      earlier moment, and both have stayed since. */
  lemma {:induction false} AlwaysTaken(r: Run, conf: Config.Conf, env: Env, i: nat) returns (k: nat)
    requires IsRun(r, conf, env) && i < |r.states|
    ensures k <= i && TakenAt(r, k, i)
  {
    hide Step, Good, Sound, TakenFrom, SameChoice, Boot;
    if i == 0 {
      BootTakes(conf, env);
      ChoiceIsItself(r.states[0].agent);
      return 0;
    }
    var a, b := r.states[i - 1].agent, r.states[i].agent;
    AlwaysExclusive(r, conf, env, i - 1);
    StepTakes(r.states[i - 1], r.events[i - 1], r.envs[i - 1]);
    ChoiceIsItself(b);
    if SameChoice(a, b) {
      k := AlwaysTaken(r, conf, env, i - 1);
      forall j | k <= j <= i ensures SameChoice(b, r.states[j].agent) {
        if j < i { ChoicesAlike(a, b, r.states[j].agent); }
      }
      TakenAlike(a, b, r.states[k].agent.engines);
    } else {
      k := i;
    }
  }

  lemma ChoiceIsItself(a: Agent)
    ensures SameChoice(a, a)
  {
  }

  lemma ChoicesAlike(a: Agent, b: Agent, c: Agent)
    requires SameChoice(a, b) && SameChoice(a, c)
    ensures SameChoice(b, c)
  {
  }

  // ---- Starts ----

  /** In every run, a start that nothing else stands in the way of is refused for want of a network if and only
      if there is none and the list entry that the loaded engine was taken from uses it. */
  lemma StartNeedsNetwork(r: Run, conf: Config.Conf, env: Env, i: nat, e: Event, env': Env)
    returns (k: nat, n: nat)
    requires IsRun(r, conf, env) && i < |r.states| && e.Start? && r.states[i].agent.isLoaded
    requires StateOf(r.states[i].clients, e.uid) == Some(Ready) && SessionOf(r.states[i].clients).Free?
    ensures k <= i && ChosenSince(r, k, i)
    ensures var list := r.states[k].agent.engines;
      && r.states[i].agent.uuid.Some? && EntryAt(list, r.states[i].agent.uuid.value, n)
      && (DoStart(r.states[i], e.uid, e.lang, e.p, e.u, e.s, env').1 == ERROR_OUT_OF_NETWORK <==>
            list[n].useNetwork && !env'.network)
  {
    hide Good, DoStart, ChosenSince, SessionOf, IsRun, StateOf;
    var d := r.states[i];
    AlwaysExclusive(r, conf, env, i);
    k := AlwaysTaken(r, conf, env, i);
    LoadedHasId(d);
    n :| EntryAt(r.states[k].agent.engines, d.agent.uuid.value, n)
      && d.agent.needNetwork == r.states[k].agent.engines[n].useNetwork;
    Answers.StartAnswers(d, e.uid, e.lang, e.p, e.u, e.s, env');
    Timing.StateMeansHas(d.clients, e.uid);
  }

  lemma LoadedHasId(d: State)
    requires Sound(d) && d.agent.isLoaded
    ensures d.agent.uuid.Some?
  {
  }

  // ---- While the engine directory stays as it is ----

  ghost predicate SameDirectory(r: Run, env: Env, i: nat)
    requires Follows(r) && i <= |r.events|
  {
    forall j :: 0 <= j < i ==> r.envs[j].found == env.found
  }

  lemma {:induction false} ListIsDirectory(r: Run, conf: Config.Conf, env: Env, i: nat)
    requires IsRun(r, conf, env) && i < |r.states| && SameDirectory(r, env, i)
    ensures r.states[i].agent.engines == env.found
  {
    hide Step, Good, Sound, TakenFrom, SameChoice, Boot;
    if i == 0 {
      BootTakes(conf, env);
    } else {
      ListIsDirectory(r, conf, env, i - 1);
      AlwaysExclusive(r, conf, env, i - 1);
      StepTakes(r.states[i - 1], r.events[i - 1], r.envs[i - 1]);
    }
  }

  /** As long as the directory lists the same engines, the network flag is that of the first listed entry with the
      current engine's id. */
  lemma FlagAsListed(r: Run, conf: Config.Conf, env: Env, i: nat)
    requires IsRun(r, conf, env) && i < |r.states| && SameDirectory(r, env, i)
    ensures TakenFrom(r.states[i].agent, env.found)
  {
    hide IsRun, TakenFrom;
    var k := AlwaysTaken(r, conf, env, i);
    ListIsDirectory(r, conf, env, k);
  }
}
