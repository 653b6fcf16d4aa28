/** What holds in every state of every run of the daemon. */
module Runs {
  import opened Types
  import opened ClientData
  import Config
  import opened EngineAgent
  import opened Daemon
  import opened Sessions
  import opened Devices
  import opened Engines
  import opened Options
  import opened Timing

  /** `states[i + 1]` is what event `events[i]`, meeting `envs[i]`, makes of `states[i]`. */
  datatype Run = Run(states: seq<State>, events: seq<Event>, envs: seq<Env>)

  ghost predicate Follows(r: Run) {
    && |r.states| == |r.events| + 1 && |r.envs| == |r.events|
    && (forall i :: 0 <= i < |r.events| ==>
          r.states[i].agent.conf.engineId.Some? && r.states[i + 1] == Step(r.states[i], r.events[i], r.envs[i]))
  }

  /** A run of a daemon that has just started, serving client ids as the client library makes them. */
  ghost predicate IsRun(r: Run, conf: Config.Conf, env: Env) {
    && Follows(r) && conf.language.Some? && conf.engineId.Some? && r.states[0] == Boot(conf, env)
    && (forall i :: 0 <= i < |r.events| ==> PositiveUid(r.events[i]))
  }

  lemma BootState(conf: Config.Conf, env: Env)
    requires conf.language.Some? && conf.engineId.Some?
    ensures var d := Boot(conf, env);
      && Good(d.clients) && SessionOf(d.clients) == Free && Sound(d) && Timely(d) && InStep(d.agent)
      && !d.agent.plug.busy && !d.agent.plug.misused && !d.rec.recording && RefCount(d) == 0
  {
    InitialOk(conf);
    InitializeKeepsOk(Initial(conf), env.found);
    BootHasEngine(conf, env);
  }

  lemma BootHasEngine(conf: Config.Conf, env: Env)
    requires conf.language.Some? && conf.engineId.Some?
    ensures Boot(conf, env).hasEngine <==> Boot(conf, env).agent.uuid.Some?
  {
  }

  // ---- With no assumption on any device ----

  /** Mutual exclusion, unique ids, nobody in CREATED, and the agent's invariant: option cache, language
      and persistence. */
  lemma {:induction false} AlwaysExclusive(r: Run, conf: Config.Conf, env: Env, i: nat)
    requires IsRun(r, conf, env) && i < |r.states|
    ensures Good(r.states[i].clients) && Sound(r.states[i])
  {
    hide Step, Good, Sound;
    if i == 0 {
      BootState(conf, env);
    } else {
      AlwaysExclusive(r, conf, env, i - 1);
      StepSession(r.states[i - 1], r.events[i - 1], r.envs[i - 1]);
      StepSound(r.states[i - 1], r.events[i - 1], r.envs[i - 1]);
    }
  }

  /** Every step of a run moves the session only as allowed. */
  lemma SessionMoves(r: Run, conf: Config.Conf, env: Env, i: nat)
    requires IsRun(r, conf, env) && i < |r.events|
    ensures SessionNext(SessionOf(r.states[i].clients), r.events[i], SessionOf(r.states[i + 1].clients))
  {
    hide Step, SessionNext;
    AlwaysExclusive(r, conf, env, i);
    StepSession(r.states[i], r.events[i], r.envs[i]);
  }

  /** Whenever a start succeeds, options left to AUTO run at the defaults of that moment. */
  lemma StartsUseDefaults(r: Run, conf: Config.Conf, env: Env, i: nat, uid: int, lang: string, p: int, u: int, s: int)
    requires IsRun(r, conf, env) && i < |r.events| && r.events[i] == Start(uid, lang, p, u, s)
    requires DoStart(r.states[i], uid, lang, p, u, s, r.envs[i]).1 == 0
    ensures var os := r.states[i + 1].agent.opts; AsDefault(os.prof, p) && AsDefault(os.punc, u) && AsDefault(os.sil, s)
  {
    hide DoStart, Good;
    AlwaysExclusive(r, conf, env, i);
    StartUsesDefaults(r.states[i], uid, lang, p, u, s, r.envs[i]);
  }

  // ---- Without setting setters ----

  lemma {:induction false} AlwaysInStep(r: Run, conf: Config.Conf, env: Env, i: nat)
    requires IsRun(r, conf, env) && i < |r.states|
    requires forall j :: 0 <= j < i ==> !SetsDefault(r.states[j], r.events[j], r.envs[j])
    ensures InStep(r.states[i].agent)
  {
    hide Step, Good, Sound, InStep, SetsDefault;
    if i == 0 {
      BootState(conf, env);
    } else {
      AlwaysExclusive(r, conf, env, i - 1);
      AlwaysInStep(r, conf, env, i - 1);
      StepInStep(r.states[i - 1], r.events[i - 1], r.envs[i - 1]);
    }
  }

  /** Until some setting setter succeeds, every started session runs the engine exactly as asked. */
  lemma StartsUseChoices(r: Run, conf: Config.Conf, env: Env, i: nat, uid: int, lang: string, p: int, u: int, s: int)
    requires IsRun(r, conf, env) && i < |r.events| && r.events[i] == Start(uid, lang, p, u, s)
    requires forall j :: 0 <= j < i ==> !SetsDefault(r.states[j], r.events[j], r.envs[j])
    requires DoStart(r.states[i], uid, lang, p, u, s, r.envs[i]).1 == 0
    ensures var os := r.states[i + 1].agent.opts; AsAsked(os.prof, p) && AsAsked(os.punc, u) && AsAsked(os.sil, s)
  {
    hide DoStart, Good, SetsDefault;
    AlwaysExclusive(r, conf, env, i);
    AlwaysInStep(r, conf, env, i);
    StartUsesChoices(r.states[i], uid, lang, p, u, s, r.envs[i]);
  }

  // ---- From one setting of the language to the next ----

  /** No other language is set from `i` to `j`, and no engine loaded that does not take the default one. */
  ghost predicate LanguageRests(r: Run, i: nat, j: nat)
    requires Follows(r) && j <= |r.events|
  {
    forall k :: i <= k < j ==>
      !SetsLanguage(r.states[k], r.events[k], r.envs[k]) && !MayReplaceLanguage(r.states[k], r.events[k], r.envs[k])
  }

  lemma {:induction false} SameLanguage(r: Run, conf: Config.Conf, env: Env, i: nat, j: nat)
    requires IsRun(r, conf, env) && i <= j < |r.states| && LanguageRests(r, i, j)
    ensures r.states[j].agent.lang == r.states[i].agent.lang
    decreases j - i
  {
    hide Step, Good, Sound, SetsLanguage, MayReplaceLanguage;
    if i < j {
      SameLanguage(r, conf, env, i, j - 1);
      AlwaysExclusive(r, conf, env, j - 1);
      LanguageStays(r.states[j - 1], r.events[j - 1], r.envs[j - 1]);
    }
  }

  /** A language set through the setting application is what every session that asks for "default" is heard in,
      until another one is set or an engine is loaded that does not take it. */
  lemma LanguageReachesEngine(r: Run, conf: Config.Conf, env: Env, i: nat, j: nat, e: Event)
    requires IsRun(r, conf, env) && i < j < |r.events| && SetsLanguage(r.states[i], r.events[i], r.envs[i])
    requires LanguageRests(r, i + 1, j) && r.events[j] == e && e.Start? && "default" <= e.lang
    requires DoStart(r.states[j], e.uid, e.lang, e.p, e.u, e.s, r.envs[j]).1 == 0
    ensures r.states[j + 1].agent.plug.heard == r.events[i].lang
    ensures r.states[j + 1].agent.conf.language == Some(r.events[i].lang)
  {
    hide Good, DoStart, LanguageRests, Step;
    AlwaysExclusive(r, conf, env, i);
    LanguageSetWhen(r.states[i], r.events[i], r.envs[i]);
    SameLanguage(r, conf, env, i + 1, j);
    AlwaysExclusive(r, conf, env, j);
    AlwaysExclusive(r, conf, env, j + 1);
    StartIs(r.states[j], e, r.envs[j]);
    StartSpeaks(r.states[j], e.uid, e.lang, e.p, e.u, e.s, r.envs[j]);
    StartSound(r.states[j], e.uid, e.lang, e.p, e.u, e.s, r.envs[j]);
  }

  // ---- From the load of an engine on ----

  /** The engine in use after step `i` is loaded in it, and is neither unloaded nor switched away from until `j`. */
  ghost predicate LoadedFrom(r: Run, i: nat, j: nat)
    requires Follows(r) && i < j <= |r.events|
  {
    && Reloads(r.states[i], r.events[i])
    && (forall k :: i < k <= j ==> r.states[k].agent.isLoaded)
    && (forall k :: i < k < j ==> !Reloads(r.states[k], r.events[k]))
  }

  /** The options a client is told of are those the engine took when it was loaded, however much later the client
      registers. */
  lemma {:induction false} SupportAsLoaded(r: Run, conf: Config.Conf, env: Env, i: nat, j: nat)
    requires IsRun(r, conf, env) && i < j < |r.states| && LoadedFrom(r, i, j)
    ensures SupportedBy(r.states[j].agent) == TakenAtLoad(r.envs[i].load)
    decreases j
  {
    hide Step, Good, Sound, SupportedBy, TakenAtLoad, Reloads;
    AlwaysExclusive(r, conf, env, j - 1);
    StepTells(r.states[j - 1], r.events[j - 1], r.envs[j - 1]);
    assert r.states[j].agent.isLoaded;
    if i < j - 1 {
      assert LoadedFrom(r, i, j - 1);
      SupportAsLoaded(r, conf, env, i, j - 1);
      assert r.states[j - 1].agent.isLoaded;
    }
  }

  // ---- With an engine that obeys ----

  /** The engine is never started while in recognition, and is in recognition only for the one client that
      is not READY. */
  lemma {:induction false} EngineContract(r: Run, conf: Config.Conf, env: Env, i: nat)
    requires IsRun(r, conf, env) && i < |r.states|
    requires forall j :: 0 <= j < i ==> EngineRely(r.states[j], r.events[j], r.envs[j])
    ensures EngineOwned(r.states[i]) && !r.states[i].agent.plug.misused
  {
    hide Step, Good, Sound, EngineOwned, EngineRely;
    if i == 0 {
      BootState(conf, env);
      assert EngineOwned(r.states[0]) by { BootOwned(conf, env); }
    } else {
      AlwaysExclusive(r, conf, env, i - 1);
      EngineContract(r, conf, env, i - 1);
      StepEngine(r.states[i - 1], r.events[i - 1], r.envs[i - 1]);
    }
  }

  lemma BootOwned(conf: Config.Conf, env: Env)
    requires conf.language.Some? && conf.engineId.Some?
    ensures var d := Boot(conf, env); EngineOwned(d) && RecorderOwned(d) && LoadedWhileUsed(d)
  {
    BootState(conf, env);
  }

  // ---- With a recorder that obeys, and results that come after the stop ----

  lemma {:induction false} RecorderContract(r: Run, conf: Config.Conf, env: Env, i: nat)
    requires IsRun(r, conf, env) && i < |r.states|
    requires forall j :: 0 <= j < i ==> RecorderRely(r.states[j], r.events[j], r.envs[j])
    ensures RecorderOwned(r.states[i])
  {
    hide Step, Good, Sound, RecorderOwned, RecorderRely;
    if i == 0 {
      BootOwned(conf, env);
    } else {
      AlwaysExclusive(r, conf, env, i - 1);
      RecorderContract(r, conf, env, i - 1);
      StepRecorder(r.states[i - 1], r.events[i - 1], r.envs[i - 1]);
    }
  }

  // ---- With known formats, and switches whose load succeeds ----

  lemma {:induction false} AlwaysLoaded(r: Run, conf: Config.Conf, env: Env, i: nat)
    requires IsRun(r, conf, env) && i < |r.states|
    requires forall j :: 0 <= j < i ==> LoadRely(r.states[j], r.events[j], r.envs[j])
    ensures LoadedWhileUsed(r.states[i])
  {
    hide Step, Good, Sound, LoadedWhileUsed, LoadRely;
    if i == 0 {
      BootOwned(conf, env);
    } else {
      AlwaysExclusive(r, conf, env, i - 1);
      AlwaysLoaded(r, conf, env, i - 1);
      StepLoaded(r.states[i - 1], r.events[i - 1], r.envs[i - 1]);
    }
  }

  // ---- With prefix-free engine ids ----

  lemma BootNamed(conf: Config.Conf, env: Env)
    requires conf.language.Some? && conf.engineId.Some? && PrefixFree(env.found)
    requires Boot(conf, env).hasEngine
    ensures Named(Boot(conf, env).agent)
  {
    var a := Initial(conf);
    InitializationAgrees(a, env.found);
    var kept := Begins(env.found, conf.engineId.value);
    var id := if kept then conf.engineId.value else env.found[0].uuid;
    PrefixFreePlus(env.found, FirstExtending(env.found, id));
  }

  /** The persisted engine id is the current engine's in every state of the run. */
  lemma {:induction false} AlwaysNamed(r: Run, conf: Config.Conf, env: Env, i: nat)
    requires IsRun(r, conf, env) && i < |r.states| && PrefixFree(env.found)
    requires forall j :: 0 <= j < i ==> NameRely(r.states[j], r.events[j], r.envs[j])
    ensures Named(r.states[i].agent)
  {
    hide Step, Good, Named, NameRely, PrefixFree, AgentOk;
    if i == 0 {
      if Boot(conf, env).hasEngine {
        BootNamed(conf, env);
      } else {
        BootHasEngine(conf, env);
        assert Named(Boot(conf, env).agent) by { NamelessIsNamed(Boot(conf, env).agent); }
      }
    } else {
      AlwaysExclusive(r, conf, env, i - 1);
      AlwaysNamed(r, conf, env, i - 1);
      StepNamed(r.states[i - 1], r.events[i - 1], r.envs[i - 1]);
    }
  }

  lemma NamelessIsNamed(a: Agent)
    requires a.uuid.None?
    ensures Named(a)
  {
  }

  // ---- With a main loop that does not sleep past a timer ----

  lemma {:induction false} AlwaysTimely(r: Run, conf: Config.Conf, env: Env, i: nat)
    requires IsRun(r, conf, env) && i < |r.states|
    requires forall j :: 0 <= j < i ==> Punctual(r.states[j], r.events[j])
    ensures Timely(r.states[i])
    ensures i > 0 ==> KeepsDeadline(r.states[i - 1], r.states[i])
  {
    hide Step, Good, Sound, Timely, KeepsDeadline, Punctual;
    if i == 0 {
      BootState(conf, env);
    } else {
      AlwaysExclusive(r, conf, env, i - 1);
      AlwaysTimely(r, conf, env, i - 1);
      EngineIdStays(r.states[i - 1]);
      StepTimed(r.states[i - 1], r.events[i - 1], r.envs[i - 1]);
    }
  }

  /** The client is in processing in all of the states from `i` to `j`. */
  ghost predicate Processes(r: Run, uid: int, i: nat, j: nat)
    requires i <= j < |r.states|
  {
    forall k :: i <= k <= j ==> StateOf(r.states[k].clients, uid) == Some(Processing)
  }

  lemma {:induction false} SameDeadline(r: Run, conf: Config.Conf, env: Env, uid: int, i: nat, j: nat)
    requires IsRun(r, conf, env) && i <= j < |r.states| && Processes(r, uid, i, j)
    requires forall k :: 0 <= k < j ==> Punctual(r.states[k], r.events[k])
    ensures var t, t' := TimerOf(r.states[i].clients, uid), TimerOf(r.states[j].clients, uid);
      && Armed(r.states[i].loop, t) && Armed(r.states[j].loop, t')
      && r.states[j].loop.timers[t'.value].due == r.states[i].loop.timers[t.value].due
    decreases j - i
  {
    hide Step, Good, Sound, Punctual, IsRun;
    AlwaysTimely(r, conf, env, j);
    assert StateOf(r.states[j].clients, uid) == Some(Processing);
    if i < j {
      assert Processes(r, uid, i, j - 1);
      assert StateOf(r.states[j - 1].clients, uid) == Some(Processing);
      SameDeadline(r, conf, env, uid, i, j - 1);
    }
  }

  /** No client stays in processing for more than the state-check time. */
  lemma BoundedProcessing(r: Run, conf: Config.Conf, env: Env, uid: int, i: nat, j: nat)
    requires IsRun(r, conf, env) && i <= j < |r.states| && Processes(r, uid, i, j)
    requires forall k :: 0 <= k < j ==> Punctual(r.states[k], r.events[k])
    ensures r.states[j].loop.now <= r.states[i].loop.now + STATE_CHECK_TIME
  {
    hide IsRun, Punctual, Processes;
    SameDeadline(r, conf, env, uid, i, j);
  }

  // ---- With a watchdog whose cancel requests reach the engine ----

  ghost predicate WatchRelied(r: Run, i: nat)
    requires Follows(r) && i <= |r.events|
  {
    forall j :: 0 <= j < i ==> Punctual(r.states[j], r.events[j]) && WatchRely(r.states[j], r.events[j], r.envs[j])
  }

  /** Every recording client is under a live watchdog. */
  lemma {:induction false} AlwaysWatched(r: Run, conf: Config.Conf, env: Env, i: nat)
    requires IsRun(r, conf, env) && i < |r.states| && WatchRelied(r, i)
    ensures Watched(r.states[i])
  {
    hide Step, Good, Sound, Timely, Watched, Punctual, WatchRely;
    if i == 0 {
      BootState(conf, env);
      BootWatched(conf, env);
    } else {
      AlwaysExclusive(r, conf, env, i - 1);
      AlwaysTimely(r, conf, env, i - 1);
      AlwaysWatched(r, conf, env, i - 1);
      EngineIdStays(r.states[i - 1]);
      StepWatched(r.states[i - 1], r.events[i - 1], r.envs[i - 1]);
    }
  }

  lemma BootWatched(conf: Config.Conf, env: Env)
    requires conf.language.Some? && conf.engineId.Some?
    ensures Watched(Boot(conf, env))
  {
  }

  /** The client is recording, and not being checked, in all of the steps from `i` to `j`. */
  ghost predicate RecordsUnchecked(r: Run, uid: int, i: nat, j: nat)
    requires Follows(r) && i <= j < |r.states|
  {
    && (forall k :: i <= k <= j ==> StateOf(r.states[k].clients, uid) == Some(Recording))
    && (forall k :: i <= k < j ==> !ChecksNow(r.states[k], r.events[k]))
  }

  lemma {:induction false} SameWatch(r: Run, conf: Config.Conf, env: Env, uid: int, i: nat, j: nat)
    requires IsRun(r, conf, env) && i <= j < |r.states| && RecordsUnchecked(r, uid, i, j) && WatchRelied(r, j)
    ensures var t, t' := TimerOf(r.states[i].clients, uid), TimerOf(r.states[j].clients, uid);
      && Watching(r.states[i].loop, t) && Watching(r.states[j].loop, t')
      && r.states[j].loop.timers[t'.value].due == r.states[i].loop.timers[t.value].due
    decreases j - i
  {
    hide Step, Good, Sound, Timely, Punctual, WatchRely;
    AlwaysWatched(r, conf, env, j);
    assert StateOf(r.states[j].clients, uid) == Some(Recording);
    if i < j {
      assert RecordsUnchecked(r, uid, i, j - 1);
      assert StateOf(r.states[j - 1].clients, uid) == Some(Recording) && !ChecksNow(r.states[j - 1], r.events[j - 1]);
      SameWatch(r, conf, env, uid, i, j - 1);
      AlwaysExclusive(r, conf, env, j - 1);
      AlwaysTimely(r, conf, env, j - 1);
      EngineIdStays(r.states[j - 1]);
      WatchStays(r.states[j - 1], r.events[j - 1], r.envs[j - 1]);
    }
  }

  /** No client records for more than the state-check time without its process being asked for its state. */
  lemma RecordingIsChecked(r: Run, conf: Config.Conf, env: Env, uid: int, i: nat, j: nat)
    requires IsRun(r, conf, env) && i <= j < |r.states| && RecordsUnchecked(r, uid, i, j) && WatchRelied(r, j)
    ensures r.states[j].loop.now <= r.states[i].loop.now + STATE_CHECK_TIME
  {
    hide IsRun, Punctual, RecordsUnchecked, WatchRelied;
    SameWatch(r, conf, env, uid, i, j);
  }

  // ---- The whole time, unless a stale time-out comes first ----

  lemma {:induction false} ForemostStays(r: Run, conf: Config.Conf, env: Env, uid: int, i: nat, j: nat)
    requires IsRun(r, conf, env) && i <= j < |r.states| && Processes(r, uid, i, j)
    requires forall k :: 0 <= k < j ==> Punctual(r.states[k], r.events[k])
    requires Foremost(r.states[i], uid)
    ensures Foremost(r.states[j], uid)
    decreases j - i
  {
    hide Step, Good, Sound, Timely, Punctual, NoNewTimeouts, ProcessingNow;
    if i < j {
      var d := r.states[j - 1];
      assert Processes(r, uid, i, j - 1) && Processes(r, uid, j - 1, j);
      ForemostStays(r, conf, env, uid, i, j - 1);
      AlwaysExclusive(r, conf, env, j - 1);
      EngineIdStays(d);
      assert StateOf(d.clients, uid) == Some(Processing);
      SameDeadline(r, conf, env, uid, j - 1, j);
      ProcessingIs(d, uid);
      StepAddsNoTimeout(d, r.events[j - 1], r.envs[j - 1]);
      ForemostAfter(d, r.states[j], uid);
    }
  }

  lemma ProcessingIs(d: State, uid: int)
    requires Good(d.clients) && StateOf(d.clients, uid) == Some(Processing)
    ensures ProcessingNow(d)
  {
    SessionIs(d.clients, uid);
  }

  lemma ForemostAfter(d: State, d': State, uid: int)
    requires Foremost(d, uid) && NoNewTimeouts(d.loop, d'.loop)
    requires Armed(d'.loop, TimerOf(d'.clients, uid))
    requires d'.loop.timers[TimerOf(d'.clients, uid).value].due == d.loop.timers[TimerOf(d.clients, uid).value].due
    ensures Foremost(d', uid)
  {
  }

  /** A client that enters processing when no earlier time-out is live, and is timed out, is timed out after
      the whole state-check time and not before. */
  lemma TimedOutInTime(r: Run, conf: Config.Conf, env: Env, uid: int, i: nat, j: nat)
    requires IsRun(r, conf, env) && 0 < i <= j < |r.events| && Processes(r, uid, i, j)
    requires forall k :: 0 <= k < j ==> Punctual(r.states[k], r.events[k])
    requires StateOf(r.states[i - 1].clients, uid) != Some(Processing) && Foremost(r.states[i], uid)
    requires r.events[j].Fire? && IsDue(r.states[j].loop, r.events[j].id)
    requires r.states[j].loop.timers[r.events[j].id].kind.ProcessingTimeout?
    ensures r.states[j].loop.now == r.states[i].loop.now + STATE_CHECK_TIME
  {
    hide Step, Good, Sound, Timely, Punctual;
    AlwaysExclusive(r, conf, env, i - 1);
    AlwaysTimely(r, conf, env, i - 1);
    EngineIdStays(r.states[i - 1]);
    TimelyLoop(r.states[i - 1]);
    assert StateOf(r.states[i].clients, uid) == Some(Processing);
    EntersWithFullTime(r.states[i - 1], r.events[i - 1], r.envs[i - 1], uid);
    SameDeadline(r, conf, env, uid, i, j);
    ForemostStays(r, conf, env, uid, i, j);
  }
}
