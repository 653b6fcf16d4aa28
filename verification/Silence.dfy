/** Where a stop by silence comes from, and what it ends in. */
module Silence {
  import opened Types
  import opened ClientData
  import opened EngineAgent
  import opened Recorder
  import opened Daemon
  import opened Sessions
  import opened Devices
  import opened Effects
  import opened Timing
  import opened ClientLibrary
  import opened Composition
  import opened Agreement
  import opened Leftovers

  /** One live timer more than before: a stop by silence, due now. */
  ghost predicate StopQueued(d: State, d': State) {
    var id, l, l' := d.loop.next, d.loop, d'.loop;
    && d' == d.(loop := l') && l'.now == l.now
    && id !in l.timers && IsDue(l', id) && l'.timers[id] == Timer(StopBySilence, l.now)
    && (forall k: nat :: k in l'.timers <==> k in l.timers || k == id)
    && (forall k: nat :: k in l.timers ==> l'.timers[k] == l.timers[k])
  }

  predicate Records(d: State) {
    SessionOf(d.clients).Held? && SessionOf(d.clients).st.Recording?
  }

  lemma QueuesWhen(d: State)
    requires Good(d.clients) && Issued(d.loop)
    ensures if Records(d) then StopQueued(d, QueueSilence(d)) else QueueSilence(d) == d
  {
    hide Good, SessionOf, StateOf;
    HolderIs(d.clients, Recording);
    StateMeansHas(d.clients, -1);
    if FirstIn(d.clients, Recording) != -1 {
      CurrentIs(d.clients, Recording);
    } else {
      SessionIs(d.clients, -1);
      assert StateOf(d.clients, -1) != Some(Recording);
    }
  }

  /** A report of silence queues a stop exactly when the engine is loaded, the agent takes its silence option for
      on, and a client is recording; otherwise nothing happens. */
  lemma SilenceQueues(d: State)
    requires Good(d.clients) && Issued(d.loop)
    ensures var d' := DoSilenceDetected(d);
      if d.agent.isLoaded && d.agent.opts.sil.cached && Records(d) then StopQueued(d, d') else d' == d
  {
    hide QueueSilence, StopQueued;
    QueuesWhen(d);
  }

  /** So does a recorded chunk that the engine does not take. */
  lemma AudioQueues(d: State, env: Env)
    requires Good(d.clients) && Issued(d.loop)
    ensures var d' := DoAudioChunk(d, env);
      if (!d.agent.isLoaded || env.accepts == 0) && Records(d) then StopQueued(d, d') else d' == d
  {
    hide QueueSilence, StopQueued;
    QueuesWhen(d);
  }

  /** The recorder replays a file that is longer than the buffers the engine takes. */
  predicate FileTooLong(d: State, env: Env) {
    && d.rec.callback && d.rec.audio.Amr? && env.file.Some?
    && |env.file.value| > BUFFER_SIZE * (if d.agent.isLoaded then env.accepts else 0)
  }

  /** And a stop of the recorder whose replay the engine does not take to its end. */
  lemma ReplayQueues(d: State, env: Env)
    requires Good(d.clients) && Issued(d.loop)
    ensures var d1 := StopRecorder(d, env); var d' := d1.(rec := d.rec);
      && d1.rec == StopRec(d.rec, env.file, env.recCommit).0
      && (if FileTooLong(d, env) && Records(d) then StopQueued(d, d') else d' == d)
  {
    hide ReplayRefused, StopRec, StopQueued, QueueSilence, Good;
    var d1 := d.(rec := StopRec(d.rec, env.file, env.recCommit).0);
    RefusedWhen(d.rec, env.file, if d.agent.isLoaded then env.accepts else 0);
    QueuesWhen(d);
    QueueIgnoresRecorder(d, d1.rec);
  }

  lemma QueueIgnoresRecorder(d: State, rec: Rec)
    ensures QueueSilence(d.(rec := rec)) == QueueSilence(d).(rec := rec)
    ensures QueueSilence(d).(rec := rec).(rec := d.rec) == QueueSilence(d)
  {
  }

  /** The camcorder's own messages: at a limit it stops the recorder as a client would, without ending the session. */
  lemma CamcorderLimit(d: State, env: Env)
    requires Good(d.clients) && Issued(d.loop) && d.agent.conf.engineId.Some?
    ensures var d' := Step(d, CamcorderStops, env);
      && d'.clients == d.clients && d'.agent == d.agent
      && (d'.rec.recording <==> d.rec.recording && !(d.rec.callback && (d.rec.audio.Amr? ==> env.file.Some?)))
      && (d'.rec.running <==> d.rec.running && !env.recCommit)
      && (if FileTooLong(d, env) && Records(d) then StopQueued(d, d'.(rec := d.rec)) else d'.loop == d.loop)
  {
    hide Good, FileTooLong, Records, StopQueued, StopRecorder;
    ReplayQueues(d, env);
    StopRecorderKeepsClients(d, env);
  }

  /** At an error it is cancelled, and nothing else changes. */
  lemma CamcorderError(d: State, env: Env)
    requires d.agent.conf.engineId.Some?
    ensures var d' := Step(d, CamcorderCancels, env);
      && d' == d.(rec := d'.rec)
      && (d'.rec.recording <==> d.rec.recording && !env.recCancel)
      && (d'.rec.running <==> d.rec.running && !env.recCancel)
  {
  }

  // ---- From the report to both sides in PROCESSING ----

  predicate BothProcess(s: Sys, uid: int) {
    uid in s.h && s.h[uid].state == Processing && StateOf(s.d.clients, uid) == Some(Processing)
  }

  /** The event makes the daemon queue a stop. */
  predicate Silences(d: State, e: Event, env: Env) {
    || (e.SilenceDetected? && d.agent.isLoaded && d.agent.opts.sil.cached)
    || (e.AudioChunk? && (!d.agent.isLoaded || env.accepts == 0))
  }

  lemma SilenceStops(s: Sys, id: nat, env: Env, uid: int)
    requires Coherent(s) && s.d.agent.conf.engineId.Some? && uid in s.h
    requires SessionOf(s.d.clients) == Held(uid, Recording)
    requires IsDue(s.d.loop, id) && s.d.loop.timers[id].kind.StopBySilence?
    ensures BothProcess(NextSys(s, OfDaemon(Fire(id), env)), uid) <==> EngineStops(s.d, env) && env.setState
  {
    hide Good, Sound, NextSys, DoFire, DoStop, DoFinalize, OnlyTouches, StatusOf, IsDue, FirstIn, SessionOf;
    hide EngineStops, StateOf, PidOf;
    HolderIs(s.d.clients, Recording);
    var d1, d2 := DoStop(s.d, uid, env).0, DoSilence(s.d, env).0;
    SysFires(s, id, env);
    FireSilences(s.d, id, env);
    SilenceCases(s.d, env);
    StopStatus(s.d, uid, env);
    FinalizeStatus(d1, uid, env) by { StopSession(s.d, uid, env); }
    StatusState(s.d, uid);
    StatusState(d1, uid);
    StatusState(d2, uid);
    StatusPid(s.d, uid);
    StatusPid(d1, uid);
    assert s.h[uid].pid >= 0;
    assert PidOf(s.d.clients, uid) == s.h[uid].pid;
  }

  /** A report of silence, or a chunk the engine does not take, while a client records, and the firing of the timer
      it queues: the client and the daemon's record of it are both in PROCESSING afterwards if and only if the
      engine then stops and the client takes its new state. */
  lemma SilenceEnds(s: Sys, e: Event, env: Env, env': Env, uid: int)
    requires Coherent(s) && Issued(s.d.loop) && s.d.agent.conf.engineId.Some? && uid in s.h
    requires SessionOf(s.d.clients) == Held(uid, Recording) && Silences(s.d, e, env)
    ensures var s1 := NextSys(s, OfDaemon(e, env));
      && s1.d.agent.conf.engineId.Some?
      && StopQueued(s.d, s1.d) && s1.h == s.h
      && var s2 := NextSys(s1, OfDaemon(Fire(s.d.loop.next), env'));
      BothProcess(s2, uid) <==> EngineStops(s.d, env') && env'.setState
  {
    hide Good, Sound, DoFire, StopQueued, SessionOf, IsDue, QueueSilence, DoSilenceDetected, DoAudioChunk;
    hide NextSys, BothProcess, EngineStops, Silences, Records, Coherent;
    var s1 := NextSys(s, OfDaemon(e, env));
    assert Records(s.d) by { HeldRecords(s.d, uid); }
    Reported(s, e, env);
    Queued(s, s1, uid);
    SilenceStops(s1, s.d.loop.next, env', uid);
    SameStops(s.d, s1.d, env');
  }

  lemma HeldRecords(d: State, uid: int)
    requires SessionOf(d.clients) == Held(uid, Recording)
    ensures Records(d)
  {
  }

  lemma Reported(s: Sys, e: Event, env: Env)
    requires Coherent(s) && Issued(s.d.loop) && s.d.agent.conf.engineId.Some?
    requires Silences(s.d, e, env) && Records(s.d)
    ensures var s1 := NextSys(s, OfDaemon(e, env)); StopQueued(s.d, s1.d) && s1.h == s.h
  {
    hide Good, Sound, StopQueued, SessionOf, QueueSilence, Records;
    SilenceQueues(s.d);
    AudioQueues(s.d, env);
  }

  lemma Queued(s: Sys, s1: Sys, uid: int)
    requires Coherent(s) && StopQueued(s.d, s1.d) && s1.h == s.h
    ensures Coherent(s1) && s1.d.clients == s.d.clients && s1.d.agent == s.d.agent
    ensures IsDue(s1.d.loop, s.d.loop.next) && s1.d.loop.timers[s.d.loop.next].kind.StopBySilence?
  {
    hide Good, AgentOk;
    QuietKeeps(s, s1);
  }

  lemma SameStops(d: State, d': State, env: Env)
    requires d'.agent == d.agent
    ensures EngineStops(d', env) == EngineStops(d, env)
  {
  }
}
