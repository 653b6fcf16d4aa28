/** The daemon together with the handles of its client processes and the results travelling between them. */
module Composition {
  import opened Types
  import opened ClientData
  import opened EngineAgent
  import opened Recorder
  import opened Daemon
  import opened Sessions
  import opened Devices
  import opened Effects
  import opened ClientLibrary

  /** The daemon with its outgoing results, and the live handles of all client processes by id. */
  datatype Sys = Sys(d: State, h: map<int, Handle>)

  datatype Action =
    | Create(handle: Handle)
    | Connect(uid: int, hello: bool, tries: seq<Env>)
    | Ask(uid: int, call: Call, lang: string, p: int, u: int, s: int, env: Env)
    | Destroy(uid: int, env: Env)
    | Crash(pid: int)
    | Deliver(i: nat)
    | OfDaemon(e: Event, env: Env)

  // ---- Steps ----

  lemma InitializeKeepsId(d: State, pid: int, uid: int, env: Env)
    requires d.agent.conf.engineId.Some?
    ensures DoInitialize(d, pid, uid, env).0.agent.conf.engineId.Some?
  {
    hide EnsureEngine, LoadCurrent, UnloadCurrent, SetFormat, Plus;
    assert EnsureEngine(d, env).0.agent.conf.engineId.Some? by { EnsureKeepsId(d, env); }
    LoadKeepsPlug(EnsureEngine(d, env).0.agent, env.load);
    UnloadKeepsConf(LoadCurrent(EnsureEngine(d, env).0.agent, env.load).0);
    UnloadKeepsConf(EnsureEngine(d, env).0.agent);
  }

  lemma EnsureKeepsId(d: State, env: Env)
    requires d.agent.conf.engineId.Some?
    ensures EnsureEngine(d, env).0.agent.conf.engineId.Some?
  {
  }

  lemma UnloadKeepsConf(a: Agent)
    ensures UnloadCurrent(a).0.conf == a.conf
  {
  }

  /** The initialize requests of one connection attempt, until one settles it. */
  function Tries(d: State, pid: int, uid: int, tries: seq<Env>, i: nat): (State, Connection)
    requires d.agent.conf.engineId.Some?
    requires CONNECTION_RETRY_COUNT <= |tries| && 1 <= i <= CONNECTION_RETRY_COUNT
    decreases CONNECTION_RETRY_COUNT - i
  {
    var (d1, ret) := DoInitialize(d, pid, uid, tries[i - 1]);
    if ret == ERROR_ENGINE_NOT_FOUND then (d1, NoEngine)
    else if ret == 0 then (d1, Connected)
    else if i == CONNECTION_RETRY_COUNT then (d1, TimedOut)
    else
      InitializeKeepsId(d, pid, uid, tries[i - 1]);
      Tries(d1, pid, uid, tries, i + 1)
  }

  /** The daemon's handling of a request. */
  function Served(d: State, a: Action): (State, int)
    requires a.Ask?
  {
    match a.call
    case CallStart => DoStart(d, a.uid, a.lang, a.p, a.u, a.s, a.env)
    case CallStop => DoStop(d, a.uid, a.env)
    case CallCancel => DoCancel(d, a.uid, a.env)
    case CallUnprepare => DoFinalize(d, a.uid, a.env)
  }

  function PushOf(d: State, e: Event, env: Env): Push {
    if e.Fire? then DoFire(d, e.id, env).1 else None
  }

  function Receive(h: map<int, Handle>, push: Push): map<int, Handle> {
    if push.Some? && push.value.0 in h then h[push.value.0 := Told(h[push.value.0], push.value.1)] else h
  }

  function NextSys(s: Sys, a: Action): Sys
    requires s.d.agent.conf.engineId.Some?
  {
    match a
    case Create(handle) => s.(h := s.h[handle.uid := handle])
    case Connect(uid, hello, tries) =>
      if uid !in s.h || !hello || |tries| < CONNECTION_RETRY_COUNT then s
      else
        var (d, c) := Tries(s.d, s.h[uid].pid, uid, tries, 1);
        s.(d := d, h := if c.Connected? then s.h[uid := Move(s.h[uid], Ready)] else s.h)
    case Ask(uid, call, _, _, _, _, _) =>
      if uid !in s.h || !Allowed(s.h[uid].state, call) then s
      else
        var (d, ret) := Served(s.d, a);
        s.(d := d, h := s.h[uid := Answered(s.h[uid], call, ret).0])
    case Destroy(uid, env) =>
      if uid !in s.h then s
      else s.(d := if s.h[uid].state != Created then DoFinalize(s.d, uid, env).0 else s.d, h := s.h - {uid})
    case Crash(pid) => s.(h := map uid | uid in s.h && s.h[uid].pid != pid :: s.h[uid])
    case Deliver(i) =>
      if i >= |s.d.bus| then s
      else
        var uid := s.d.bus[i].uid;
        s.(d := s.d.(bus := s.d.bus[..i] + s.d.bus[i + 1..]),
           h := if uid in s.h then s.h[uid := Move(s.h[uid], Ready)] else s.h)
    case OfDaemon(e, env) =>
      if IsRequest(e) then s else s.(d := Step(s.d, e, env), h := Receive(s.h, PushOf(s.d, e, env)))
  }

  // ---- Agreement ----

  /** The two copies of a session's state: alike with nothing on the way, or the client still processing
      with its one result on the way. A handle that is not registered is in CREATED. */
  predicate Agree(client: AppState, t: Status) {
    || (client == Created && t.st.None? && t.flying == 0)
    || (client != Created && t.st == Some(client) && t.flying == 0)
    || (client == Processing && t.st == Some(Ready) && t.flying == 1)
  }

  ghost predicate Agreed(s: Sys) {
    forall uid :: uid in s.h ==> Agree(s.h[uid].state, StatusOf(s.d, uid))
  }

  ghost predicate Recorded(s: Sys) {
    && (forall uid :: uid in s.h ==> uid > 0 && s.h[uid].uid == uid && s.h[uid].pid >= 0)
    && (forall uid :: uid in s.h && Has(s.d.clients, uid) ==> PidOf(s.d.clients, uid) == s.h[uid].pid)
  }

  ghost predicate Coherent(s: Sys) {
    Good(s.d.clients) && Sound(s.d) && Recorded(s) && Agreed(s)
  }

  // ---- What is relied on ----

  /** The daemon's questions about its recording client are answered in time, and truly. */
  predicate AnsweredTruly(s: Sys, env: Env) {
    var uid := FirstIn(s.d.clients, Recording);
    && (uid in s.h ==> env.setState && env.getState == Some(StateCode(s.h[uid].state)))
    && (uid !in s.h ==> !env.setState && (env.getState.None? || env.getState == Some(-1)))
  }

  /** A client that is waited for can be sent to, one that is asked answers, one that falls silent finds an
      engine that stops. */
  predicate FireRely(s: Sys, e: Event, env: Env) {
    e.Fire? && IsDue(s.d.loop, e.id) ==>
      match s.d.loop.timers[e.id].kind
      case CheckRecording => AnsweredTruly(s, env)
      case ProcessingTimeout => FirstIn(s.d.clients, Processing) in s.h ==> env.send
      case StopBySilence => AnsweredTruly(s, env) && (FirstIn(s.d.clients, Recording) > 0 ==> EngineStops(s.d, env))
  }

  predicate CleanupRely(s: Sys, e: Event) {
    e.Cleanup? ==>
      forall i :: 0 <= i < |e.visits| && i < |s.d.clients| && s.d.clients[i].uid in s.h ==> e.visits[i].hello != 0
  }

  /** The engine reports nothing while its client still records, and for a processing client a result that
      can be sent. */
  predicate ResultRely(s: Sys, e: Event, env: Env) {
    e.Result? && e.uid in s.h && s.d.agent.isLoaded ==>
      && StateOf(s.d.clients, e.uid) != Some(Recording)
      && (StateOf(s.d.clients, e.uid) == Some(Processing) ==> Deliverable(e.outcome, e.data, env))
  }

  predicate Rely(s: Sys, a: Action) {
    match a
    case Create(handle) =>
      && handle.uid > 0 && handle.pid >= 0 && handle.state == Created
      && handle.uid !in s.h && !Has(s.d.clients, handle.uid) && InFlight(s.d.bus, handle.uid) == 0
    case Ask(uid, call, _, _, _, _, env) =>
      call.CallStop? && uid in s.h && s.h[uid].state == Recording ==> EngineStops(s.d, env)
    case OfDaemon(e, env) => FireRely(s, e, env) && CleanupRely(s, e) && ResultRely(s, e, env)
    case _ => true
  }

  // ---- One client at a time ----

  /** A daemon step that touches one client, together with what becomes of that client's handle. */
  lemma TouchKeeps(s: Sys, s': Sys, uid: int)
    requires Coherent(s) && OnlyTouches(s.d, s'.d, uid)
    requires Good(s'.d.clients) && Sound(s'.d)
    requires forall v :: v != uid ==> (v in s'.h ==> v in s.h && s'.h[v] == s.h[v])
    requires uid in s'.h ==> uid in s.h && s'.h[uid].uid == uid && s'.h[uid].pid == s.h[uid].pid
    requires uid in s'.h ==> Agree(s'.h[uid].state, StatusOf(s'.d, uid))
    requires uid in s'.h && Has(s'.d.clients, uid) ==> PidOf(s'.d.clients, uid) == s'.h[uid].pid
    ensures Coherent(s')
  {
    hide Good, Sound, Agreed, Recorded, Agree, StatusOf, OnlyTouches;
    TouchAgreed(s, s', uid);
    TouchRecorded(s, s', uid);
  }

  lemma TouchAgreed(s: Sys, s': Sys, uid: int)
    requires Agreed(s) && OnlyTouches(s.d, s'.d, uid)
    requires forall v :: v != uid ==> (v in s'.h ==> v in s.h && s'.h[v] == s.h[v])
    requires uid in s'.h ==> Agree(s'.h[uid].state, StatusOf(s'.d, uid))
    ensures Agreed(s')
  {
    hide Agree, StatusOf, OnlyTouches;
    forall v | v in s'.h ensures Agree(s'.h[v].state, StatusOf(s'.d, v)) {
      TouchedOnly(s.d, s'.d, uid, v);
    }
  }

  lemma TouchRecorded(s: Sys, s': Sys, uid: int)
    requires Recorded(s) && OnlyTouches(s.d, s'.d, uid)
    requires forall v :: v != uid ==> (v in s'.h ==> v in s.h && s'.h[v] == s.h[v])
    requires uid in s'.h ==> uid in s.h && s'.h[uid].uid == uid && s'.h[uid].pid == s.h[uid].pid
    requires uid in s'.h && Has(s'.d.clients, uid) ==> PidOf(s'.d.clients, uid) == s'.h[uid].pid
    ensures Recorded(s')
  {
    hide OnlyTouches, InFlight, Has, PidOf, StateOf;
    forall v | v != uid
      ensures Has(s'.d.clients, v) == Has(s.d.clients, v) && PidOf(s'.d.clients, v) == PidOf(s.d.clients, v)
        && InFlight(s'.d.bus, v) == InFlight(s.d.bus, v)
    {
      TouchedOnly(s.d, s'.d, uid, v);
      StatusHas(s.d, v);
      StatusHas(s'.d, v);
    }
  }

  lemma TouchedOnly(d: State, d': State, uid: int, v: int)
    requires OnlyTouches(d, d', uid)
    ensures v != uid ==> StatusOf(d', v) == StatusOf(d, v)
  {
  }

  /** A daemon step that leaves the list and the bus as they are. */
  lemma QuietKeeps(s: Sys, s': Sys)
    requires Coherent(s) && s'.h == s.h
    requires s'.d.clients == s.d.clients && s'.d.bus == s.d.bus && Sound(s'.d)
    ensures Coherent(s')
  {
    forall v ensures StatusOf(s'.d, v) == StatusOf(s.d, v) {}
  }

  // ---- Every action ----

  lemma CreateKeeps(s: Sys, handle: Handle)
    requires Coherent(s) && Rely(s, Create(handle))
    ensures Coherent(NextSys(s, Create(handle)))
  {
    assert StatusOf(s.d, handle.uid).st.None?;
  }

  lemma {:induction false} TriesEffect(d: State, pid: int, uid: int, tries: seq<Env>, i: nat)
    requires Good(d.clients) && Sound(d) && d.agent.conf.engineId.Some? && uid > 0
    requires CONNECTION_RETRY_COUNT <= |tries| && 1 <= i <= CONNECTION_RETRY_COUNT
    ensures var (d', c) := Tries(d, pid, uid, tries, i);
      && Good(d'.clients) && Sound(d') && OnlyTouches(d, d', uid)
      && (c.Connected? ==> StateOf(d.clients, uid).None?)
      && (c.Connected? ==> StatusOf(d', uid) == StatusOf(d, uid).(st := Some(Ready), pid := pid))
      && (!c.Connected? ==> StatusOf(d', uid) == StatusOf(d, uid))
    decreases CONNECTION_RETRY_COUNT - i
  {
    hide DoInitialize, Good, Sound, StatusOf, OnlyTouches;
    var (d1, ret) := DoInitialize(d, pid, uid, tries[i - 1]);
    InitializeStatus(d, pid, uid, tries[i - 1]);
    InitializeSound(d, pid, uid, tries[i - 1]);
    InitializeSession(d, pid, uid, tries[i - 1]);
    if ret != 0 && ret != ERROR_ENGINE_NOT_FOUND && i < CONNECTION_RETRY_COUNT {
      EngineIdStays(d1);
      TriesEffect(d1, pid, uid, tries, i + 1);
      TouchChain(d, d1, Tries(d1, pid, uid, tries, i + 1).0, uid);
      StatusState(d, uid);
      StatusState(d1, uid);
    }
  }

  /** The attempts go as the client's retry loop says, for the answers the daemon gives. */
  lemma TriesAreAttempts(d: State, pid: int, uid: int, tries: seq<Env>)
    requires d.agent.conf.engineId.Some? && CONNECTION_RETRY_COUNT == |tries|
    ensures var d1 := DoInitialize(d, pid, uid, tries[0]).0;
      && d1.agent.conf.engineId.Some?
      && var d2 := DoInitialize(d1, pid, uid, tries[1]).0;
      && d2.agent.conf.engineId.Some?
      && var r1, r2, r3 := DoInitialize(d, pid, uid, tries[0]).1, DoInitialize(d1, pid, uid, tries[1]).1,
                           DoInitialize(d2, pid, uid, tries[2]).1;
      Tries(d, pid, uid, tries, 1).1 == Attempts([r1, r2, r3], 1)
  {
    hide DoInitialize;
    InitializeKeepsId(d, pid, uid, tries[0]);
    var d1 := DoInitialize(d, pid, uid, tries[0]).0;
    InitializeKeepsId(d1, pid, uid, tries[1]);
    var d2 := DoInitialize(d1, pid, uid, tries[1]).0;
    assert Tries(d1, pid, uid, tries, 2) ==
      var (e, ret) := DoInitialize(d1, pid, uid, tries[1]);
      if ret == ERROR_ENGINE_NOT_FOUND then (e, NoEngine)
      else if ret == 0 then (e, Connected)
      else Tries(e, pid, uid, tries, 3);
    var r2, r3 := DoInitialize(d1, pid, uid, tries[1]).1, DoInitialize(d2, pid, uid, tries[2]).1;
    var rets := [DoInitialize(d, pid, uid, tries[0]).1, r2, r3];
    assert Attempts(rets, 2) ==
      if rets[1] == ERROR_ENGINE_NOT_FOUND then NoEngine else if rets[1] == 0 then Connected else Attempts(rets, 3);
  }

  lemma ConnectKeeps(s: Sys, uid: int, tries: seq<Env>)
    requires Coherent(s) && s.d.agent.conf.engineId.Some?
    ensures Coherent(NextSys(s, Connect(uid, true, tries)))
  {
    hide Good, Sound, OnlyTouches, Tries;
    if uid in s.h && |tries| >= CONNECTION_RETRY_COUNT {
      TriesEffect(s.d, s.h[uid].pid, uid, tries, 1);
      var s' := NextSys(s, Connect(uid, true, tries));
      StatusHas(s.d, uid);
      StatusHas(s'.d, uid);
      TouchKeeps(s, s', uid);
    }
  }

  lemma AskKeeps(s: Sys, a: Action)
    requires Coherent(s) && a.Ask? && Rely(s, a) && s.d.agent.conf.engineId.Some?
    requires a.uid in s.h && Allowed(s.h[a.uid].state, a.call)
    ensures Coherent(NextSys(s, a))
  {
    hide Good, Sound, OnlyTouches, DoStart, DoStop, DoCancel, DoFinalize, SessionOf, RecognizeStop;
    var s', uid := NextSys(s, a), a.uid;
    StatusHas(s.d, uid);
    StatusHas(s'.d, uid);
    match a.call {
      case CallStart =>
        StartStatus(s.d, uid, a.lang, a.p, a.u, a.s, a.env);
        StartSession(s.d, uid, a.lang, a.p, a.u, a.s, a.env);
        StartSound(s.d, uid, a.lang, a.p, a.u, a.s, a.env);
      case CallStop =>
        StopStatus(s.d, uid, a.env);
        StopSession(s.d, uid, a.env);
        StopSound(s.d, uid, a.env);
      case CallCancel =>
        CancelStatus(s.d, uid, a.env);
        CancelSession(s.d, uid, a.env);
        CancelSound(s.d, uid, a.env);
      case CallUnprepare =>
        FinalizeStatus(s.d, uid, a.env);
        FinalizeSession(s.d, uid, a.env);
        FinalizeSound(s.d, uid, a.env);
    }
    TouchKeeps(s, s', uid);
  }

  // ---- What the application is told ----

  function AnswerTo(s: Sys, a: Action): int
    requires a.Ask?
  {
    if a.uid !in s.h then ERROR_INVALID_PARAMETER else Answered(s.h[a.uid], a.call, Served(s.d, a).1).1
  }

  /** The daemon has the client in this state; CREATED is not to know it. */
  predicate DaemonHas(d: State, uid: int, st: AppState) {
    StateOf(d.clients, uid) == if st.Created? then None else Some(st)
  }

  lemma HandleMoves(s: Sys, a: Action)
    requires a.Ask? && s.d.agent.conf.engineId.Some?
    ensures var s' := NextSys(s, a);
      && (AnswerTo(s, a) == 0 <==>
            a.uid in s.h && s.h[a.uid].state != Target(a.call) && s'.h[a.uid].state == Target(a.call))
      && (AnswerTo(s, a) != 0 ==> s'.h == s.h)
      && (a.uid in s.h && Allowed(s.h[a.uid].state, a.call) && !a.call.CallUnprepare? ==>
            AnswerTo(s, a) == Served(s.d, a).1)
  {
    hide Served;
  }

  /** In any state in agreement: the application is told of success if and only if its handle moved to the state
      asked for, and if and only if the daemon's record of it did. */
  lemma SuccessMeansMoved(s: Sys, a: Action)
    requires Coherent(s) && a.Ask? && s.d.agent.conf.engineId.Some?
    ensures var s', uid, st := NextSys(s, a), a.uid, Target(a.call);
      && (AnswerTo(s, a) == 0 <==> uid in s.h && s.h[uid].state != st && s'.h[uid].state == st)
      && (AnswerTo(s, a) == 0 <==> uid in s.h && !DaemonHas(s.d, uid, st) && DaemonHas(s'.d, uid, st))
      && (AnswerTo(s, a) != 0 ==> s'.h == s.h)
  {
    hide Good, Sound, OnlyTouches, DoStart, DoStop, DoCancel, DoFinalize, EngineStops;
    var uid := a.uid;
    HandleMoves(s, a);
    if uid in s.h {
      assert Agree(s.h[uid].state, StatusOf(s.d, uid));
      StartStatus(s.d, uid, a.lang, a.p, a.u, a.s, a.env);
      StopStatus(s.d, uid, a.env);
      CancelStatus(s.d, uid, a.env);
      FinalizeStatus(s.d, uid, a.env);
    }
  }

  /** Whenever a live handle's state changes, the application is told of the state it was in; what it was told last
      stays while the state does. */
  lemma ChangesRemembered(s: Sys, a: Action, uid: int)
    requires Coherent(s) && s.d.agent.conf.engineId.Some? && !a.Create? && uid in s.h && uid in NextSys(s, a).h
    ensures var h, h' := s.h[uid], NextSys(s, a).h[uid];
      h' == if h'.state == h.state then h else h.(before := h.state, state := h'.state)
  {
    hide Served, Tries, Step, DoFinalize, PushOf, Coherent;
    match a
    case Connect(v, hello, tries) =>
      if v == uid && |tries| >= CONNECTION_RETRY_COUNT { ConnectsCreated(s, uid, tries); }
    case Deliver(i) => if i < |s.d.bus| { DeliverKeeps(s, i); }
    case _ =>
  }

  lemma ConnectsCreated(s: Sys, uid: int, tries: seq<Env>)
    requires Coherent(s) && s.d.agent.conf.engineId.Some? && uid in s.h && |tries| >= CONNECTION_RETRY_COUNT
    ensures Tries(s.d, s.h[uid].pid, uid, tries, 1).1.Connected? ==> s.h[uid].state == Created
  {
    hide Good, Sound, OnlyTouches, Tries;
    TriesEffect(s.d, s.h[uid].pid, uid, tries, 1);
    assert Agree(s.h[uid].state, StatusOf(s.d, uid));
    StatusState(s.d, uid);
  }

  lemma DestroyKeeps(s: Sys, uid: int, env: Env)
    requires Coherent(s) && s.d.agent.conf.engineId.Some? && uid in s.h
    ensures Coherent(NextSys(s, Destroy(uid, env)))
  {
    hide Good, Sound, OnlyTouches, DoFinalize, SessionOf;
    var s' := NextSys(s, Destroy(uid, env));
    FinalizeStatus(s.d, uid, env);
    FinalizeSession(s.d, uid, env);
    FinalizeSound(s.d, uid, env);
    NobodyTouched(s.d, s.d, uid);
    TouchKeeps(s, s', uid);
  }

  lemma CrashKeeps(s: Sys, pid: int)
    requires Coherent(s) && s.d.agent.conf.engineId.Some?
    ensures Coherent(NextSys(s, Crash(pid)))
  {
    hide Good, Sound;
  }

  lemma DeliverKeeps(s: Sys, i: nat)
    requires Coherent(s) && s.d.agent.conf.engineId.Some? && i < |s.d.bus|
    ensures Coherent(NextSys(s, Deliver(i)))
    ensures s.d.bus[i].uid in s.h ==> s.h[s.d.bus[i].uid].state == Processing
  {
    hide Good, Sound, OnlyTouches;
    var s', uid := NextSys(s, Deliver(i)), s.d.bus[i].uid;
    forall v ensures InFlight(s.d.bus, v) == InFlight(s'.d.bus, v) + if uid == v then 1 else 0 {
      InFlightLess(s.d.bus, i, v);
    }
    assert OnlyTouches(s.d, s'.d, uid) && Sound(s'.d) by { LessTouches(s.d, s'.d, uid); }
    StatusHas(s'.d, uid);
    hide InFlight;
    TouchKeeps(s, s', uid);
  }

  lemma LessTouches(d: State, d': State, uid: int)
    requires d'.clients == d.clients && d'.agent == d.agent && d'.hasEngine == d.hasEngine
    requires forall v :: v != uid ==> InFlight(d'.bus, v) == InFlight(d.bus, v)
    ensures OnlyTouches(d, d', uid) && (Sound(d) ==> Sound(d'))
  {
  }

  // ---- The daemon's own steps ----

  lemma ResultKeeps(s: Sys, e: Event, env: Env)
    requires Coherent(s) && s.d.agent.conf.engineId.Some? && e.Result? && ResultRely(s, e, env)
    ensures Coherent(NextSys(s, OfDaemon(e, env)))
  {
    hide Good, Sound, OnlyTouches, DoResult, SessionOf, Deliverable;
    var s', uid := NextSys(s, OfDaemon(e, env)), e.uid;
    ResultStatus(s.d, uid, e.outcome, e.kind, e.data, e.text, env);
    ResultSession(s.d, uid, e.outcome, e.kind, e.data, e.text, env);
    ResultSound(s.d, uid, e.outcome, e.kind, e.data, e.text, env);
    StatusHas(s.d, uid);
    StatusHas(s'.d, uid);
    TouchKeeps(s, s', uid);
  }

  lemma CleanupKeeps(s: Sys, e: Event, env: Env)
    requires Coherent(s) && s.d.agent.conf.engineId.Some?
    requires e.Cleanup? && CleanupRely(s, e) && |e.visits| == |s.d.clients|
    ensures Coherent(NextSys(s, OfDaemon(e, env)))
  {
    hide CleanupFrom, SessionOf, Good, Sound, Agree, InFlight;
    var uids, d' := Uids(s.d.clients), NextSys(s, OfDaemon(e, env)).d;
    CleanupSession(s.d, uids, e.visits);
    CleanupSound(s.d, uids, e.visits);
    forall v ensures v in s.h ==> StatusOf(d', v) == StatusOf(s.d, v)
      ensures Has(d'.clients, v) ==> Has(s.d.clients, v)
      ensures InFlight(d'.bus, v) == InFlight(s.d.bus, v)
    {
      CleanupStatus(s.d, uids, e.visits, v);
      StatusHas(s.d, v);
      StatusHas(d', v);
      assert v in s.h ==> Spared(uids, e.visits, v);
    }
  }

  lemma TimeoutKeeps(s: Sys, env: Env, l: Loop)
    requires Coherent(s) && (FirstIn(s.d.clients, Processing) in s.h ==> env.send)
    ensures Coherent(s.(d := DoTimeout(s.d, env).(loop := l)))
  {
    hide Good, Sound, OnlyTouches, DoTimeout, SessionOf;
    var s', uid := s.(d := DoTimeout(s.d, env).(loop := l)), FirstIn(s.d.clients, Processing);
    TimeoutStatus(s.d, env);
    TimeoutSession(s.d, env);
    TimeoutSound(s.d, env);
    StatusHas(s.d, uid);
    StatusHas(s'.d, uid);
    LoopTouches(s.d, DoTimeout(s.d, env), l, uid);
    TouchKeeps(s, s', uid);
  }

  lemma LoopTouches(d: State, d': State, l: Loop, uid: int)
    requires OnlyTouches(d, d', uid)
    ensures OnlyTouches(d, d'.(loop := l), uid) && StatusOf(d'.(loop := l), uid) == StatusOf(d', uid)
    ensures Sound(d') ==> Sound(d'.(loop := l))
  {
    forall v ensures StatusOf(d'.(loop := l), v) == StatusOf(d', v) {}
  }

  lemma AgreedAt(s: Sys, uid: int)
    requires Agreed(s) && Recorded(s) && uid in s.h && StateOf(s.d.clients, uid) == Some(Recording)
    ensures s.h[uid].state == Recording && PidOf(s.d.clients, uid) >= 0
  {
    StatusHas(s.d, uid);
    assert Agree(s.h[uid].state, StatusOf(s.d, uid));
  }

  /** The watchdog finds a client of an agreeing system in order, or finds nobody there. */
  lemma CheckKeeps(s: Sys, env: Env, l: Loop)
    requires Coherent(s) && AnsweredTruly(s, env)
    ensures Coherent(Sys(DoCheck(s.d, env).0.(loop := l), Receive(s.h, DoCheck(s.d, env).2)))
  {
    hide Good, Sound, OnlyTouches, DoFinalize, DoCheck, SessionOf, StatusOf, Agreed, Recorded;
    var uid := FirstIn(s.d.clients, Recording);
    var s' := Sys(DoCheck(s.d, env).0.(loop := l), Receive(s.h, DoCheck(s.d, env).2));
    CheckCases(s.d, env);
    NobodyTouched(s.d, s.d, uid);
    LoopTouches(s.d, s.d, l, uid);
    if uid != -1 {
      CurrentIs(s.d.clients, Recording);
      if uid in s.h { AgreedAt(s, uid); }
    }
    if s'.d == s.d.(loop := l) {
      QuietKeeps(s, s');
    } else {
      RemovalKeeps(s, s', uid, env);
    }
  }

  /** A client whose process is gone is forgotten. */
  lemma RemovalKeeps(s: Sys, s': Sys, uid: int, env: Env)
    requires Coherent(s) && uid !in s.h && Has(s.d.clients, uid)
    requires s' == s.(d := DoFinalize(s.d, uid, env).0.(loop := s'.d.loop))
    ensures Coherent(s')
  {
    hide Good, Sound, OnlyTouches, DoFinalize, SessionOf, StatusOf, Agreed;
    var d' := DoFinalize(s.d, uid, env).0;
    FinalizeStatus(s.d, uid, env);
    FinalizeSession(s.d, uid, env);
    FinalizeSound(s.d, uid, env);
    LoopTouches(s.d, d', s'.d.loop, uid);
    TouchKeeps(s, s', uid);
  }

  lemma SilenceKeeps(s: Sys, env: Env, l: Loop)
    requires Coherent(s) && AnsweredTruly(s, env) && (FirstIn(s.d.clients, Recording) > 0 ==> EngineStops(s.d, env))
    ensures Coherent(Sys(DoSilence(s.d, env).0.(loop := l), Receive(s.h, DoSilence(s.d, env).1)))
  {
    hide Good, Sound, OnlyTouches, DoFinalize, DoStop, SessionOf, RecognizeStop;
    var uid := FirstIn(s.d.clients, Recording);
    var d', push := DoSilence(s.d, env).0, DoSilence(s.d, env).1;
    NobodyTouched(s.d, s.d, uid);
    if uid > 0 {
      CurrentIs(s.d.clients, Recording);
      var d1 := DoStop(s.d, uid, env).0;
      StopStatus(s.d, uid, env);
      StopSession(s.d, uid, env);
      StopSound(s.d, uid, env);
      FinalizeStatus(d1, uid, env);
      FinalizeSession(d1, uid, env);
      FinalizeSound(d1, uid, env);
      TouchChain(s.d, d1, DoFinalize(d1, uid, env).0, uid);
      StatusHas(s.d, uid);
      StatusHas(d1, uid);
      StatusState(s.d, uid);
    }
    SilenceSession(s.d, env);
    SilenceSound(s.d, env);
    LoopTouches(s.d, d', l, uid);
    StatusHas(d', uid);
    StatusHas(d'.(loop := l), uid);
    TouchKeeps(s, Sys(d'.(loop := l), Receive(s.h, push)), uid);
  }

  lemma FireKeeps(s: Sys, id: nat, env: Env)
    requires Coherent(s) && s.d.agent.conf.engineId.Some? && FireRely(s, Fire(id), env)
    ensures Coherent(NextSys(s, OfDaemon(Fire(id), env)))
  {
    hide Coherent, DoCheck, DoTimeout, DoSilence, AnsweredTruly, EngineStops;
    var s' := NextSys(s, OfDaemon(Fire(id), env));
    if IsDue(s.d.loop, id) {
      match s.d.loop.timers[id].kind
      case CheckRecording => CheckKeeps(s, env, s'.d.loop);
      case ProcessingTimeout => TimeoutKeeps(s, env, s'.d.loop);
      case StopBySilence => SilenceKeeps(s, env, s'.d.loop);
    } else {
      assert s' == s;
    }
  }

  lemma QuietSteps(d: State, e: Event, env: Env)
    requires d.agent.conf.engineId.Some?
    requires !IsRequest(e) && !e.Result? && !e.Fire? && !e.Cleanup?
    ensures Step(d, e, env).clients == d.clients && Step(d, e, env).bus == d.bus
  {
    hide SetEngine, SetDefault, SetDefaultLang, RefreshList, LoadCurrent, UnloadCurrent, InitializeCurrent;
    hide StopRecorder;
    if e.CamcorderStops? { StopRecorderKeepsClients(d, env); }
  }

  /** Whatever happens, in any order, the two copies of every session's state keep agreeing. */
  lemma StepAgrees(s: Sys, a: Action)
    requires Coherent(s) && s.d.agent.conf.engineId.Some? && Rely(s, a)
    ensures Coherent(NextSys(s, a))
  {
    hide Coherent, DoFinalize, Step, EngineStops, FireRely, CleanupRely, ResultRely, Tries, Served, Allowed;
    match a
    case Create(handle) => CreateKeeps(s, handle);
    case Connect(uid, hello, tries) => if hello { ConnectKeeps(s, uid, tries); }
    case Ask(uid, call, _, _, _, _, _) => if uid in s.h && Allowed(s.h[uid].state, call) { AskKeeps(s, a); }
    case Destroy(uid, env) => if uid in s.h { DestroyKeeps(s, uid, env); }
    case Crash(pid) => CrashKeeps(s, pid);
    case Deliver(i) => if i < |s.d.bus| { DeliverKeeps(s, i); }
    case OfDaemon(e, env) => DaemonKeeps(s, e, env);
  }

  lemma DaemonKeeps(s: Sys, e: Event, env: Env)
    requires Coherent(s) && s.d.agent.conf.engineId.Some? && Rely(s, OfDaemon(e, env))
    ensures Coherent(NextSys(s, OfDaemon(e, env)))
  {
    hide Coherent, Step, FireRely, CleanupRely, ResultRely;
    if IsRequest(e) {
    } else if e.Result? {
      ResultKeeps(s, e, env);
    } else if e.Fire? {
      FireKeeps(s, e.id, env);
    } else if e.Cleanup? && |e.visits| == |s.d.clients| {
      CleanupKeeps(s, e, env);
    } else if e.Cleanup? {
      SkippedCleanup(s.d, e, env);
    } else {
      QuietSteps(s.d, e, env);
      CoherentSound(s);
      StepSound(s.d, e, env);
      QuietKeeps(s, NextSys(s, OfDaemon(e, env)));
    }
  }

  lemma CoherentSound(s: Sys)
    requires Coherent(s)
    ensures Sound(s.d) && s.d.agent.conf.engineId.Some?
  {
  }

  lemma SkippedCleanup(d: State, e: Event, env: Env)
    requires d.agent.conf.engineId.Some? && e.Cleanup? && |e.visits| != |d.clients|
    ensures Step(d, e, env) == d
  {
  }
}
