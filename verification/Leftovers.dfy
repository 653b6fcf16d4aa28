/** Which timers outlive the session they were set for, and when a time-out therefore is always one's own. */
module Leftovers {
  import opened Types
  import opened ClientData
  import Config
  import opened EngineAgent
  import opened Recorder
  import opened Daemon
  import opened Sessions
  import opened Effects
  import opened Cleanup
  import opened Devices
  import opened Timing
  import opened Runs

  /** The timer a session in this state runs under. */
  function KindFor(st: AppState): TimerKind {
    if st == Recording then CheckRecording else ProcessingTimeout
  }

  predicate Live(l: Loop, id: nat, kind: TimerKind) {
    id in l.timers && l.timers[id].kind == kind
  }

  /** Every live timer of that kind is the one of the client now in that state. */
  ghost predicate AllOwned(d: State, st: AppState) {
    forall id: nat :: Live(d.loop, id, KindFor(st)) ==>
      FirstIn(d.clients, st) != -1 && TimerOf(d.clients, FirstIn(d.clients, st)) == Some(id)
  }

  predicate HasLive(l: Loop, t: Option<nat>, kind: TimerKind) {
    t.Some? && Live(l, t.value, kind)
  }

  /** Whoever is in that state has such a timer. */
  predicate OwnsOne(d: State, st: AppState) {
    var uid := FirstIn(d.clients, st);
    uid != -1 ==> HasLive(d.loop, TimerOf(d.clients, uid), KindFor(st))
  }

  /** A stop by silence that drops its client, or that the engine fails. */
  predicate SilenceLeaves(d: State, env: Env, st: AppState) {
    && FirstIn(d.clients, Recording) > 0
    && (if EngineStops(d, env) then st.Processing? && !Acknowledged(d, FirstIn(d.clients, Recording), env)
        else st.Recording?)
  }

  /** The steps that leave a live timer of the state behind: removing its client, by finalizing it, by a
      cleanup or because it does not take PROCESSING at a stop by silence; and for the watchdog a stop that the
      engine fails. */
  predicate LeavesBehind(d: State, e: Event, env: Env, st: AppState) {
    match e
    case Finalize(uid) => StateOf(d.clients, uid) == Some(st)
    case Stop(uid) => st.Recording? && StateOf(d.clients, uid) == Some(Recording) && !EngineStops(d, env)
    case Cleanup(visits) =>
      && |visits| == |d.clients|
      && exists i :: 0 <= i < |visits| && d.clients[i].state == st && d.clients[i].pid >= 0 && visits[i].hello == 0
    case Fire(id) => IsDue(d.loop, id) && d.loop.timers[id].kind.StopBySilence? && SilenceLeaves(d, env, st)
    case _ => false
  }

  // ---- What every handler does to the live timers ----

  /** A report of a loaded engine for a registered client deletes that client's timer; otherwise, and of all
      other timers, it leaves everything as it is. */
  lemma ResultTimers(d: State, uid: int, outcome: Outcome, kind: Option<string>, data: seq<Option<string>>,
                     text: Option<string>, env: Env)
    ensures var l, t := DoResult(d, uid, outcome, kind, data, text, env).loop, TimerOf(d.clients, uid);
      && l.now == d.loop.now && l.next == d.loop.next
      && (forall id :: id in l.timers <==> id in d.loop.timers && !(d.agent.isLoaded && t == Some(id)))
      && (forall id :: id in l.timers ==> l.timers[id] == d.loop.timers[id])
  {
    hide SendResult, WithState;
    var d1 := d.(agent := ResultReported(d.agent, env.resultEnds), loop := DelTimer(d.loop, TimerOf(d.clients, uid)));
    SendResultKeeps(d1, uid, kind, if outcome.Success? then data else [], text, env);
  }

  /** And so with a cancel that succeeds. */
  lemma CancelTimers(d: State, uid: int, env: Env)
    ensures var (d', ret) := DoCancel(d, uid, env); var l, t := d'.loop, TimerOf(d.clients, uid);
      && l.now == d.loop.now && l.next == d.loop.next
      && (forall id :: id in l.timers <==> id in d.loop.timers && !(ret == 0 && t == Some(id)))
      && (forall id :: id in l.timers ==> l.timers[id] == d.loop.timers[id])
  {
    hide RecognizeCancel, CancelRec, WithState;
  }

  /** No timer of that kind is live that was not before. */
  ghost predicate NoneNew(l: Loop, l': Loop, kind: TimerKind) {
    forall id: nat :: Live(l', id, kind) ==> Live(l, id, kind)
  }

  ghost predicate NoneLost(l: Loop, l': Loop, kind: TimerKind) {
    forall id: nat :: Live(l, id, kind) ==> Live(l', id, kind)
  }

  lemma StopRecorderLive(d: State, env: Env, kind: TimerKind)
    requires !kind.StopBySilence?
    ensures NoneNew(d.loop, StopRecorder(d, env).loop, kind)
    ensures Issued(d.loop) ==> NoneLost(d.loop, StopRecorder(d, env).loop, kind)
  {
    hide ReplayRefused, StopRec, SomebodyRecords;
  }

  /** A stop deletes the watchdog of its client and sets the time-out; one that the engine fails does neither. */
  lemma StopTimers(d: State, uid: int, env: Env)
    requires Good(d.clients)
    ensures var (d', ret) := DoStop(d, uid, env); var t, t' := TimerOf(d.clients, uid), TimerOf(d'.clients, uid);
      && (ret == 0 ==>
            && HasLive(d'.loop, t', ProcessingTimeout)
            && (forall id: nat :: Live(d'.loop, id, CheckRecording) ==>
                  Live(d.loop, id, CheckRecording) && t != Some(id))
            && (forall id: nat :: Live(d'.loop, id, ProcessingTimeout) ==>
                  Live(d.loop, id, ProcessingTimeout) || t' == Some(id)))
      && (ret != 0 ==>
            && TimerOf(d'.clients, uid) == TimerOf(d.clients, uid)
            && NoneNew(d.loop, d'.loop, CheckRecording) && NoneNew(d.loop, d'.loop, ProcessingTimeout)
            && (Issued(d.loop) ==> NoneLost(d.loop, d'.loop, CheckRecording)))
  {
    hide StopRecorder, RecognizeStop, WithState, WithTimer, Good, StateOf, TimerOf, Has;
    var d1 := StopRecorder(d, env);
    StopRecorderKeepsClients(d, env);
    StopRecorderLive(d, env, CheckRecording);
    StopRecorderLive(d, env, ProcessingTimeout);
    GoodUnique(d.clients);
    AfterWithState(d.clients, uid, Ready, uid);
    if StateOf(d.clients, uid) == Some(Recording) {
      Advanced(d.clients, uid);
      var l := DelTimer(d1.loop, TimerOf(d.clients, uid));
      GoodUnique(WithState(d.clients, uid, Processing));
      AfterWithTimer(WithState(d.clients, uid, Processing), uid, Some(l.next), uid);
      AfterWithState(d.clients, uid, Processing, uid);
      StateMeansHas(WithState(d.clients, uid, Processing), uid);
    }
  }

  lemma StartTimers(d: State, uid: int, lang: string, p: int, u: int, s: int, env: Env)
    requires Good(d.clients)
    ensures var (d', ret) := DoStart(d, uid, lang, p, u, s, env); var t' := TimerOf(d'.clients, uid);
      && (ret == 0 ==>
            && HasLive(d'.loop, t', CheckRecording) && NoneNew(d.loop, d'.loop, ProcessingTimeout)
            && (forall id: nat :: Live(d'.loop, id, CheckRecording) ==>
                  Live(d.loop, id, CheckRecording) || t' == Some(id)))
      && (ret != 0 ==> d'.loop == d.loop)
  {
    hide RecognizeStart, RecognizeCancel, WithState, WithTimer, Good, StateOf, TimerOf, Has, StartRec, NeedNetwork;
    StartSession(d, uid, lang, p, u, s, env);
    StartRegistered(d, uid, lang, p, u, s, env);
    if DoStart(d, uid, lang, p, u, s, env).1 == 0 {
      Taken(d.clients, uid);
      GoodUnique(WithState(d.clients, uid, Recording));
      AfterWithTimer(WithState(d.clients, uid, Recording), uid, Some(d.loop.next), uid);
      GoodUnique(d.clients);
      AfterWithState(d.clients, uid, Recording, uid);
      StateMeansHas(WithState(d.clients, uid, Recording), uid);
    }
  }

  /** The recording client answers, and with neither READY nor PROCESSING. */
  predicate FoundInOrder(d: State, env: Env) {
    var uid := FirstIn(d.clients, Recording);
    && uid != -1 && PidOf(d.clients, uid) >= 0
    && env.getState.Some? && env.getState.value != StateCode(Ready) && env.getState.value != StateCode(Processing)
  }

  /** A timer that fires is gone, but for the watchdog of a client found in order: that one comes due again one
      state-check time after it was due. */
  lemma FiresOnce(d: State, id: nat, env: Env)
    requires IsDue(d.loop, id)
    ensures var timers, timer := DoFire(d, id, env).0.loop.timers, d.loop.timers[id];
      && (id in timers <==> timer.kind.CheckRecording? && FoundInOrder(d, env))
      && (id in timers ==> timers[id] == Timer(CheckRecording, timer.due + STATE_CHECK_TIME))
  {
    hide DoCheck, DoTimeout, DoSilence, DoFinalize, DoCancel, FirstIn, PidOf, Acknowledged;
    CheckCases(d, env);
  }

  // ---- From live timers to their owners ----

  lemma HolderIs(cs: seq<Client>, st: AppState)
    requires Good(cs) && (st.Recording? || st.Processing?)
    ensures FirstIn(cs, st) != -1 <==> SessionOf(cs).Held? && SessionOf(cs).st == st
    ensures FirstIn(cs, st) != -1 ==> SessionOf(cs) == Held(FirstIn(cs, st), st) && FirstIn(cs, st) > 0
    ensures forall uid :: StateOf(cs, uid) == Some(st) <==> uid == FirstIn(cs, st) != -1
  {
    hide Good, StateOf, SessionOf;
    if FirstIn(cs, st) != -1 { CurrentIs(cs, st); }
    forall uid ensures StateOf(cs, uid) == Some(st) <==> uid == FirstIn(cs, st) != -1 {
      SessionIs(cs, uid);
      StateMeansHas(cs, uid);
      if StateOf(cs, uid) == Some(st) { ActiveIsCurrent(cs, uid); }
    }
    HeldMeans(cs, st);
    SessionIs(cs, FirstIn(cs, st));
    StateMeansHas(cs, FirstIn(cs, st));
  }

  lemma HeldMeans(cs: seq<Client>, st: AppState)
    ensures SessionOf(cs).Held? && SessionOf(cs).st == st ==> FirstIn(cs, st) == SessionOf(cs).uid > 0
  {
  }

  /** `d'` follows `d` leaving no timer of the state behind if `leaves` is false, and leaving one if it is true
      and there was one to leave. */
  ghost predicate Accounted(d: State, d': State, st: AppState, leaves: bool) {
    && (!leaves ==> AllOwned(d', st))
    && (leaves && OwnsOne(d, st) && Issued(d.loop) ==> !AllOwned(d', st))
  }

  lemma OwnerStays(d: State, d': State, st: AppState)
    requires AllOwned(d, st) && NoneNew(d.loop, d'.loop, KindFor(st))
    requires var uid := FirstIn(d.clients, st);
      uid != -1 ==> FirstIn(d'.clients, st) == uid && TimerOf(d'.clients, uid) == TimerOf(d.clients, uid)
    ensures Accounted(d, d', st, false)
  {
    hide TimerOf, FirstIn;
  }

  lemma OwnerEnds(d: State, d': State, st: AppState)
    requires AllOwned(d, st) && NoneNew(d.loop, d'.loop, KindFor(st))
    requires var uid := FirstIn(d.clients, st); uid != -1 ==> !HasLive(d'.loop, TimerOf(d.clients, uid), KindFor(st))
    ensures Accounted(d, d', st, false)
  {
    hide TimerOf, FirstIn;
  }

  lemma OwnerEnters(d: State, d': State, st: AppState, uid: int)
    requires AllOwned(d, st) && FirstIn(d.clients, st) == -1 && FirstIn(d'.clients, st) == uid != -1
    requires forall id: nat :: Live(d'.loop, id, KindFor(st)) ==>
      Live(d.loop, id, KindFor(st)) || TimerOf(d'.clients, uid) == Some(id)
    ensures Accounted(d, d', st, false)
  {
    hide TimerOf, FirstIn;
  }

  lemma OwnerLeaves(d: State, d': State, st: AppState)
    requires FirstIn(d.clients, st) != -1 && FirstIn(d'.clients, st) == -1
    requires Issued(d.loop) ==> NoneLost(d.loop, d'.loop, KindFor(st))
    ensures Accounted(d, d', st, true)
  {
    hide TimerOf, FirstIn;
  }

  /** Nothing a holder's timer depends on changes. */
  lemma Untouched(d: State, d': State, st: AppState)
    requires AllOwned(d, st) && d'.clients == d.clients && NoneNew(d.loop, d'.loop, KindFor(st))
    ensures Accounted(d, d', st, false)
  {
    OwnerStays(d, d', st);
  }

  /** Another client's record changes. */
  lemma OtherChanges(d: State, d': State, st: AppState, other: int)
    requires Good(d.clients) && Good(d'.clients) && (st.Recording? || st.Processing?)
    requires AllOwned(d, st) && NoneNew(d.loop, d'.loop, KindFor(st)) && StateOf(d.clients, other) != Some(st)
    requires forall v :: v != other ==>
      StateOf(d'.clients, v) == StateOf(d.clients, v) && TimerOf(d'.clients, v) == TimerOf(d.clients, v)
    ensures Accounted(d, d', st, false)
  {
    hide Good, StateOf, TimerOf, SessionOf, FirstIn, AllOwned, Accounted, NoneNew;
    HolderIs(d.clients, st);
    HolderIs(d'.clients, st);
    var uid := FirstIn(d.clients, st);
    if uid != -1 { assert StateOf(d.clients, uid) == Some(st) && StateOf(d'.clients, uid) == Some(st); }
    OwnerStays(d, d', st);
  }

  // ---- Handler by handler ----

  lemma InitializeOwned(d: State, pid: int, uid: int, env: Env, st: AppState)
    requires Good(d.clients) && AllOwned(d, st) && (st.Recording? || st.Processing?)
    requires d.agent.conf.engineId.Some? && uid > 0
    ensures Accounted(d, DoInitialize(d, pid, uid, env).0, st, false)
  {
    hide DoInitialize, Plus, SessionOf, AllOwned, Accounted, StateOf, TimerOf, FirstIn, Good;
    var (d', ret) := DoInitialize(d, pid, uid, env);
    InitializeClients(d, pid, uid, env);
    InitializeSession(d, pid, uid, env);
    if ret != 0 {
      Untouched(d, d', st);
    } else {
      GoodUnique(d.clients);
      StateMeansHas(d.clients, uid);
      forall v | v != uid
        ensures StateOf(d'.clients, v) == StateOf(d.clients, v) && TimerOf(d'.clients, v) == TimerOf(d.clients, v)
      {
        AfterPlus(d.clients, pid, uid, v);
      }
      OtherChanges(d, d', st, uid);
    }
  }

  lemma FinalizeOwned(d: State, uid: int, env: Env, st: AppState)
    requires Good(d.clients) && AllOwned(d, st) && (st.Recording? || st.Processing?)
    ensures Accounted(d, DoFinalize(d, uid, env).0, st, StateOf(d.clients, uid) == Some(st))
  {
    hide DoFinalize, Without, SessionOf, AllOwned, Accounted, StateOf, TimerOf, FirstIn, Good;
    var d' := DoFinalize(d, uid, env).0;
    FinalizedClients(d, uid, env);
    FinalizeSession(d, uid, env);
    FinalizeLoop(d, uid, env);
    HolderIs(d.clients, st);
    HolderIs(d'.clients, st);
    if StateOf(d.clients, uid) == Some(st) {
      OwnerLeaves(d, d', st);
    } else {
      GoodUnique(d.clients);
      forall v | v != uid
        ensures StateOf(d'.clients, v) == StateOf(d.clients, v) && TimerOf(d'.clients, v) == TimerOf(d.clients, v)
      {
        AfterWithout(d.clients, uid, v);
      }
      OtherChanges(d, d', st, uid);
    }
  }

  lemma StartOwned(d: State, uid: int, lang: string, p: int, u: int, s: int, env: Env, st: AppState)
    requires Good(d.clients) && AllOwned(d, st) && (st.Recording? || st.Processing?)
    ensures Accounted(d, DoStart(d, uid, lang, p, u, s, env).0, st, false)
  {
    hide DoStart, SessionOf, AllOwned, Accounted, StateOf, TimerOf, FirstIn, Good;
    var (d', ret) := DoStart(d, uid, lang, p, u, s, env);
    StartSession(d, uid, lang, p, u, s, env);
    StartTimers(d, uid, lang, p, u, s, env);
    HolderIs(d.clients, st);
    HolderIs(d'.clients, st);
    if ret != 0 {
      Untouched(d, d', st);
    } else if st.Recording? {
      OwnerEnters(d, d', st, uid);
    } else {
      OwnerEnds(d, d', st);
    }
  }

  lemma StopOwned(d: State, uid: int, env: Env, st: AppState)
    requires Good(d.clients) && AllOwned(d, st) && (st.Recording? || st.Processing?)
    ensures Accounted(d, DoStop(d, uid, env).0, st,
                      st.Recording? && StateOf(d.clients, uid) == Some(Recording) && !EngineStops(d, env))
  {
    hide DoStop, SessionOf, AllOwned, Accounted, StateOf, TimerOf, FirstIn, Good, EngineStops, StatusOf, OnlyTouches;
    var (d', ret) := DoStop(d, uid, env);
    StopSession(d, uid, env);
    StopStatus(d, uid, env);
    StopTimers(d, uid, env);
    StatusState(d', uid);
    HolderIs(d.clients, Recording);
    HolderIs(d.clients, st);
    HolderIs(d'.clients, st);
    if StateOf(d.clients, uid) != Some(Recording) {
      StopRefused(d, uid, env);
      Untouched(d, d', st);
    } else if ret != 0 {
      if st.Recording? { OwnerLeaves(d, d', st); } else { OwnerEnds(d, d', st); }
    } else if st.Processing? {
      OwnerEnters(d, d', st, uid);
    } else {
      OwnerEnds(d, d', st);
    }
  }

  lemma StopRefused(d: State, uid: int, env: Env)
    ensures StateOf(d.clients, uid) != Some(Recording) ==> DoStop(d, uid, env).0 == d
  {
    hide StopRecorder, RecognizeStop;
  }

  lemma CancelOwned(d: State, uid: int, env: Env, st: AppState)
    requires Good(d.clients) && AllOwned(d, st) && (st.Recording? || st.Processing?)
    ensures Accounted(d, DoCancel(d, uid, env).0, st, false)
  {
    hide DoCancel, SessionOf, AllOwned, Accounted, StateOf, TimerOf, FirstIn, Good;
    var (d', ret) := DoCancel(d, uid, env);
    CancelSession(d, uid, env);
    CancelTimers(d, uid, env);
    HolderIs(d.clients, st);
    if ret != 0 {
      Untouched(d, d', st);
    } else {
      OwnerEnds(d, d', st);
    }
  }

  lemma ResultOwned(d: State, uid: int, outcome: Outcome, kind: Option<string>, data: seq<Option<string>>,
                    text: Option<string>, env: Env, st: AppState)
    requires Good(d.clients) && AllOwned(d, st) && (st.Recording? || st.Processing?)
    ensures Accounted(d, DoResult(d, uid, outcome, kind, data, text, env), st, false)
  {
    hide DoResult, SessionOf, AllOwned, Accounted, StateOf, TimerOf, FirstIn, Good;
    var d' := DoResult(d, uid, outcome, kind, data, text, env);
    ResultSession(d, uid, outcome, kind, data, text, env);
    ResultTimers(d, uid, outcome, kind, data, text, env);
    HolderIs(d.clients, st);
    if !d.agent.isLoaded || !Has(d.clients, uid) {
      ResultIgnored(d, uid, outcome, kind, data, text, env);
      Untouched(d, d', st);
    } else if StateOf(d.clients, uid) == Some(st) {
      OwnerEnds(d, d', st);
    } else {
      forall v | v != uid
        ensures StateOf(d'.clients, v) == StateOf(d.clients, v) && TimerOf(d'.clients, v) == TimerOf(d.clients, v)
      {
        ResultOthers(d, uid, outcome, kind, data, text, env, v);
      }
      OtherChanges(d, d', st, uid);
    }
  }

  lemma ResultIgnored(d: State, uid: int, outcome: Outcome, kind: Option<string>, data: seq<Option<string>>,
                      text: Option<string>, env: Env)
    requires !d.agent.isLoaded || !Has(d.clients, uid)
    ensures DoResult(d, uid, outcome, kind, data, text, env).clients == d.clients
  {
    hide SendResult, WithState;
  }

  lemma ResultOthers(d: State, uid: int, outcome: Outcome, kind: Option<string>, data: seq<Option<string>>,
                     text: Option<string>, env: Env, v: int)
    requires Good(d.clients) && v != uid
    ensures var cs := DoResult(d, uid, outcome, kind, data, text, env).clients;
      StateOf(cs, v) == StateOf(d.clients, v) && TimerOf(cs, v) == TimerOf(d.clients, v)
  {
    hide SendResult, WithState, StateOf, TimerOf, Without;
    var d1 := d.(agent := ResultReported(d.agent, env.resultEnds), loop := DelTimer(d.loop, TimerOf(d.clients, uid)));
    SendResultClients(d1, uid, kind, if outcome.Success? then data else [], text, env);
    AfterWithState(d.clients, uid, Ready, v);
    AfterWithout(d.clients, uid, v);
    WithoutKeepsGood(d.clients, uid);
    AfterWithState(Without(d.clients, uid), uid, Ready, v);
  }

  lemma TimeoutOwned(d: State, env: Env, st: AppState)
    requires Good(d.clients) && AllOwned(d, st) && (st.Recording? || st.Processing?)
    ensures DoTimeout(d, env).loop == d.loop
    ensures st.Recording? || FirstIn(d.clients, st) == -1 ==> AllOwned(DoTimeout(d, env), st)
    ensures FirstIn(DoTimeout(d, env).clients, Processing) == -1
  {
    hide DoTimeout, SessionOf, AllOwned, StateOf, TimerOf, Good;
    var d' := DoTimeout(d, env);
    TimeoutLoop(d, env);
    TimeoutSession(d, env);
    HolderIs(d.clients, st);
    HolderIs(d.clients, Processing);
    HolderIs(d'.clients, Processing);
    if FirstIn(d.clients, Processing) == -1 {
      TimeoutIdle(d, env);
    } else if st.Recording? {
      OwnerEnds(d, d', st);
    }
  }

  lemma TimeoutIdle(d: State, env: Env)
    requires FirstIn(d.clients, Processing) == -1
    ensures DoTimeout(d, env) == d
  {
    hide SendResult;
  }

  /** A timer that has fired is dropped. */
  lemma FiredDropped(d: State, d1: State, d2: State, id: nat, st: AppState)
    requires d2 == d1.(loop := DelTimer(d1.loop, Some(id)))
    ensures AllOwned(d1, st) ==> AllOwned(d2, st)
    ensures (forall k: nat :: Live(d1.loop, k, KindFor(st)) ==> k == id) ==> AllOwned(d2, st)
    ensures (exists k: nat :: k != id && Live(d1.loop, k, KindFor(st))) && FirstIn(d1.clients, st) == -1 ==>
      !AllOwned(d2, st)
  {
    hide FirstIn, TimerOf;
    forall k: nat ensures Live(d2.loop, k, KindFor(st)) <==> k != id && Live(d1.loop, k, KindFor(st)) {}
  }

  /** A watchdog that has fired is dropped with its session, or renewed as it is. */
  lemma CheckOwned(d: State, id: nat, env: Env, st: AppState)
    requires Good(d.clients) && AllOwned(d, st) && (st.Recording? || st.Processing?)
    requires IsDue(d.loop, id) && d.loop.timers[id].kind.CheckRecording?
    ensures AllOwned(DoFire(d, id, env).0, st)
  {
    hide DoCheck, DoFinalize, DoCancel, SessionOf, AllOwned, StateOf, TimerOf, Good, FirstIn, PidOf, Acknowledged;
    var uid, d1, d' := FirstIn(d.clients, Recording), DoCheck(d, env).0, DoFire(d, id, env).0;
    CheckCases(d, env);
    HolderIs(d.clients, st);
    HolderIs(d.clients, Recording);
    if DoCheck(d, env).1 {
      CheckRenews(d, id, env);
      OwnerStays(d, d', st);
    } else {
      CheckDrops(d, id, env);
      CancelOwned(d, uid, env, st);
      FinalizeOwned(d, uid, env, st);
      FinalizeLoop(d, uid, env);
      CancelTimers(d, uid, env);
      if st.Recording? { OnlyTheFired(d, d1, id); }
      FiredDropped(d, d1, d', id, st);
    }
  }

  lemma OnlyTheFired(d: State, d1: State, id: nat)
    requires AllOwned(d, Recording) && NoneNew(d.loop, d1.loop, CheckRecording) && Live(d.loop, id, CheckRecording)
    ensures forall k: nat :: Live(d1.loop, k, KindFor(Recording)) ==> k == id
  {
    hide FirstIn, TimerOf;
  }

  lemma CheckRenews(d: State, id: nat, env: Env)
    requires IsDue(d.loop, id) && d.loop.timers[id].kind.CheckRecording? && DoCheck(d, env).1
    ensures var d' := DoFire(d, id, env).0;
      d'.clients == d.clients && NoneNew(d.loop, d'.loop, CheckRecording)
        && NoneNew(d.loop, d'.loop, ProcessingTimeout)
  {
    hide DoCheck;
    CheckUnaltered(d, env);
  }

  lemma CheckDrops(d: State, id: nat, env: Env)
    requires IsDue(d.loop, id) && d.loop.timers[id].kind.CheckRecording? && !DoCheck(d, env).1
    ensures var d1 := DoCheck(d, env).0; DoFire(d, id, env).0 == d1.(loop := DelTimer(d1.loop, Some(id)))
  {
    hide DoCheck;
  }

  /** What a stop by silence comes to. */
  lemma SilenceCases(d: State, env: Env)
    requires Good(d.clients)
    ensures var uid := FirstIn(d.clients, Recording); var d1, d2 := DoStop(d, uid, env).0, DoSilence(d, env).0;
      if uid <= 0 then d2 == d
      else if !EngineStops(d, env) || Acknowledged(d, uid, env) then d2 == d1
      else d2 == DoFinalize(d1, uid, env).0 && d2.loop == d1.loop
  {
    hide DoStop, DoFinalize, FirstIn, EngineStops, Good, PidOf, StateOf, Has, OnlyTouches, StatusOf;
    var uid := FirstIn(d.clients, Recording);
    if uid > 0 {
      StopStatus(d, uid, env);
      CurrentIs(d.clients, Recording);
      PidStays(d, DoStop(d, uid, env).0, uid);
      FinalizeLoop(DoStop(d, uid, env).0, uid, env);
    }
  }

  lemma PidStays(d: State, d': State, uid: int)
    ensures StatusOf(d', uid).pid == StatusOf(d, uid).pid ==> PidOf(d'.clients, uid) == PidOf(d.clients, uid)
    ensures forall st, fl :: StatusOf(d', uid) == StatusOf(d, uid).(st := st, flying := fl) ==>
        StatusOf(d', uid).pid == StatusOf(d, uid).pid
  {
  }

  lemma SilenceStays(d: State, env: Env, st: AppState)
    requires Good(d.clients) && AllOwned(d, st) && (st.Recording? || st.Processing?) && !SilenceLeaves(d, env, st)
    ensures AllOwned(DoSilence(d, env).0, st)
  {
    hide DoStop, DoFinalize, DoSilence, SessionOf, AllOwned, StateOf, TimerOf, FirstIn, Good, EngineStops;
    hide StatusOf, OnlyTouches, Acknowledged;
    var uid := FirstIn(d.clients, Recording);
    SilenceCases(d, env);
    if uid > 0 {
      var d1 := DoStop(d, uid, env).0;
      StopOwned(d, uid, env, st);
      StopSession(d, uid, env);
      StopStatus(d, uid, env);
      StatusState(d1, uid);
      HolderIs(d.clients, Recording);
      FinalizeOwned(d1, uid, env, st);
    }
  }

  lemma SilenceParts(d: State, id: nat, env: Env, st: AppState)
    requires Good(d.clients) && OwnsOne(d, st) && (st.Recording? || st.Processing?) && SilenceLeaves(d, env, st)
    requires Issued(d.loop) && id in d.loop.timers && d.loop.timers[id].kind.StopBySilence?
    ensures FirstIn(DoSilence(d, env).0.clients, st) == -1
    ensures exists k: nat :: k != id && Live(DoSilence(d, env).0.loop, k, KindFor(st))
  {
    hide DoStop, DoFinalize, DoSilence, SessionOf, StateOf, TimerOf, FirstIn, Good, EngineStops, StatusOf, OnlyTouches;
    var uid, d2 := FirstIn(d.clients, Recording), DoSilence(d, env).0;
    var d1 := DoStop(d, uid, env).0;
    SilenceCases(d, env);
    HolderIs(d.clients, Recording);
    StopSession(d, uid, env);
    StopStatus(d, uid, env);
    StopTimers(d, uid, env);
    StatusState(d1, uid);
    if st.Recording? {
      HolderIs(d2.clients, st);
      assert Live(d2.loop, TimerOf(d.clients, uid).value, KindFor(st));
    } else {
      FinalizeSession(d1, uid, env);
      HolderIs(d2.clients, st);
      StopFullTime(d, uid, env);
      assert Live(d2.loop, TimerOf(d1.clients, uid).value, KindFor(st));
    }
  }

  lemma FireOwned(d: State, id: nat, env: Env, st: AppState)
    requires Good(d.clients) && AllOwned(d, st) && (st.Recording? || st.Processing?)
    ensures Accounted(d, DoFire(d, id, env).0, st, LeavesBehind(d, Fire(id), env, st))
  {
    hide DoCheck, DoTimeout, DoSilence, AllOwned, OwnsOne, FirstIn, Good, EngineStops, Acknowledged;
    var d' := DoFire(d, id, env).0;
    if IsDue(d.loop, id) {
      match d.loop.timers[id].kind
      case CheckRecording => CheckOwned(d, id, env, st);
      case ProcessingTimeout =>
        TimeoutOwned(d, env, st);
        if st.Processing? && FirstIn(d.clients, Processing) != -1 { OnlyTimeout(d, DoTimeout(d, env), id); }
        FiredDropped(d, DoTimeout(d, env), d', id, st);
      case StopBySilence =>
        FiredDropped(d, DoSilence(d, env).0, d', id, st);
        if !SilenceLeaves(d, env, st) {
          SilenceStays(d, env, st);
        } else if OwnsOne(d, st) && Issued(d.loop) {
          SilenceParts(d, id, env, st);
        }
    }
  }

  lemma OnlyTimeout(d: State, d1: State, id: nat)
    requires AllOwned(d, Processing) && d1.loop == d.loop && Live(d.loop, id, ProcessingTimeout)
    ensures forall k: nat :: Live(d1.loop, k, KindFor(Processing)) ==> k == id
  {
    hide FirstIn, TimerOf;
  }

  // ---- The cleanup pass ----

  lemma SurvivorIs(cs: seq<Client>, visits: seq<Visit>, v: int)
    requires Unique(cs) && |cs| == |visits| && Has(Survivors(cs, visits), v)
    ensures Has(cs, v) && TimerOf(Survivors(cs, visits), v) == TimerOf(cs, v)
  {
    hide Survivors;
    var c := Survivors(cs, visits)[IndexOf(Survivors(cs, visits), v)];
    assert c in Survivors(cs, visits);
    var k :| 0 <= k < |cs| && cs[k] == c;
    IndexOfIs(cs, k);
  }

  lemma CleanupOwned(d: State, visits: seq<Visit>, env: Env, st: AppState)
    requires Good(d.clients) && AllOwned(d, st) && (st.Recording? || st.Processing?) && |visits| == |d.clients|
    ensures Accounted(d, DoCleanup(d, visits), st, LeavesBehind(d, Event.Cleanup(visits), env, st))
  {
    hide CleanupFrom, SessionOf, AllOwned, TimerOf, FirstIn, Good, Survivors, Accounted, OwnsOne, IndexOf;
    var d', uid := DoCleanup(d, visits), FirstIn(d.clients, st);
    CleanupFilters(d, visits);
    CleanupLoop(d, Uids(d.clients), visits);
    CleanupSession(d, Uids(d.clients), visits);
    HolderIs(d.clients, st);
    HolderIs(d'.clients, st);
    GoodUnique(d.clients);
    if uid == -1 {
      NobodyIn(d.clients, st);
      OwnerEnds(d, d', st);
    } else {
      var i := HolderAt(d.clients, st);
      SurvivesWhen(d.clients, visits, i);
      SessionIs(d'.clients, uid);
      StateMeansHas(d'.clients, uid);
      if d.clients[i].pid >= 0 && visits[i].hello == 0 {
        OwnerLeaves(d, d', st);
      } else {
        SurvivorIs(d.clients, visits, uid);
        CleanupStatus(d, Uids(d.clients), visits, uid);
        StatusState(d, uid);
        StatusState(d', uid);
        OwnerStays(d, d', st);
      }
    }
  }

  lemma NobodyIn(cs: seq<Client>, st: AppState)
    requires Good(cs) && FirstIn(cs, st) == -1
    ensures forall i :: 0 <= i < |cs| ==> cs[i].state != st
  {
    forall i | 0 <= i < |cs| ensures cs[i].state != st {
      if cs[i].state == st { HolderHasPositiveUid(cs, i); }
    }
  }

  /** The one record in that state. */
  lemma HolderAt(cs: seq<Client>, st: AppState) returns (i: nat)
    requires Good(cs) && (st.Recording? || st.Processing?) && FirstIn(cs, st) != -1
    ensures i < |cs| && cs[i].uid == FirstIn(cs, st) && cs[i].state == st
    ensures forall j :: 0 <= j < |cs| && cs[j].state == st ==> j == i
  {
    CurrentIs(cs, st);
    i := IndexOf(cs, FirstIn(cs, st));
  }

  // ---- Every step ----

  /** A step that starts with no timer of the state left behind leaves one behind, if there is one to leave,
      exactly when `LeavesBehind` says so. */
  lemma StepOwned(d: State, e: Event, env: Env, st: AppState)
    requires Good(d.clients) && AllOwned(d, st) && (st.Recording? || st.Processing?)
    requires d.agent.conf.engineId.Some? && PositiveUid(e)
    ensures Accounted(d, Step(d, e, env), st, LeavesBehind(d, e, env, st))
  {
    hide DoInitialize, DoFinalize, DoStart, DoStop, DoCancel, DoResult, DoFire, DoCleanup, StopRecorder, Accounted;
    hide DoSetting, DoSettingInitialize, DoSettingFinalize, AllOwned, Good, SomebodyRecords, EngineStops, StateOf;
    hide FirstIn, Acknowledged;
    var d' := Step(d, e, env);
    match e
    case Initialize(pid, uid) => InitializeOwned(d, pid, uid, env, st);
    case Finalize(uid) => FinalizeOwned(d, uid, env, st);
    case Start(uid, lang, p, u, s) => StartOwned(d, uid, lang, p, u, s, env, st);
    case Stop(uid) => StopOwned(d, uid, env, st);
    case Cancel(uid) => CancelOwned(d, uid, env, st);
    case Result(uid, outcome, kind, data, text) => ResultOwned(d, uid, outcome, kind, data, text, env, st);
    case Fire(id) => FireOwned(d, id, env, st);
    case Cleanup(visits) =>
      if |visits| == |d.clients| { CleanupOwned(d, visits, env, st); } else {
        CleanupSkipped(d, visits);
        Untouched(d, d', st);
      }
    case CamcorderStops =>
      StopRecorderKeepsClients(d, env);
      StopRecorderLive(d, env, KindFor(st));
      Untouched(d, d', st);
    case SilenceDetected => Untouched(d, d', st);
    case AudioChunk => Untouched(d, d', st);
    case CamcorderCancels => Untouched(d, d', st);
    case Tick(ms) => Untouched(d, d', st);
    case _ =>
      SettingKeepsLoop(d, e, env);
      Untouched(d, d', st);
  }

  lemma CleanupSkipped(d: State, visits: seq<Visit>)
    requires |visits| != |d.clients|
    ensures DoCleanup(d, visits) == d
  {
  }

  // ---- Over runs ----

  ghost predicate NeverLeft(r: Run, st: AppState, i: nat)
    requires Follows(r) && i <= |r.events|
  {
    forall j :: 0 <= j < i ==> !LeavesBehind(r.states[j], r.events[j], r.envs[j], st)
  }

  lemma BootOwnsAll(conf: Config.Conf, env: Env, st: AppState)
    requires conf.language.Some? && conf.engineId.Some?
    ensures AllOwned(Boot(conf, env), st)
  {
  }

  /** Over runs in which no processing client is finalized, cleaned up or dropped: every live time-out is that of
      the client now in processing. And so with the watchdogs of recording clients. */
  lemma {:induction false} AlwaysOwned(r: Run, conf: Config.Conf, env: Env, st: AppState, i: nat)
    requires IsRun(r, conf, env) && i < |r.states| && (st.Recording? || st.Processing?) && NeverLeft(r, st, i)
    ensures AllOwned(r.states[i], st)
  {
    hide Step, Good, Sound, AllOwned, LeavesBehind;
    if i == 0 {
      BootOwnsAll(conf, env, st);
    } else {
      AlwaysExclusive(r, conf, env, i - 1);
      AlwaysOwned(r, conf, env, st, i - 1);
      StepOwned(r.states[i - 1], r.events[i - 1], r.envs[i - 1], st);
    }
  }

  /** With no time-out but one's own, none comes before one's own. */
  lemma OwnedIsForemost(d: State, uid: int)
    requires Good(d.clients) && Timely(d) && AllOwned(d, Processing) && StateOf(d.clients, uid) == Some(Processing)
    ensures Foremost(d, uid)
  {
    hide Good, StateOf, TimerOf, FirstIn;
    HolderIs(d.clients, Processing);
    forall id: nat | id in d.loop.timers && d.loop.timers[id].kind.ProcessingTimeout?
      ensures TimerOf(d.clients, uid) == Some(id)
    {
      assert Live(d.loop, id, KindFor(Processing));
    }
  }

  /** On such runs whoever is timed out is timed out after the whole state-check time, whatever else happened. */
  lemma TimedOutInFull(r: Run, conf: Config.Conf, env: Env, uid: int, i: nat, j: nat)
    requires IsRun(r, conf, env) && 0 < i <= j < |r.events| && Processes(r, uid, i, j) && NeverLeft(r, Processing, i)
    requires forall k :: 0 <= k < j ==> Punctual(r.states[k], r.events[k])
    requires StateOf(r.states[i - 1].clients, uid) != Some(Processing)
    requires r.events[j].Fire? && IsDue(r.states[j].loop, r.events[j].id)
    requires r.states[j].loop.timers[r.events[j].id].kind.ProcessingTimeout?
    ensures r.states[j].loop.now == r.states[i].loop.now + STATE_CHECK_TIME
  {
    hide Step, Good, Sound, Timely, Punctual, AllOwned, LeavesBehind, IsDue;
    AlwaysExclusive(r, conf, env, i);
    AlwaysTimely(r, conf, env, i);
    AlwaysOwned(r, conf, env, Processing, i);
    assert StateOf(r.states[i].clients, uid) == Some(Processing);
    OwnedIsForemost(r.states[i], uid);
    TimedOutInTime(r, conf, env, uid, i, j);
  }

  lemma TimelyOwns(d: State)
    requires Good(d.clients) && Timely(d)
    ensures OwnsOne(d, Processing) && Issued(d.loop)
  {
    hide Good, StateOf, TimerOf, FirstIn;
    HolderIs(d.clients, Processing);
    var uid := FirstIn(d.clients, Processing);
    if uid != -1 { assert StateOf(d.clients, uid) == Some(Processing); }
  }

  /** On a punctual run the first time-out left behind is left by the first such step, and by no other. */
  lemma LeftWhen(r: Run, conf: Config.Conf, env: Env, i: nat)
    requires IsRun(r, conf, env) && i < |r.events| && NeverLeft(r, Processing, i)
    requires forall k :: 0 <= k < i ==> Punctual(r.states[k], r.events[k])
    ensures AllOwned(r.states[i + 1], Processing) <==>
      !LeavesBehind(r.states[i], r.events[i], r.envs[i], Processing)
  {
    hide Step, Good, Sound, Timely, Punctual, AllOwned, LeavesBehind, OwnsOne;
    AlwaysExclusive(r, conf, env, i);
    AlwaysTimely(r, conf, env, i);
    AlwaysOwned(r, conf, env, Processing, i);
    TimelyOwns(r.states[i]);
    StepOwned(r.states[i], r.events[i], r.envs[i], Processing);
  }

  // ---- The watchdog's period ----

  /** The client has just been put into recording, or just been found in order. */
  ghost predicate JustWatched(d: State, e: Event, d': State, uid: int) {
    && StateOf(d'.clients, uid) == Some(Recording)
    && (StateOf(d.clients, uid) != Some(Recording) || ChecksNow(d, e))
  }

  lemma StartFullWatch(d: State, uid: int, lang: string, p: int, u: int, s: int, env: Env)
    requires Good(d.clients) && DoStart(d, uid, lang, p, u, s, env).1 == 0
    ensures var d' := DoStart(d, uid, lang, p, u, s, env).0; var t := TimerOf(d'.clients, uid);
      HasLive(d'.loop, t, CheckRecording) && d'.loop.timers[t.value].due == d'.loop.now + STATE_CHECK_TIME
  {
    hide RecognizeStart, RecognizeCancel, WithState, WithTimer, Good, StateOf, TimerOf, Has, StartRec, NeedNetwork;
    StartSession(d, uid, lang, p, u, s, env);
    StartRegistered(d, uid, lang, p, u, s, env);
    Taken(d.clients, uid);
    GoodUnique(WithState(d.clients, uid, Recording));
    AfterWithTimer(WithState(d.clients, uid, Recording), uid, Some(d.loop.next), uid);
    GoodUnique(d.clients);
    AfterWithState(d.clients, uid, Recording, uid);
    StateMeansHas(WithState(d.clients, uid, Recording), uid);
  }

  lemma RenewsInFull(d: State, id: nat, env: Env, uid: int)
    requires Good(d.clients) && Watched(d) && AllOwned(d, Recording) && ChecksNow(d, Fire(id))
    requires WatchRely(d, Fire(id), env) && StateOf(DoFire(d, id, env).0.clients, uid) == Some(Recording)
    ensures var d' := DoFire(d, id, env).0; var t := TimerOf(d'.clients, uid);
      HasLive(d'.loop, t, CheckRecording) && d'.loop.timers[t.value].due == d'.loop.now + STATE_CHECK_TIME
  {
    hide DoCheck, SessionOf, Good, StateOf, TimerOf, FirstIn;
    var d1, d' := DoCheck(d, env).0, DoFire(d, id, env).0;
    if DoCheck(d, env).1 {
      CheckUnaltered(d, env);
      HolderIs(d.clients, Recording);
      assert Live(d.loop, id, KindFor(Recording));
      assert Watching(d.loop, TimerOf(d.clients, uid));
    } else {
      CheckEnds(d, env);
      CheckSession(d, env);
      SessionIs(d1.clients, uid);
    }
  }

  lemma WatchedInFull(d: State, e: Event, env: Env, uid: int)
    requires Good(d.clients) && Timely(d) && Watched(d) && AllOwned(d, Recording) && d.agent.conf.engineId.Some?
    requires PositiveUid(e) && WatchRely(d, e, env) && JustWatched(d, e, Step(d, e, env), uid)
    ensures var d' := Step(d, e, env); var t := TimerOf(d'.clients, uid);
      HasLive(d'.loop, t, CheckRecording) && d'.loop.timers[t.value].due == d'.loop.now + STATE_CHECK_TIME
  {
    hide Step, DoStart, DoFire, Good, SessionOf, StateOf, TimerOf, Watched, AllOwned, Timely, HasLive;
    if ChecksNow(d, e) {
      FireIs(d, e.id, env);
      RenewsInFull(d, e.id, env, uid);
    } else {
      StepSession(d, e, env);
      SessionIs(d.clients, uid);
      SessionIs(Step(d, e, env).clients, uid);
      StartIs(d, e, env);
      StartSession(d, e.uid, e.lang, e.p, e.u, e.s, env);
      StartFullWatch(d, e.uid, e.lang, e.p, e.u, e.s, env);
    }
  }

  /** On runs that leave no watchdog behind, a recording client is asked for its state the whole state-check time
      after its start or the last check, and not before. */
  lemma CheckedInFull(r: Run, conf: Config.Conf, env: Env, uid: int, i: nat, j: nat)
    requires IsRun(r, conf, env) && 0 < i <= j < |r.events| && RecordsUnchecked(r, uid, i, j)
    requires WatchRelied(r, j) && NeverLeft(r, Recording, j)
    requires JustWatched(r.states[i - 1], r.events[i - 1], r.states[i], uid)
    requires ChecksNow(r.states[j], r.events[j])
    ensures r.states[j].loop.now == r.states[i].loop.now + STATE_CHECK_TIME
  {
    hide Step, Good, Sound, Timely, Punctual, AllOwned, LeavesBehind, Watched, WatchRely, HasLive;
    AlwaysExclusive(r, conf, env, i - 1);
    AlwaysTimely(r, conf, env, i - 1);
    AlwaysWatched(r, conf, env, i - 1);
    AlwaysOwned(r, conf, env, Recording, i - 1);
    WatchedInFull(r.states[i - 1], r.events[i - 1], r.envs[i - 1], uid);
    assert HasDue(r.states[i], uid, r.states[i].loop.now + STATE_CHECK_TIME);
    SameWatch(r, conf, env, uid, i, j);
    AlwaysExclusive(r, conf, env, j);
    AlwaysOwned(r, conf, env, Recording, j);
    assert StateOf(r.states[j].clients, uid) == Some(Recording);
    OwnCheck(r.states[j], r.events[j], uid);
  }

  ghost predicate HasDue(d: State, uid: int, due: int) {
    var t := TimerOf(d.clients, uid);
    HasLive(d.loop, t, CheckRecording) && d.loop.timers[t.value].due == due
  }

  lemma OwnCheck(d: State, e: Event, uid: int)
    requires Good(d.clients) && AllOwned(d, Recording) && ChecksNow(d, e) && StateOf(d.clients, uid) == Some(Recording)
    ensures TimerOf(d.clients, uid) == Some(e.id) && d.loop.timers[e.id].due <= d.loop.now
  {
    hide Good, StateOf, TimerOf, FirstIn;
    HolderIs(d.clients, Recording);
    assert Live(d.loop, e.id, KindFor(Recording));
  }
}
