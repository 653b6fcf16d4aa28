/** Every processing client owns a live time-out that comes due within the state-check time. */
module Timing {
  import opened Types
  import opened ClientData
  import opened EngineAgent
  import opened Recorder
  import opened Daemon
  import opened Sessions

  /** Timer ids stored with clients were really issued, and no two clients store the same one. */
  ghost predicate OwnTimers(cs: seq<Client>, next: nat) {
    && (forall v :: TimerOf(cs, v).Some? ==> TimerOf(cs, v).value < next)
    && (forall v, w :: v != w && TimerOf(cs, v).Some? ==> TimerOf(cs, v) != TimerOf(cs, w))
  }

  ghost predicate Issued(l: Loop) {
    forall id :: id in l.timers ==> id < l.next
  }

  /** The time-out of a processing client is live, and due no later than the state-check time from now. */
  predicate Armed(l: Loop, t: Option<nat>) {
    && t.Some? && t.value in l.timers
    && l.timers[t.value].kind.ProcessingTimeout?
    && l.now <= l.timers[t.value].due <= l.now + STATE_CHECK_TIME
  }

  ghost predicate Timely(d: State) {
    && OwnTimers(d.clients, d.loop.next) && Issued(d.loop)
    && (forall uid :: StateOf(d.clients, uid) == Some(Processing) ==> Armed(d.loop, TimerOf(d.clients, uid)))
  }

  /** The main loop does not sleep past a timer that is due. */
  predicate Punctual(d: State, e: Event) {
    e.Tick? ==> forall id :: id in d.loop.timers ==> d.loop.now + e.ms <= d.loop.timers[id].due
  }

  /** A client that stays in processing keeps its timer and the moment it comes due. */
  ghost predicate KeepsDeadline(d: State, d': State) {
    forall uid :: StateOf(d.clients, uid) == Some(Processing) && StateOf(d'.clients, uid) == Some(Processing) ==>
      TimerOf(d'.clients, uid) == TimerOf(d.clients, uid)
      && Armed(d.loop, TimerOf(d.clients, uid)) && Armed(d'.loop, TimerOf(d'.clients, uid))
      && d'.loop.timers[TimerOf(d'.clients, uid).value].due == d.loop.timers[TimerOf(d.clients, uid).value].due
  }

  ghost predicate Timed(d: State, d': State) {
    Timely(d') && KeepsDeadline(d, d')
  }

  /** A client that goes on recording keeps its watchdog's timer as it is. */
  ghost predicate KeepsWatch(d: State, d': State) {
    forall uid :: StateOf(d.clients, uid) == Some(Recording) && StateOf(d'.clients, uid) == Some(Recording) ==>
      var t := TimerOf(d.clients, uid);
      && TimerOf(d'.clients, uid) == t
      && (t.Some? && t.value in d.loop.timers && d.loop.timers[t.value].kind.CheckRecording? ==>
            t.value in d'.loop.timers && d'.loop.timers[t.value] == d.loop.timers[t.value])
  }

  ghost predicate Calm(d: State, d': State) {
    Timed(d, d') && KeepsWatch(d, d') && d'.loop.now == d.loop.now
  }

  // ---- Building blocks ----

  /** Time stands still; timers may be added under fresh ids and `gone` deleted, the others stay as they are. */
  ghost predicate LoopGrows(l: Loop, l': Loop, gone: Option<nat>) {
    && l'.now == l.now && l.next <= l'.next && Issued(l')
    && (forall id :: id in l.timers && Some(id) != gone ==> id in l'.timers)
    && (forall id :: id in l.timers && id in l'.timers ==> l'.timers[id] == l.timers[id])
  }

  /** Clients that were not touched keep timer and state. */
  ghost predicate OthersSame(cs: seq<Client>, cs': seq<Client>, uid: int) {
    forall v :: v != uid ==> StateOf(cs', v) == StateOf(cs, v) && TimerOf(cs', v) == TimerOf(cs, v)
  }

  /** A step that touches one client, which it leaves out of processing and takes out of recording, and may
      delete that client's timer. */
  lemma TouchesOne(d: State, d': State, uid: int, gone: Option<nat>)
    requires Timely(d) && LoopGrows(d.loop, d'.loop, gone) && OthersSame(d.clients, d'.clients, uid)
    requires StateOf(d'.clients, uid) != Some(Processing)
    requires StateOf(d.clients, uid) == Some(Recording) ==> StateOf(d'.clients, uid) != Some(Recording)
    requires TimerOf(d'.clients, uid) == TimerOf(d.clients, uid) || TimerOf(d'.clients, uid).None?
      || (TimerOf(d'.clients, uid).value >= d.loop.next && TimerOf(d'.clients, uid).value < d'.loop.next)
    requires gone.None? || gone == TimerOf(d.clients, uid)
    ensures Calm(d, d')
  {
    forall v, w | v != w && TimerOf(d'.clients, v).Some? ensures TimerOf(d'.clients, v) != TimerOf(d'.clients, w) {
      assert TimerOf(d.clients, v).Some? ==> TimerOf(d.clients, v).value < d.loop.next;
      assert TimerOf(d.clients, w).Some? ==> TimerOf(d.clients, w).value < d.loop.next;
    }
    forall v | TimerOf(d'.clients, v).Some? ensures TimerOf(d'.clients, v).value < d'.loop.next {
      assert TimerOf(d.clients, v).Some? ==> TimerOf(d.clients, v).value < d.loop.next;
    }
    forall v | StateOf(d'.clients, v) == Some(Processing)
      ensures Armed(d'.loop, TimerOf(d'.clients, v))
      ensures d'.loop.timers[TimerOf(d'.clients, v).value] == d.loop.timers[TimerOf(d.clients, v).value]
    {
      assert v != uid && Armed(d.loop, TimerOf(d.clients, v));
      assert TimerOf(d.clients, v) != gone;
    }
  }

  lemma LoopAdds(l: Loop, kind: TimerKind, delay: int, t: Option<nat>)
    requires Issued(l)
    ensures LoopGrows(l, AddTimer(l, kind, delay), None)
    ensures LoopGrows(l, DelTimer(l, t), t)
    ensures LoopGrows(l, AddTimer(DelTimer(l, t), kind, delay), t)
    ensures LoopGrows(l, l, None)
  {
  }

  lemma LoopChains(l: Loop, l1: Loop, l2: Loop, gone: Option<nat>)
    requires LoopGrows(l, l1, None) && LoopGrows(l1, l2, gone)
    ensures LoopGrows(l, l2, gone)
  {
  }

  /** Recording turns into processing under a fresh time-out. */
  lemma TurnsToProcessing(d: State, d': State, uid: int, gone: Option<nat>)
    requires Timely(d) && LoopGrows(d.loop, d'.loop, gone) && OthersSame(d.clients, d'.clients, uid)
    requires StateOf(d.clients, uid) != Some(Processing)
    requires StateOf(d'.clients, uid) == Some(Processing) && Armed(d'.loop, TimerOf(d'.clients, uid))
    requires d.loop.next <= TimerOf(d'.clients, uid).value < d'.loop.next
    requires gone == TimerOf(d.clients, uid)
    ensures Calm(d, d')
  {
    forall v, w | v != w && TimerOf(d'.clients, v).Some? ensures TimerOf(d'.clients, v) != TimerOf(d'.clients, w) {
      assert TimerOf(d.clients, v).Some? ==> TimerOf(d.clients, v).value < d.loop.next;
      assert TimerOf(d.clients, w).Some? ==> TimerOf(d.clients, w).value < d.loop.next;
    }
    forall v | TimerOf(d'.clients, v).Some? ensures TimerOf(d'.clients, v).value < d'.loop.next {
      assert TimerOf(d.clients, v).Some? ==> TimerOf(d.clients, v).value < d.loop.next;
    }
    forall v | v != uid && StateOf(d'.clients, v) == Some(Processing)
      ensures Armed(d'.loop, TimerOf(d'.clients, v))
      ensures d'.loop.timers[TimerOf(d'.clients, v).value] == d.loop.timers[TimerOf(d.clients, v).value]
    {
      assert Armed(d.loop, TimerOf(d.clients, v));
      assert TimerOf(d.clients, v) != gone;
    }
  }

  lemma NothingTouched(d: State, d': State)
    requires Timely(d) && d'.clients == d.clients && LoopGrows(d.loop, d'.loop, None)
    ensures Calm(d, d')
  {
    forall v | StateOf(d'.clients, v) == Some(Processing) ensures Armed(d'.loop, TimerOf(d'.clients, v)) {
      assert Armed(d.loop, TimerOf(d.clients, v));
    }
  }

  // ---- Handlers ----

  lemma InitializeTimed(d: State, pid: int, uid: int, env: Env)
    requires Good(d.clients) && Timely(d) && d.agent.conf.engineId.Some?
    ensures Calm(d, DoInitialize(d, pid, uid, env).0)
  {
    hide DoInitialize, Calm, Timely, Plus;
    var (d', ret) := DoInitialize(d, pid, uid, env);
    InitializeClients(d, pid, uid, env);
    TimelyLoop(d);
    LoopAdds(d.loop, CheckRecording, 0, None);
    if ret != 0 {
      NothingTouched(d, d');
    } else {
      forall v | v != uid
        ensures StateOf(d'.clients, v) == StateOf(d.clients, v) && TimerOf(d'.clients, v) == TimerOf(d.clients, v)
      {
        AfterPlus(d.clients, pid, uid, v);
      }
      AfterPlus(d.clients, pid, uid, uid);
      AddedTimer(d.clients, pid, uid);
      TouchesOne(d, d', uid, None);
    }
  }

  lemma AddedTimer(cs: seq<Client>, pid: int, uid: int)
    requires Good(cs) && !Has(cs, uid)
    ensures TimerOf(Plus(cs, pid, uid), uid).None?
  {
    var w := Plus(cs, pid, uid);
    assert w[|cs|].uid == uid;
    assert forall j :: 0 <= j < |cs| ==> w[j] == cs[j] && cs[j].uid != uid;
  }

  lemma TimelyLoop(d: State)
    requires Timely(d)
    ensures Issued(d.loop)
  {
  }

  lemma FinalizeTimed(d: State, uid: int, env: Env)
    requires Good(d.clients) && Timely(d)
    ensures Calm(d, DoFinalize(d, uid, env).0)
  {
    hide Timed, Calm, Timely, Without, RecognizeCancel, UnloadCurrent;
    var d' := DoFinalize(d, uid, env).0;
    TimelyLoop(d);
    LoopAdds(d.loop, CheckRecording, 0, None);
    if Has(d.clients, uid) {
      RemovalTouchesOne(d, d', uid);
    } else {
      NothingTouched(d, d');
    }
  }

  lemma RemovalTouchesOne(d: State, d': State, uid: int)
    requires Good(d.clients) && Timely(d) && d'.clients == Without(d.clients, uid) && LoopGrows(d.loop, d'.loop, None)
    ensures Calm(d, d')
  {
    hide Timed, Calm, Timely, Without;
    forall v | v != uid
      ensures StateOf(d'.clients, v) == StateOf(d.clients, v) && TimerOf(d'.clients, v) == TimerOf(d.clients, v)
    {
      AfterWithout(d.clients, uid, v);
    }
    AfterWithout(d.clients, uid, uid);
    TouchesOne(d, d', uid, None);
  }

  /** A client goes back to READY, its timer deleted or not. */
  lemma ReadyTouchesOne(d: State, d': State, uid: int, gone: Option<nat>)
    requires Good(d.clients) && Timely(d) && d'.clients == WithState(d.clients, uid, Ready)
    requires LoopGrows(d.loop, d'.loop, gone) && (gone.None? || gone == TimerOf(d.clients, uid))
    ensures Calm(d, d')
  {
    hide Timed, Calm, Timely, WithState, LoopGrows;
    forall v | v != uid
      ensures StateOf(d'.clients, v) == StateOf(d.clients, v) && TimerOf(d'.clients, v) == TimerOf(d.clients, v)
    {
      AfterWithState(d.clients, uid, Ready, v);
    }
    AfterWithState(d.clients, uid, Ready, uid);
    TouchesOne(d, d', uid, gone);
  }

  lemma StartTimed(d: State, uid: int, lang: string, p: int, u: int, s: int, env: Env)
    requires Good(d.clients) && Timely(d)
    ensures Calm(d, DoStart(d, uid, lang, p, u, s, env).0)
  {
    hide Timed, Calm, Timely, RecognizeStart, RecognizeCancel, StartGuard, WithState, WithTimer, LoopGrows;
    var (d', ret) := DoStart(d, uid, lang, p, u, s, env);
    TimelyLoop(d);
    LoopAdds(d.loop, CheckRecording, STATE_CHECK_TIME, None);
    if ret == 0 {
      var w := WithState(d.clients, uid, Recording);
      var t := Some(d.loop.next);
      StartSession(d, uid, lang, p, u, s, env);
      FreeIsAllReady(d.clients);
      StartRegistered(d, uid, lang, p, u, s, env);
      Taken(d.clients, uid);
      forall v | v != uid
        ensures StateOf(d'.clients, v) == StateOf(d.clients, v) && TimerOf(d'.clients, v) == TimerOf(d.clients, v)
      {
        AfterWithState(d.clients, uid, Recording, v);
        AfterWithTimer(w, uid, t, v);
      }
      AfterWithState(d.clients, uid, Recording, uid);
      AfterWithTimer(w, uid, t, uid);
      TouchesOne(d, d', uid, None);
    } else {
      NothingTouched(d, d');
    }
  }

  lemma StartRegistered(d: State, uid: int, lang: string, p: int, u: int, s: int, env: Env)
    ensures DoStart(d, uid, lang, p, u, s, env).1 == 0 ==> Has(d.clients, uid) && StartGuard(d, uid, env) == 0
  {
    hide RecognizeStart, RecognizeCancel;
  }

  lemma StopRecorderTimers(d: State, env: Env)
    requires Issued(d.loop)
    ensures LoopGrows(d.loop, StopRecorder(d, env).loop, None)
  {
    hide LoopGrows;
    LoopAdds(d.loop, StopBySilence, 0, None);
  }

  lemma StopTimed(d: State, uid: int, env: Env)
    requires Good(d.clients) && Timely(d)
    ensures Calm(d, DoStop(d, uid, env).0)
  {
    hide Timed, Calm, Timely, StopRecorder, RecognizeStop, WithState, WithTimer, LoopGrows;
    TimelyLoop(d);
    LoopAdds(d.loop, StopBySilence, 0, None);
    if StateOf(d.clients, uid) != Some(Recording) {
      NothingTouched(d, d);
    } else {
      var d1 := StopRecorder(d, env);
      StopRecorderKeepsClients(d, env);
      StopRecorderTimers(d, env);
      var d2 := d1.(agent := RecognizeStop(d1.agent, env.calls.stop).0);
      if RecognizeStop(d1.agent, env.calls.stop).1 != 0 {
        ReadyTouchesOne(d, DoStop(d, uid, env).0, uid, None);
      } else {
        BeginProcessingTimed(d, d2, uid);
      }
    }
  }

  lemma BeginProcessingTimed(d: State, d2: State, uid: int)
    requires Good(d.clients) && Timely(d) && StateOf(d.clients, uid) == Some(Recording)
    requires d2.clients == d.clients && LoopGrows(d.loop, d2.loop, None)
    ensures Calm(d, BeginProcessing(d2, uid))
  {
    hide Timed, Calm, Timely, WithState, WithTimer;
    var d' := BeginProcessing(d2, uid);
    var gone := TimerOf(d.clients, uid);
    LoopAdds(d2.loop, ProcessingTimeout, STATE_CHECK_TIME, gone);
    LoopChains(d.loop, d2.loop, d'.loop, gone);
    var w := WithState(d.clients, uid, Processing);
    Advanced(d.clients, uid);
    forall v | v != uid
      ensures StateOf(d'.clients, v) == StateOf(d.clients, v) && TimerOf(d'.clients, v) == TimerOf(d.clients, v)
    {
      AfterWithState(d.clients, uid, Processing, v);
      AfterWithTimer(w, uid, Some(d2.loop.next), v);
    }
    AfterWithState(d.clients, uid, Processing, uid);
    AfterWithTimer(w, uid, Some(d2.loop.next), uid);
    TurnsToProcessing(d, d', uid, gone);
  }

  lemma CancelTimed(d: State, uid: int, env: Env)
    requires Good(d.clients) && Timely(d)
    ensures Calm(d, DoCancel(d, uid, env).0)
  {
    hide Timed, Calm, Timely, RecognizeCancel, WithState, LoopGrows, DelTimer;
    TimelyLoop(d);
    LoopAdds(d.loop, CheckRecording, 0, TimerOf(d.clients, uid));
    var (d', ret) := DoCancel(d, uid, env);
    if ret == 0 {
      ReadyTouchesOne(d, d', uid, TimerOf(d.clients, uid));
    } else {
      NothingTouched(d, d');
    }
  }

  lemma SendResultClients(d: State, uid: int, kind: Option<string>, data: seq<Option<string>>,
      text: Option<string>, env: Env)
    ensures var d' := SendResult(d, uid, kind, data, text, env).0;
      d'.loop == d.loop && (d'.clients == d.clients || d'.clients == Without(d.clients, uid))
  {
  }

  /** The end of a result or of a time-out: the client is READY or gone. */
  lemma EndTouchesOne(d: State, d': State, cs: seq<Client>, uid: int, gone: Option<nat>)
    requires Good(d.clients) && Timely(d) && (cs == d.clients || cs == Without(d.clients, uid))
    requires d'.clients == WithState(cs, uid, Ready)
    requires LoopGrows(d.loop, d'.loop, gone) && (gone.None? || gone == TimerOf(d.clients, uid))
    ensures Calm(d, d')
  {
    hide Timed, Calm, Timely, WithState, Without, LoopGrows;
    if cs == d.clients {
      ReadyTouchesOne(d, d', uid, gone);
    } else {
      Removed(d.clients, uid);
      AfterWithout(d.clients, uid, uid);
      forall v | v != uid
        ensures StateOf(d'.clients, v) == StateOf(d.clients, v) && TimerOf(d'.clients, v) == TimerOf(d.clients, v)
      {
        AfterWithout(d.clients, uid, v);
        AfterWithState(cs, uid, Ready, v);
      }
      AfterWithState(cs, uid, Ready, uid);
      TouchesOne(d, d', uid, gone);
    }
  }

  lemma ResultTimed(d: State, uid: int, outcome: Outcome, kind: Option<string>, data: seq<Option<string>>,
                    text: Option<string>, env: Env)
    requires Good(d.clients) && Timely(d)
    ensures Calm(d, DoResult(d, uid, outcome, kind, data, text, env))
  {
    hide Timed, Calm, Timely, SendResult, WithState, LoopGrows, DelTimer;
    TimelyLoop(d);
    var gone := TimerOf(d.clients, uid);
    LoopAdds(d.loop, CheckRecording, 0, gone);
    var d' := DoResult(d, uid, outcome, kind, data, text, env);
    var d1 := d.(agent := ResultReported(d.agent, env.resultEnds), loop := DelTimer(d.loop, gone));
    var sent := if outcome.Success? then data else [];
    SendResultClients(d1, uid, kind, sent, text, env);
    if !d.agent.isLoaded || !Has(d.clients, uid) {
      NothingTouched(d, d');
    } else if StateOf(d.clients, uid) != Some(Processing) || (outcome.Success? && data == []) {
      EndTouchesOne(d, d', d.clients, uid, gone);
    } else {
      EndTouchesOne(d, d', SendResult(d1, uid, kind, sent, text, env).0.clients, uid, gone);
    }
  }

  lemma TimeoutTimed(d: State, env: Env)
    requires Good(d.clients) && Timely(d)
    ensures Calm(d, DoTimeout(d, env)) && LoopGrows(d.loop, DoTimeout(d, env).loop, None)
    ensures forall v :: StateOf(DoTimeout(d, env).clients, v) != Some(Processing)
  {
    hide Timed, Calm, Timely, SendResult, RecognizeCancel, WithState, LoopGrows, SessionOf;
    TimelyLoop(d);
    LoopAdds(d.loop, CheckRecording, 0, None);
    var uid := FirstIn(d.clients, Processing);
    var d' := DoTimeout(d, env);
    if uid == -1 {
      NothingTouched(d, d');
    } else {
      var d1 := d.(agent := RecognizeCancel(d.agent, env.calls.cancel).0);
      SendResultClients(d1, uid, Some(FREE), [], Some(TIMED_OUT_TEXT), env);
      EndTouchesOne(d, d', SendResult(d1, uid, Some(FREE), [], Some(TIMED_OUT_TEXT), env).0.clients, uid, None);
    }
    TimeoutSession(d, env);
    forall v ensures StateOf(d'.clients, v) != Some(Processing) {
      SessionIs(d'.clients, v);
      SessionIs(d.clients, v);
    }
  }

  lemma CheckTimed(d: State, env: Env)
    requires Good(d.clients) && Timely(d)
    ensures Calm(d, DoCheck(d, env).0)
  {
    hide Timed, Calm, Timely, DoFinalize, DoCancel, LoopGrows;
    TimelyLoop(d);
    LoopAdds(d.loop, CheckRecording, 0, None);
    NothingTouched(d, d);
    var uid := FirstIn(d.clients, Recording);
    FinalizeTimed(d, uid, env);
    CancelTimed(d, uid, env);
  }

  /** Deadlines carry through a middle state that does not take clients out of processing only to put them back. */
  lemma KeepsDeadlineChain(d: State, d1: State, d2: State)
    requires KeepsDeadline(d, d1) && KeepsDeadline(d1, d2)
    requires forall v :: StateOf(d.clients, v) == Some(Processing) && StateOf(d2.clients, v) == Some(Processing) ==>
      StateOf(d1.clients, v) == Some(Processing)
    ensures KeepsDeadline(d, d2)
  {
  }

  lemma KeepsWatchChain(d: State, d1: State, d2: State)
    requires KeepsWatch(d, d1) && KeepsWatch(d1, d2)
    requires forall v :: StateOf(d.clients, v) == Some(Recording) && StateOf(d2.clients, v) == Some(Recording) ==>
      StateOf(d1.clients, v) == Some(Recording)
    ensures KeepsWatch(d, d2)
  {
  }

  lemma NobodyRecords(d: State, d': State)
    requires forall v :: StateOf(d'.clients, v) != Some(Recording)
    ensures KeepsWatch(d, d')
  {
  }

  lemma SilenceTimed(d: State, env: Env)
    requires Good(d.clients) && Timely(d)
    ensures Calm(d, DoSilence(d, env).0)
  {
    hide Timely, DoStop, DoFinalize, LoopGrows, KeepsDeadline, KeepsWatch, SessionOf;
    TimelyLoop(d);
    LoopAdds(d.loop, CheckRecording, 0, None);
    NothingTouched(d, d);
    var uid := FirstIn(d.clients, Recording);
    if uid > 0 {
      var d1, d2 := DoStop(d, uid, env).0, DoFinalize(DoStop(d, uid, env).0, uid, env).0;
      CurrentIs(d.clients, Recording);
      StopTimed(d, uid, env);
      StopSession(d, uid, env);
      FinalizeTimed(d1, uid, env);
      FinalizeSession(d1, uid, env);
      SessionIs(d.clients, uid);
      forall v ensures StateOf(d.clients, v) != Some(Processing) && StateOf(d2.clients, v) != Some(Recording) {
        SessionIs(d.clients, v);
        SessionIs(d2.clients, v);
      }
      KeepsDeadlineChain(d, d1, d2);
      NobodyRecords(d, d2);
    }
  }

  ghost predicate Unaltered(l: Loop, l': Loop) {
    forall id :: id in l.timers && id in l'.timers ==> l'.timers[id] == l.timers[id]
  }

  lemma CheckUnaltered(d: State, env: Env)
    ensures Unaltered(d.loop, DoCheck(d, env).0.loop)
    ensures DoCheck(d, env).1 ==> DoCheck(d, env).0 == d
  {
    hide DoCheck, DoFinalize, DoCancel, FirstIn, PidOf, Acknowledged, Unaltered;
    CheckCases(d, env);
    FinalizeLoop(d, FirstIn(d.clients, Recording), env);
    CancelLoop(d, FirstIn(d.clients, Recording), env);
    UnalteredItself(d.loop);
  }

  lemma UnalteredItself(l: Loop)
    ensures Unaltered(l, l)
  {
  }

  lemma SilenceUnaltered(d: State, env: Env)
    requires Issued(d.loop)
    ensures Unaltered(d.loop, DoSilence(d, env).0.loop)
  {
    hide RecognizeStop, RecognizeCancel, CancelRec, WithState, WithTimer, Without, UnloadCurrent, StopRecorder;
    hide StateOf, TimerOf, FirstIn, Acknowledged;
    StopRecorderTimers(d, env);
  }

  /** A timer that has fired, and is nobody's time-out, may be dropped or renewed. */
  lemma DropsFired(d: State, d1: State, d2: State, id: nat)
    requires Calm(d, d1) && Unaltered(d.loop, d1.loop) && d1.loop.next >= d.loop.next
    requires id in d.loop.timers && Issued(d.loop)
    requires !d.loop.timers[id].kind.ProcessingTimeout? || forall v :: StateOf(d1.clients, v) != Some(Processing)
    requires d2.clients == d1.clients && d2.loop.now == d1.loop.now && d2.loop.next == d1.loop.next
    requires forall k :: k != id ==> (k in d2.loop.timers <==> k in d1.loop.timers)
    requires forall k :: k != id && k in d1.loop.timers ==> d2.loop.timers[k] == d1.loop.timers[k]
    ensures Timed(d, d2)
    ensures !d.loop.timers[id].kind.CheckRecording? ==> Calm(d, d2)
  {
    forall v | StateOf(d2.clients, v) == Some(Processing)
      ensures Armed(d2.loop, TimerOf(d2.clients, v))
      ensures d2.loop.timers[TimerOf(d2.clients, v).value] == d1.loop.timers[TimerOf(d1.clients, v).value]
    {
      assert Armed(d1.loop, TimerOf(d1.clients, v));
    }
  }

  predicate ChecksNow(d: State, e: Event) {
    e.Fire? && IsDue(d.loop, e.id) && d.loop.timers[e.id].kind.CheckRecording?
  }

  lemma FireTimed(d: State, id: nat, env: Env)
    requires Good(d.clients) && Timely(d)
    ensures Timed(d, DoFire(d, id, env).0)
    ensures !ChecksNow(d, Fire(id)) ==> Calm(d, DoFire(d, id, env).0)
  {
    hide Timed, Calm, Timely, DoCheck, DoTimeout, DoSilence, Unaltered, OwnTimers, Armed, KeepsDeadline, KeepsWatch;
    var d' := DoFire(d, id, env).0;
    TimelyLoop(d);
    if !IsDue(d.loop, id) {
      LoopAdds(d.loop, CheckRecording, 0, None);
      NothingTouched(d, d);
      CalmTimed(d, d);
    } else {
      match d.loop.timers[id].kind
      case CheckRecording =>
        CheckTimed(d, env);
        CheckUnaltered(d, env);
        CheckNext(d, env);
        DropsFired(d, DoCheck(d, env).0, d', id);
      case ProcessingTimeout =>
        TimeoutTimed(d, env);
        TimeoutLoop(d, env);
        DropsFired(d, DoTimeout(d, env), d', id);
      case StopBySilence =>
        SilenceTimed(d, env);
        SilenceUnaltered(d, env);
        SilenceNext(d, env);
        DropsFired(d, DoSilence(d, env).0, d', id);
    }
  }

  lemma CalmTimed(d: State, d': State)
    requires Calm(d, d')
    ensures Timed(d, d') && Timely(d') && KeepsDeadline(d, d') && KeepsWatch(d, d') && d'.loop.now == d.loop.now
  {
  }

  lemma TimeoutLoop(d: State, env: Env)
    ensures DoTimeout(d, env).loop == d.loop && Unaltered(d.loop, d.loop)
  {
    hide RecognizeCancel, WithState, Without;
  }

  lemma FinalizeLoop(d: State, uid: int, env: Env)
    ensures DoFinalize(d, uid, env).0.loop == d.loop
  {
    hide RecognizeCancel, CancelRec, Without, UnloadCurrent, StateOf;
  }

  lemma CancelLoop(d: State, uid: int, env: Env)
    ensures DoCancel(d, uid, env).0.loop.next == d.loop.next
    ensures Unaltered(d.loop, DoCancel(d, uid, env).0.loop)
  {
    hide RecognizeCancel, CancelRec, WithState, StateOf, TimerOf, Has;
  }

  lemma StopLoop(d: State, uid: int, env: Env)
    ensures DoStop(d, uid, env).0.loop.next >= d.loop.next
  {
    hide RecognizeStop, WithState, WithTimer, StateOf, TimerOf, Has, FirstIn, ReplayRefused, StopRec;
  }

  lemma CheckNext(d: State, env: Env)
    ensures DoCheck(d, env).0.loop.next == d.loop.next
  {
    hide DoCheck, DoFinalize, DoCancel, FirstIn, PidOf, Acknowledged;
    CheckCases(d, env);
    FinalizeLoop(d, FirstIn(d.clients, Recording), env);
    CancelLoop(d, FirstIn(d.clients, Recording), env);
  }

  lemma SilenceNext(d: State, env: Env)
    ensures DoSilence(d, env).0.loop.next >= d.loop.next
  {
    hide DoStop, DoFinalize, FirstIn, Acknowledged;
    var uid := FirstIn(d.clients, Recording);
    StopLoop(d, uid, env);
    FinalizeLoop(DoStop(d, uid, env).0, uid, env);
  }

  lemma {:induction false} CleanupTimed(d: State, uids: seq<int>, visits: seq<Visit>)
    requires Good(d.clients) && Timely(d) && |uids| == |visits|
    ensures Calm(d, CleanupFrom(d, uids, visits))
    decreases |uids|
  {
    hide DoFinalize, Timely, KeepsDeadline, KeepsWatch, SessionOf;
    TimelyLoop(d);
    LoopAdds(d.loop, CheckRecording, 0, None);
    NothingTouched(d, d);
    if uids != [] {
      var d1 := if HelloResult(d, uids[0], visits[0].hello) == 0 then DoFinalize(d, uids[0], visits[0].env).0 else d;
      var d2 := CleanupFrom(d1, uids[1..], visits[1..]);
      FinalizeTimed(d, uids[0], visits[0].env);
      FinalizeSession(d, uids[0], visits[0].env);
      CleanupTimed(d1, uids[1..], visits[1..]);
      CleanupSession(d1, uids[1..], visits[1..]);
      forall v, st | StateOf(d2.clients, v) == Some(st) && st != Ready ensures StateOf(d1.clients, v) == Some(st) {
        SessionIs(d2.clients, v);
        SessionIs(d1.clients, v);
      }
      KeepsDeadlineChain(d, d1, d2);
      KeepsWatchChain(d, d1, d2);
    }
  }

  lemma TickTimed(d: State, ms: nat)
    requires Timely(d) && forall id :: id in d.loop.timers ==> d.loop.now + ms <= d.loop.timers[id].due
    ensures var d' := d.(loop := d.loop.(now := d.loop.now + ms)); Timed(d, d') && KeepsWatch(d, d')
  {
    var d' := d.(loop := d.loop.(now := d.loop.now + ms));
    forall v | StateOf(d.clients, v) == Some(Processing) ensures Armed(d'.loop, TimerOf(d'.clients, v)) {
      assert Armed(d.loop, TimerOf(d.clients, v));
    }
  }

  lemma QueueTimed(d: State)
    requires Timely(d)
    ensures Calm(d, QueueSilence(d))
  {
    hide Timed, Calm, Timely, LoopGrows;
    TimelyLoop(d);
    LoopAdds(d.loop, StopBySilence, 0, None);
    NothingTouched(d, QueueSilence(d));
  }

  lemma SettingKeepsLoop(d: State, e: Event, env: Env)
    requires d.agent.conf.engineId.Some?
    requires IsSetting(e)
    ensures var d' := Step(d, e, env); d'.loop == d.loop && d'.clients == d.clients
  {
    hide SetEngine, SetDefault, SetDefaultLang, RefreshList, LoadCurrent, UnloadCurrent, InitializeCurrent;
  }

  lemma StepCalm(d: State, e: Event, env: Env)
    requires Good(d.clients) && Timely(d) && d.agent.conf.engineId.Some? && !e.Tick? && !ChecksNow(d, e)
    ensures Calm(d, Step(d, e, env))
  {
    hide DoInitialize, DoFinalize, DoStart, DoStop, DoCancel, DoResult, DoFire, CleanupFrom, StopRecorder, Timely,
        Calm, Good;
    hide DoSetting, DoSettingInitialize, DoSettingFinalize, LoopGrows, QueueSilence;
    TimelyLoop(d);
    LoopAdds(d.loop, CheckRecording, 0, None);
    NothingTouched(d, d);
    match e
    case Initialize(pid, uid) => InitializeTimed(d, pid, uid, env);
    case Finalize(uid) => FinalizeTimed(d, uid, env);
    case Start(uid, lang, p, u, s) => StartTimed(d, uid, lang, p, u, s, env);
    case Stop(uid) => StopTimed(d, uid, env);
    case Cancel(uid) => CancelTimed(d, uid, env);
    case Result(uid, outcome, kind, data, text) => ResultTimed(d, uid, outcome, kind, data, text, env);
    case CamcorderStops =>
      StopRecorderKeepsClients(d, env);
      StopRecorderTimers(d, env);
      NothingTouched(d, StopRecorder(d, env));
    case CamcorderCancels => NothingTouched(d, Step(d, e, env));
    case Fire(id) => FireTimed(d, id, env);
    case Cleanup(visits) => if |visits| == |d.clients| { CleanupTimed(d, Uids(d.clients), visits); }
    case SilenceDetected => QueueTimed(d);
    case AudioChunk => QueueTimed(d);
    case Tick(ms) =>
    case _ =>
      SettingKeepsLoop(d, e, env);
      NothingTouched(d, Step(d, e, env));
  }

  /** Every step of a punctual main loop keeps every time-out live and in time, whatever stale timers fire,
      and never moves the deadline of a client that stays in processing. */
  lemma StepTimed(d: State, e: Event, env: Env)
    requires Good(d.clients) && Timely(d) && d.agent.conf.engineId.Some? && Punctual(d, e)
    ensures Timely(Step(d, e, env)) && KeepsDeadline(d, Step(d, e, env))
  {
    hide Step, Calm, Timely, KeepsDeadline, DoFire, Good;
    if e.Tick? {
      TickTimed(d, e.ms);
      TickIs(d, e.ms, env);
    } else if ChecksNow(d, e) {
      FireTimed(d, e.id, env);
      FireIs(d, e.id, env);
    } else {
      StepCalm(d, e, env);
      CalmTimed(d, Step(d, e, env));
    }
  }

  lemma TickIs(d: State, ms: nat, env: Env)
    requires d.agent.conf.engineId.Some?
    ensures Step(d, Tick(ms), env) == d.(loop := d.loop.(now := d.loop.now + ms))
  {
  }

  lemma FireIs(d: State, id: nat, env: Env)
    requires d.agent.conf.engineId.Some?
    ensures Step(d, Fire(id), env) == DoFire(d, id, env).0
  {
    hide DoFire;
  }

  // ---- The watchdog's timer ----

  /** The watchdog of a recording client is live, and due no later than the state-check time from now. */
  predicate Watching(l: Loop, t: Option<nat>) {
    && t.Some? && t.value in l.timers
    && l.timers[t.value].kind.CheckRecording?
    && l.now <= l.timers[t.value].due <= l.now + STATE_CHECK_TIME
  }

  ghost predicate Watched(d: State) {
    forall uid :: StateOf(d.clients, uid) == Some(Recording) ==> Watching(d.loop, TimerOf(d.clients, uid))
  }

  /** The watchdog's own cancel request reaches the engine. */
  predicate WatchRely(d: State, e: Event, env: Env) {
    ChecksNow(d, e) ==> d.agent.isLoaded && env.calls.cancel.Accepted?
  }

  lemma StartWatched(d: State, uid: int, lang: string, p: int, u: int, s: int, env: Env)
    requires Good(d.clients) && DoStart(d, uid, lang, p, u, s, env).1 == 0
    ensures var d' := DoStart(d, uid, lang, p, u, s, env).0; Watching(d'.loop, TimerOf(d'.clients, uid))
  {
    hide RecognizeStart, RecognizeCancel, StartGuard, WithState, WithTimer;
    var w := WithState(d.clients, uid, Recording);
    StartSession(d, uid, lang, p, u, s, env);
    StartRegistered(d, uid, lang, p, u, s, env);
    GuardRegistered(d, uid, env);
    Taken(d.clients, uid);
    AfterWithState(d.clients, uid, Recording, uid);
    AfterWithTimer(w, uid, Some(d.loop.next), uid);
  }

  lemma GuardRegistered(d: State, uid: int, env: Env)
    ensures StartGuard(d, uid, env) == 0 ==> Has(d.clients, uid)
  {
  }

  /** After a check the client is being watched on, or no longer recording. */
  lemma CheckWatched(d: State, id: nat, env: Env)
    requires Good(d.clients) && Watched(d) && ChecksNow(d, Fire(id)) && WatchRely(d, Fire(id), env)
    ensures Watched(DoFire(d, id, env).0)
  {
    hide DoCheck, SessionOf, Good;
    var d1, d' := DoCheck(d, env).0, DoFire(d, id, env).0;
    if DoCheck(d, env).1 {
      CheckUnaltered(d, env);
      forall v | StateOf(d.clients, v) == Some(Recording) ensures Watching(d'.loop, TimerOf(d'.clients, v)) {
        assert Watching(d.loop, TimerOf(d.clients, v));
      }
    } else {
      CheckEnds(d, env);
      forall v ensures StateOf(d'.clients, v) != Some(Recording) {
        CheckSession(d, env);
        SessionIs(d1.clients, v);
      }
    }
  }

  lemma CheckEnds(d: State, env: Env)
    requires Good(d.clients) && !DoCheck(d, env).1 && d.agent.isLoaded && env.calls.cancel.Accepted?
    ensures var s := SessionOf(DoCheck(d, env).0.clients); s.Held? ==> s.st != Recording
  {
    hide DoFinalize, DoCancel, Good;
    var uid := FirstIn(d.clients, Recording);
    if uid != -1 {
      CurrentIs(d.clients, Recording);
      SessionIs(d.clients, uid);
      FinalizeSession(d, uid, env);
      CancelSession(d, uid, env);
      CancelSucceeds(d, uid, env);
    } else if SessionOf(d.clients).Held? {
      SessionIs(d.clients, SessionOf(d.clients).uid);
    }
  }

  lemma CancelSucceeds(d: State, uid: int, env: Env)
    requires Has(d.clients, uid) && StateOf(d.clients, uid) != Some(Ready)
    requires d.agent.isLoaded && env.calls.cancel.Accepted?
    ensures DoCancel(d, uid, env).1 == 0
  {
  }

  /** Every recording client stays under a live watchdog, whatever stale timers fire. */
  lemma StepWatched(d: State, e: Event, env: Env)
    requires Good(d.clients) && Timely(d) && d.agent.conf.engineId.Some? && PositiveUid(e)
    requires Punctual(d, e) && WatchRely(d, e, env) && Watched(d)
    ensures Watched(Step(d, e, env))
  {
    hide Step, Calm, Timely, KeepsDeadline, DoFire, Good, SessionOf, WatchRely;
    var d' := Step(d, e, env);
    if ChecksNow(d, e) {
      CheckWatched(d, e.id, env);
      FireIs(d, e.id, env);
    } else {
      StepSession(d, e, env);
      if e.Tick? {
        TickTimed(d, e.ms);
        TickIs(d, e.ms, env);
      } else {
        StepCalm(d, e, env);
        CalmTimed(d, d');
      }
      forall v | StateOf(d'.clients, v) == Some(Recording) ensures Watching(d'.loop, TimerOf(d'.clients, v)) {
        SessionIs(d'.clients, v);
        SessionIs(d.clients, v);
        if StateOf(d.clients, v) == Some(Recording) {
          assert Watching(d.loop, TimerOf(d.clients, v));
        } else {
          StartIs(d, e, env);
          StartSession(d, e.uid, e.lang, e.p, e.u, e.s, env);
          StartWatched(d, e.uid, e.lang, e.p, e.u, e.s, env);
        }
      }
    }
  }

  lemma StartIs(d: State, e: Event, env: Env)
    requires d.agent.conf.engineId.Some? && e.Start?
    ensures Step(d, e, env) == DoStart(d, e.uid, e.lang, e.p, e.u, e.s, env).0
  {
    hide DoStart;
  }

  /** Only a check moves the watchdog's timer. */
  lemma WatchStays(d: State, e: Event, env: Env)
    requires Good(d.clients) && Timely(d) && d.agent.conf.engineId.Some? && Punctual(d, e) && !ChecksNow(d, e)
    ensures KeepsWatch(d, Step(d, e, env))
  {
    hide Step, Calm, Timely, KeepsDeadline, KeepsWatch, Good;
    if e.Tick? {
      TickTimed(d, e.ms);
      TickIs(d, e.ms, env);
    } else {
      StepCalm(d, e, env);
      CalmTimed(d, Step(d, e, env));
    }
  }

  // ---- No time-out before its time ----

  /** No time-out is live that was not before. */
  ghost predicate NoNewTimeouts(l: Loop, l': Loop) {
    forall id :: id in l'.timers && l'.timers[id].kind.ProcessingTimeout? ==>
      id in l.timers && l.timers[id] == l'.timers[id]
  }

  predicate ProcessingNow(d: State) {
    SessionOf(d.clients).Held? && SessionOf(d.clients).st.Processing?
  }

  lemma ProcessingMeans(d: State, v: int)
    requires Good(d.clients) && ProcessingNow(d)
    ensures FirstIn(d.clients, Recording) == -1 && FirstIn(d.clients, Processing) > 0
    ensures StateOf(d.clients, v) != Some(Recording)
  {
    SessionIs(d.clients, SessionOf(d.clients).uid);
    SessionIs(d.clients, v);
  }

  lemma TimersDropped(l: Loop, t: Option<nat>)
    ensures NoNewTimeouts(l, l) && NoNewTimeouts(l, DelTimer(l, t))
    ensures NoNewTimeouts(l, AddTimer(l, StopBySilence, 0))
  {
  }

  lemma RequestsAddNoTimeout(d: State, e: Event, env: Env)
    requires Good(d.clients) && ProcessingNow(d)
    requires e.Start? || e.Stop? || e.Cancel? || e.CamcorderStops?
    ensures e.Start? ==> DoStart(d, e.uid, e.lang, e.p, e.u, e.s, env).0.loop == d.loop
    ensures e.Stop? ==> DoStop(d, e.uid, env).0.loop == d.loop
    ensures e.Cancel? ==> NoNewTimeouts(d.loop, DoCancel(d, e.uid, env).0.loop)
    ensures e.CamcorderStops? ==> NoNewTimeouts(d.loop, StopRecorder(d, env).loop)
  {
    hide SessionOf, Good, RecognizeStart, RecognizeCancel, NoNewTimeouts, CancelRec, StopRec, WithState;
    hide ReplayRefused, FirstIn, StateOf, TimerOf, AddTimer, DelTimer, Has, NeedNetwork, ProcessingNow;
    ProcessingMeans(d, if e.CamcorderStops? then 0 else e.uid);
    TimersDropped(d.loop, if e.Cancel? then TimerOf(d.clients, e.uid) else None);
  }

  lemma FireAddsNoTimeout(d: State, id: nat, env: Env)
    requires Good(d.clients) && ProcessingNow(d)
    ensures NoNewTimeouts(d.loop, DoFire(d, id, env).0.loop)
  {
    hide SessionOf, Good, DoCheck, DoTimeout, DoFinalize, DoStop, DoCancel, FirstIn, PidOf;
    hide NoNewTimeouts, ProcessingNow;
    ProcessingMeans(d, 0);
    CheckCases(d, env);
    TimeoutLoop(d, env);
    TimersDropped(d.loop, Some(id));
  }

  lemma ResultAddsNoTimeout(d: State, e: Event, env: Env)
    requires e.Result?
    ensures NoNewTimeouts(d.loop, DoResult(d, e.uid, e.outcome, e.kind, e.data, e.text, env).loop)
  {
    hide SendResult, WithState, NoNewTimeouts, DelTimer, TimerOf, StateOf, Has;
    var d1 := d.(agent := ResultReported(d.agent, env.resultEnds), loop := DelTimer(d.loop, TimerOf(d.clients, e.uid)));
    SendResultClients(d1, e.uid, e.kind, if e.outcome.Success? then e.data else [], e.text, env);
    TimersDropped(d.loop, TimerOf(d.clients, e.uid));
  }

  lemma {:induction false} CleanupLoop(d: State, uids: seq<int>, visits: seq<Visit>)
    requires |uids| == |visits|
    ensures CleanupFrom(d, uids, visits).loop == d.loop
    decreases |uids|
  {
    hide DoFinalize;
    if uids != [] {
      FinalizeLoop(d, uids[0], visits[0].env);
      var d1 := if HelloResult(d, uids[0], visits[0].hello) == 0 then DoFinalize(d, uids[0], visits[0].env).0 else d;
      CleanupLoop(d1, uids[1..], visits[1..]);
    }
  }

  /** While somebody is in processing, no time-out is added. */
  lemma StepAddsNoTimeout(d: State, e: Event, env: Env)
    requires Good(d.clients) && ProcessingNow(d) && d.agent.conf.engineId.Some?
    ensures NoNewTimeouts(d.loop, Step(d, e, env).loop)
  {
    hide DoInitialize, DoFinalize, DoStart, DoStop, DoCancel, DoResult, DoFire, CleanupFrom, StopRecorder, Good;
    hide DoSetting, DoSettingInitialize, DoSettingFinalize, SessionOf, ProcessingNow, SomebodyRecords;
    TimersDropped(d.loop, None);
    match e
    case Initialize(pid, uid) => InitializeClients(d, pid, uid, env);
    case Finalize(uid) => FinalizeLoop(d, uid, env);
    case Start(uid, lang, p, u, s) => RequestsAddNoTimeout(d, e, env);
    case Stop(uid) => RequestsAddNoTimeout(d, e, env);
    case Cancel(uid) => RequestsAddNoTimeout(d, e, env);
    case CamcorderStops => RequestsAddNoTimeout(d, e, env);
    case Result(uid, outcome, kind, data, text) => ResultAddsNoTimeout(d, e, env);
    case Fire(id) => FireAddsNoTimeout(d, id, env);
    case Cleanup(visits) => if |visits| == |d.clients| { CleanupLoop(d, Uids(d.clients), visits); }
    case SilenceDetected =>
    case AudioChunk =>
    case CamcorderCancels =>
    case Tick(ms) =>
    case _ => SettingKeepsLoop(d, e, env);
  }

  /** A stop gives its client the whole state-check time. */
  lemma StopFullTime(d: State, uid: int, env: Env)
    requires Good(d.clients) && DoStop(d, uid, env).1 == 0
    ensures var d' := DoStop(d, uid, env).0; var t := TimerOf(d'.clients, uid);
      && d'.loop.now == d.loop.now && t.Some? && t.value in d'.loop.timers && t.value >= d.loop.next
      && d'.loop.timers[t.value] == Timer(ProcessingTimeout, d.loop.now + STATE_CHECK_TIME)
  {
    hide StopRecorder, RecognizeStop, WithState, WithTimer, Good;
    var d1 := StopRecorder(d, env);
    StopRecorderKeepsClients(d, env);
    StopRecorderClock(d, env);
    StopCode(d.agent, env.calls.stop);
    Advanced(d.clients, uid);
    var l := DelTimer(d1.loop, TimerOf(d.clients, uid));
    GoodUnique(WithState(d.clients, uid, Processing));
    AfterWithTimer(WithState(d.clients, uid, Processing), uid, Some(l.next), uid);
    AfterWithState(d.clients, uid, Processing, uid) by { GoodUnique(d.clients); }
    StateMeansHas(WithState(d.clients, uid, Processing), uid);
  }

  lemma GoodUnique(cs: seq<Client>)
    requires Good(cs)
    ensures Unique(cs)
  {
  }

  lemma StateMeansHas(cs: seq<Client>, uid: int)
    ensures StateOf(cs, uid).Some? <==> Has(cs, uid)
  {
  }

  lemma StopRecorderClock(d: State, env: Env)
    ensures var d1 := StopRecorder(d, env); d1.loop.now == d.loop.now && d1.loop.next >= d.loop.next
  {
  }

  /** However a client comes to be in processing, its time-out is a whole state-check time away. */
  lemma EntersWithFullTime(d: State, e: Event, env: Env, uid: int)
    requires Good(d.clients) && Issued(d.loop) && d.agent.conf.engineId.Some? && PositiveUid(e)
    ensures var d' := Step(d, e, env); var t := TimerOf(d'.clients, uid);
      StateOf(d.clients, uid) != Some(Processing) && StateOf(d'.clients, uid) == Some(Processing) ==>
        t.Some? && t.value in d'.loop.timers && d'.loop.timers[t.value].due == d'.loop.now + STATE_CHECK_TIME
  {
    hide Step, Good, SessionOf, DoStop, DoFire, Issued;
    var d' := Step(d, e, env);
    StepSession(d, e, env);
    SessionIs(d'.clients, uid);
    SessionIs(d.clients, uid);
    if StateOf(d.clients, uid) != Some(Processing) && StateOf(d'.clients, uid) == Some(Processing) {
      if e.Stop? {
        StopIs(d, uid, env);
        StopSession(d, uid, env);
        StopFullTime(d, uid, env);
      } else {
        FireIs(d, e.id, env);
        FireFullTime(d, e.id, env, uid);
      }
    }
  }

  lemma StopIs(d: State, uid: int, env: Env)
    requires d.agent.conf.engineId.Some?
    ensures Step(d, Stop(uid), env) == DoStop(d, uid, env).0
  {
    hide DoStop;
  }

  /** Only a stop by silence brings a client into processing out of a timer. */
  lemma NeitherEnters(d: State, env: Env, uid: int)
    requires Good(d.clients) && StateOf(d.clients, uid) != Some(Processing)
    ensures StateOf(DoCheck(d, env).0.clients, uid) != Some(Processing)
    ensures StateOf(DoTimeout(d, env).clients, uid) != Some(Processing)
  {
    hide Good, SessionOf, DoCheck, DoTimeout, StateOf;
    CheckSession(d, env);
    TimeoutSession(d, env);
    SessionIs(d.clients, uid);
    SessionIs(DoCheck(d, env).0.clients, uid);
    SessionIs(DoTimeout(d, env).clients, uid);
  }

  lemma SilenceFullTime(d: State, env: Env, uid: int)
    requires Good(d.clients) && StateOf(d.clients, uid) != Some(Processing)
    ensures var d' := DoSilence(d, env).0; var t := TimerOf(d'.clients, uid);
      StateOf(d'.clients, uid) == Some(Processing) ==>
        && t.Some? && t.value in d'.loop.timers && t.value >= d.loop.next && d'.loop.now == d.loop.now
        && d'.loop.timers[t.value].due == d'.loop.now + STATE_CHECK_TIME
  {
    hide Good, SessionOf, DoStop, DoFinalize, FirstIn, Acknowledged, StateOf, TimerOf;
    var holder := FirstIn(d.clients, Recording);
    var d1 := DoStop(d, holder, env).0;
    var d2 := DoFinalize(d1, holder, env).0;
    SessionIs(d.clients, uid);
    StopSession(d, holder, env);
    SessionIs(d1.clients, uid);
    FinalizeSession(d1, holder, env);
    SessionIs(d2.clients, uid);
    if DoStop(d, holder, env).1 == 0 { StopFullTime(d, holder, env); }
  }

  lemma FireFullTime(d: State, id: nat, env: Env, uid: int)
    requires Good(d.clients) && Issued(d.loop)
    ensures var d' := DoFire(d, id, env).0; var t := TimerOf(d'.clients, uid);
      StateOf(d.clients, uid) != Some(Processing) && StateOf(d'.clients, uid) == Some(Processing) ==>
        t.Some? && t.value in d'.loop.timers && d'.loop.timers[t.value].due == d'.loop.now + STATE_CHECK_TIME
  {
    hide Good, DoCheck, DoTimeout, DoSilence, StateOf, TimerOf;
    if StateOf(d.clients, uid) != Some(Processing) {
      NeitherEnters(d, env, uid);
      SilenceFullTime(d, env, uid);
    }
  }

  /** No live time-out is due before the client's own. */
  ghost predicate Foremost(d: State, uid: int) {
    var t := TimerOf(d.clients, uid);
    && t.Some? && t.value in d.loop.timers
    && (forall id :: id in d.loop.timers && d.loop.timers[id].kind.ProcessingTimeout? ==>
          d.loop.timers[id].due >= d.loop.timers[t.value].due)
  }

  /** Of a stale time-out due earlier the client's session dies before its time; waiting for that time-out is
      punctual if nothing else is due before it. */
  lemma EarlierTimeoutEnds(d: State, uid: int, id: nat, env: Env)
    requires Good(d.clients) && Timely(d) && d.agent.conf.engineId.Some? && StateOf(d.clients, uid) == Some(Processing)
    requires id in d.loop.timers && d.loop.timers[id].kind.ProcessingTimeout? && d.loop.now <= d.loop.timers[id].due
    requires d.loop.timers[id].due < d.loop.timers[TimerOf(d.clients, uid).value].due
    ensures var d1 := d.(loop := d.loop.(now := d.loop.timers[id].due)); var d2 := DoFire(d1, id, env).0;
      && Step(d, Tick(d.loop.timers[id].due - d.loop.now), env) == d1
      && ((forall k :: k in d.loop.timers ==> d.loop.timers[id].due <= d.loop.timers[k].due) ==>
            Punctual(d, Tick(d.loop.timers[id].due - d.loop.now)))
      && StateOf(d2.clients, uid) != Some(Processing) && d2.loop.now < d.loop.timers[TimerOf(d.clients, uid).value].due
  {
    hide Good, SessionOf, DoTimeout, Timely;
    var d1 := d.(loop := d.loop.(now := d.loop.timers[id].due));
    TickIs(d, d.loop.timers[id].due - d.loop.now, env);
    TimeoutSession(d1, env);
    TimeoutLoop(d1, env);
    SessionIs(d1.clients, uid);
    SessionIs(DoTimeout(d1, env).clients, uid);
  }
}
