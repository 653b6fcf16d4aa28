/** Exclusive use: the client list always describes a single session that only moves in the intended ways. */
module Sessions {
  import opened Types
  import opened ClientData
  import opened EngineAgent
  import Recorder
  import opened Daemon

  /** The one-session view of a client list. */
  datatype Session = Free | Held(uid: int, st: AppState)

  function SessionOf(cs: seq<Client>): Session {
    if FirstIn(cs, Recording) > 0 then Held(FirstIn(cs, Recording), Recording)
    else if FirstIn(cs, Processing) > 0 then Held(FirstIn(cs, Processing), Processing)
    else Free
  }

  lemma SessionIs(cs: seq<Client>, uid: int)
    requires Good(cs)
    ensures StateOf(cs, uid).Some? && StateOf(cs, uid) != Some(Ready) <==>
      SessionOf(cs).Held? && SessionOf(cs).uid == uid
    ensures SessionOf(cs).Held? && SessionOf(cs).uid == uid ==> StateOf(cs, uid) == Some(SessionOf(cs).st)
    ensures SessionOf(cs).Held? ==> SessionOf(cs).st.Recording? || SessionOf(cs).st.Processing?
    ensures SessionOf(cs).Held? && SessionOf(cs).st.Processing? ==> FirstIn(cs, Recording) == -1
    ensures StateOf(cs, uid) != Some(Created)
    ensures Has(cs, uid) ==> uid > 0
  {
    if FirstIn(cs, Recording) != -1 { CurrentIs(cs, Recording); }
    if FirstIn(cs, Processing) != -1 { CurrentIs(cs, Processing); }
    NotBoth(cs);
    if Has(cs, uid) && StateOf(cs, uid) != Some(Ready) {
      ActiveIsCurrent(cs, uid);
    }
  }

  lemma NotBothAt(cs: seq<Client>, i: nat, j: nat)
    requires Exclusive(cs) && i < |cs| && j < |cs|
    ensures !(cs[i].state == Recording && cs[j].state == Processing)
  {
  }

  lemma NotBoth(cs: seq<Client>)
    requires Good(cs)
    ensures FirstIn(cs, Recording) == -1 || FirstIn(cs, Processing) == -1
  {
    if FirstIn(cs, Recording) != -1 && FirstIn(cs, Processing) != -1 {
      CurrentIs(cs, Recording);
      CurrentIs(cs, Processing);
      NotBothAt(cs, IndexOf(cs, FirstIn(cs, Recording)), IndexOf(cs, FirstIn(cs, Processing)));
    }
  }

  lemma FreeIsAllReady(cs: seq<Client>)
    requires Good(cs)
    ensures SessionOf(cs) == Free <==> AllReady(cs)
    ensures SessionOf(cs) == Free <==> FirstIn(cs, Recording) <= 0 && FirstIn(cs, Processing) <= 0
  {
    if SessionOf(cs) == Free {
      NobodyActive(cs);
    } else {
      SessionIs(cs, SessionOf(cs).uid);
    }
  }

  /** The session left when `uid` lets go of it. */
  function Released(s: Session, uid: int): Session {
    if s.Held? && s.uid == uid then Free else s
  }

  lemma SessionsAgree(cs: seq<Client>, w: seq<Client>, s: Session)
    requires Good(w)
    requires s.Held? ==> (s.st.Recording? || s.st.Processing?) && StateOf(w, s.uid) == Some(s.st)
    requires s.Free? ==> AllReady(w)
    ensures SessionOf(w) == s
  {
    if s.Held? {
      SessionIs(w, s.uid);
    } else {
      FreeIsAllReady(w);
    }
  }

  lemma ReadyAgain(cs: seq<Client>, uid: int)
    requires Good(cs)
    ensures Good(WithState(cs, uid, Ready)) && SessionOf(WithState(cs, uid, Ready)) == Released(SessionOf(cs), uid)
  {
    var w, s := WithState(cs, uid, Ready), Released(SessionOf(cs), uid);
    if Has(cs, uid) {
      WithStateKeepsGood(cs, uid, Ready);
      AllOthersReady(cs, w, uid);
      if s.Held? {
        SessionIs(cs, s.uid);
        AfterWithState(cs, uid, Ready, s.uid);
      }
      SessionsAgree(cs, w, s);
    } else {
      SessionIs(cs, uid);
    }
  }

  lemma AllOthersReady(cs: seq<Client>, w: seq<Client>, uid: int)
    requires Good(cs) && Good(w)
    requires forall v :: StateOf(w, v).Some? && v != uid ==> StateOf(w, v) == StateOf(cs, v)
    requires StateOf(w, uid) == None || StateOf(w, uid) == Some(Ready)
    ensures Released(SessionOf(cs), uid).Free? ==> AllReady(w)
  {
    if Released(SessionOf(cs), uid).Free? {
      forall i | 0 <= i < |w| ensures w[i].state == Ready {
        var v := w[i].uid;
        IndexOfIs(w, i);
        assert StateOf(w, v) == Some(w[i].state);
        SessionIs(cs, v);
      }
    }
  }

  lemma Removed(cs: seq<Client>, uid: int)
    requires Good(cs)
    ensures Good(Without(cs, uid)) && SessionOf(Without(cs, uid)) == Released(SessionOf(cs), uid)
  {
    var w, s := Without(cs, uid), Released(SessionOf(cs), uid);
    WithoutKeepsGood(cs, uid);
    forall v ensures StateOf(w, v) == if v == uid then None else StateOf(cs, v) {
      AfterWithout(cs, uid, v);
    }
    AllOthersReady(cs, w, uid);
    if s.Held? { SessionIs(cs, s.uid); }
    SessionsAgree(cs, w, s);
  }

  lemma Retimed(cs: seq<Client>, uid: int, t: Option<nat>)
    requires Good(cs)
    ensures Good(WithTimer(cs, uid, t)) && SessionOf(WithTimer(cs, uid, t)) == SessionOf(cs)
  {
    var w, s := WithTimer(cs, uid, t), SessionOf(cs);
    AfterWithTimer(cs, uid, t, uid);
    if s.Held? {
      SessionIs(cs, s.uid);
      AfterWithTimer(cs, uid, t, s.uid);
    } else {
      FreeIsAllReady(cs);
      assert forall j :: 0 <= j < |cs| ==> w[j].state == cs[j].state;
    }
    SessionsAgree(cs, w, s);
  }

  lemma Added(cs: seq<Client>, pid: int, uid: int)
    requires Good(cs) && !Has(cs, uid) && uid > 0
    ensures Good(Plus(cs, pid, uid)) && SessionOf(Plus(cs, pid, uid)) == SessionOf(cs)
  {
    var w, s := Plus(cs, pid, uid), SessionOf(cs);
    AfterPlus(cs, pid, uid, uid);
    if s.Held? {
      SessionIs(cs, s.uid);
      AfterPlus(cs, pid, uid, s.uid);
    } else {
      FreeIsAllReady(cs);
    }
    SessionsAgree(cs, w, s);
  }

  lemma Taken(cs: seq<Client>, uid: int)
    requires Good(cs) && SessionOf(cs) == Free && Has(cs, uid)
    ensures Good(WithState(cs, uid, Recording)) && SessionOf(WithState(cs, uid, Recording)) == Held(uid, Recording)
  {
    FreeIsAllReady(cs);
    WithStateKeepsGood(cs, uid, Recording);
    AfterWithState(cs, uid, Recording, uid);
    SessionsAgree(cs, WithState(cs, uid, Recording), Held(uid, Recording));
  }

  lemma Advanced(cs: seq<Client>, uid: int)
    requires Good(cs) && StateOf(cs, uid) == Some(Recording)
    ensures SessionOf(cs) == Held(uid, Recording)
    ensures Good(WithState(cs, uid, Processing)) && SessionOf(WithState(cs, uid, Processing)) == Held(uid, Processing)
  {
    SessionIs(cs, uid);
    WithStateKeepsGood(cs, uid, Processing);
    AfterWithState(cs, uid, Processing, uid);
    SessionsAgree(cs, WithState(cs, uid, Processing), Held(uid, Processing));
  }

  // ---- What every handler does to the session ----

  lemma InitializeSession(d: State, pid: int, uid: int, env: Env)
    requires Good(d.clients) && d.agent.conf.engineId.Some? && uid > 0
    ensures var d' := DoInitialize(d, pid, uid, env).0;
      Good(d'.clients) && SessionOf(d'.clients) == SessionOf(d.clients)
  {
    InitializeClients(d, pid, uid, env);
    if !Has(d.clients, uid) { Added(d.clients, pid, uid); }
  }

  lemma InitializeClients(d: State, pid: int, uid: int, env: Env)
    requires d.agent.conf.engineId.Some?
    ensures var (d', ret) := DoInitialize(d, pid, uid, env);
      && (ret == 0 ==> !Has(d.clients, uid) && d'.clients == Plus(d.clients, pid, uid))
      && (ret != 0 ==> d'.clients == d.clients)
      && d'.settings == d.settings && d'.loop == d.loop && d'.bus == d.bus
  {
    hide InitializeCurrent, LoadCurrent, UnloadCurrent, Has, Plus;
  }

  lemma FinalizeSession(d: State, uid: int, env: Env)
    requires Good(d.clients)
    ensures var d' := DoFinalize(d, uid, env).0;
      Good(d'.clients) && SessionOf(d'.clients) == Released(SessionOf(d.clients), uid)
  {
    hide RecognizeCancel, UnloadCurrent, Recorder.CancelRec, Without, SessionOf, Good, IndexOf;
    Removed(d.clients, uid);
    SessionIs(d.clients, uid);
    NotListed(d.clients, uid);
  }

  lemma NotListed(cs: seq<Client>, uid: int)
    ensures StateOf(cs, uid).Some? <==> Has(cs, uid)
    ensures !Has(cs, uid) ==> Without(cs, uid) == cs
  {
  }

  lemma StartSession(d: State, uid: int, lang: string, p: int, u: int, s: int, env: Env)
    requires Good(d.clients)
    ensures var (d', ret) := DoStart(d, uid, lang, p, u, s, env);
      && Good(d'.clients)
      && (ret == 0 ==> SessionOf(d.clients) == Free && SessionOf(d'.clients) == Held(uid, Recording))
      && (ret != 0 ==> d'.clients == d.clients)
  {
    if StartGuard(d, uid, env) == 0 {
      FreeIsAllReady(d.clients);
      Taken(d.clients, uid);
      Retimed(WithState(d.clients, uid, Recording), uid, Some(d.loop.next));
    }
  }

  lemma StopSession(d: State, uid: int, env: Env)
    requires Good(d.clients)
    ensures var (d', ret) := DoStop(d, uid, env);
      && Good(d'.clients)
      && (ret == 0 ==> SessionOf(d.clients) == Held(uid, Recording) && SessionOf(d'.clients) == Held(uid, Processing))
      && (ret == ERROR_OPERATION_FAILED ==>
            SessionOf(d.clients) == Held(uid, Recording) && SessionOf(d'.clients) == Free)
      && (ret != 0 && ret != ERROR_OPERATION_FAILED ==> d' == d)
  {
    hide StopRecorder, RecognizeStop, SessionOf, Good, WithState, WithTimer, TimerOf;
    StopCode(d.agent, env.calls.stop);
    if StateOf(d.clients, uid) == Some(Recording) {
      Advanced(d.clients, uid);
      ReadyAgain(d.clients, uid);
      StopRecorderKeepsClients(d, env);
      var d1 := StopRecorder(d, env);
      Retimed(WithState(d.clients, uid, Processing), uid, Some(d1.loop.next));
    }
  }

  lemma StopCode(a: Agent, ans: Answer)
    ensures RecognizeStop(a, ans).1 == if a.isLoaded && ans.Accepted? then 0 else ERROR_OPERATION_FAILED
  {
  }

  lemma StopRecorderKeepsClients(d: State, env: Env)
    ensures var d1 := StopRecorder(d, env);
      d1.clients == d.clients && d1.agent == d.agent && d1.settings == d.settings && d1.bus == d.bus
        && d1.hasEngine == d.hasEngine
  {
  }

  lemma CancelSession(d: State, uid: int, env: Env)
    requires Good(d.clients)
    ensures var (d', ret) := DoCancel(d, uid, env);
      && Good(d'.clients)
      && (ret == 0 ==> SessionOf(d.clients).Held? && SessionOf(d.clients).uid == uid && SessionOf(d'.clients) == Free)
      && (ret != 0 ==> d'.clients == d.clients)
  {
    SessionIs(d.clients, uid);
    ReadyAgain(d.clients, uid);
  }

  lemma SendResultSession(d: State, uid: int, kind: Option<string>, data: seq<Option<string>>,
      text: Option<string>, env: Env)
    requires Good(d.clients)
    ensures var d' := SendResult(d, uid, kind, data, text, env).0;
      && Good(d'.clients) && Good(WithState(d'.clients, uid, Ready))
      && SessionOf(WithState(d'.clients, uid, Ready)) == Released(SessionOf(d.clients), uid)
  {
    ReadyAgain(d.clients, uid);
    Removed(d.clients, uid);
    ReadyAgain(Without(d.clients, uid), uid);
  }

  lemma ResultSession(d: State, uid: int, outcome: Outcome, kind: Option<string>, data: seq<Option<string>>,
                      text: Option<string>, env: Env)
    requires Good(d.clients)
    ensures var d' := DoResult(d, uid, outcome, kind, data, text, env);
      && Good(d'.clients)
      && SessionOf(d'.clients) == if d.agent.isLoaded then Released(SessionOf(d.clients), uid) else SessionOf(d.clients)
  {
    SessionIs(d.clients, uid);
    ReadyAgain(d.clients, uid);
    var d1 := d.(agent := ResultReported(d.agent, env.resultEnds), loop := DelTimer(d.loop, TimerOf(d.clients, uid)));
    SendResultSession(d1, uid, kind, if outcome.Success? then data else [], text, env);
  }

  lemma TimeoutSession(d: State, env: Env)
    requires Good(d.clients)
    ensures var d' := DoTimeout(d, env); var s := SessionOf(d.clients);
      && Good(d'.clients)
      && SessionOf(d'.clients) == if s.Held? && s.st.Processing? then Free else s
  {
    var uid := FirstIn(d.clients, Processing);
    if uid != -1 {
      CurrentIs(d.clients, Processing);
      SessionIs(d.clients, uid);
      var d1 := d.(agent := RecognizeCancel(d.agent, env.calls.cancel).0);
      SendResultSession(d1, uid, Some(FREE), [], Some(TIMED_OUT_TEXT), env);
    } else if SessionOf(d.clients).Held? {
      SessionIs(d.clients, SessionOf(d.clients).uid);
    }
  }

  /** What the watchdog does, by what it finds: nobody recording; a client that is gone; one that is READY or
      PROCESSING; one in order. */
  lemma CheckCases(d: State, env: Env)
    ensures var uid := FirstIn(d.clients, Recording); var (d', renew, push) := DoCheck(d, env);
      if uid == -1 then d' == d && !renew && push.None?
      else if PidOf(d.clients, uid) < 0 || env.getState.None? then
        d' == DoFinalize(d, uid, env).0 && !renew && push.None?
      else if env.getState.value == 1 then d' == DoCancel(d, uid, env).0 && !renew && push.None?
      else if env.getState.value == 3 then
        && d' == DoCancel(d, uid, env).0 && !renew
        && push == (if Acknowledged(d', uid, env) then Some((uid, Ready)) else None)
      else d' == d && renew && push.None?
  {
    hide DoFinalize, DoCancel, FirstIn, PidOf, Acknowledged;
  }

  lemma RecorderHolds(cs: seq<Client>)
    requires Good(cs) && FirstIn(cs, Recording) != -1
    ensures SessionOf(cs) == Held(FirstIn(cs, Recording), Recording)
  {
    CurrentIs(cs, Recording);
    SessionIs(cs, FirstIn(cs, Recording));
  }

  lemma CheckSession(d: State, env: Env)
    requires Good(d.clients)
    ensures var d' := DoCheck(d, env).0; var s := SessionOf(d.clients);
      && Good(d'.clients)
      && (SessionOf(d'.clients) == s || (s.Held? && SessionOf(d'.clients) == Free))
  {
    hide DoCheck, DoFinalize, DoCancel, SessionOf, Good, FirstIn, PidOf, Acknowledged;
    var uid := FirstIn(d.clients, Recording);
    CheckCases(d, env);
    if uid != -1 {
      RecorderHolds(d.clients);
      FinalizeSession(d, uid, env);
      CancelSession(d, uid, env);
    }
  }

  lemma SilenceSession(d: State, env: Env)
    requires Good(d.clients)
    ensures var d' := DoSilence(d, env).0; var s := SessionOf(d.clients);
      && Good(d'.clients)
      && (SessionOf(d'.clients) == s || (s.Held? && SessionOf(d'.clients) == Free)
          || (s.Held? && s.st.Recording? && SessionOf(d'.clients) == Held(s.uid, Processing)))
  {
    var uid := FirstIn(d.clients, Recording);
    if uid > 0 {
      StopSession(d, uid, env);
      FinalizeSession(DoStop(d, uid, env).0, uid, env);
    }
  }

  lemma FireSession(d: State, id: nat, env: Env)
    requires Good(d.clients)
    ensures var d' := DoFire(d, id, env).0; var s := SessionOf(d.clients);
      && Good(d'.clients)
      && (SessionOf(d'.clients) == s || (s.Held? && SessionOf(d'.clients) == Free)
          || (s.Held? && s.st.Recording? && SessionOf(d'.clients) == Held(s.uid, Processing)))
  {
    hide DoCheck, DoTimeout, DoSilence, SessionOf, Good;
    CheckSession(d, env);
    TimeoutSession(d, env);
    SilenceSession(d, env);
  }

  lemma {:induction false} CleanupSession(d: State, uids: seq<int>, visits: seq<Visit>)
    requires Good(d.clients) && |uids| == |visits|
    ensures var d' := CleanupFrom(d, uids, visits); var s := SessionOf(d.clients);
      && Good(d'.clients)
      && (SessionOf(d'.clients) == s || (s.Held? && SessionOf(d'.clients) == Free))
    decreases |uids|
  {
    if uids != [] {
      FinalizeSession(d, uids[0], visits[0].env);
      var d1 := if HelloResult(d, uids[0], visits[0].hello) == 0 then DoFinalize(d, uids[0], visits[0].env).0 else d;
      CleanupSession(d1, uids[1..], visits[1..]);
    }
  }

  // ---- The session over all runs ----

  /** The only ways the session moves: a start takes it for the starter, a stop or a timer turns recording
      into processing for its holder, and it ends by a step naming the holder, a timer or a cleanup. */
  predicate SessionNext(s: Session, e: Event, s': Session) {
    || s' == s
    || (s.Free? && e.Start? && s' == Held(e.uid, Recording))
    || (s.Held? && s.st.Recording? && s' == Held(s.uid, Processing) && (e.Fire? || (e.Stop? && e.uid == s.uid)))
    || (s.Held? && s'.Free? &&
          (e.Fire? || e.Cleanup? || ((e.Finalize? || e.Stop? || e.Cancel? || e.Result?) && e.uid == s.uid)))
  }

  /** Client ids are positive, as the client library makes them. */
  predicate PositiveUid(e: Event) {
    e.Initialize? ==> e.uid > 0
  }

  /** One step, with no assumption on any device: uids stay unique, nobody is in CREATED, at most one
      client is not READY, and the session moves only as SessionNext allows. */
  lemma StepSession(d: State, e: Event, env: Env)
    requires Good(d.clients) && d.agent.conf.engineId.Some? && PositiveUid(e)
    ensures Good(Step(d, e, env).clients)
    ensures SessionNext(SessionOf(d.clients), e, SessionOf(Step(d, e, env).clients))
  {
    hide DoInitialize, DoFinalize, DoStart, DoStop, DoCancel, DoResult, DoFire, CleanupFrom, StopRecorder;
    hide SessionOf, Good;
    match e
    case Initialize(pid, uid) => InitializeSession(d, pid, uid, env);
    case Finalize(uid) => FinalizeSession(d, uid, env);
    case Start(uid, lang, p, u, s) => StartSession(d, uid, lang, p, u, s, env);
    case Stop(uid) => StopSession(d, uid, env);
    case Cancel(uid) => CancelSession(d, uid, env);
    case Result(uid, outcome, kind, data, text) => ResultSession(d, uid, outcome, kind, data, text, env);
    case Fire(id) => FireSession(d, id, env);
    case Cleanup(visits) =>
      if |visits| == |d.clients| { CleanupSession(d, Uids(d.clients), visits); }
    case CamcorderStops => StopRecorderKeepsClients(d, env);
    case _ =>
  }
}
