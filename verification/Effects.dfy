/** What each daemon handler does to one client's record and its results in flight, and that it leaves
    everybody else's alone. */
module Effects {
  import opened Types
  import opened ClientData
  import opened EngineAgent
  import opened Recorder
  import opened Daemon
  import opened Sessions

  /** Results on their way to a client. */
  function InFlight(bus: seq<Message>, uid: int): nat {
    if bus == [] then 0
    else InFlight(bus[..|bus| - 1], uid) + if bus[|bus| - 1].uid == uid then 1 else 0
  }

  lemma InFlightMore(bus: seq<Message>, m: Message, v: int)
    ensures InFlight(bus + [m], v) == InFlight(bus, v) + if m.uid == v then 1 else 0
  {
    assert (bus + [m])[..|bus|] == bus;
  }

  lemma {:induction false} InFlightLess(bus: seq<Message>, i: nat, v: int)
    requires i < |bus|
    ensures InFlight(bus, v) == InFlight(bus[..i] + bus[i + 1..], v) + if bus[i].uid == v then 1 else 0
    decreases |bus|
  {
    var n, r := |bus| - 1, bus[..i] + bus[i + 1..];
    if i == n {
      assert r == bus[..n];
    } else {
      InFlightLess(bus[..n], i, v);
      assert r[..n - 1] == bus[..n][..i] + bus[..n][i + 1..];
      assert r[n - 1] == bus[n];
    }
  }

  /** A client's state, pid and results in flight. */
  datatype Status = Status(st: Option<AppState>, pid: int, flying: nat)

  function StatusOf(d: State, v: int): Status {
    Status(StateOf(d.clients, v), PidOf(d.clients, v), InFlight(d.bus, v))
  }

  ghost predicate OnlyTouches(d: State, d': State, uid: int) {
    forall v :: v != uid ==> StatusOf(d', v) == StatusOf(d, v)
  }

  const GONE := ERROR_INVALID_PARAMETER

  lemma NobodyTouched(d: State, d': State, uid: int)
    requires d'.clients == d.clients && d'.bus == d.bus
    ensures OnlyTouches(d, d', uid) && StatusOf(d', uid) == StatusOf(d, uid)
  {
  }

  lemma RemovedStatus(d: State, d': State, uid: int)
    requires Good(d.clients) && d'.clients == Without(d.clients, uid) && d'.bus == d.bus
    ensures OnlyTouches(d, d', uid) && StatusOf(d', uid) == StatusOf(d, uid).(st := None, pid := GONE)
  {
    hide Without;
    forall v ensures v != uid ==> StatusOf(d', v) == StatusOf(d, v) {
      AfterWithout(d.clients, uid, v);
      if v != uid { SameHas(d.clients, d'.clients, v); }
    }
    AfterWithout(d.clients, uid, uid);
  }

  lemma SameHas(cs: seq<Client>, ds: seq<Client>, v: int)
    requires StateOf(cs, v) == StateOf(ds, v)
    ensures Has(cs, v) == Has(ds, v)
  {
  }

  lemma MovedStatus(d: State, d': State, uid: int, st: AppState)
    requires Good(d.clients) && d'.clients == WithState(d.clients, uid, st) && d'.bus == d.bus
    ensures OnlyTouches(d, d', uid)
    ensures StatusOf(d', uid) == StatusOf(d, uid).(st := if Has(d.clients, uid) then Some(st) else None)
  {
    hide WithState;
    forall v ensures v != uid ==> StatusOf(d', v) == StatusOf(d, v) {
      AfterWithState(d.clients, uid, st, v);
    }
    AfterWithState(d.clients, uid, st, uid);
  }

  lemma RetimedStatus(d: State, d': State, uid: int, t: Option<nat>)
    requires Good(d.clients) && d'.clients == WithTimer(d.clients, uid, t) && d'.bus == d.bus
    ensures OnlyTouches(d, d', uid) && StatusOf(d', uid) == StatusOf(d, uid)
  {
    hide WithTimer;
    forall v ensures StatusOf(d', v) == StatusOf(d, v) {
      AfterWithTimer(d.clients, uid, t, v);
    }
  }

  // ---- Requests ----

  lemma InitializeStatus(d: State, pid: int, uid: int, env: Env)
    requires Good(d.clients) && d.agent.conf.engineId.Some?
    ensures var (d', ret) := DoInitialize(d, pid, uid, env);
      && OnlyTouches(d, d', uid)
      && (ret == 0 ==> StateOf(d.clients, uid).None?)
      && (ret == 0 ==> StatusOf(d', uid) == StatusOf(d, uid).(st := Some(Ready), pid := pid))
      && (ret != 0 ==> StatusOf(d', uid) == StatusOf(d, uid))
  {
    hide DoInitialize, Plus;
    var (d', ret) := DoInitialize(d, pid, uid, env);
    InitializeClients(d, pid, uid, env);
    if ret == 0 {
      forall v ensures v != uid ==> StatusOf(d', v) == StatusOf(d, v) {
        AfterPlus(d.clients, pid, uid, v);
      }
      AfterPlus(d.clients, pid, uid, uid);
    }
  }

  lemma FinalizeStatus(d: State, uid: int, env: Env)
    requires Good(d.clients)
    ensures var d' := DoFinalize(d, uid, env).0;
      OnlyTouches(d, d', uid) && StatusOf(d', uid) == StatusOf(d, uid).(st := None, pid := GONE)
  {
    hide RecognizeCancel, UnloadCurrent, Without, CancelRec, OnlyTouches;
    var d' := DoFinalize(d, uid, env).0;
    if Has(d.clients, uid) {
      RemovedStatus(d, d', uid);
    } else {
      NobodyTouched(d, d', uid);
    }
  }

  lemma StartStatus(d: State, uid: int, lang: string, p: int, u: int, s: int, env: Env)
    requires Good(d.clients)
    ensures var (d', ret) := DoStart(d, uid, lang, p, u, s, env);
      && OnlyTouches(d, d', uid)
      && (ret == 0 ==> StatusOf(d', uid) == StatusOf(d, uid).(st := Some(Recording)))
      && (ret != 0 ==> StatusOf(d', uid) == StatusOf(d, uid))
  {
    hide RecognizeStart, RecognizeCancel, WithState, WithTimer, OnlyTouches, StatusOf, NeedNetwork;
    var (d', ret) := DoStart(d, uid, lang, p, u, s, env);
    StartSession(d, uid, lang, p, u, s, env);
    if ret == 0 {
      FreeIsAllReady(d.clients);
      Taken(d.clients, uid);
      var d1 := d.(clients := WithState(d.clients, uid, Recording));
      MovedStatus(d, d1, uid, Recording);
      RetimedStatus(d1, d', uid, Some(d.loop.next));
      TouchChain(d, d1, d', uid);
    } else {
      NobodyTouched(d, d', uid);
    }
  }

  lemma TouchChain(d: State, d1: State, d2: State, uid: int)
    requires OnlyTouches(d, d1, uid) && OnlyTouches(d1, d2, uid)
    ensures OnlyTouches(d, d2, uid)
  {
  }

  /** The engine is loaded and accepts a stop. */
  predicate EngineStops(d: State, env: Env) {
    d.agent.isLoaded && env.calls.stop.Accepted?
  }

  lemma StopStatus(d: State, uid: int, env: Env)
    requires Good(d.clients)
    ensures var (d', ret) := DoStop(d, uid, env);
      && OnlyTouches(d, d', uid)
      && StatusOf(d', uid) == StatusOf(d, uid).(st :=
           if StateOf(d.clients, uid) != Some(Recording) then StateOf(d.clients, uid)
           else if EngineStops(d, env) then Some(Processing) else Some(Ready))
      && (ret == 0 <==> StateOf(d.clients, uid) == Some(Recording) && EngineStops(d, env))
  {
    hide RecognizeStop, WithState, WithTimer, OnlyTouches, StatusOf, StopRecorder;
    var d' := DoStop(d, uid, env).0;
    if StateOf(d.clients, uid) != Some(Recording) {
      NobodyTouched(d, d', uid);
      assert d' == d;
      assert StatusOf(d, uid) == StatusOf(d, uid).(st := StateOf(d.clients, uid)) by { StatusState(d, uid); }
    } else {
      StopRecorderKeepsClients(d, env);
      StopCode(d.agent, env.calls.stop);
      if !EngineStops(d, env) {
        MovedStatus(d, d', uid, Ready);
      } else {
        Advanced(d.clients, uid);
        var d1 := d.(clients := WithState(d.clients, uid, Processing));
        MovedStatus(d, d1, uid, Processing);
        RetimedStatus(d1, d', uid, Some(StopRecorder(d, env).loop.next));
        TouchChain(d, d1, d', uid);
      }
    }
  }

  lemma StatusState(d: State, uid: int)
    ensures StatusOf(d, uid).st == StateOf(d.clients, uid)
  {
  }

  lemma CancelStatus(d: State, uid: int, env: Env)
    requires Good(d.clients)
    ensures var (d', ret) := DoCancel(d, uid, env);
      && OnlyTouches(d, d', uid)
      && (ret == 0 ==> StatusOf(d', uid) == StatusOf(d, uid).(st := Some(Ready)))
      && (ret != 0 ==> StatusOf(d', uid) == StatusOf(d, uid))
      && (ret == 0 <==>
            && Has(d.clients, uid) && StateOf(d.clients, uid) != Some(Ready)
            && d.agent.isLoaded && env.calls.cancel.Accepted?)
  {
    hide WithState, OnlyTouches, StatusOf;
    var (d', ret) := DoCancel(d, uid, env);
    if ret == 0 {
      MovedStatus(d, d', uid, Ready);
    } else {
      NobodyTouched(d, d', uid);
    }
  }

  // ---- Results and time-outs ----

  /** A result of this shape reaches the bus. */
  predicate Deliverable(outcome: Outcome, data: seq<Option<string>>, env: Env) {
    env.send && (outcome.Success? ==> data != [] && AllPresent(data))
  }

  lemma SentStatus(d: State, uid: int, kind: Option<string>, data: seq<Option<string>>, text: Option<string>, env: Env)
    requires Good(d.clients) && Has(d.clients, uid)
    ensures var d' := SendResult(d, uid, kind, data, text, env).0;
      var sent := PidOf(d.clients, uid) >= 0 && AllPresent(data) && env.send;
      && Good(d'.clients) && OnlyTouches(d, d', uid)
      && StatusOf(d', uid).flying == StatusOf(d, uid).flying + (if sent then 1 else 0)
      && (AllPresent(data) || env.error || PidOf(d.clients, uid) < 0 ==> d'.clients == d.clients)
      && (!AllPresent(data) && !env.error && PidOf(d.clients, uid) >= 0 ==> !Has(d'.clients, uid))
      && (Has(d'.clients, uid) ==> StatusOf(d', uid).pid == StatusOf(d, uid).pid)
  {
    hide Without, OnlyTouches;
    var d' := SendResult(d, uid, kind, data, text, env).0;
    Removed(d.clients, uid);
    RemovedIsGone(d.clients, uid);
    if d'.clients == d.clients && d'.bus == d.bus {
      NobodyTouched(d, d', uid);
    } else if d'.bus == d.bus {
      RemovedStatus(d, d', uid);
    } else {
      var m := Message(uid, kind, text, Strings(data));
      assert OnlyTouches(d, d', uid) by { PostedStatus(d, d', m); }
      InFlightMore(d.bus, m, uid);
    }
  }

  lemma RemovedIsGone(cs: seq<Client>, uid: int)
    requires Good(cs)
    ensures !Has(Without(cs, uid), uid)
  {
    AfterWithout(cs, uid, uid);
  }

  lemma PostedStatus(d: State, d': State, m: Message)
    requires d'.clients == d.clients && d'.bus == d.bus + [m]
    ensures OnlyTouches(d, d', m.uid)
  {
    forall v ensures InFlight(d'.bus, v) == InFlight(d.bus, v) + if m.uid == v then 1 else 0 {
      InFlightMore(d.bus, m, v);
    }
  }

  /** A success for a processing client lacks a string, and the message that should say so cannot be created. */
  predicate Unspeakable(d: State, uid: int, outcome: Outcome, data: seq<Option<string>>, env: Env) {
    && StateOf(d.clients, uid) == Some(Processing) && PidOf(d.clients, uid) >= 0
    && outcome.Success? && !AllPresent(data) && !env.error
  }

  /** A result ends the client's session; it is sent exactly when the client was processing and the result
      is of a deliverable shape. The client is forgotten exactly if not even the error can be told. */
  lemma ResultStatus(d: State, uid: int, outcome: Outcome, kind: Option<string>, data: seq<Option<string>>,
                     text: Option<string>, env: Env)
    requires Good(d.clients)
    ensures var d' := DoResult(d, uid, outcome, kind, data, text, env);
      var sent := StateOf(d.clients, uid) == Some(Processing) && PidOf(d.clients, uid) >= 0
        && Deliverable(outcome, data, env);
      && OnlyTouches(d, d', uid)
      && (d.agent.isLoaded && Has(d.clients, uid) ==>
            && StatusOf(d', uid).flying == StatusOf(d, uid).flying + (if sent then 1 else 0)
            && (sent || StateOf(d.clients, uid) != Some(Processing) ==>
                  StatusOf(d', uid).st == Some(Ready) && StatusOf(d', uid).pid == StatusOf(d, uid).pid)
            && StatusOf(d', uid).st == if Unspeakable(d, uid, outcome, data, env) then None else Some(Ready))
      && (!d.agent.isLoaded || !Has(d.clients, uid) ==> StatusOf(d', uid) == StatusOf(d, uid))
      && (Has(d'.clients, uid) ==> StatusOf(d', uid).pid == StatusOf(d, uid).pid)
  {
    hide WithState, OnlyTouches, SendResult;
    var d' := DoResult(d, uid, outcome, kind, data, text, env);
    if !d.agent.isLoaded || !Has(d.clients, uid) {
      NobodyTouched(d, d', uid);
    } else {
      var d1 := d.(agent := ResultReported(d.agent, env.resultEnds), loop := DelTimer(d.loop, TimerOf(d.clients, uid)));
      NobodyTouched(d, d1, uid);
      if StateOf(d.clients, uid) != Some(Processing) || (outcome.Success? && data == []) {
        MovedStatus(d1, d', uid, Ready);
        TouchChain(d, d1, d', uid);
      } else {
        var sent := if outcome.Success? then data else [];
        SentStatus(d1, uid, kind, sent, text, env);
        var d2 := SendResult(d1, uid, kind, sent, text, env).0;
        MovedStatus(d2, d', uid, Ready);
        TouchChain(d1, d2, d', uid);
        TouchChain(d, d1, d', uid);
      }
    }
  }

  lemma TimeoutStatus(d: State, env: Env)
    requires Good(d.clients)
    ensures var d' := DoTimeout(d, env); var uid := FirstIn(d.clients, Processing);
      && OnlyTouches(d, d', uid)
      && (uid == -1 ==> d' == d)
      && (uid != -1 ==> StateOf(d.clients, uid) == Some(Processing))
      && (uid != -1 ==> StatusOf(d', uid) == StatusOf(d, uid).(st := Some(Ready),
            flying := StatusOf(d, uid).flying + if PidOf(d.clients, uid) >= 0 && env.send then 1 else 0))
  {
    hide WithState, OnlyTouches, SendResult, RecognizeCancel;
    var d', uid := DoTimeout(d, env), FirstIn(d.clients, Processing);
    if uid == -1 {
      NobodyTouched(d, d', uid);
    } else {
      CurrentIs(d.clients, Processing);
      var d1 := d.(agent := RecognizeCancel(d.agent, env.calls.cancel).0);
      NobodyTouched(d, d1, uid);
      SentStatus(d1, uid, Some(FREE), [], Some(TIMED_OUT_TEXT), env);
      var d2 := SendResult(d1, uid, Some(FREE), [], Some(TIMED_OUT_TEXT), env).0;
      MovedStatus(d2, d', uid, Ready);
      TouchChain(d1, d2, d', uid);
      TouchChain(d, d1, d', uid);
    }
  }

  // ---- Cleanup ----

  /** No visit in the pass removes `v`. */
  predicate Spared(uids: seq<int>, visits: seq<Visit>, v: int)
    requires |uids| == |visits|
  {
    forall i :: 0 <= i < |uids| && uids[i] == v ==> visits[i].hello != 0
  }

  lemma {:induction false} CleanupStatus(d: State, uids: seq<int>, visits: seq<Visit>, v: int)
    requires Good(d.clients) && |uids| == |visits|
    ensures var d' := CleanupFrom(d, uids, visits);
      && d'.bus == d.bus
      && (Spared(uids, visits, v) ==> StatusOf(d', v) == StatusOf(d, v))
      && (Has(d'.clients, v) ==> StatusOf(d', v) == StatusOf(d, v))
    decreases |uids|
  {
    hide DoFinalize, Good, SessionOf;
    if uids != [] {
      var d1 := if HelloResult(d, uids[0], visits[0].hello) == 0 then DoFinalize(d, uids[0], visits[0].env).0 else d;
      FinalizeStatus(d, uids[0], visits[0].env);
      FinalizeSession(d, uids[0], visits[0].env);
      FinalizeBus(d, uids[0], visits[0].env);
      CleanupStatus(d1, uids[1..], visits[1..], v);
      if Spared(uids, visits, v) {
        assert uids[0] == v ==> visits[0].hello != 0;
        assert Spared(uids[1..], visits[1..], v);
      }
      StatusHas(d1, v);
      StatusHas(CleanupFrom(d1, uids[1..], visits[1..]), v);
    }
  }

  lemma StatusHas(d: State, v: int)
    ensures StatusOf(d, v).st.Some? <==> Has(d.clients, v)
  {
  }

  lemma FinalizeBus(d: State, uid: int, env: Env)
    ensures DoFinalize(d, uid, env).0.bus == d.bus
  {
  }
}
