/** The daemon's periodic cleanup of clients whose handle or process is gone. */
module Cleanup {
  import opened Types
  import opened ClientData
  import opened EngineAgent
  import opened Recorder
  import opened Daemon
  import opened Sessions
  import opened Devices
  import Engines

  /** The clients that cannot be asked or did not answer 0, in their order. */
  function Survivors(cs: seq<Client>, visits: seq<Visit>): (r: seq<Client>)
    requires |cs| == |visits|
    ensures forall c :: c in r ==> c in cs
  {
    if cs == [] then []
    else (if cs[0].pid < 0 || visits[0].hello != 0 then [cs[0]] else []) + Survivors(cs[1..], visits[1..])
  }

  lemma {:induction false} SurvivesWhen(cs: seq<Client>, visits: seq<Visit>, i: nat)
    requires Unique(cs) && |cs| == |visits| && i < |cs|
    ensures Has(Survivors(cs, visits), cs[i].uid) <==> cs[i].pid < 0 || visits[i].hello != 0
  {
    hide Has;
    var rest := Survivors(cs[1..], visits[1..]);
    var head := if cs[0].pid < 0 || visits[0].hello != 0 then [cs[0]] else [];
    HasIn(head, cs[i].uid);
    HasIn(rest, cs[i].uid);
    HasIn(head + rest, cs[i].uid);
    if i == 0 {
      forall c | c in rest ensures c.uid != cs[0].uid {
        var k :| 0 <= k < |cs[1..]| && cs[1..][k] == c;
      }
    } else {
      SurvivesWhen(cs[1..], visits[1..], i - 1);
    }
  }

  lemma HasIn(cs: seq<Client>, uid: int)
    ensures Has(cs, uid) <==> exists c :: c in cs && c.uid == uid
  {
    if Has(cs, uid) { assert cs[IndexOf(cs, uid)] in cs; }
    if c :| c in cs && c.uid == uid {
      var k :| 0 <= k < |cs| && cs[k] == c;
      assert k >= IndexOf(cs, uid);
    }
  }

  lemma UidsTail(cs: seq<Client>)
    requires cs != []
    ensures Uids(cs) != [] && Uids(cs)[0] == cs[0].uid && Uids(cs)[1..] == Uids(cs[1..])
  {
  }

  lemma HeadOfRest(cs: seq<Client>, kept: seq<Client>, rest: seq<Client>)
    requires Unique(cs) && cs == kept + rest && rest != []
    ensures IndexOf(cs, rest[0].uid) == |kept| && PidOf(cs, rest[0].uid) == rest[0].pid
    ensures Without(cs, rest[0].uid) == kept + rest[1..]
  {
    assert cs[|kept|] == rest[0];
    IndexOfIs(cs, |kept|);
    assert cs[..|kept|] == kept && cs[|kept| + 1..] == rest[1..];
  }

  lemma FinalizedClients(d: State, uid: int, env: Env)
    ensures var d' := DoFinalize(d, uid, env).0; d'.clients == Without(d.clients, uid) && d'.settings == d.settings
    ensures !Has(d.clients, uid) ==> DoFinalize(d, uid, env).0 == d
  {
    hide RecognizeCancel, CancelRec, UnloadCurrent;
  }

  lemma {:induction false} CleanupFrontier(d: State, kept: seq<Client>, rest: seq<Client>, visits: seq<Visit>)
    requires Unique(d.clients) && d.clients == kept + rest && |rest| == |visits|
    ensures CleanupFrom(d, Uids(rest), visits).clients == kept + Survivors(rest, visits)
    decreases |rest|
  {
    hide DoFinalize, Without, Unique, CleanupFrom, Uids, HelloResult, PidOf, IndexOf, Survivors;
    CleanupUnfolds(d, Uids(rest), visits);
    SurvivorsStep(kept, rest, visits);
    if rest != [] {
      UidsTail(rest);
      HeadOfRest(d.clients, kept, rest);
      HelloIs(d, rest[0].uid, visits[0].hello);
      if rest[0].pid < 0 || visits[0].hello != 0 {
        CleanupFrontier(d, kept + [rest[0]], rest[1..], visits[1..]);
      } else {
        var d1 := DoFinalize(d, rest[0].uid, visits[0].env).0;
        FinalizedClients(d, rest[0].uid, visits[0].env);
        WithoutKeepsGood(d.clients, rest[0].uid);
        CleanupFrontier(d1, kept, rest[1..], visits[1..]);
      }
    }
  }

  lemma HelloIs(d: State, uid: int, hello: int)
    ensures HelloResult(d, uid, hello) == 0 <==> PidOf(d.clients, uid) >= 0 && hello == 0
  {
  }

  lemma SurvivorsStep(kept: seq<Client>, rest: seq<Client>, visits: seq<Visit>)
    requires |rest| == |visits|
    ensures rest == [] ==> kept + Survivors(rest, visits) == kept == kept + rest
    ensures rest != [] && (rest[0].pid < 0 || visits[0].hello != 0) ==>
        && kept + rest == (kept + [rest[0]]) + rest[1..]
        && (kept + [rest[0]]) + Survivors(rest[1..], visits[1..]) == kept + Survivors(rest, visits)
    ensures rest != [] && rest[0].pid >= 0 && visits[0].hello == 0 ==>
        Survivors(rest, visits) == Survivors(rest[1..], visits[1..])
  {
    if rest == [] {
      Nothing(kept);
    } else {
      assert rest == [rest[0]] + rest[1..];
      Regrouped(kept, [rest[0]], rest[1..]);
      Regrouped(kept, [rest[0]], Survivors(rest[1..], visits[1..]));
      Nothing(Survivors(rest[1..], visits[1..]));
    }
  }

  lemma Regrouped(a: seq<Client>, b: seq<Client>, c: seq<Client>)
    ensures (a + b) + c == a + (b + c)
  {
  }

  lemma Nothing(a: seq<Client>)
    ensures a + [] == a && [] + a == a
  {
  }

  lemma CleanupUnfolds(d: State, uids: seq<int>, visits: seq<Visit>)
    requires |uids| == |visits|
    ensures uids == [] ==> CleanupFrom(d, uids, visits) == d
    ensures uids != [] ==>
        var d1 := if HelloResult(d, uids[0], visits[0].hello) == 0 then DoFinalize(d, uids[0], visits[0].env).0 else d;
        CleanupFrom(d, uids, visits) == CleanupFrom(d1, uids[1..], visits[1..])
  {
    hide DoFinalize;
  }

  /** One pass leaves exactly the clients whose hello is not answered with 0, in their order. */
  lemma CleanupFilters(d: State, visits: seq<Visit>)
    requires Good(d.clients) && |visits| == |d.clients|
    ensures DoCleanup(d, visits).clients == Survivors(d.clients, visits)
  {
    hide CleanupFrom;
    assert d.clients == [] + d.clients;
    CleanupFrontier(d, [], d.clients, visits);
    assert [] + Survivors(d.clients, visits) == Survivors(d.clients, visits);
  }

  /** If the session's holder does not survive, nothing is recording and the engine is not in recognition. */
  lemma CleanupReleases(d: State, visits: seq<Visit>, env: Env)
    requires Good(d.clients) && Sound(d) && |visits| == |d.clients|
    requires EngineOwned(d) && RecorderOwned(d) && !d.agent.plug.misused
    requires EngineRely(d, Event.Cleanup(visits), env) && RecorderRely(d, Event.Cleanup(visits), env)
    requires SessionOf(d.clients).Held? ==> !Has(Survivors(d.clients, visits), SessionOf(d.clients).uid)
    ensures var d' := DoCleanup(d, visits); !d'.rec.recording && !d'.agent.plug.busy
  {
    hide CleanupFrom, SessionOf, EngineRely, RecorderRely, Good, Sound;
    var d' := DoCleanup(d, visits);
    CleanupFilters(d, visits);
    StepEngine(d, Event.Cleanup(visits), env);
    StepRecorder(d, Event.Cleanup(visits), env);
    CleanupSession(d, Uids(d.clients), visits);
    if SessionOf(d'.clients).Held? { SessionIs(d'.clients, SessionOf(d'.clients).uid); }
  }

  lemma {:induction false} NobodyToClean(d: State, uids: seq<int>, visits: seq<Visit>)
    requires d.clients == [] && |uids| == |visits|
    ensures CleanupFrom(d, uids, visits) == d
    decreases |uids|
  {
    hide DoFinalize;
    if uids != [] {
      FinalizedClients(d, uids[0], visits[0].env);
      NobodyToClean(d, uids[1..], visits[1..]);
    }
  }

  lemma {:induction false} CleanupEmpties(d: State, uids: seq<int>, visits: seq<Visit>)
    requires Sound(d) && d.clients != [] && d.settings == [] && |uids| == |visits|
    requires CleanupFrom(d, uids, visits).clients == []
    ensures !CleanupFrom(d, uids, visits).agent.isLoaded
    decreases |uids|
  {
    hide DoFinalize, Sound;
    var d1 := if HelloResult(d, uids[0], visits[0].hello) == 0 then DoFinalize(d, uids[0], visits[0].env).0 else d;
    FinalizeSound(d, uids[0], visits[0].env);
    FinalizedClients(d, uids[0], visits[0].env);
    if d1.clients == [] {
      Engines.FinalizeUnloads(d, uids[0], visits[0].env);
      NobodyToClean(d1, uids[1..], visits[1..]);
    } else {
      CleanupEmpties(d1, uids[1..], visits[1..]);
    }
  }

  /** A pass that removes the last clients, with no setting client left, leaves the engine unloaded. */
  lemma CleanupUnloads(d: State, visits: seq<Visit>)
    requires Good(d.clients) && Sound(d) && |visits| == |d.clients|
    requires d.clients != [] && d.settings == [] && Survivors(d.clients, visits) == []
    ensures !DoCleanup(d, visits).agent.isLoaded
  {
    hide CleanupFrom, Good, Sound;
    CleanupFilters(d, visits);
    CleanupEmpties(d, Uids(d.clients), visits);
  }
}
