/** The daemon's list of clients (server/sttd_client_data.c). */
module ClientData {
  import opened Types

  /** One registered client; `timer` names the main-loop timer last stored for it. */
  datatype Client = Client(pid: int, uid: int, state: AppState, timer: Option<nat>)

  // ---- The list as a value ----

  /** Position of the first client with this uid, or the length of the list. */
  function IndexOf(cs: seq<Client>, uid: int): (i: nat)
    ensures i <= |cs|
    ensures i < |cs| ==> cs[i].uid == uid
    ensures forall j :: 0 <= j < i ==> cs[j].uid != uid
  {
    var i := FirstAt(Uids(cs), uid);
    assert forall j :: 0 <= j < i ==> Uids(cs)[..i][j] == cs[j].uid;
    i
  }

  predicate Has(cs: seq<Client>, uid: int) {
    IndexOf(cs, uid) < |cs|
  }

  function StateOf(cs: seq<Client>, uid: int): Option<AppState> {
    if Has(cs, uid) then Some(cs[IndexOf(cs, uid)].state) else None
  }

  function TimerOf(cs: seq<Client>, uid: int): Option<nat> {
    if Has(cs, uid) then cs[IndexOf(cs, uid)].timer else None
  }

  /** The pid answer of the list: a negative error when the uid is unknown. */
  function PidOf(cs: seq<Client>, uid: int): int {
    if Has(cs, uid) then cs[IndexOf(cs, uid)].pid else ERROR_INVALID_PARAMETER
  }

  function WithState(cs: seq<Client>, uid: int, st: AppState): (r: seq<Client>)
    ensures |r| == |cs|
  {
    var i := IndexOf(cs, uid);
    if i < |cs| then cs[i := cs[i].(state := st)] else cs
  }

  function WithTimer(cs: seq<Client>, uid: int, t: Option<nat>): (r: seq<Client>)
    ensures |r| == |cs|
  {
    var i := IndexOf(cs, uid);
    if i < |cs| then cs[i := cs[i].(timer := t)] else cs
  }

  function Without(cs: seq<Client>, uid: int): seq<Client> {
    var i := IndexOf(cs, uid);
    if i < |cs| then cs[..i] + cs[i + 1..] else cs
  }

  function Plus(cs: seq<Client>, pid: int, uid: int): seq<Client> {
    if Has(cs, uid) then cs else cs + [Client(pid, uid, Ready, None)]
  }

  /** The uid of the first client in state `st`, or -1: "the current recording" or "thinking" client. */
  function FirstIn(cs: seq<Client>, st: AppState): (uid: int)
    ensures (forall c :: c in cs ==> c.state != st) ==> uid == -1
    ensures (exists c :: c in cs && c.state == st) ==> exists c :: c in cs && c.state == st && c.uid == uid
  {
    if cs == [] then -1
    else if cs[0].state == st then cs[0].uid
    else FirstIn(cs[1..], st)
  }

  function Uids(cs: seq<Client>): (r: seq<int>)
    ensures |r| == |cs|
  {
    seq(|cs|, i requires 0 <= i < |cs| => cs[i].uid)
  }

  // ---- Invariants of the list ----

  ghost predicate Unique(cs: seq<Client>) {
    forall i, j :: 0 <= i < j < |cs| ==> cs[i].uid != cs[j].uid
  }

  ghost predicate Positive(cs: seq<Client>) {
    forall i :: 0 <= i < |cs| ==> cs[i].uid > 0
  }

  /** No client is in CREATED and at most one is not READY. */
  ghost predicate Exclusive(cs: seq<Client>) {
    && (forall i :: 0 <= i < |cs| ==> cs[i].state != Created)
    && (forall i, j :: 0 <= i < j < |cs| ==> cs[i].state == Ready || cs[j].state == Ready)
  }

  ghost predicate Good(cs: seq<Client>) {
    Unique(cs) && Positive(cs) && Exclusive(cs)
  }

  ghost predicate AllReady(cs: seq<Client>) {
    forall i :: 0 <= i < |cs| ==> cs[i].state == Ready
  }

  lemma IndexOfIs(cs: seq<Client>, i: nat)
    requires Unique(cs) && i < |cs|
    ensures IndexOf(cs, cs[i].uid) == i
  {
    var k := IndexOf(cs, cs[i].uid);
    assert k <= i;
  }

  lemma HolderHasPositiveUid(cs: seq<Client>, i: nat)
    requires Positive(cs) && i < |cs|
    ensures FirstIn(cs, cs[i].state) > 0
  {
    assert cs[i] in cs;
    var d :| d in cs && d.state == cs[i].state && d.uid == FirstIn(cs, cs[i].state);
  }

  /** The two start-up guards `0 < current` together mean nobody holds the session. */
  lemma NobodyActive(cs: seq<Client>)
    requires Good(cs)
    requires FirstIn(cs, Recording) <= 0 && FirstIn(cs, Processing) <= 0
    ensures AllReady(cs)
  {
    forall i | 0 <= i < |cs| ensures cs[i].state == Ready {
      HolderHasPositiveUid(cs, i);
    }
  }

  lemma CurrentIs(cs: seq<Client>, st: AppState)
    requires Good(cs) && st != Ready && FirstIn(cs, st) != -1
    ensures Has(cs, FirstIn(cs, st)) && StateOf(cs, FirstIn(cs, st)) == Some(st)
  {
    var c :| c in cs && c.state == st && c.uid == FirstIn(cs, st);
    var i :| 0 <= i < |cs| && cs[i] == c;
    IndexOfIs(cs, i);
  }

  /** Whoever is not READY is the current client of that state. */
  lemma ActiveIsCurrent(cs: seq<Client>, uid: int)
    requires Good(cs) && Has(cs, uid) && StateOf(cs, uid) != Some(Ready)
    ensures FirstIn(cs, StateOf(cs, uid).value) == uid
  {
    var i := IndexOf(cs, uid);
    var st := cs[i].state;
    assert cs[i] in cs;
    var c :| c in cs && c.state == st && c.uid == FirstIn(cs, st);
    var j :| 0 <= j < |cs| && cs[j] == c;
    assert i == j;
  }

  // What each list update does to the invariants and to every uid's state.

  lemma AfterWithState(cs: seq<Client>, uid: int, st: AppState, v: int)
    requires Unique(cs)
    ensures StateOf(WithState(cs, uid, st), v) == if v == uid && Has(cs, uid) then Some(st) else StateOf(cs, v)
    ensures PidOf(WithState(cs, uid, st), v) == PidOf(cs, v) && TimerOf(WithState(cs, uid, st), v) == TimerOf(cs, v)
  {
    var w := WithState(cs, uid, st);
    assert forall j :: 0 <= j < |cs| ==> w[j].uid == cs[j].uid;
    assert IndexOf(w, v) == IndexOf(cs, v);
  }

  lemma WithStateKeepsGood(cs: seq<Client>, uid: int, st: AppState)
    requires Good(cs) && Has(cs, uid)
    requires st == Recording ==> AllReady(cs)
    requires st == Processing ==> StateOf(cs, uid) == Some(Recording)
    requires st != Created
    ensures Good(WithState(cs, uid, st))
  {
    var i := IndexOf(cs, uid);
    var w := WithState(cs, uid, st);
    assert forall j :: 0 <= j < |cs| ==> w[j].uid == cs[j].uid;
    assert forall j :: 0 <= j < |cs| && j != i ==> w[j].state == cs[j].state;
  }

  lemma AfterWithTimer(cs: seq<Client>, uid: int, t: Option<nat>, v: int)
    requires Unique(cs)
    ensures StateOf(WithTimer(cs, uid, t), v) == StateOf(cs, v) && PidOf(WithTimer(cs, uid, t), v) == PidOf(cs, v)
    ensures TimerOf(WithTimer(cs, uid, t), v) == if v == uid && Has(cs, uid) then t else TimerOf(cs, v)
    ensures Good(cs) ==> Good(WithTimer(cs, uid, t))
  {
    var w := WithTimer(cs, uid, t);
    assert forall j :: 0 <= j < |cs| ==> w[j].uid == cs[j].uid && w[j].state == cs[j].state;
    assert IndexOf(w, v) == IndexOf(cs, v);
  }

  lemma WithoutAt(cs: seq<Client>, uid: int, j: nat)
    requires Has(cs, uid)
    requires j < |cs| - 1
    ensures |Without(cs, uid)| == |cs| - 1
    ensures Without(cs, uid)[j] == if j < IndexOf(cs, uid) then cs[j] else cs[j + 1]
  {
    var i := IndexOf(cs, uid);
    var l, r := cs[..i], cs[i + 1..];
    assert (l + r)[j] == if j < |l| then l[j] else r[j - |l|];
  }

  lemma WithoutKeepsGood(cs: seq<Client>, uid: int)
    requires Unique(cs)
    ensures Unique(Without(cs, uid))
    ensures Good(cs) ==> Good(Without(cs, uid))
  {
    if Has(cs, uid) {
      var i, w := IndexOf(cs, uid), Without(cs, uid);
      forall j | 0 <= j < |w| ensures w[j] == cs[if j < i then j else j + 1] {
        WithoutAt(cs, uid, j);
      }
      forall j, k | 0 <= j < k < |w|
        ensures w[j].uid != w[k].uid && (Good(cs) ==> w[j].state == Ready || w[k].state == Ready)
      {
        var j', k' := if j < i then j else j + 1, if k < i then k else k + 1;
        assert w[j] == cs[j'] && w[k] == cs[k'] && j' < k';
      }
    }
  }

  lemma AfterWithout(cs: seq<Client>, uid: int, v: int)
    requires Unique(cs)
    ensures StateOf(Without(cs, uid), v) == if v == uid then None else StateOf(cs, v)
    ensures v != uid ==> PidOf(Without(cs, uid), v) == PidOf(cs, v) && TimerOf(Without(cs, uid), v) == TimerOf(cs, v)
  {
    var i, k, w := IndexOf(cs, uid), IndexOf(cs, v), Without(cs, uid);
    WithoutKeepsGood(cs, uid);
    if i < |cs| {
      var n := IndexOf(w, v);
      if n < |w| { WithoutAt(cs, uid, n); }
      if k < |cs| && k != i {
        var m := if k < i then k else k - 1;
        WithoutAt(cs, uid, m);
        IndexOfIs(w, m);
      }
    }
  }

  lemma AfterPlus(cs: seq<Client>, pid: int, uid: int, v: int)
    requires Unique(cs) && !Has(cs, uid)
    ensures StateOf(Plus(cs, pid, uid), v) == if v == uid then Some(Ready) else StateOf(cs, v)
    ensures PidOf(Plus(cs, pid, uid), v) == if v == uid then pid else PidOf(cs, v)
    ensures v != uid ==> TimerOf(Plus(cs, pid, uid), v) == TimerOf(cs, v)
    ensures Good(cs) && uid > 0 ==> Good(Plus(cs, pid, uid))
  {
    var w := Plus(cs, pid, uid);
    assert Unique(w);
    assert forall j :: 0 <= j < |cs| ==> w[j] == cs[j];
    if v == uid {
      IndexOfIs(w, |cs|);
    } else if Has(cs, v) {
      IndexOfIs(w, IndexOf(cs, v));
    }
  }

  // ---- The list as the daemon keeps it ----

  class ClientRecord {
    var pid: int
    var uid: int
    var state: AppState
    var timer: Option<nat>

    constructor (pid: int, uid: int)
      ensures View() == Client(pid, uid, Ready, None)
    {
      this.pid, this.uid, this.state, this.timer := pid, uid, Ready, None;
    }

    ghost function View(): Client
      reads this
    {
      Client(pid, uid, state, timer)
    }
  }

  ghost function Records(rs: seq<ClientRecord>): (cs: seq<Client>)
    reads rs
    ensures |cs| == |rs|
    ensures forall i :: 0 <= i < |cs| ==> cs[i] == rs[i].View()
  {
    seq(|rs|, i requires 0 <= i < |rs| reads rs => rs[i].View())
  }

  lemma RecordsAfterRemoval(rs: seq<ClientRecord>, k: nat)
    requires k < |rs|
    ensures Records(rs[..k] + rs[k + 1..]) == Records(rs)[..k] + Records(rs)[k + 1..]
  {
    hide Records;
    var w := rs[..k] + rs[k + 1..];
    forall i | 0 <= i < |w| ensures Records(w)[i] == (Records(rs)[..k] + Records(rs)[k + 1..])[i] {
      assert w[i] == rs[if i < k then i else i + 1];
    }
  }

  class ClientList {
    var clients: seq<ClientRecord>
    var settings: seq<int>

    ghost predicate Valid()
      reads this`clients
    {
      Distinct(clients)
    }

    ghost function Contents(): (cs: seq<Client>)
      reads this`clients, clients
      ensures |cs| == |clients|
      ensures forall i :: 0 <= i < |cs| ==> cs[i] == clients[i].View()
    {
      Records(clients)
    }

    constructor ()
      ensures Valid() && clients == [] && settings == []
      ensures Contents() == []
    {
      clients, settings := [], [];
    }

    /** Walks the list; the length stands for "not found". */
    method GetItem(uid: int) returns (i: nat)
      requires Valid()
      ensures i == IndexOf(Contents(), uid)
    {
      i := 0;
      while i < |clients|
        invariant i <= |clients|
        invariant forall j :: 0 <= j < i ==> clients[j].uid != uid
      {
        if clients[i].uid == uid { break; }
        i := i + 1;
      }
    }

    method Add(pid: int, uid: int) returns (ret: int)
      requires Valid()
      modifies this`clients
      ensures Valid() && Contents() == Plus(old(Contents()), pid, uid)
      ensures ret == if Has(old(Contents()), uid) then ERROR_INVALID_PARAMETER else 0
      ensures forall r :: r in clients ==> r in old(clients) || fresh(r)
    {
      var i := GetItem(uid);
      if i < |clients| { return ERROR_INVALID_PARAMETER; }
      var info := new ClientRecord(pid, uid);
      clients := clients + [info];
      return 0;
    }

    method Delete(uid: int) returns (ret: int)
      requires Valid()
      modifies this`clients
      ensures Valid() && Contents() == Without(old(Contents()), uid)
      ensures ret == if Has(old(Contents()), uid) then 0 else ERROR_INVALID_PARAMETER
      ensures forall r :: r in clients ==> r in old(clients)
    {
      var i := GetItem(uid);
      if i == |clients| { return ERROR_INVALID_PARAMETER; }
      hide Records, IndexOf, Distinct;
      DistinctAfterRemoval(clients, i);
      RecordsAfterRemoval(clients, i);
      clients := clients[..i] + clients[i + 1..];
      return 0;
    }

    method GetState(uid: int) returns (st: Option<AppState>)
      requires Valid()
      ensures st == StateOf(Contents(), uid)
    {
      var i := GetItem(uid);
      if i == |clients| { return None; }
      return Some(clients[i].state);
    }

    method SetState(uid: int, st: AppState) returns (ret: int)
      requires Valid()
      modifies clients
      ensures Valid() && Contents() == WithState(old(Contents()), uid, st)
      ensures ret == if Has(old(Contents()), uid) then 0 else ERROR_INVALID_PARAMETER
    {
      var i := GetItem(uid);
      if i == |clients| { return ERROR_INVALID_PARAMETER; }
      clients[i].state := st;
      return 0;
    }

    method GetRefCount() returns (n: nat)
      ensures n == |clients| + |settings|
    {
      n := |clients| + |settings|;
    }

    method GetPid(uid: int) returns (pid: int)
      requires Valid()
      ensures pid == PidOf(Contents(), uid)
    {
      var i := GetItem(uid);
      if i == |clients| { return ERROR_INVALID_PARAMETER; }
      return clients[i].pid;
    }

    /** The search behind "current recording" and "current thinking". */
    method GetCurrent(st: AppState) returns (uid: int)
      requires Valid()
      ensures uid == FirstIn(Contents(), st)
    {
      var i := 0;
      while i < |clients|
        invariant i <= |clients|
        invariant FirstIn(Contents(), st) == FirstIn(Contents()[i..], st)
      {
        if clients[i].state == st { return clients[i].uid; }
        i := i + 1;
      }
      return -1;
    }

    method SetTimer(uid: int, t: Option<nat>)
      requires Valid()
      modifies clients
      ensures Valid() && Contents() == WithTimer(old(Contents()), uid, t)
    {
      var i := GetItem(uid);
      if i < |clients| { clients[i].timer := t; }
    }

    method GetTimer(uid: int) returns (t: Option<nat>)
      requires Valid()
      ensures t == TimerOf(Contents(), uid)
    {
      var i := GetItem(uid);
      if i == |clients| { return None; }
      return clients[i].timer;
    }

    /** The snapshot of uids that the cleanup pass walks; there is none of an empty list. */
    method GetList() returns (ret: int, uids: array<int>)
      requires Valid()
      ensures ret == if Contents() == [] then -1 else 0
      ensures fresh(uids) && uids[..] == Uids(Contents())
    {
      uids := new int[|clients|];
      ret := if |clients| == 0 then -1 else 0;
      for i := 0 to |clients|
        invariant forall j :: 0 <= j < i ==> uids[j] == Contents()[j].uid
      {
        uids[i] := clients[i].uid;
      }
    }

    /** Setting clients are kept apart, by pid. */
    method SettingIs(pid: int) returns (found: bool)
      ensures found <==> pid in settings
    {
      var i := 0;
      while i < |settings|
        invariant i <= |settings|
        invariant pid !in settings[..i]
      {
        if settings[i] == pid { return true; }
        i := i + 1;
      }
      return false;
    }

    method SettingAdd(pid: int) returns (ret: int)
      modifies this`settings
      ensures settings == SettingPlus(old(settings), pid)
      ensures ret == if pid in old(settings) then ERROR_INVALID_PARAMETER else 0
    {
      var found := SettingIs(pid);
      if found { return ERROR_INVALID_PARAMETER; }
      settings := settings + [pid];
      return 0;
    }

    method SettingDelete(pid: int) returns (ret: int)
      modifies this`settings
      ensures settings == SettingWithout(old(settings), pid)
      ensures ret == if pid in old(settings) then 0 else ERROR_INVALID_PARAMETER
    {
      var i := 0;
      while i < |settings|
        invariant i <= |settings|
        invariant pid !in settings[..i]
        invariant SettingWithout(settings, pid) == settings[..i] + SettingWithout(settings[i..], pid)
      {
        if settings[i] == pid {
          settings := settings[..i] + settings[i + 1..];
          return 0;
        }
        assert settings[..i + 1] == settings[..i] + [settings[i]];
        i := i + 1;
      }
      return ERROR_INVALID_PARAMETER;
    }
  }

  function SettingPlus(settings: seq<int>, pid: int): seq<int> {
    if pid in settings then settings else settings + [pid]
  }

  function SettingWithout(settings: seq<int>, pid: int): seq<int> {
    if settings == [] then []
    else if settings[0] == pid then settings[1..]
    else [settings[0]] + SettingWithout(settings[1..], pid)
  }

  /** A registration adds its pid, once, and no other. */
  lemma AfterSettingPlus(settings: seq<int>, pid: int, q: int)
    ensures q in SettingPlus(settings, pid) <==> q in settings || q == pid
    ensures Distinct(settings) ==> Distinct(SettingPlus(settings, pid))
  {
  }

  /** Unlinking the first record with a pid unregisters that pid and no other. */
  lemma {:induction false} AfterSettingWithout(settings: seq<int>, pid: int, q: int)
    requires Distinct(settings)
    ensures q in SettingWithout(settings, pid) <==> q in settings && q != pid
    ensures Distinct(SettingWithout(settings, pid))
  {
    if settings != [] && settings[0] != pid {
      var rest := SettingWithout(settings[1..], pid);
      AfterSettingWithout(settings[1..], pid, q);
      AfterSettingWithout(settings[1..], pid, settings[0]);
      assert settings[0] !in rest;
    }
  }
}
