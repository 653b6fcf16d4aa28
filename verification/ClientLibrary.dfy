/** The client library: handles, their ids and their session state (client/stt_client.c, client/stt.c). */
module ClientLibrary {
  import opened Types

  /** A handle; `serial` counts the process's allocations up to it. */
  datatype Handle = Handle(serial: nat, pid: int, uid: int, before: AppState, state: AppState)

  // ---- Client ids ----

  const MAX_HANDLE := 999

  /** The counter after one more allocation. */
  function NextNumber(counter: int): int {
    if counter + 1 > MAX_HANDLE then 1 else counter + 1
  }

  /** The counter after `n` allocations. */
  function Counter(n: nat): int {
    if n == 0 then 0 else NextNumber(Counter(n - 1))
  }

  function UidOf(pid: int, n: nat): int {
    pid * 1000 + Counter(n)
  }

  lemma {:induction false} CounterIs(n: nat)
    ensures Counter(n) == if n == 0 then 0 else (n - 1) % MAX_HANDLE + 1
  {
    if n > 1 { CounterIs(n - 1); }
  }

  /** Ids of one process lie in its own range, and meet exactly every 999 allocations; ids of different
      processes never meet. */
  lemma UidsMeet(p: int, q: int, n: nat, m: nat)
    requires n > 0 && m > 0
    ensures p * 1000 + 1 <= UidOf(p, n) <= p * 1000 + MAX_HANDLE
    ensures UidOf(p, n) == UidOf(q, m) <==> p == q && (n - m) % MAX_HANDLE == 0
  {
    CounterIs(n);
    CounterIs(m);
  }

  const INT_MAX := 0x7fff_ffff

  /** Every id of the process is positive and fits 32 bits exactly for pids up to 2147482. */
  lemma UidsFit(pid: int)
    requires pid >= 1
    ensures (forall n :: n > 0 ==> 0 < UidOf(pid, n) <= INT_MAX) <==> pid <= 2147482
  {
    forall n: nat | n > 0 ensures pid * 1000 + 1 <= UidOf(pid, n) <= pid * 1000 + MAX_HANDLE {
      UidsMeet(pid, pid, n, n);
    }
    CounterIs(MAX_HANDLE);
    assert UidOf(pid, MAX_HANDLE) == pid * 1000 + MAX_HANDLE;
  }

  // ---- The list of handles as a value ----

  function Find(hs: seq<Handle>, uid: int): (i: nat)
    ensures i <= |hs|
    ensures i < |hs| ==> hs[i].uid == uid
    ensures forall j :: 0 <= j < i ==> hs[j].uid != uid
  {
    var ids := seq(|hs|, k requires 0 <= k < |hs| => hs[k].uid);
    var i := FirstAt(ids, uid);
    assert forall j :: 0 <= j < i ==> ids[..i][j] == hs[j].uid;
    i
  }

  predicate Live(hs: seq<Handle>, uid: int) {
    Find(hs, uid) < |hs|
  }

  function Move(h: Handle, st: AppState): Handle {
    h.(before := h.state, state := st)
  }

  /** Puts a handle where the lookup finds its id. */
  function Put(hs: seq<Handle>, h: Handle): (r: seq<Handle>)
    ensures |r| == |hs|
  {
    var i := Find(hs, h.uid);
    if i < |hs| then hs[i := h] else hs
  }

  function Drop(hs: seq<Handle>, uid: int): seq<Handle> {
    var i := Find(hs, uid);
    if i < |hs| then hs[..i] + hs[i + 1..] else hs
  }

  function NewHandle(pid: int, n: nat): Handle {
    Handle(n, pid, UidOf(pid, n), Created, Created)
  }

  // ---- The requests of an application, given the daemon's answer ----

  datatype Call = CallStart | CallStop | CallCancel | CallUnprepare

  predicate Allowed(st: AppState, c: Call) {
    match c
    case CallStart => st == Ready
    case CallStop => st == Recording
    case CallCancel => st == Recording || st == Processing
    case CallUnprepare => st == Ready
  }

  function Target(c: Call): AppState {
    match c
    case CallStart => Recording
    case CallStop => Processing
    case CallCancel => Ready
    case CallUnprepare => Created
  }

  /** The handle's state after a request the daemon answered with `ret`; a failed unprepare is ignored. */
  function Answered(h: Handle, c: Call, ret: int): (Handle, int) {
    if !Allowed(h.state, c) then (h, ERROR_INVALID_STATE)
    else if c.CallUnprepare? then (Move(h, Created), 0)
    else if ret != 0 then (h, ret)
    else (Move(h, Target(c)), 0)
  }

  function Called(hs: seq<Handle>, uid: int, c: Call, ret: int): (seq<Handle>, int) {
    var i := Find(hs, uid);
    if i == |hs| then (hs, ERROR_INVALID_PARAMETER)
    else (Put(hs, Answered(hs[i], c, ret).0), Answered(hs[i], c, ret).1)
  }

  /** What the application is told: 0 if and only if its handle moved, to the state asked for and out of another
      one, which it remembers; otherwise the handle stays as it is. A live handle that allows the request gets
      the daemon's own code, but for an unprepare. */
  lemma AnswerIs(hs: seq<Handle>, uid: int, c: Call, ret: int)
    ensures var (hs', answer) := Called(hs, uid, c, ret); var i := Find(hs, uid);
      && (!Live(hs, uid) ==> answer == ERROR_INVALID_PARAMETER)
      && (Live(hs, uid) && !Allowed(hs[i].state, c) ==> answer == ERROR_INVALID_STATE)
      && (Live(hs, uid) && Allowed(hs[i].state, c) && !c.CallUnprepare? ==> answer == ret)
      && (answer == 0 <==> Live(hs, uid) && Allowed(hs[i].state, c) && (ret == 0 || c.CallUnprepare?))
      && (answer == 0 <==> Live(hs, uid) && hs[i].state != Target(c) && hs'[i].state == Target(c))
      && (answer == 0 ==> hs'[i].before == hs[i].state && hs'[i].uid == uid)
      && (answer != 0 ==> hs' == hs)
  {
    if Live(hs, uid) { PutSame(hs, Find(hs, uid)); }
  }

  // ---- Connecting ----

  const CONNECTION_RETRY_COUNT: nat := 3

  datatype Connection = Connected | NoEngine | TimedOut

  /** What attempts `i`, `i + 1`, ... come to. */
  function Attempts(rets: seq<int>, i: nat): Connection
    requires CONNECTION_RETRY_COUNT <= |rets| && 1 <= i <= CONNECTION_RETRY_COUNT
    decreases CONNECTION_RETRY_COUNT - i
  {
    var ret := rets[i - 1];
    if ret == ERROR_ENGINE_NOT_FOUND then NoEngine
    else if ret == 0 then Connected
    else if i == CONNECTION_RETRY_COUNT then TimedOut
    else Attempts(rets, i + 1)
  }

  /** The retry loop connects exactly when one of its attempts succeeds before any that finds no engine. */
  lemma ConnectedWhen(rets: seq<int>)
    requires CONNECTION_RETRY_COUNT <= |rets|
    ensures Attempts(rets, 1) == Connected <==>
      exists k :: 0 <= k < CONNECTION_RETRY_COUNT && rets[k] == 0 && ERROR_ENGINE_NOT_FOUND !in rets[..k]
    ensures Attempts(rets, 1) == TimedOut <==>
      0 !in rets[..CONNECTION_RETRY_COUNT] && ERROR_ENGINE_NOT_FOUND !in rets[..CONNECTION_RETRY_COUNT]
  {
    assert Attempts(rets, 1) == Attempts(rets, 2) || rets[0] == 0 || rets[0] == ERROR_ENGINE_NOT_FOUND;
    assert rets[..1] == [rets[0]] && rets[..2] == [rets[0], rets[1]] && rets[..3] == [rets[0], rets[1], rets[2]];
    assert rets[0] in rets[..2] && rets[1] in rets[..3];
    if rets[0] == 0 { assert 0 <= 0 < CONNECTION_RETRY_COUNT && ERROR_ENGINE_NOT_FOUND !in rets[..0]; }
    if rets[1] == 0 && rets[0] != ERROR_ENGINE_NOT_FOUND { assert ERROR_ENGINE_NOT_FOUND !in rets[..1]; }
    if rets[2] == 0 && rets[0] != ERROR_ENGINE_NOT_FOUND && rets[1] != ERROR_ENGINE_NOT_FOUND {
      assert ERROR_ENGINE_NOT_FOUND !in rets[..2];
    }
  }

  // ---- When the list behaves as a map from ids to handles ----

  /** Handles stand in the order of their allocation and carry their own ids. */
  ghost predicate Numbered(hs: seq<Handle>, pid: int, n: nat) {
    && (forall i :: 0 <= i < |hs| ==> 0 < hs[i].serial <= n && hs[i].uid == UidOf(pid, hs[i].serial))
    && (forall i, j :: 0 <= i < j < |hs| ==> hs[i].serial < hs[j].serial)
  }

  /** Every lookup of a live handle's id finds that handle. */
  ghost predicate LooksUp(hs: seq<Handle>) {
    forall i :: 0 <= i < |hs| ==> Find(hs, hs[i].uid) == i
  }

  /** No two live handles are a multiple of 999 allocations apart. */
  ghost predicate Apart(hs: seq<Handle>) {
    forall i, j :: 0 <= i < j < |hs| ==> (hs[j].serial - hs[i].serial) % MAX_HANDLE != 0
  }

  lemma LookupAgrees(hs: seq<Handle>, pid: int, n: nat)
    requires Numbered(hs, pid, n)
    ensures LooksUp(hs) <==> Apart(hs)
  {
    if LooksUp(hs) {
      forall i, j | 0 <= i < j < |hs| ensures (hs[j].serial - hs[i].serial) % MAX_HANDLE != 0 {
        UidsMeet(pid, pid, hs[j].serial, hs[i].serial);
        assert Find(hs, hs[j].uid) == j;
      }
    }
    if Apart(hs) {
      forall i | 0 <= i < |hs| ensures Find(hs, hs[i].uid) == i {
        var k := Find(hs, hs[i].uid);
        if k < i { UidsMeet(pid, pid, hs[i].serial, hs[k].serial); }
      }
    }
  }

  /** Handles among the last 999 allocations are apart. */
  lemma RecentApart(hs: seq<Handle>, pid: int, n: nat)
    requires Numbered(hs, pid, n) && forall i :: 0 <= i < |hs| ==> hs[i].serial > n - MAX_HANDLE
    ensures LooksUp(hs)
  {
    forall i, j | 0 <= i < j < |hs| ensures (hs[j].serial - hs[i].serial) % MAX_HANDLE != 0 {
      assert 0 < hs[j].serial - hs[i].serial < MAX_HANDLE;
    }
    LookupAgrees(hs, pid, n);
  }

  ghost function AsMap(hs: seq<Handle>): (m: map<int, Handle>)
    ensures forall uid :: Live(hs, uid) ==> uid in m
    ensures forall uid :: uid in m ==> Live(hs, uid) && m[uid] == hs[Find(hs, uid)]
  {
    var uids := set i | 0 <= i < |hs| :: hs[i].uid;
    map uid | uid in uids && Live(hs, uid) :: hs[Find(hs, uid)]
  }

  /** Maps with the right keys and values are the list's map. */
  lemma AsMapIs(hs: seq<Handle>, m: map<int, Handle>)
    requires forall uid :: Live(hs, uid) <==> uid in m
    requires forall uid :: uid in m ==> Live(hs, uid) && m[uid] == hs[Find(hs, uid)]
    ensures AsMap(hs) == m
  {
    var a := AsMap(hs);
    forall uid ensures uid in a <==> uid in m {
      assert Live(hs, uid) <==> uid in m;
    }
    assert a.Keys == m.Keys;
  }

  lemma PutFinds(hs: seq<Handle>, h: Handle, v: int)
    ensures Find(Put(hs, h), v) == Find(hs, v)
  {
    var r := Put(hs, h);
    assert forall j :: 0 <= j < |hs| ==> r[j].uid == hs[j].uid;
  }

  lemma PutSame(hs: seq<Handle>, i: nat)
    requires i < |hs| && Find(hs, hs[i].uid) == i
    ensures Put(hs, hs[i]) == hs
  {
  }

  /** While lookups are right, the list's updates are the map's. */
  lemma PutIsUpdate(hs: seq<Handle>, h: Handle)
    requires Live(hs, h.uid)
    ensures AsMap(Put(hs, h)) == AsMap(hs)[h.uid := h]
  {
    hide AsMap;
    var r, m := Put(hs, h), AsMap(hs)[h.uid := h];
    forall v ensures Live(r, v) <==> v in m
      ensures v in m ==> Live(r, v) && m[v] == r[Find(r, v)]
    {
      PutFinds(hs, h, v);
      assert Live(hs, v) <==> v in AsMap(hs);
    }
    AsMapIs(r, m);
  }

  /** A request on a live handle is the answer applied to that handle, and to no other. */
  lemma CalledIsUpdate(hs: seq<Handle>, uid: int, c: Call, ret: int)
    requires Live(hs, uid)
    ensures AsMap(Called(hs, uid, c, ret).0) == AsMap(hs)[uid := Answered(AsMap(hs)[uid], c, ret).0]
    ensures Called(hs, uid, c, ret).1 == Answered(AsMap(hs)[uid], c, ret).1
  {
    hide AsMap, Find;
    assert AsMap(hs)[uid] == hs[Find(hs, uid)];
    PutIsUpdate(hs, Answered(hs[Find(hs, uid)], c, ret).0);
  }

  lemma DropAt(hs: seq<Handle>, uid: int, j: nat)
    requires Live(hs, uid) && j < |hs| - 1
    ensures |Drop(hs, uid)| == |hs| - 1 && Drop(hs, uid)[j] == hs[if j < Find(hs, uid) then j else j + 1]
  {
  }

  lemma DropLooksUp(hs: seq<Handle>, uid: int)
    requires LooksUp(hs)
    ensures LooksUp(Drop(hs, uid))
  {
    hide Drop;
    if Live(hs, uid) {
      var i, r := Find(hs, uid), Drop(hs, uid);
      if |hs| > 1 { DropAt(hs, uid, 0); } else { DropLast(hs, uid); }
      forall j | 0 <= j < |r| ensures Find(r, r[j].uid) == j {
        var k := Find(r, r[j].uid);
        DropAt(hs, uid, j);
        DropAt(hs, uid, k);
      }
    } else {
      DropNothing(hs, uid);
    }
  }

  lemma DropNothing(hs: seq<Handle>, uid: int)
    requires !Live(hs, uid)
    ensures Drop(hs, uid) == hs
  {
  }

  lemma DropLast(hs: seq<Handle>, uid: int)
    requires Live(hs, uid)
    ensures |Drop(hs, uid)| == |hs| - 1
  {
  }

  lemma DropFinds(hs: seq<Handle>, uid: int, v: int)
    requires LooksUp(hs) && Live(hs, uid)
    ensures var r := Drop(hs, uid);
      && (Live(r, v) <==> Live(hs, v) && v != uid)
      && (Live(r, v) ==> r[Find(r, v)] == hs[Find(hs, v)])
  {
    hide Drop;
    var i, k, r := Find(hs, uid), Find(hs, v), Drop(hs, uid);
    DropLast(hs, uid);
    var m := Find(r, v);
    if m < |r| { DropAt(hs, uid, m); }
    if k < |hs| && k != i { DropAt(hs, uid, if k < i then k else k - 1); }
  }

  lemma DropIsRemoval(hs: seq<Handle>, uid: int)
    requires LooksUp(hs)
    ensures AsMap(Drop(hs, uid)) == AsMap(hs) - {uid}
    ensures LooksUp(Drop(hs, uid))
  {
    hide AsMap, Drop, LooksUp;
    DropLooksUp(hs, uid);
    if Live(hs, uid) {
      var r, m := Drop(hs, uid), AsMap(hs) - {uid};
      forall v ensures Live(r, v) <==> v in m
        ensures v in m ==> Live(r, v) && m[v] == r[Find(r, v)]
      {
        DropFinds(hs, uid, v);
        assert Live(hs, v) <==> v in AsMap(hs);
      }
      AsMapIs(r, m);
    } else {
      DropNothing(hs, uid);
    }
  }

  lemma NewFinds(hs: seq<Handle>, h: Handle, v: int)
    ensures Find(hs + [h], v) == if Live(hs, v) then Find(hs, v) else if v == h.uid then |hs| else |hs| + 1
  {
    var r := hs + [h];
    assert r[|hs|] == h && forall j :: 0 <= j < |hs| ==> r[j] == hs[j];
    var i, k := Find(hs, v), Find(r, v);
    if i < |hs| { assert r[i].uid == v; }
  }

  /** An allocation keeps lookups right exactly when its id is not in use. */
  lemma NewIsExtension(hs: seq<Handle>, h: Handle)
    requires LooksUp(hs)
    ensures LooksUp(hs + [h]) <==> !Live(hs, h.uid)
    ensures !Live(hs, h.uid) ==> AsMap(hs + [h]) == AsMap(hs)[h.uid := h]
  {
    hide AsMap, Find;
    var r := hs + [h];
    forall v ensures Find(r, v) == if Live(hs, v) then Find(hs, v) else if v == h.uid then |hs| else |hs| + 1 {
      NewFinds(hs, h, v);
    }
    assert r[|hs|] == h;
    if Live(hs, h.uid) {
      assert Find(r, r[|hs|].uid) < |hs|;
    } else {
      var m := AsMap(hs)[h.uid := h];
      forall v ensures Live(r, v) <==> v in m
        ensures v in m ==> Live(r, v) && m[v] == r[Find(r, v)]
      {
        assert Live(hs, v) <==> v in AsMap(hs);
      }
      AsMapIs(r, m);
    }
  }

  lemma NumberedMore(hs: seq<Handle>, pid: int, n: nat)
    requires Numbered(hs, pid, n)
    ensures Numbered(hs + [NewHandle(pid, n + 1)], pid, n + 1)
  {
    hide UidOf;
    var all := hs + [NewHandle(pid, n + 1)];
    assert forall i :: 0 <= i < |hs| ==> all[i] == hs[i];
  }

  /** While the live handles, the new one included, are among the last 999 allocations, its id is free. */
  lemma NewIdIsFree(hs: seq<Handle>, pid: int, n: nat)
    requires Numbered(hs, pid, n) && forall i :: 0 <= i < |hs| ==> hs[i].serial > n + 1 - MAX_HANDLE
    ensures !Live(hs, UidOf(pid, n + 1))
  {
    hide UidOf, Find, Numbered, LooksUp;
    var all := hs + [NewHandle(pid, n + 1)];
    assert forall i :: 0 <= i < |hs| ==> all[i] == hs[i];
    NumberedMore(hs, pid, n);
    RecentApart(all, pid, n + 1);
    RecentApart(hs, pid, n);
    NewIsExtension(hs, NewHandle(pid, n + 1));
  }

  // ---- The library as a process keeps it ----

  class HandleRecord {
    ghost const serial: nat
    const pid: int
    const uid: int
    var before: AppState
    var state: AppState

    constructor (pid: int, uid: int, ghost serial: nat)
      ensures View() == Handle(serial, pid, uid, Created, Created)
    {
      this.serial, this.pid, this.uid := serial, pid, uid;
      before, state := Created, Created;
    }

    ghost function View(): Handle
      reads this
    {
      Handle(serial, pid, uid, before, state)
    }
  }

  ghost function Records(rs: seq<HandleRecord>): (hs: seq<Handle>)
    reads rs
    ensures |hs| == |rs|
    ensures forall i :: 0 <= i < |hs| ==> hs[i] == rs[i].View()
  {
    seq(|rs|, i requires 0 <= i < |rs| reads rs => rs[i].View())
  }

  lemma RecordsAfterRemoval(rs: seq<HandleRecord>, k: nat)
    requires k < |rs|
    ensures Records(rs[..k] + rs[k + 1..]) == Records(rs)[..k] + Records(rs)[k + 1..]
  {
    hide Records;
    var w := rs[..k] + rs[k + 1..];
    forall i | 0 <= i < |w| ensures Records(w)[i] == (Records(rs)[..k] + Records(rs)[k + 1..])[i] {
      assert w[i] == rs[if i < k then i else i + 1];
    }
  }

  class Library {
    const pid: int
    var counter: int
    var clients: seq<HandleRecord>
    ghost var serials: nat

    ghost predicate Valid()
      reads this
    {
      && counter == Counter(serials)
      && Distinct(clients)
    }

    ghost function View(): (hs: seq<Handle>)
      reads this, clients
      ensures |hs| == |clients|
      ensures forall i :: 0 <= i < |hs| ==> hs[i] == clients[i].View()
    {
      Records(clients)
    }

    constructor (pid: int)
      ensures Valid() && View() == [] && serials == 0 && this.pid == pid
    {
      this.pid, counter, clients, serials := pid, 0, [], 0;
    }

    method GenerateUid() returns (uid: int)
      requires Valid()
      modifies this`counter, this`serials
      ensures Valid() && serials == old(serials) + 1 && uid == UidOf(pid, serials)
    {
      counter := counter + 1;
      if counter > MAX_HANDLE { counter := 1; }
      serials := serials + 1;
      uid := pid * 1000 + counter;
    }

    method New() returns (uid: int)
      requires Valid()
      modifies this
      ensures Valid() && serials == old(serials) + 1
      ensures View() == old(View()) + [NewHandle(pid, serials)] && uid == UidOf(pid, serials)
      ensures Numbered(old(View()), pid, old(serials)) ==> Numbered(View(), pid, serials)
    {
      uid := GenerateUid();
      var client := new HandleRecord(pid, uid, serials);
      clients := clients + [client];
    }

    /** Walks the list; the length stands for "no such handle". */
    method Get(uid: int) returns (i: nat)
      ensures i == Find(View(), uid)
    {
      i := 0;
      while i < |clients|
        invariant i <= |clients|
        invariant forall j :: 0 <= j < i ==> clients[j].uid != uid
      {
        if clients[i].uid == uid { break; }
        i := i + 1;
      }
    }

    /** `finalized` tells whether the daemon is asked to forget the handle first. */
    method Destroy(uid: int) returns (ret: int, finalized: bool)
      requires Valid()
      modifies this`clients
      ensures Valid() && View() == Drop(old(View()), uid)
      ensures ret == if Live(old(View()), uid) then 0 else ERROR_INVALID_PARAMETER
      ensures finalized <==> Live(old(View()), uid) && old(View())[Find(old(View()), uid)].state != Created
    {
      var i := Get(uid);
      if i == |clients| { return ERROR_INVALID_PARAMETER, false; }
      finalized := clients[i].state != Created;
      hide Records, Find, Distinct;
      DistinctAfterRemoval(clients, i);
      RecordsAfterRemoval(clients, i);
      clients := clients[..i] + clients[i + 1..];
      ret := 0;
    }

    method MoveTo(i: nat, st: AppState)
      requires Valid() && i < |clients| && Find(View(), clients[i].uid) == i
      modifies clients[i]
      ensures Valid() && View() == Put(old(View()), Move(old(View())[i], st))
    {
      clients[i].before := clients[i].state;
      clients[i].state := st;
    }

    method Start(uid: int, ret: int) returns (result: int)
      requires Valid()
      modifies clients
      ensures Valid() && (View(), result) == Called(old(View()), uid, CallStart, ret)
    {
      var i := Get(uid);
      if i == |clients| { return ERROR_INVALID_PARAMETER; }
      PutSame(View(), i);
      if clients[i].state != Ready { return ERROR_INVALID_STATE; }
      if ret == 0 { MoveTo(i, Recording); }
      return ret;
    }

    method Stop(uid: int, ret: int) returns (result: int)
      requires Valid()
      modifies clients
      ensures Valid() && (View(), result) == Called(old(View()), uid, CallStop, ret)
    {
      var i := Get(uid);
      if i == |clients| { return ERROR_INVALID_PARAMETER; }
      PutSame(View(), i);
      if clients[i].state != Recording { return ERROR_INVALID_STATE; }
      if ret == 0 { MoveTo(i, Processing); }
      return ret;
    }

    method Cancel(uid: int, ret: int) returns (result: int)
      requires Valid()
      modifies clients
      ensures Valid() && (View(), result) == Called(old(View()), uid, CallCancel, ret)
    {
      var i := Get(uid);
      if i == |clients| { return ERROR_INVALID_PARAMETER; }
      PutSame(View(), i);
      if clients[i].state != Recording && clients[i].state != Processing { return ERROR_INVALID_STATE; }
      if ret == 0 { MoveTo(i, Ready); }
      return ret;
    }

    method Unprepare(uid: int, ret: int) returns (result: int)
      requires Valid()
      modifies clients
      ensures Valid() && (View(), result) == Called(old(View()), uid, CallUnprepare, ret)
    {
      var i := Get(uid);
      if i == |clients| { return ERROR_INVALID_PARAMETER; }
      PutSame(View(), i);
      if clients[i].state != Ready { return ERROR_INVALID_STATE; }
      MoveTo(i, Created);
      return 0;
    }

    /** The connection callback; `again` keeps its timer alive. `rets` are the daemon's answers to the
        initialize requests, should they be made. */
    method Connect(uid: int, hello: bool, rets: seq<int>) returns (again: bool)
      requires Valid() && CONNECTION_RETRY_COUNT <= |rets|
      modifies clients
      ensures Valid()
      ensures again <==> !(Live(old(View()), uid) && hello)
      ensures View() ==
        if Live(old(View()), uid) && hello && Attempts(rets, 1) == Connected
        then Put(old(View()), Move(old(View())[Find(old(View()), uid)], Ready)) else old(View())
    {
      var i := Get(uid);
      if i == |clients| { return true; }
      if !hello { return true; }
      var attempt := 1;
      while true
        invariant 1 <= attempt <= CONNECTION_RETRY_COUNT
        invariant Attempts(rets, attempt) == Attempts(rets, 1)
        decreases CONNECTION_RETRY_COUNT - attempt
      {
        var ret := rets[attempt - 1];
        if ret == ERROR_ENGINE_NOT_FOUND {
          return false;
        } else if ret != 0 {
          if attempt == CONNECTION_RETRY_COUNT { return false; }
          attempt := attempt + 1;
        } else {
          break;
        }
      }
      MoveTo(i, Ready);
      return false;
    }

    /** A result arrives, whatever state the handle is in. */
    method CbResult(uid: int) returns (ret: int)
      requires Valid()
      modifies clients
      ensures Valid()
      ensures ret == if Live(old(View()), uid) then 0 else -1
      ensures View() ==
        if Live(old(View()), uid)
        then Put(old(View()), Move(old(View())[Find(old(View()), uid)], Ready)) else old(View())
    {
      var i := Get(uid);
      if i == |clients| { return -1; }
      MoveTo(i, Ready);
      return 0;
    }

    method CbSetState(uid: int, st: AppState) returns (ret: int)
      requires Valid()
      modifies clients
      ensures Valid()
      ensures ret == if Live(old(View()), uid) then 0 else -1
      ensures View() ==
        if Live(old(View()), uid) then Put(old(View()), Told(old(View())[Find(old(View()), uid)], st)) else old(View())
    {
      var i := Get(uid);
      if i == |clients| { return -1; }
      PutSame(View(), i);
      if clients[i].state == st { return 0; }
      MoveTo(i, st);
      return 0;
    }
  }

  /** A handle told its state by the daemon. */
  function Told(h: Handle, st: AppState): Handle {
    if h.state == st then h else Move(h, st)
  }
}
