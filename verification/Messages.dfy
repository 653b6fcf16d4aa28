/** The result message: how the daemon lays it out (server/sttd_dbus.c) and how the client takes it apart
    (client/stt_dbus.c). */
module Messages {
  import opened Types
  import opened ClientData
  import opened EngineAgent
  import opened Daemon
  import opened Effects

  /** One typed argument of a message. */
  datatype Cell = Int(n: int) | Str(s: string)

  /** What the client's result handler is called with. */
  datatype Received = Received(uid: int, kind: Option<string>, text: Option<string>, data: seq<string>)

  const NONE := "None"

  function Sent(s: Option<string>): string {
    if s.Some? then s.value else NONE
  }

  function Cells(data: seq<string>): (cells: seq<Cell>)
    ensures |cells| == |data|
  {
    seq(|data|, i requires 0 <= i < |data| => Str(data[i]))
  }

  function Encode(m: Message): seq<Cell> {
    [Int(m.uid), Str(Sent(m.kind)), Str(Sent(m.text)), Int(|m.data|)] + Cells(m.data)
  }

  // ---- Taking a message apart ----

  /** The argument at `pos` if it is a number, and the position after it; otherwise the position itself. */
  function TakeInt(cells: seq<Cell>, pos: nat): (Option<int>, nat)
    requires pos <= |cells|
  {
    if pos < |cells| && cells[pos].Int? then (Some(cells[pos].n), pos + 1) else (None, pos)
  }

  function TakeStr(cells: seq<Cell>, pos: nat): (Option<string>, nat)
    requires pos <= |cells|
  {
    if pos < |cells| && cells[pos].Str? then (Some(cells[pos].s), pos + 1) else (None, pos)
  }

  /** `n` strings from `pos` on; None where the client would read past what it was sent. */
  function TakeStrings(cells: seq<Cell>, pos: nat, n: nat): Option<seq<string>>
    requires pos <= |cells|
    decreases n
  {
    if n == 0 then Some([])
    else if pos == |cells| || cells[pos].Int? then None
    else Before([cells[pos].s], TakeStrings(cells, pos + 1, n - 1))
  }

  function Before(front: seq<string>, rest: Option<seq<string>>): Option<seq<string>> {
    if rest.Some? then Some(front + rest.value) else None
  }

  lemma BeforeBoth(front: seq<string>, s: string, rest: Option<seq<string>>)
    ensures Before(front, Before([s], rest)) == Before(front + [s], rest)
    ensures Before([], rest) == rest && Before(front, Some([])) == Some(front)
  {
    assert front + [] == front;
    if rest.Some? {
      assert [] + rest.value == rest.value;
      assert front + ([s] + rest.value) == (front + [s]) + rest.value;
    }
  }

  /** The client's handling of any message: a client id that is not positive is dropped. */
  function Decode(cells: seq<Cell>): Option<Received> {
    var (uid, p1) := TakeInt(cells, 0);
    if uid.None? || uid.value <= 0 then None
    else
      var (kind, p2) := TakeStr(cells, p1);
      var (text, p3) := TakeStr(cells, p2);
      var (count, p4) := TakeInt(cells, p3);
      if count.None? || count.value <= 0 then Some(Received(uid.value, kind, text, []))
      else
        var data := TakeStrings(cells, p4, count.value);
        if data.Some? then Some(Received(uid.value, kind, text, data.value)) else None
  }

  lemma {:induction false} StringsBack(front: seq<Cell>, data: seq<string>)
    ensures TakeStrings(front + Cells(data), |front|, |data|) == Some(data)
    decreases |data|
  {
    if data != [] {
      var cells := front + Cells(data);
      assert cells == (front + [Str(data[0])]) + Cells(data[1..]);
      StringsBack(front + [Str(data[0])], data[1..]);
      assert cells[|front|] == Str(data[0]);
      assert data == [data[0]] + data[1..];
    }
  }

  /** What the client's handler gets is what the daemon sent, absent strings as "None", the empty list as
      a count of 0; and it gets it exactly when the client id is positive. */
  lemma RoundTrip(m: Message)
    ensures Decode(Encode(m)) ==
      if m.uid > 0 then Some(Received(m.uid, Some(Sent(m.kind)), Some(Sent(m.text)), m.data)) else None
  {
    var front := [Int(m.uid), Str(Sent(m.kind)), Str(Sent(m.text)), Int(|m.data|)];
    var cells := Encode(m);
    assert cells == front + Cells(m.data);
    assert cells[0] == front[0] && cells[1] == front[1] && cells[2] == front[2] && cells[3] == front[3];
    StringsBack(front, m.data);
  }

  /** Two messages look alike on the wire exactly when they differ in nothing but an absent string against
      the string "None". */
  lemma AlikeWhen(m: Message, m': Message)
    ensures Encode(m) == Encode(m') <==>
      m.uid == m'.uid && Sent(m.kind) == Sent(m'.kind) && Sent(m.text) == Sent(m'.text) && m.data == m'.data
  {
    if Encode(m) == Encode(m') {
      HeadOf(m);
      HeadOf(m');
      forall i | 0 <= i < |m.data| ensures m.data[i] == m'.data[i] {
        assert Encode(m)[i + 4] == Str(m.data[i]) && Encode(m')[i + 4] == Str(m'.data[i]);
      }
    }
  }

  lemma HeadOf(m: Message)
    ensures Encode(m)[0] == Int(m.uid) && Encode(m)[1] == Str(Sent(m.kind))
    ensures Encode(m)[2] == Str(Sent(m.text)) && Encode(m)[3] == Int(|m.data|)
  {
  }

  // ---- From the engine to the application ----

  /** The call the newest message on the bus leads to in the client. */
  function Newest(bus: seq<Message>): Option<Received> {
    if bus == [] then None else Decode(Encode(bus[|bus| - 1]))
  }

  /** What the engine reports for a processing client is what the client's result handler is called with:
      one more message, the earlier ones as they were, no strings unless the outcome is a success. */
  lemma ResultArrives(d: State, e: Event, env: Env)
    requires e.Result? && d.agent.isLoaded && d.agent.conf.engineId.Some?
    requires StateOf(d.clients, e.uid) == Some(Processing) && PidOf(d.clients, e.uid) >= 0 && e.uid > 0
    requires Deliverable(e.outcome, e.data, env)
    ensures var bus := Step(d, e, env).bus; var data := if e.outcome.Success? then Strings(e.data) else [];
      && |bus| == |d.bus| + 1 && bus[..|d.bus|] == d.bus
      && Newest(bus) == Some(Received(e.uid, Some(Sent(e.kind)), Some(Sent(e.text)), data))
  {
    hide WithState, Decode, Encode;
    var data := if e.outcome.Success? then e.data else [];
    RoundTrip(Message(e.uid, e.kind, e.text, Strings(data)));
  }

  /** A client that waited in vain is told so. */
  lemma TimeoutArrives(d: State, env: Env)
    requires FirstIn(d.clients, Processing) > 0 && PidOf(d.clients, FirstIn(d.clients, Processing)) >= 0 && env.send
    ensures var bus := DoTimeout(d, env).bus;
      && |bus| == |d.bus| + 1 && bus[..|d.bus|] == d.bus
      && Newest(bus) == Some(Received(FirstIn(d.clients, Processing), Some(FREE), Some(TIMED_OUT_TEXT), []))
  {
    hide WithState, Decode, Encode, FirstIn, RecognizeCancel;
    RoundTrip(Message(FirstIn(d.clients, Processing), Some(FREE), Some(TIMED_OUT_TEXT), []));
    assert Strings([]) == [];
  }

  // ---- The two loops ----

  /** Appends cell by cell, and gives up at the first absent string. */
  method WriteResult(uid: int, kind: Option<string>, data: seq<Option<string>>, text: Option<string>)
    returns (cells: seq<Cell>, ok: bool)
    ensures ok <==> AllPresent(data)
    ensures ok ==> cells == Encode(Message(uid, kind, text, Strings(data)))
  {
    cells := [Int(uid)];
    if kind.None? { cells := cells + [Str(NONE)]; } else { cells := cells + [Str(kind.value)]; }
    if text.None? { cells := cells + [Str(NONE)]; } else { cells := cells + [Str(text.value)]; }
    cells := cells + [Int(|data|)];
    ghost var front := cells;
    for i := 0 to |data|
      invariant |cells| == |front| + i && cells[..|front|] == front
      invariant forall k :: 0 <= k < i ==> data[k].Some? && cells[|front| + k] == Str(data[k].value)
    {
      if data[i].None? { return cells, false; }
      cells := cells + [Str(data[i].value)];
    }
    ok := true;
    assert cells == front + Cells(Strings(data));
  }

  /** Walks the arguments; `handled` says whether the result handler is called. */
  method ReadResult(cells: seq<Cell>) returns (handled: bool, r: Received)
    ensures handled <==> Decode(cells).Some?
    ensures handled ==> Decode(cells) == Some(r)
  {
    var pos, uid, count := 0, 0, 0;
    r := Received(0, None, None, []);
    if pos < |cells| && cells[pos].Int? { uid, pos := cells[pos].n, pos + 1; }
    if uid <= 0 { return false, r; }
    var kind, text: Option<string> := None, None;
    if pos < |cells| && cells[pos].Str? { kind, pos := Some(cells[pos].s), pos + 1; }
    if pos < |cells| && cells[pos].Str? { text, pos := Some(cells[pos].s), pos + 1; }
    if pos < |cells| && cells[pos].Int? { count, pos := cells[pos].n, pos + 1; }
    r := Received(uid, kind, text, []);
    if count <= 0 { return true, r; }
    var data: seq<string> := [];
    ghost var start := pos;
    BeforeBoth([], "", TakeStrings(cells, start, count));
    for i := 0 to count
      invariant pos == start + i <= |cells|
      invariant |data| == i
      invariant TakeStrings(cells, start, count) == Before(data, TakeStrings(cells, pos, count - i))
    {
      if pos == |cells| || cells[pos].Int? { return false, r; }
      BeforeBoth(data, cells[pos].s, TakeStrings(cells, pos + 1, count - i - 1));
      data := data + [cells[pos].s];
      pos := pos + 1;
    }
    BeforeBoth(data, "", None);
    return true, Received(uid, kind, text, data);
  }
}
