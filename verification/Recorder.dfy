/** The daemon's recorder: its state flag and the replay of a recorded AMR file (server/sttd_recorder.c). */
module Recorder {
  import opened Types

  type byte = bv8

  datatype Audio = PcmS16 | PcmU8 | Amr

  /** The state flag, whether the camcorder itself is running, the format, and whether the stream callback
      has been set. */
  datatype Rec = Rec(recording: bool, running: bool, audio: Audio, callback: bool)

  const BUFFER_SIZE: nat := 1024

  // ---- Specification ----

  /** The camcorder is told to cancel; `ok` says it does. */
  function Halt(r: Rec, ok: bool): Rec {
    if ok then r.(running := false) else r
  }

  /** A new format cancels the camcorder of a running recording, and leaves the flag up. */
  function SetFormat(r: Rec, audio: Audio, ok: bool): Rec {
    (if r.recording then Halt(r, ok) else r).(audio := audio, callback := true)
  }

  /** The camcorder cannot be set up, does not record, or records; a recording under way is cancelled first. */
  function StartRec(r: Rec, camcorder: Answer, ok: bool): (Rec, int) {
    var h := if r.recording then Halt(r, ok) else r;
    match camcorder
    case Missing => (r, ERROR_OPERATION_FAILED)
    case Refused(_) => (h, ERROR_OPERATION_FAILED)
    case Accepted => (h.(recording := true, running := true), 0)
  }

  predicate StopSucceeds(r: Rec, file: Option<seq<byte>>) {
    r.callback && (r.audio.Amr? ==> file.Some?)
  }

  /** The camcorder's own answer `commit` to the stop is not looked at. */
  function StopRec(r: Rec, file: Option<seq<byte>>, commit: bool): (Rec, int) {
    var h := Halt(r, commit);
    if StopSucceeds(h, file) then (h.(recording := false), 0) else (h, -1)
  }

  function CancelRec(r: Rec, ok: bool): (Rec, int) {
    if ok then (r.(recording := false, running := false), 0) else (r, -1)
  }

  /** A file cut into buffers. */
  function Chunks(f: seq<byte>): (cs: seq<seq<byte>>)
    ensures forall i :: 0 <= i < |cs| ==> 1 <= |cs[i]| <= BUFFER_SIZE
    ensures forall i :: 0 <= i < |cs| - 1 ==> |cs[i]| == BUFFER_SIZE
  {
    if f == [] then []
    else if |f| <= BUFFER_SIZE then [f]
    else [f[..BUFFER_SIZE]] + Chunks(f[BUFFER_SIZE..])
  }

  /** The chunks handed to an engine that takes `accepts` of them and refuses the next. */
  function Replayed(f: seq<byte>, accepts: nat): seq<seq<byte>> {
    var cs := Chunks(f);
    if accepts < |cs| then cs[..accepts + 1] else cs
  }

  /** The engine turned a replayed chunk down. */
  predicate ReplayRefused(r: Rec, file: Option<seq<byte>>, accepts: nat) {
    r.callback && r.audio.Amr? && file.Some? && accepts < |Chunks(file.value)|
  }

  function Flatten(cs: seq<seq<byte>>): seq<byte> {
    if cs == [] then [] else cs[0] + Flatten(cs[1..])
  }

  lemma {:induction false} TakeChunks(f: seq<byte>, n: nat)
    requires n <= |Chunks(f)|
    ensures Flatten(Chunks(f)[..n]) == f[..if BUFFER_SIZE * n < |f| then BUFFER_SIZE * n else |f|]
  {
    var cs := Chunks(f);
    if n == 0 || f == [] {
      assert cs[..n] == [];
    } else if |f| <= BUFFER_SIZE {
      assert cs[..n] == [f] && [f][1..] == [];
      assert Flatten([f]) == f + Flatten([]);
    } else {
      var rest := f[BUFFER_SIZE..];
      TakeChunks(rest, n - 1);
      assert cs[..n][0] == f[..BUFFER_SIZE] && cs[..n][1..] == Chunks(rest)[..n - 1];
      var k := if BUFFER_SIZE * (n - 1) < |rest| then BUFFER_SIZE * (n - 1) else |rest|;
      assert f[..BUFFER_SIZE] + rest[..k] == f[..BUFFER_SIZE + k];
    }
  }

  lemma {:induction false} ChunkCount(f: seq<byte>)
    ensures |f| <= BUFFER_SIZE * |Chunks(f)| && (f != [] ==> BUFFER_SIZE * (|Chunks(f)| - 1) < |f|)
  {
    if |f| > BUFFER_SIZE { ChunkCount(f[BUFFER_SIZE..]); }
  }

  /** What reached the engine is the file up to and including the refused buffer, and all of it when none is. */
  lemma ReplayDelivers(f: seq<byte>, accepts: nat)
    ensures Flatten(Replayed(f, accepts)) ==
      f[..if BUFFER_SIZE * (accepts + 1) < |f| then BUFFER_SIZE * (accepts + 1) else |f|]
    ensures accepts >= |Chunks(f)| ==> Flatten(Replayed(f, accepts)) == f
  {
    var cs := Chunks(f);
    ChunkCount(f);
    if accepts < |cs| {
      TakeChunks(f, accepts + 1);
    } else {
      TakeChunks(f, |cs|);
      assert cs[..|cs|] == cs;
    }
  }

  /** The engine turns a buffer down exactly when the file holds more than the buffers it takes. */
  lemma RefusedWhen(r: Rec, file: Option<seq<byte>>, accepts: nat)
    ensures ReplayRefused(r, file, accepts) <==>
      r.callback && r.audio.Amr? && file.Some? && |file.value| > BUFFER_SIZE * accepts
  {
    if file.Some? { ChunkCount(file.value); }
  }

  /** A start that does not succeed has halted the camcorder exactly if the flag said recording, the camcorder could
      be set up and its cancel got through; the flag goes by success alone. */
  lemma StartHalts(r: Rec, camcorder: Answer, ok: bool)
    ensures var (r', ret) := StartRec(r, camcorder, ok);
      && (ret == 0 <==> camcorder.Accepted?)
      && (ret == 0 ==> r'.recording && r'.running)
      && (ret != 0 ==> (r'.running <==> r.running && !(r.recording && !camcorder.Missing? && ok)))
      && (ret != 0 ==> r'.recording == r.recording)
      && r'.audio == r.audio && r'.callback == r.callback
  {
  }

  // ---- The recorder as the daemon keeps it ----

  class RecorderObject {
    var recording: bool
    var running: bool
    var audio: Audio
    var callback: bool

    ghost function View(): Rec
      reads this
    {
      Rec(recording, running, audio, callback)
    }

    constructor ()
      ensures View() == Rec(false, false, PcmS16, false)
    {
      recording, running, audio, callback := false, false, PcmS16, false;
    }

    method Set(format: Audio, ok: bool)
      modifies this
      ensures View() == SetFormat(old(View()), format, ok)
    {
      if recording && ok { running := false; }
      audio := format;
      callback := true;
    }

    method Start(camcorder: Answer, ok: bool) returns (ret: int)
      modifies this
      ensures (View(), ret) == StartRec(old(View()), camcorder, ok)
    {
      if camcorder.Missing? { return ERROR_OPERATION_FAILED; }
      if recording && ok { running := false; }
      if !camcorder.Accepted? { return ERROR_OPERATION_FAILED; }
      running := true;
      recording := true;
      return 0;
    }

    method Cancel(ok: bool) returns (ret: int)
      modifies this
      ensures (View(), ret) == CancelRec(old(View()), ok)
    {
      if !ok { return -1; }
      running := false;
      recording := false;
      return 0;
    }

    method Stop(file: Option<seq<byte>>, accepts: nat, commit: bool) returns (ret: int, refused: bool)
      modifies this
      ensures (View(), ret) == StopRec(old(View()), file, commit)
      ensures refused == ReplayRefused(old(View()), file, accepts)
    {
      refused := false;
      if commit { running := false; }
      if !callback { return -1, false; }
      if audio.Amr? {
        if file.None? { return -1, false; }
        var sent;
        sent, refused := SendBufFromFile(file.value, accepts);
      }
      recording := false;
      return 0, refused;
    }

    /** Fills the buffer from the file; the end of the file is only noticed by a read that falls short. */
    method Read(f: seq<byte>, pos: nat, buff: array<byte>) returns (size: nat, eof: bool)
      requires pos <= |f| && buff.Length == BUFFER_SIZE
      modifies buff
      ensures size == if |f| - pos < BUFFER_SIZE then |f| - pos else BUFFER_SIZE
      ensures eof <==> |f| - pos < BUFFER_SIZE
      ensures buff[..size] == f[pos..pos + size]
    {
      size := 0;
      while size < buff.Length && pos + size < |f|
        invariant size <= buff.Length && pos + size <= |f|
        invariant buff[..size] == f[pos..pos + size]
      {
        buff[size] := f[pos + size];
        size := size + 1;
      }
      eof := size < buff.Length;
    }

    /** The replay loop; `sent` records what the stream callback was given. */
    method SendBufFromFile(f: seq<byte>, accepts: nat) returns (sent: seq<seq<byte>>, refused: bool)
      ensures sent == Replayed(f, accepts)
      ensures refused <==> accepts < |Chunks(f)|
    {
      var buff := new byte[BUFFER_SIZE];
      var pos, eof := 0, false;
      sent, refused := [], false;
      while !eof
        invariant pos <= |f| && (eof ==> pos == |f|)
        invariant Chunks(f) == sent + Chunks(f[pos..]) && |sent| <= accepts
        invariant !refused
        decreases !eof, |f| - pos
      {
        var size;
        size, eof := Read(f, pos, buff);
        if size > 0 {
          assert Chunks(f[pos..]) == [f[pos..pos + size]] + Chunks(f[pos + size..]) by {
            NextChunk(f, pos, size);
          }
          sent := sent + [buff[..size]];
          if |sent| > accepts {
            refused := true;
            break;
          }
        }
        pos := pos + size;
      }
    }
  }

  lemma NextChunk(f: seq<byte>, pos: nat, size: nat)
    requires pos < |f| && size == if |f| - pos < BUFFER_SIZE then |f| - pos else BUFFER_SIZE
    ensures Chunks(f[pos..]) == [f[pos..pos + size]] + Chunks(f[pos + size..])
  {
    var rest := f[pos..];
    if |rest| <= BUFFER_SIZE {
      assert rest == f[pos..pos + size] && f[pos + size..] == [];
    } else {
      assert rest[..BUFFER_SIZE] == f[pos..pos + size] && rest[BUFFER_SIZE..] == f[pos + size..];
    }
  }
}
