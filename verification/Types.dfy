/** Vocabulary shared by the daemon and the client library. */
module Types {

  datatype Option<+T> = None | Some(value: T)

  /** A session state; the daemon and the client library number them alike. */
  datatype AppState = Created | Ready | Recording | Processing

  function StateCode(s: AppState): (code: int)
    ensures 0 <= code <= 3
  {
    match s
    case Created => 0
    case Ready => 1
    case Recording => 2
    case Processing => 3
  }

  /** What a call through the engine's function table meets: an empty slot, a failure, or success. A failed
      start or stop may leave the engine in recognition: it `holds` on. */
  datatype Answer = Missing | Refused(holds: bool) | Accepted

  const ERROR_OUT_OF_MEMORY := -12
  const ERROR_INVALID_PARAMETER := -22
  const ERROR_RECORDER_BUSY := -16
  const ERROR_OUT_OF_NETWORK := -100
  const ERROR_INVALID_STATE := -0x0100031
  const ERROR_INVALID_LANGUAGE := -0x0100032
  const ERROR_ENGINE_NOT_FOUND := -0x0100033
  const ERROR_OPERATION_FAILED := -0x0100034

  /** Position of the first `id`, or the length of the list: what a walk along a list looks for. */
  function FirstAt(ids: seq<int>, id: int): (i: nat)
    ensures i <= |ids|
    ensures i < |ids| ==> ids[i] == id
    ensures id !in ids[..i]
  {
    if ids == [] || ids[0] == id then 0 else 1 + FirstAt(ids[1..], id)
  }

  /** No record or pid is listed twice. */
  ghost predicate Distinct<T>(rs: seq<T>) {
    forall i, j :: 0 <= i < j < |rs| ==> rs[i] != rs[j]
  }

  lemma DistinctAfterRemoval<T>(rs: seq<T>, k: nat)
    requires Distinct(rs) && k < |rs|
    ensures Distinct(rs[..k] + rs[k + 1..])
  {
    var w := rs[..k] + rs[k + 1..];
    forall i, j | 0 <= i < j < |w| ensures w[i] != w[j] {
      assert w[i] == rs[if i < k then i else i + 1] && w[j] == rs[if j < k then j else j + 1];
    }
  }

  function BoolCode(b: bool): (code: int)
    ensures code != 0 <==> b
  {
    if b then 1 else 0
  }
}
