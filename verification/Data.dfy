/** Values shared by the whole model: bytes, chunks, connection ids and the
    life-cycle status of a queue or a link. */
module Data {

  type byte = b: int | 0 <= b < 256

  datatype Option<+T> = None | Some(value: T)

  /** One id per websocket of one proxied stream. Ids are fresh and distinct;
      the lane is the index of the websocket the id was created on, and lane 0
      is the master of the stream. */
  datatype Id = Id(stream: nat, lane: nat)

  /** One element of a buffer channel: bytes, or the end-of-stream mark. */
  datatype Chunk = Chunk(eof: bool, data: seq<byte>)

  /** What a receive on a closed and drained channel returns. */
  const ZERO := Chunk(false, [])

  const EOF_MARK := Chunk(true, [])

  datatype Status = StaWait | StaSend | StaDone | StaClose

  /** The result of a writeBuf: send is over, a recovered send on the closed
      channel, still waiting for room, or queued. */
  datatype Outcome = Refused | Lost | Blocked | Queued

  /** What a Send loop received: the chunks it passed on and the one that ended it. */
  function Taken(sent: seq<Chunk>, last: Option<Chunk>): seq<Chunk> {
    if last.Some? then sent + [last.value] else sent
  }

  /** The bytes a sequence of chunks stands for. */
  function Bytes(cs: seq<Chunk>): seq<byte> {
    if cs == [] then [] else cs[0].data + Bytes(cs[1..])
  }

  lemma {:induction false} BytesConcat(a: seq<Chunk>, b: seq<Chunk>)
    ensures Bytes(a + b) == Bytes(a) + Bytes(b)
  {
    if a == [] {
      assert a + b == b;
    } else {
      assert (a + b)[1..] == a[1..] + b;
      BytesConcat(a[1..], b);
    }
  }

  lemma BytesAppend(a: seq<Chunk>, c: Chunk)
    ensures Bytes(a + [c]) == Bytes(a) + c.data
  {
    BytesConcat(a, [c]);
  }

  lemma BytesPrefix(a: seq<Chunk>, k: nat)
    requires k <= |a|
    ensures Bytes(a[..k]) <= Bytes(a)
  {
    assert a == a[..k] + a[k..];
    BytesConcat(a[..k], a[k..]);
  }

  /** The ids of a stream in sending order: what transData collects in `sorted`. */
  function Order(s: nat, n: nat): (r: seq<Id>)
    ensures |r| == n
    ensures forall j :: 0 <= j < n ==> r[j] == Id(s, j)
  {
    seq(n, j requires 0 <= j < n => Id(s, j))
  }
}
