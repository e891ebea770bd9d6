/** pipe/func.go, CopyBuffer: the loop that reads a connection into one reused
    buffer and hands each read to a queue, which keeps its own copy. */
module CopyBuffer {
  import opened Data

  const SIZE := 4096

  datatype ReadError = NoError | Eof | Broken

  /** One turn of the loop: what conn.Read delivers, and what the queue would answer
      in that turn to a write, and to a WriteEOF. */
  datatype Turn = Turn(data: seq<byte>, err: ReadError, verdict: Outcome, mark: Outcome)

  datatype Ending = StillReading | EndOfInput | ReadFailed | WriteFailed | ShortWrite

  /** What the queue keeps: a copied slice, or the end mark. */
  datatype Entry = Slice(bytes: array<byte>) | Mark

  /** The queue as CopyBuffer sees it: its entries, in order, and how often WriteEOF was
      called. */
  class Pipe {
    var entries: seq<Entry>
    var eofs: nat

    constructor ()
      ensures entries == [] && eofs == 0
    {
      entries, eofs := [], 0;
    }

    ghost function Arrays(): set<array<byte>>
      reads this
    {
      set i | 0 <= i < |entries| && entries[i].Slice? :: entries[i].bytes
    }

    function Contents(): (r: seq<Chunk>)
      reads this, Arrays()
      ensures |r| == |entries|
      ensures forall i :: 0 <= i < |r| ==> r[i] == if entries[i].Slice? then Chunk(false, entries[i].bytes[..]) else EOF_MARK
    {
      seq(|entries|, i requires 0 <= i < |entries| reads this, Arrays() =>
        if entries[i].Slice? then Chunk(false, entries[i].bytes[..]) else EOF_MARK)
    }

    /** Write copies the slice and offers the copy to the channel. A recovered send
        on a closed channel reports zero bytes and no error. */
    method Write(buf: array<byte>, n: nat, verdict: Outcome) returns (nw: nat, failed: bool)
      requires n <= buf.Length
      modifies this`entries
      ensures Contents() == old(Contents()) + if verdict.Queued? then [Chunk(false, buf[..n])] else []
      ensures nw == (if verdict.Queued? then n else 0) && failed == (verdict.Refused? || verdict.Blocked?)
      ensures forall a <- Arrays() :: a in old(Arrays()) || fresh(a)
    {
      var b := new byte[n](i requires 0 <= i < n reads buf => buf[i]);
      nw, failed := 0, verdict.Refused? || verdict.Blocked?;
      if verdict.Queued? {
        ghost var kept := Contents();
        assert b[..] == buf[..n];
        entries := entries + [Slice(b)];
        assert forall i :: 0 <= i < |kept| ==> Contents()[i] == kept[i];
        nw := n;
      }
    }

    /** WriteEOF offers the end mark; its answer is not looked at. */
    method WriteEOF(verdict: Outcome)
      modifies this
      ensures eofs == old(eofs) + 1 && Arrays() == old(Arrays())
      ensures Contents() == old(Contents()) + if verdict.Queued? then [EOF_MARK] else []
    {
      eofs := eofs + 1;
      if verdict.Queued? {
        ghost var before, kept := entries, Contents();
        entries := entries + [Mark];
        assert forall i :: 0 <= i < |before| ==> entries[i] == before[i] && Contents()[i] == kept[i];
      }
    }
  }

  /** The bytes read in these turns. */
  function Read(turns: seq<Turn>): seq<byte> {
    if turns == [] then [] else Read(turns[..|turns| - 1]) + turns[|turns| - 1].data
  }

  /** The chunks a loop makes of them: one for each read that is not empty. */
  function Chunks(turns: seq<Turn>): seq<Chunk> {
    if turns == [] then []
    else
      var x := turns[|turns| - 1].data;
      Chunks(turns[..|turns| - 1]) + if x == [] then [] else [Chunk(false, x)]
  }

  /** Cutting into chunks loses nothing. */
  lemma {:induction false} FlatChunks(turns: seq<Turn>)
    ensures Bytes(Chunks(turns)) == Read(turns)
  {
    if turns != [] {
      var front, x := turns[..|turns| - 1], turns[|turns| - 1].data;
      FlatChunks(front);
      if x == [] {
        assert Chunks(front) + [] == Chunks(front) && Read(front) + [] == Read(front);
      } else {
        BytesAppend(Chunks(front), Chunk(false, x));
      }
    }
  }

  /** A turn that neither ends the input nor fails. */
  predicate Goes(t: Turn) {
    t.err.NoError? && (t.data == [] || t.verdict.Queued?)
  }

  /** How the turn number k ends the loop. */
  predicate Ends(t: Turn, end: Ending) {
    match end
    case StillReading => false
    case WriteFailed => t.data != [] && (t.verdict.Refused? || t.verdict.Blocked?)
    case ShortWrite => t.data != [] && t.verdict.Lost?
    case EndOfInput => t.err.Eof? && (t.data == [] || t.verdict.Queued?)
    case ReadFailed => t.err.Broken? && (t.data == [] || t.verdict.Queued?)
  }

  /** What the queue gets: one copied chunk for each non-empty read, except the last
      when its write fails; and behind them the end mark, if a read ended the loop and
      the queue took it. */
  function Handed(script: seq<Turn>, end: Ending, used: nat): seq<Chunk>
    requires used <= |script| && (end.StillReading? || used > 0)
  {
    if end.WriteFailed? || end.ShortWrite? then Chunks(script[..used - 1])
    else
      var tail := if !end.StillReading? && script[used - 1].mark.Queued? then [EOF_MARK] else [];
      Chunks(script[..used]) + tail
  }

  /** `used` turns are taken, all but the last go on. The queue gets what Handed says, in
      this order; `written` counts its bytes; WriteEOF is called once if a read ends the
      loop, else never. */
  method Copy(pw: Pipe, script: seq<Turn>) returns (written: nat, end: Ending, used: nat)
    requires forall t <- script :: |t.data| <= SIZE
    modifies pw
    ensures used <= |script| && forall i :: 0 <= i < used - 1 ==> Goes(script[i])
    ensures if end.StillReading? then used == |script| && forall t <- script :: Goes(t)
            else used > 0 && Ends(script[used - 1], end)
    ensures pw.Contents() == old(pw.Contents()) + Handed(script, end, used)
    ensures written == |Bytes(Handed(script, end, used))|
    ensures pw.eofs == old(pw.eofs) + if end.EndOfInput? || end.ReadFailed? then 1 else 0
  {
    var buf := new byte[SIZE];
    ghost var kept := pw.Contents();
    written, used := 0, 0;
    assert kept + [] == kept && script[..0] == [];
    Nothing();
    hide Bytes, Chunks, Read, Handed;
    while used < |script|
      invariant used <= |script| && forall i :: 0 <= i < used ==> Goes(script[i])
      invariant buf !in pw.Arrays() && pw.eofs == old(pw.eofs)
      invariant pw.Contents() == kept + Chunks(script[..used]) && written == |Read(script[..used])|
    {
      var t := script[used];
      var nr := |t.data|;
      OneTurn(script, used, kept);
      FillBuffer(buf, t.data, pw);
      used := used + 1;
      if nr > 0 {
        var nw, failed := pw.Write(buf, nr, t.verdict);
        written := written + nw;
        if failed || nr != nw {
          end := if failed then WriteFailed else ShortWrite;
          Cut(script, end, used, kept);
          return;
        }
      }
      assert pw.Contents() == kept + Chunks(script[..used]);
      if !t.err.NoError? {
        end := if t.err.Eof? then EndOfInput else ReadFailed;
        Marked(script, end, used, kept);
        pw.WriteEOF(t.mark);
        return;
      }
    }
    end := StillReading;
    Marked(script, end, used, kept);
  }

  lemma Nothing()
    ensures Chunks([]) == [] && Read([]) == []
  {
  }

  lemma OneTurn(script: seq<Turn>, used: nat, kept: seq<Chunk>)
    requires used < |script|
    ensures var data := script[used].data;
      && Read(script[..used + 1]) == Read(script[..used]) + data
      && kept + Chunks(script[..used + 1]) == kept + Chunks(script[..used]) + if data == [] then [] else [Chunk(false, data)]
  {
    assert script[..used + 1][..used] == script[..used];
  }

  lemma Cut(script: seq<Turn>, end: Ending, used: nat, kept: seq<Chunk>)
    requires 0 < used <= |script| && (end.WriteFailed? || end.ShortWrite?)
    ensures kept + Chunks(script[..used - 1]) + [] == kept + Handed(script, end, used)
    ensures |Bytes(Handed(script, end, used))| == |Read(script[..used - 1])|
  {
    hide Bytes, Chunks, Read;
    FlatChunks(script[..used - 1]);
  }

  lemma Marked(script: seq<Turn>, end: Ending, used: nat, kept: seq<Chunk>)
    requires used <= |script| && !end.WriteFailed? && !end.ShortWrite? && (end.StillReading? || used > 0)
    ensures var tail := if !end.StillReading? && script[used - 1].mark.Queued? then [EOF_MARK] else [];
      kept + Chunks(script[..used]) + tail == kept + Handed(script, end, used)
    ensures |Bytes(Handed(script, end, used))| == |Read(script[..used])|
  {
    hide Bytes, Chunks, Read;
    var cs := Chunks(script[..used]);
    FlatChunks(script[..used]);
    assert cs + [] == cs;
    BytesAppend(cs, EOF_MARK);
  }

  /** conn.Read into the reused buffer: chunks already queued keep their bytes. */
  method FillBuffer(buf: array<byte>, data: seq<byte>, pw: Pipe)
    requires |data| <= buf.Length && buf !in pw.Arrays()
    modifies buf
    ensures buf[..|data|] == data && pw.Contents() == old(pw.Contents())
  {
    forall i | 0 <= i < |data| {
      buf[i] := data[i];
    }
  }

  /** What the queue accepted is a prefix of what was read, and all of it, with nothing
      behind the mark, if the mark got in. */
  lemma HandedIsPrefix(script: seq<Turn>, end: Ending, used: nat)
    requires used <= |script| && (end.StillReading? || used > 0)
    ensures Bytes(Handed(script, end, used)) <= Read(script[..used])
    ensures var h := Handed(script, end, used);
      forall i :: 0 <= i < |h| && h[i].eof ==> i == |h| - 1 && h[i] == EOF_MARK && Bytes(h) == Read(script[..used])
  {
    hide Bytes;
    if end.WriteFailed? || end.ShortWrite? {
      FlatChunks(script[..used - 1]);
      assert script[..used][..used - 1] == script[..used - 1];
      DataOnly(script[..used - 1]);
    } else {
      FlatChunks(script[..used]);
      DataOnly(script[..used]);
      BytesAppend(Chunks(script[..used]), EOF_MARK);
      assert Chunks(script[..used]) + [] == Chunks(script[..used]);
    }
  }

  lemma {:induction false} DataOnly(turns: seq<Turn>)
    ensures forall x <- Chunks(turns) :: !x.eof && x.data != []
  {
    if turns != [] { DataOnly(turns[..|turns| - 1]); }
  }
}
