/** wss/buffered_reader_writer.go: a byte buffer whose writers wake one reader with a
    token in a channel of capacity one. The step machine interleaves one reader with
    any number of writers; the class runs whole calls. */
module BufferedWR {
  import opened Data

  /** The mutex: free, or held by a writer that has bytes to append and either still
      has to send the token or need not any more. The reader's critical section does
      not block, so it is one step. */
  datatype Lock = Free | Writing(bytes: seq<byte>, signalled: bool)

  /** The reader: outside Read, in the select on `update`, or about to lock. */
  datatype Reader = Idle | Wait | Locking

  /** `token` is the content of `update`, which is closed exactly when `done`.
      Auxiliary: all bytes written and read, and whether the last Read ended with EOF. */
  datatype State = State(buffer: seq<byte>, done: bool, token: bool, lock: Lock, reader: Reader,
                         written: seq<byte>, read: seq<byte>, eof: bool)

  const NEW := State([], false, false, Free, Idle, [], [], false)

  datatype Act =
    | Begin(bytes: seq<byte>) | Signal | Append | Close
    | Enter | Receive | Take(want: nat)

  predicate Enabled(s: State, a: Act) {
    match a
    case Begin(_) => s.lock.Free?
    case Signal => s.lock.Writing? && !s.lock.signalled && !s.token
    case Append => s.lock.Writing? && s.lock.signalled
    case Close => s.lock.Free?
    case Enter => s.reader.Idle?
    case Receive => s.reader.Wait? && (s.token || s.done)
    case Take(_) => s.reader.Locking? && s.lock.Free?
  }

  function Step(s: State, a: Act): State
    requires Enabled(s, a)
  {
    match a
    case Begin(p) => if s.done || p == [] then s else s.(lock := Writing(p, s.buffer != []))
    case Signal => s.(token := true, lock := Writing(s.lock.bytes, true))
    case Append => s.(buffer := s.buffer + s.lock.bytes, written := s.written + s.lock.bytes, lock := Free)
    case Close => s.(done := true)
    case Enter => s.(reader := if s.buffer == [] then Wait else Locking)
    case Receive => if s.token then s.(token := false, reader := Locking) else s.(reader := Idle, eof := true)
    case Take(want) =>
      if s.done then s.(reader := Idle, eof := true)
      else
        var n := if want < |s.buffer| then want else |s.buffer|;
        s.(reader := Idle, eof := s.buffer == [] && want > 0,
           read := s.read + s.buffer[..n], buffer := s.buffer[n..])
  }

  /** These steps, in this order, lead from s to t. */
  ghost predicate Follows(s: State, acts: seq<Act>, t: State)
    decreases acts
  {
    if acts == [] then s == t
    else Enabled(s, acts[0]) && Follows(Step(s, acts[0]), acts[1..], t)
  }

  /** What holds in every reachable state. */
  ghost predicate Inv(s: State) {
    && s.read + s.buffer == s.written
    && (s.lock.Writing? ==> s.lock.bytes != [] && !s.done && (!s.lock.signalled ==> s.buffer == []))
    && (s.lock.Writing? && s.lock.signalled && s.buffer == [] ==> s.token || s.reader.Locking?)
    && (s.reader.Wait? && s.buffer != [] ==> s.token || s.done)
    && (s.reader.Locking? && s.buffer == [] && !(s.lock.Writing? && s.lock.signalled) ==> !s.token)
  }

  lemma StepKeepsInv(s: State, a: Act)
    requires Inv(s) && Enabled(s, a)
    ensures Inv(Step(s, a))
  {
    var s' := Step(s, a);
    match a {
      case Append => assert s'.read + s'.buffer == (s.read + s.buffer) + s.lock.bytes;
      case Take(want) =>
        if !s.done {
          var n := if want < |s.buffer| then want else |s.buffer|;
          assert s.buffer == s.buffer[..n] + s.buffer[n..];
          assert s'.read + s'.buffer == s.read + s.buffer;
        }
      case _ =>
    }
  }

  lemma {:induction false} RunKeepsInv(s: State, acts: seq<Act>, t: State)
    requires Inv(s) && Follows(s, acts, t)
    ensures Inv(t)
    decreases acts
  {
    if acts != [] {
      StepKeepsInv(s, acts[0]);
      RunKeepsInv(Step(s, acts[0]), acts[1..], t);
    }
  }

  /** The token buffer: in every reachable state the bytes read are a prefix of the
      bytes written, a reader in the select can go on as soon as there are bytes, and
      nobody is about to send on a closed channel. */
  lemma TokenBuffer(acts: seq<Act>, s: State)
    requires Follows(NEW, acts, s)
    ensures s.read <= s.written && s.written == s.read + s.buffer
    ensures s.reader.Wait? && s.buffer != [] ==> Enabled(s, Receive)
    ensures s.lock.Writing? && !s.lock.signalled ==> !s.done
  {
    RunKeepsInv(NEW, acts, s);
  }

  /** A Read takes as much as was asked for, or all there is: after it, in every reachable
      state that is not closed, the bytes read are the first |read| + want of the bytes
      written; and once closed it takes nothing. */
  lemma TakeIsFull(acts: seq<Act>, s: State, want: nat)
    requires Follows(NEW, acts, s) && Enabled(s, Take(want))
    ensures var t := Step(s, Take(want));
      && t.written == s.written && t.read <= t.written
      && |t.read| == if s.done then |s.read|
                     else if |s.read| + want < |s.written| then |s.read| + want else |s.written|
  {
    RunKeepsInv(NEW, acts, s);
    RunKeepsInv(s, [Take(want)], Step(s, Take(want)));
  }

  /** No deadlock: a writer that holds the mutex and waits for room in the channel is
      freed by the reader, who is not waiting for the mutex at that time. */
  lemma BlockedWriterIsFreed(acts: seq<Act>, s: State)
    requires Follows(NEW, acts, s)
    requires s.lock.Writing? && !s.lock.signalled && s.token
    ensures var w := if s.reader.Idle? && Enabled(s, Enter) then Step(s, Enter) else s;
      && Enabled(w, Receive)
      && Enabled(Step(w, Receive), Signal)
      && var t := Step(Step(w, Receive), Signal);
         Enabled(t, Append) && Step(t, Append).buffer == s.lock.bytes
  {
    RunKeepsInv(NEW, acts, s);
    assert [] + s.lock.bytes == s.lock.bytes;
  }

  /** Steps that may happen between the entry of one Read call and its critical
      section, without a close: steps of writers, and the receive of this call. */
  predicate During(mid: seq<Act>) {
    forall a <- mid :: !a.Enter? && !a.Take? && !a.Close?
  }

  predicate BeginsWrite(mid: seq<Act>) {
    exists a :: a in mid && a.Begin? && a.bytes != []
  }

  /** The reader inside Read will find bytes: they are there, or a writer that holds
      the mutex brings them, or the reader has to wait for a writer. */
  predicate Fed(s: State) {
    s.buffer != [] || s.lock.Writing? || (s.reader.Wait? && !s.token)
  }

  /** That does not change until Take, except by a write that begins. */
  lemma {:induction false} FedUnlessWritten(s: State, mid: seq<Act>, t: State)
    requires Inv(s) && !s.reader.Idle? && !s.done && Follows(s, mid, t) && During(mid)
    ensures Inv(t) && !t.done && (Fed(t) <==> Fed(s) || BeginsWrite(mid))
    decreases mid
  {
    if mid != [] {
      var a, rest := mid[0], mid[1..];
      StepKeepsInv(s, a);
      FedUnlessWritten(Step(s, a), rest, t);
      assert mid == [a] + rest;
      assert BeginsWrite(mid) <==> (a.Begin? && a.bytes != []) || BeginsWrite(rest);
    }
  }

  /** When a Read reports EOF without a close, over interleaved runs: if and only if, on
      entry, the buffer is empty, a token is left over and no writer holds the mutex,
      and no write begins before the critical section. Nothing is lost by it: everything
      written has been read. */
  lemma EarlyEof(acts: seq<Act>, s: State, mid: seq<Act>, t: State, want: nat)
    requires Follows(NEW, acts, s) && Enabled(s, Enter)
    requires Follows(Step(s, Enter), mid, t) && During(mid) && Enabled(t, Take(want)) && !s.done
    ensures Step(t, Take(want)).eof <==>
      s.buffer == [] && s.token && s.lock.Free? && !BeginsWrite(mid) && want > 0
    ensures Step(t, Take(want)).eof ==> t.read == t.written
  {
    RunKeepsInv(NEW, acts, s);
    StepKeepsInv(s, Enter);
    FedUnlessWritten(Step(s, Enter), mid, t);
  }

  /** Such a run exists: the reader enters while the bytes are there, so the token
      stays behind and wakes the next Read for nothing. */
  lemma EarlyEofHappens(b: byte)
    ensures var t := State([], false, false, Free, Idle, [b], [b], true);
      Follows(NEW, [Begin([b]), Signal, Append] + [Enter, Take(1)] + [Enter, Receive, Take(1)], t)
  {
    var s3 := State([b], false, true, Free, Idle, [b], [], false);
    var s5 := State([], false, true, Free, Idle, [b], [b], false);
    var s8 := State([], false, false, Free, Idle, [b], [b], true);
    assert [b][1..] == [] && [] + [b] == [b] && [b][..1] == [b];
    FollowsThree(NEW, Begin([b]), Signal, Append, s3);
    FollowsTwo(s3, Enter, Take(1), s5);
    assert [b] + [] == [b];
    FollowsThree(s5, Enter, Receive, Take(1), s8);
    FollowsJoin(NEW, [Begin([b]), Signal, Append], s3, [Enter, Take(1)], s5);
    FollowsJoin(NEW, [Begin([b]), Signal, Append] + [Enter, Take(1)], s5, [Enter, Receive, Take(1)], s8);
  }

  lemma {:induction false} FollowsJoin(s: State, xs: seq<Act>, t: State, ys: seq<Act>, u: State)
    requires Follows(s, xs, t) && Follows(t, ys, u)
    ensures Follows(s, xs + ys, u)
    decreases xs
  {
    if xs == [] {
      assert xs + ys == ys;
    } else {
      FollowsJoin(Step(s, xs[0]), xs[1..], t, ys, u);
      assert (xs + ys)[1..] == xs[1..] + ys;
    }
  }

  /** The steps of a Write call that nothing interrupts. */
  function WriteActs(s: State, p: seq<byte>): seq<Act> {
    if s.done || p == [] then [Begin(p)]
    else if s.buffer == [] then [Begin(p), Signal, Append]
    else [Begin(p), Append]
  }

  /** The steps of a Read call that nothing interrupts. */
  function ReadActs(s: State, want: nat): seq<Act> {
    if s.buffer != [] then [Enter, Take(want)]
    else if s.token then [Enter, Receive, Take(want)]
    else [Enter, Receive]
  }

  lemma FollowsTwo(s: State, a: Act, b: Act, t: State)
    requires Enabled(s, a) && Enabled(Step(s, a), b) && t == Step(Step(s, a), b)
    ensures Follows(s, [a, b], t)
  {
    assert [a, b][1..] == [b];
  }

  lemma FollowsThree(s: State, a: Act, b: Act, c: Act, t: State)
    requires Enabled(s, a) && Enabled(Step(s, a), b) && Enabled(Step(Step(s, a), b), c)
    requires t == Step(Step(Step(s, a), b), c)
    ensures Follows(s, [a, b, c], t)
  {
    assert [a, b, c][1..] == [b, c];
    FollowsTwo(Step(s, a), b, c, t);
  }

  datatype WriteResult = WriteAfterClose | Wrote(n: nat) | WaitsForRoom

  datatype ReadResult = Waits | EndOfFile | Got(data: seq<byte>)

  /** The object, between whole calls. */
  class Buffered {
    var buffer: seq<byte>
    var done: bool
    var token: bool
    ghost var written: seq<byte>
    ghost var read: seq<byte>
    /** How often `update` was closed; a second time would panic. */
    ghost var closes: nat

    constructor ()
      ensures Valid() && Abs(false) == NEW
    {
      buffer, done, token, written, read, closes := [], false, false, [], [], 0;
    }

    ghost predicate Valid()
      reads this
    {
      Inv(Abs(false)) && closes == if done then 1 else 0
    }

    ghost function Abs(eof: bool): State
      reads this
    {
      State(buffer, done, token, Free, Idle, written, read, eof)
    }

    method Close()
      requires Valid()
      modifies this
      ensures Valid() && done && Follows(old(Abs(false)), [Act.Close], Abs(false))
    {
      if done { return; }
      done := true;
      closes := closes + 1;
    }

    /** Either the call blocks, or it takes the steps of the machine. */
    method Write(p: seq<byte>) returns (r: WriteResult)
      requires Valid()
      modifies this
      ensures Valid() && done == old(done)
      ensures r.WriteAfterClose? <==> old(done)
      ensures r.WaitsForRoom? <==> !old(done) && p != [] && old(buffer) == [] && old(token)
      ensures if r.WaitsForRoom? then Abs(false) == old(Abs(false))
              else Follows(old(Abs(false)), WriteActs(old(Abs(false)), p), Abs(false))
      ensures r.Wrote? ==> r.n == |p| && buffer == old(buffer) + p && written == old(written) + p
    {
      if done { return WriteAfterClose; }
      if p == [] {
        assert buffer + [] == buffer && written + [] == written;
        return Wrote(0);
      }
      ghost var s := Abs(false);
      if buffer == [] {
        if token { return WaitsForRoom; }
        token := true;
      }
      buffer, written := buffer + p, written + p;
      if s.buffer == [] {
        FollowsThree(s, Begin(p), Signal, Append, Abs(false));
      } else {
        FollowsTwo(s, Begin(p), Append, Abs(false));
      }
      r := Wrote(|p|);
    }

    /** Either the call blocks, or it takes the steps of the machine. Without a close
        it reports EOF exactly when a token is left over on an empty buffer. */
    method Read(want: nat) returns (r: ReadResult)
      requires Valid()
      modifies this
      ensures Valid() && done == old(done)
      ensures r.Waits? <==> old(buffer) == [] && !old(token) && !done
      ensures if r.Waits? then Abs(false) == old(Abs(false))
              else Follows(old(Abs(false)), ReadActs(old(Abs(false)), want), Abs(r.EndOfFile?))
      ensures !done ==> (r.EndOfFile? <==> old(buffer) == [] && old(token) && want > 0)
      ensures done ==> r.EndOfFile?
      ensures r.Got? ==> r.data + buffer == old(buffer) && read == old(read) + r.data
      ensures r.Got? ==> |r.data| == if want < |old(buffer)| then want else |old(buffer)|
    {
      ghost var s := Abs(false);
      var had := buffer != [];
      if !had {
        if !token && !done { return Waits; }
        if !token {
          FollowsTwo(s, Enter, Receive, Abs(true));
          return EndOfFile;
        }
        token := false;
      }
      r := if done || (buffer == [] && want > 0) then EndOfFile else Got([]);
      if !done {
        var n := if want < |buffer| then want else |buffer|;
        assert buffer == buffer[..n] + buffer[n..];
        if r.Got? { r := Got(buffer[..n]); }
        assert read + buffer == (read + buffer[..n]) + buffer[n..];
        read, buffer := read + buffer[..n], buffer[n..];
      }
      if had {
        FollowsTwo(s, Enter, Take(want), Abs(r.EndOfFile?));
      } else {
        FollowsThree(s, Enter, Receive, Take(want), Abs(r.EndOfFile?));
      }
    }
  }
}
