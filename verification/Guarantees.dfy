/** What the striped pipe promises: order, completeness at end of stream, and
    that it behaves like one first-in first-out queue. */
module Guarantees {
  import opened Data
  import opened RoundRobin
  import opened Counting
  import opened Protocol
  import opened Stream
  import opened StreamInvariant
  import opened StreamSteps
  import opened Mux
  import opened MuxInvariant
  import opened OneEnd
  import opened Inputs
  import Q = QueueHubModel
  import L = LinkHubModel

  // ---- one stream --------------------------------------------------------

  lemma {:induction false} SentIsBytes(dealt: seq<Item>, line: seq<Chunk>, k: nat)
    requires k <= |dealt| <= |line| && forall i :: 0 <= i < |dealt| ==> dealt[i].chunk == line[i]
    ensures Sent(dealt, k) == Bytes(line[..k])
  {
    if k > 0 {
      SentIsBytes(dealt, line, k - 1);
      assert line[..k] == line[..k - 1] + [line[k - 1]];
      BytesAppend(line[..k - 1], line[k - 1]);
    }
  }

  /** Written bytes are a prefix of read bytes; a half-close means all of them. */
  lemma StreamInOrder(c: Config, s: nat, v: Stream, d: Dir)
    requires Sound(c, s, v, d)
    ensures var tx, rx := v.b.At(d).t.tx, v.b.At(d).r.rx;
      && rx.out <= tx.src
      && (rx.shut ==> rx.out == tx.src && tx.source.Stopped? && !NoEof(tx.line))
  {
    hide UpWireInv, DownWireInv, UpLinksInv, DownLinksInv, UpQueueInv, DownQueueInv;
    var e := v.b.At(d);
    EndInOrder(c.n, s, e, v.Wires(d));
  }

  lemma EndInOrder(n: nat, s: nat, e: Ends, wires: seq<Wire>)
    requires n >= 1 && |wires| == n && TxInv(n, s, e.t) && RxInv(n, s, e.t.tx.dealt, e.r, wires)
    ensures e.r.rx.out <= e.t.tx.src
    ensures e.r.rx.shut ==> e.r.rx.out == e.t.tx.src && e.t.tx.source.Stopped? && !NoEof(e.t.tx.line)
  {
    hide Lanes, Lane, RemovedInv, ObjectInv, Q.Ready, Stripe;
    var tx, rx := e.t.tx, e.r.rx;
    var w, p := |tx.dealt|, rx.popped;
    SentPrefix(tx.dealt, p, w);
    if p > 0 { SentPrefix(tx.dealt, p - 1, w); }
    assert rx.out <= Sent(tx.dealt, w);
    SentIsBytes(tx.dealt, tx.line, w);
    BytesPrefix(tx.line, w);
    if rx.shut {
      assert tx.line[w - 1].eof;
      assert tx.line[..w] == tx.line;
    }
  }

  // ---- every stream of every reachable state -----------------------------

  /** In-order striping: any number of lanes, any chunking, any number of streams, any
      interleaving, any failures, any closes. What a destination was given is a prefix of
      what the run delivered from the source of the same stream; it is half-closed only
      after the end was read, and then has everything. Requests need no condition;
      responses need that the closes of their own queue come in time. */
  lemma InOrder(c: Config, evs: seq<Event>, g: System, s: nat, d: Dir)
    requires c.Valid() && SoundReaches(c, evs, g, s, d) && s < |g.ctls|
    ensures WellFormed(c, g)
    ensures g.At(d).rxs[s].out <= ReadBy(evs, s, d)
    ensures g.At(d).rxs[s].shut ==> g.At(d).rxs[s].out == ReadBy(evs, s, d) && EndRead(evs, s, d)
  {
    hide Sound, Always, Leads, StreamTimely;
    ReachableSound(c, evs, g, s, d);
    StreamInOrder(c, s, View(c, g, s), d);
    hide Tracks;
    InputAccounted(c, evs, g, s, d);
    MarkInLine(c, evs, g, s, d);
  }

  // ---- the end of a direction --------------------------------------------

  /** The destination is half-closed, and both loops of the direction are over. */
  ghost predicate Finished(e: Ends) {
    e.r.rx.shut && e.r.rx.merger.Over? && e.t.tx.source.Stopped?
  }

  /** Then no step, of whatever loop, reads or writes anything more. */
  lemma FinishedStep(c: Config, s: nat, v: Stream, a: Act, now: nat, d: Dir)
    requires Always(c, s, v) && Enabled(c, s, v, a) && Finished(v.b.At(d))
    ensures var e, e' := v.b.At(d), Step(c, s, v, a, now).b.At(d);
      Finished(e') && e'.r.rx.out == e.r.rx.out && e'.t.tx.src == e.t.tx.src
  {
    hide Always, Step, TxStep, TxEnabled, AgainStep, AgainEnabled, RxStep, RxEnabled;
    StepEnds(c, s, v, a, now, d);
    WasEnabled(c, s, v, a);
    var e := v.b.At(d);
    if a.Tx_? && a.dir == d {
      StoppedTx(c, e.t, a.tx, now);
    } else if a.Again? && a.dir == d {
      StoppedAgain(c, e.t, a.k, a.tx, now);
    } else if a.Rx_? && a.dir == d {
      OverRx(e.r, Master(s), a.rx);
    }
  }

  lemma StoppedTx(c: Config, t: TxEnd, a: TxAct, now: nat)
    requires TxEnabled(c, t, a) && t.tx.source.Stopped?
    ensures var tx := TxStep(c, t, a, now).tx; tx.src == t.tx.src && tx.source.Stopped?
  {
  }

  lemma StoppedAgain(c: Config, t: TxEnd, k: nat, a: TxAct, now: nat)
    requires AgainEnabled(c, t, k, a) && t.tx.source.Stopped?
    ensures var tx := AgainStep(c, t, k, a, now).tx; tx.src == t.tx.src && tx.source.Stopped?
  {
  }

  lemma OverRx(r: RxEnd, master: Id, a: RxAct)
    requires RxEnabled(r, a) && r.rx.merger.Over?
    ensures var r' := RxStep(r, master, a);
      r'.rx.out == r.rx.out && r'.rx.shut == r.rx.shut && r'.rx.merger.Over?
  {
  }

  lemma ShutFinished(c: Config, s: nat, v: Stream, d: Dir)
    requires Sound(c, s, v, d) && v.b.At(d).r.rx.shut
    ensures Finished(v.b.At(d)) && v.b.At(d).r.rx.out == v.b.At(d).t.tx.src
  {
    StreamInOrder(c, s, v, d);
    hide UpWireInv, DownWireInv, UpLinksInv, DownLinksInv, UpQueueInv, DownQueueInv, TxInv, TxShape, Lanes, MergerInv, RemovedInv;
  }

  lemma {:induction false} FinishedForever(c: Config, g: System, evs: seq<Event>, g': System, s: nat, d: Dir)
    requires SystemAlways(c, g) && Leads(c, g, evs, g') && s < |g.ctls| && Finished(View(c, g, s).b.At(d))
    ensures WellFormed(c, g') && s < |g'.ctls| && Finished(View(c, g', s).b.At(d))
    ensures g'.At(d).rxs[s].out == g.At(d).rxs[s].out && g'.At(d).txs[s].src == g.At(d).txs[s].src
    decreases |evs|
  {
    hide Always, Fire, CanFire, Step, Enabled, Finished;
    if evs != [] {
      var g1 := Fire(c, g, evs[0]);
      EventView(c, g, evs[0], s);
      if evs[0].On? && evs[0].s == s {
        FinishedStep(c, s, View(c, g, s), evs[0].a, g.clock, d);
      }
      FinishedForever(c, g1, evs[1..], g', s, d);
    }
  }

  /** EOF implies completeness, for good: when the destination is half-closed it has
      every byte the run delivered from the source, and in no continuation whatever is
      anything more delivered or written. */
  lemma ShutForever(c: Config, evs: seq<Event>, g: System, more: seq<Event>, g': System, s: nat, d: Dir)
    requires c.Valid() && SoundReaches(c, evs, g, s, d) && s < |g.ctls| && Leads(c, g, more, g')
    requires WellFormed(c, g) && g.At(d).rxs[s].shut
    ensures WellFormed(c, g') && s < |g'.ctls| && g'.At(d).rxs[s].shut
    ensures g'.At(d).rxs[s].out == g.At(d).rxs[s].out == ReadBy(evs, s, d) == ReadBy(evs + more, s, d)
  {
    hide Sound, Always, Leads, StreamTimely, Tracks;
    ReachableSound(c, evs, g, s, d);
    ShutFinished(c, s, View(c, g, s), d);
    FinishedForever(c, g, more, g', s, d);
    InputAccounted(c, evs, g, s, d);
    LeadsJoin(c, Start(c), evs, g, more, g');
    InputAccounted(c, evs + more, g', s, d);
  }

  /** A write to the destination may fail after any part of its chunk. It then has exactly
      that much more of what was read, still in order, and the merge is over. */
  lemma FailedWrite(c: Config, evs: seq<Event>, g: System, s: nat, d: Dir, k: nat)
    requires c.Valid() && SoundReaches(c, evs, g, s, d) && WellFormed(c, g) && s < |g.ctls|
    requires g.At(d).rxs[s].merger.Write? && k <= |g.At(d).rxs[s].merger.chunk.data|
    ensures var e := On(s, Rx_(d, MergeFail(k)));
      && CanFire(c, g, e)
      && var rx, rx' := g.At(d).rxs[s], EndsOf(Fire(c, g, e).At(d), s).r.rx;
         |rx'.out| == |rx.out| + k && rx.out <= rx'.out <= ReadBy(evs, s, d) && rx'.merger.Over?
  {
    var e := On(s, Rx_(d, MergeFail(k)));
    FailParts(c, g, s, d, k);
    hide Leads, StreamTimely, Fire, CanFire, TimelyEvent, ReadBy;
    var g' := Fire(c, g, e);
    LeadsOne(c, g, e);
    LeadsJoin(c, Start(c), evs, g, [e], g');
    if d.Down? { TimelyLast(c, Start(c), evs, g, e, s); }
    InOrder(c, evs + [e], g', s, d);
    ReadByJoin(evs, [e], s, d);
    ReadNothing(e, s, d);
  }

  lemma ReadNothing(e: Event, s: nat, d: Dir)
    requires e.On? && e.a.Rx_?
    ensures ReadBy([e], s, d) == []
  {
    assert [e][1..] == [];
  }

  lemma FailParts(c: Config, g: System, s: nat, d: Dir, k: nat)
    requires WellFormed(c, g) && s < |g.ctls|
    requires g.At(d).rxs[s].merger.Write? && k <= |g.At(d).rxs[s].merger.chunk.data|
    ensures var e := On(s, Rx_(d, MergeFail(k)));
      && CanFire(c, g, e) && TimelyEvent(c, g, e, s)
      && var g' := Fire(c, g, e);
         && WellFormed(c, g') && |g'.ctls| == |g.ctls|
         && var rx, rx' := g.At(d).rxs[s], g'.At(d).rxs[s];
            |rx'.out| == |rx.out| + k && rx.out <= rx'.out && rx'.merger.Over?
  {
    hide L.SetStatus;
  }

  lemma {:induction false} TimelyLast(c: Config, g: System, evs: seq<Event>, g': System, e: Event, s: nat)
    requires Leads(c, g, evs, g') && StreamTimely(c, g, evs, s) && WellFormed(c, g') && CanFire(c, g', e) && TimelyEvent(c, g', e, s)
    ensures StreamTimely(c, g, evs + [e], s)
    decreases |evs|
  {
    hide Fire, CanFire, TimelyEvent;
    if evs == [] {
      assert evs + [e] == [e] && [e][1..] == [];
    } else {
      TimelyLast(c, Fire(c, g, evs[0]), evs[1..], g', e, s);
      assert (evs + [e])[1..] == evs[1..] + [e];
    }
  }

  // ---- one first-in first-out queue --------------------------------------

  function Chunks(xs: seq<Item>): (r: seq<Chunk>)
    ensures |r| == |xs| && forall k :: 0 <= k < |xs| ==> r[k] == xs[k].chunk
  {
    seq(|xs|, k requires 0 <= k < |xs| => xs[k].chunk)
  }

  /** Per lane, what waits at the far end followed by what is on the wire. */
  function InFlight(n: nat, s: nat, links: Hub, wires: seq<Wire>): (r: seq<seq<Item>>)
    requires |wires| == n
    ensures |r| == n
    ensures forall j :: 0 <= j < n ==> r[j] == L.Waiting(links, Id(s, j)) + Items(wires[j])
  {
    seq(n, j requires 0 <= j < n => L.Waiting(links, Id(s, j)) + Items(wires[j]))
  }

  function Held(sender: Sender): seq<Chunk> {
    if sender.Put? then [sender.chunk] else []
  }

  function Hand(merger: Merger): seq<Chunk> {
    if merger.Write? then [merger.chunk] else []
  }

  function Buffered(t: TxEnd): seq<Chunk> {
    if Object(t).Some? then Object(t).value.buffer else []
  }

  /** Send has not given up: if it has ended, it ended with the end mark. */
  predicate Intact(tx: Tx) {
    tx.sender.Ended? ==> tx.dealt != [] && tx.dealt[|tx.dealt| - 1].chunk.eof
  }

  /** How many chunks the destination has been given. */
  function Written(rx: Rx): int {
    if rx.merger.Write? then rx.popped - 1 else rx.popped
  }

  /** The chunks between the two connections: in the merge's hand, then the lanes
      re-interleaved from the receive cursor, then in the sender's hand, then in its
      buffer. */
  function Fifo(c: Config, s: nat, v: Stream, d: Dir): seq<Chunk>
    requires c.Valid() && |v.Wires(d)| == c.n
  {
    var e := v.b.At(d);
    Hand(e.r.rx.merger)
    + Chunks(Interleave(InFlight(c.n, s, e.r.links, v.Wires(d)), Lane(e.r.rx.popped, c.n)))
    + Held(e.t.tx.sender) + Buffered(e.t)
  }

  /** Conservation: the chunks put into the pipe are exactly those the destination was
      given, whose bytes are its output, followed by those still in the pipe; while the
      receiving side is not torn down and Send has not given up, before and after the
      end of the stream. */
  lemma Conservation(c: Config, s: nat, v: Stream, d: Dir)
    requires Sound(c, s, v, d) && Flowing(v.b.At(d).r.rx) && Intact(v.b.At(d).t.tx)
    ensures c.Valid() && |v.Wires(d)| == c.n
    ensures var tx, rx := v.b.At(d).t.tx, v.b.At(d).r.rx;
      && 0 <= Written(rx) <= |tx.dealt|
      && rx.out == Bytes(Chunks(tx.dealt[..Written(rx)]))
      && tx.line == Chunks(tx.dealt[..Written(rx)]) + Fifo(c, s, v, d)
  {
    EndFacts(c, s, v, d);
    var e := v.b.At(d);
    OutputIsReceived(c.n, s, e, v.Wires(d));
    hide Sound, Lane, Stripe, Interleave, Items, TxInv, RxInv, Bytes, Chunks, Held, Hand, Flowing;
    var given, rest := Chunks(e.t.tx.dealt[..Written(e.r.rx)]), Chunks(e.t.tx.dealt[e.r.rx.popped..]);
    LanesInOrder(c.n, s, e.t.tx.dealt, e.r.rx.popped, e.r.links, v.Wires(d));
    LineParts(c.n, s, e.t, e.r.rx.popped);
    FourParts(given, Hand(e.r.rx.merger), rest, Held(e.t.tx.sender), Buffered(e.t));
  }

  lemma FourParts<T>(a: seq<T>, b: seq<T>, c: seq<T>, d: seq<T>, e: seq<T>)
    ensures (a + b) + c + d + e == a + (b + c + d + e)
  {
  }

  lemma OutputIsReceived(n: nat, s: nat, e: Ends, wires: seq<Wire>)
    requires n >= 1 && |wires| == n && TxInv(n, s, e.t) && RxInv(n, s, e.t.tx.dealt, e.r, wires) && Flowing(e.r.rx)
    ensures Lanes(n, s, e.t.tx.dealt, e.r.rx.popped, e.r.links, wires)
    ensures 0 <= Written(e.r.rx) <= e.r.rx.popped <= |e.t.tx.dealt|
    ensures e.r.rx.out == Bytes(Chunks(e.t.tx.dealt[..Written(e.r.rx)]))
    ensures Chunks(e.t.tx.dealt[..Written(e.r.rx)]) + Hand(e.r.rx.merger) == Chunks(e.t.tx.dealt[..e.r.rx.popped])
  {
    hide Lanes, Lane, Stripe, Bytes, RemovedInv, SourceInv, SenderInv, ObjectInv, Q.Ready, EofLast;
    var dealt, k, p := e.t.tx.dealt, Written(e.r.rx), e.r.rx.popped;
    assert 0 <= k <= p && e.r.rx.out == Sent(dealt, k);
    SentIsBytes(dealt, e.t.tx.line, k);
    assert Chunks(dealt[..k]) == e.t.tx.line[..k];
    if k < p {
      assert dealt[..p] == dealt[..k] + [dealt[k]];
      assert Chunks(dealt[..p]) == Chunks(dealt[..k]) + [dealt[k].chunk];
    } else {
      assert Chunks(dealt[..k]) + [] == Chunks(dealt[..k]);
    }
  }

  lemma LineParts(n: nat, s: nat, t: TxEnd, p: nat)
    requires n >= 1 && TxInv(n, s, t) && p <= |t.tx.dealt| && Intact(t.tx)
    ensures t.tx.line == Chunks(t.tx.dealt[..p]) + Chunks(t.tx.dealt[p..]) + Held(t.tx.sender) + Buffered(t)
  {
    DealtPart(t.tx.dealt, t.tx.line, p);
    RestPart(n, s, t);
    hide TxInv, Chunks, Held;
    Assoc(t.tx.line[..|t.tx.dealt|], Held(t.tx.sender), Buffered(t));
  }

  lemma DealtPart(dealt: seq<Item>, line: seq<Chunk>, p: nat)
    requires p <= |dealt| <= |line| && forall k :: 0 <= k < |dealt| ==> dealt[k].chunk == line[k]
    ensures Chunks(dealt[..p]) + Chunks(dealt[p..]) == line[..|dealt|]
  {
  }

  lemma RestPart(n: nat, s: nat, t: TxEnd)
    requires n >= 1 && TxInv(n, s, t) && Intact(t.tx)
    ensures t.tx.line == t.tx.line[..|t.tx.dealt|] + (Held(t.tx.sender) + Buffered(t))
  {
    hide Lane, SourceInv, Q.Ready, Bytes, NoEof, Equipped;
    var tx := t.tx;
    assert tx.line[|tx.dealt|..] == Held(tx.sender) + tx.line[tx.taken..];
  }

  lemma LanesInOrder(n: nat, s: nat, dealt: seq<Item>, p: nat, links: Hub, wires: seq<Wire>)
    requires n >= 1 && |wires| == n && p <= |dealt| && Lanes(n, s, dealt, p, links, wires)
    ensures Interleave(InFlight(n, s, links, wires), Lane(p, n)) == dealt[p..]
  {
    hide Lane, Stripe, Interleave, Items;
    var lanes := InFlight(n, s, links, wires);
    forall j | 0 <= j < n ensures lanes[j] == Stripes(dealt[p..], p, n)[j] {
      assert LaneInv(n, s, dealt, p, links, wires[j], j);
    }
    assert lanes == Stripes(dealt[p..], p, n);
    InterleaveStripes(dealt[p..], p, n);
  }

  /** The part of the accepted chunks that the destination has not been given. */
  function Rest(e: Ends): seq<Chunk> {
    if 0 <= Written(e.r.rx) <= |e.t.tx.line| then e.t.tx.line[Written(e.r.rx)..] else []
  }

  lemma FifoIsRest(c: Config, s: nat, v: Stream, d: Dir)
    requires Sound(c, s, v, d) && Flowing(v.b.At(d).r.rx) && Intact(v.b.At(d).t.tx)
    ensures c.Valid() && |v.Wires(d)| == c.n && Fifo(c, s, v, d) == Rest(v.b.At(d))
  {
    hide Sound, Fifo, Bytes, Flowing;
    Conservation(c, s, v, d);
    var given := Chunks(v.b.At(d).t.tx.dealt[..Written(v.b.At(d).r.rx)]);
    assert (given + Fifo(c, s, v, d))[|given|..] == Fifo(c, s, v, d);
  }

  /** One queue, its content and the output it feeds. */
  datatype Fed = Fed(queue: seq<Chunk>, out: seq<byte>, shut: bool)

  ghost predicate Enqueues(f: Fed, f': Fed, x: Chunk) {
    f' == f.(queue := f.queue + [x])
  }

  ghost predicate Dequeues(f: Fed, f': Fed) {
    f.queue != [] && f' == Fed(f.queue[1..], f.out + f.queue[0].data, f.queue[0].eof)
  }

  /** What the one queue does on a step: the copy loop enqueues the chunk it pushes, a
      receive from a closed and empty channel enqueues a zero value, the merge's write
      dequeues, and every other step does nothing. */
  ghost predicate QueueStep(a: Act, d: Dir, t: TxEnd, f: Fed, f': Fed) {
    if !ActsOn(a, d) then f' == f
    else if a.Rx_? then if a.rx.MergeWrite? then Dequeues(f, f') else f' == f
    else match a.tx
         case SrcPush => t.tx.source.Pushing? && Enqueues(f, f', t.tx.source.chunk)
         case SendTake =>
           Object(t).Some? && if Object(t).value.buffer == [] then Enqueues(f, f', ZERO) else f' == f
         case _ => f' == f
  }

  function RestFed(e: Ends): Fed {
    Fed(Rest(e), e.r.rx.out, e.r.rx.shut)
  }

  /** The pipe of one direction as the one queue it stands for. */
  function PipeFed(c: Config, s: nat, v: Stream, d: Dir): Fed
    requires c.Valid() && |v.Wires(d)| == c.n
  {
    Fed(Fifo(c, s, v, d), v.b.At(d).r.rx.out, v.b.At(d).r.rx.shut)
  }

  /** The pipe is in order: not torn down, not given up. */
  predicate Whole(e: Ends) {
    Flowing(e.r.rx) && Intact(e.t.tx)
  }

  /** The striped pipe refines one queue: a step appends the pushed chunk at the
      tail, or writes the head chunk out, or leaves the queue and the output. */
  lemma PipeIsFifo(c: Config, s: nat, v: Stream, v': Stream, a: Act, now: nat, d: Dir)
    requires Sound(c, s, v, d) && Enabled(c, s, v, a) && v' == Step(c, s, v, a, now)
    requires d.Down? ==> OwnTimely(v.b, a)
    requires Whole(v.b.At(d)) && Whole(v'.b.At(d))
    ensures c.Valid() && |v.Wires(d)| == |v'.Wires(d)| == c.n
    ensures QueueStep(a, d, v.b.At(d).t, PipeFed(c, s, v, d), PipeFed(c, s, v', d))
  {
    hide Always, Ordered, Step, TxStep, RxStep, TxEnabled, RxEnabled, TxInv, RxInv, Core, Fifo, Enabled, OwnTimely;
    var e := v.b.At(d);
    StepKeeps(c, s, v, a, now);
    OneLoop(c, s, v, a, d);
    FifoIsRest(c, s, v, d);
    FifoIsRest(c, s, v', d);
    StepEnds(c, s, v, a, now, d);
    EndFacts(c, s, v, d);
    WasEnabled(c, s, v, a);
    if ActsOn(a, d) {
      if a.Tx_? {
        TxFifo(c, e, a.tx, now);
      } else {
        RxFifo(c.n, s, e, a.rx, v.Wires(d));
      }
    }
  }

  lemma EndFacts(c: Config, s: nat, v: Stream, d: Dir)
    requires Sound(c, s, v, d)
    ensures c.Valid() && |v.Wires(d)| == c.n
    ensures TxInv(c.n, s, v.b.At(d).t) && RxInv(c.n, s, v.b.At(d).t.tx.dealt, v.b.At(d).r, v.Wires(d))
    ensures v.b.At(d).r.rx.popped <= |v.b.At(d).t.tx.line|
    ensures v.b.At(d).r.rx.merger.Dormant? ==> v.b.At(d).r.rx.popped == 0
    ensures v.b.At(d).r.rx.merger.Write? && !v.b.At(d).r.rx.removed ==> v.b.At(d).r.rx.popped > 0
  {
    hide UpWireInv, DownWireInv, UpLinksInv, DownLinksInv, UpQueueInv, DownQueueInv, Lanes, Lane, RemovedInv, ObjectInv, SourceInv, SenderInv;
  }

  lemma TxFifo(c: Config, e: Ends, a: TxAct, now: nat)
    requires TxEnabled(c, e.t, a) && 0 <= Written(e.r.rx) <= |e.t.tx.line|
    ensures QueueStep(Tx_(Up, a), Up, e.t, RestFed(e), RestFed(e.(t := TxStep(c, e.t, a, now))))
  {
  }

  lemma RxFifo(n: nat, s: nat, e: Ends, a: RxAct, wires: seq<Wire>)
    requires n >= 1 && |wires| == n && TxInv(n, s, e.t) && RxInv(n, s, e.t.tx.dealt, e.r, wires)
    requires RxEnabled(e.r, a)
    requires var e' := e.(r := RxStep(e.r, Master(s), a)); Flowing(e.r.rx) && Flowing(e'.r.rx)
    ensures QueueStep(Rx_(Up, a), Up, e.t, RestFed(e), RestFed(e.(r := RxStep(e.r, Master(s), a))))
  {
    if a.MergeWrite? {
      WriteFifo(n, s, e, wires);
    } else {
      hide TxInv, RxInv;
    }
  }

  lemma WriteFifo(n: nat, s: nat, e: Ends, wires: seq<Wire>)
    requires n >= 1 && |wires| == n && TxInv(n, s, e.t) && RxInv(n, s, e.t.tx.dealt, e.r, wires)
    requires e.r.rx.merger.Write? && Flowing(e.r.rx)
    ensures Dequeues(RestFed(e), RestFed(e.(r := RxStep(e.r, Master(s), MergeWrite))))
  {
    hide Lanes, Lane, Stripe, Sent, Bytes, RemovedInv, SourceInv, SenderInv, ObjectInv, Q.Ready;
    var tx, rx := e.t.tx, e.r.rx;
    var k := rx.popped - 1;
    assert rx.merger.chunk == tx.dealt[k].chunk == tx.line[k];
    assert Rest(e)[0] == tx.line[k] && Rest(e)[1..] == tx.line[k + 1..];
  }

  /** Conservation for every stream of every reachable state: the lanes are the
      stream's share of the shared link hub and of the shared wires. */
  lemma ReachableConservation(c: Config, evs: seq<Event>, g: System, s: nat, d: Dir)
    requires c.Valid() && SoundReaches(c, evs, g, s, d) && s < |g.ctls|
    ensures WellFormed(c, g) && |View(c, g, s).Wires(d)| == c.n
    ensures var tx, rx := g.At(d).txs[s], g.At(d).rxs[s];
      Flowing(rx) && Intact(tx) ==>
        && 0 <= Written(rx) <= |tx.dealt|
        && rx.out == Bytes(Chunks(tx.dealt[..Written(rx)]))
        && tx.line == Chunks(tx.dealt[..Written(rx)]) + Fifo(c, s, View(c, g, s), d)
  {
    hide Sound, Always, SoundReaches, Fifo, Bytes, Flowing, Intact;
    ReachableSound(c, evs, g, s, d);
    var v := View(c, g, s);
    if Flowing(v.b.At(d).r.rx) && Intact(v.b.At(d).t.tx) {
      Conservation(c, s, v, d);
    }
  }

  /** Refinement to one queue for every stream: an event of another stream, or of
      the other direction, leaves the queue alone. */
  lemma EventIsFifo(c: Config, evs: seq<Event>, g: System, e: Event, s: nat, d: Dir)
    requires c.Valid() && SoundReaches(c, evs, g, s, d) && s < |g.ctls|
    requires WellFormed(c, g) && CanFire(c, g, e) && (d.Down? ==> TimelyEvent(c, g, e, s))
    ensures WellFormed(c, Fire(c, g, e)) && s < |Fire(c, g, e).ctls|
    ensures var v, v' := View(c, g, s), View(c, Fire(c, g, e), s);
      && |v.Wires(d)| == |v'.Wires(d)| == c.n
      && (Whole(v.b.At(d)) && Whole(v'.b.At(d)) ==>
            if e.On? && e.s == s then QueueStep(e.a, d, v.b.At(d).t, PipeFed(c, s, v, d), PipeFed(c, s, v', d))
            else PipeFed(c, s, v', d) == PipeFed(c, s, v, d))
  {
    hide Sound, Always, SoundReaches, Fire, CanFire, Step, Enabled, QueueStep, PipeFed, Whole, TimelyEvent;
    ReachableSound(c, evs, g, s, d);
    EventView(c, g, e, s);
    var v, v' := View(c, g, s), View(c, Fire(c, g, e), s);
    if e.On? && e.s == s && Whole(v.b.At(d)) && Whole(v'.b.At(d)) {
      if d.Down? { TimelyView(c, g, s, e.a); }
      PipeIsFifo(c, s, v, v', e.a, g.clock, d);
    }
  }

  /** The shape of both ends of one direction, in every run. */
  lemma ShapeFacts(c: Config, s: nat, v: Stream, d: Dir)
    requires Always(c, s, v)
    ensures c.Valid() && TxShape(c.n, s, v.b.At(d).t) && RxShape(c.n, s, v.b.At(d).r)
  {
    hide UpWireInv, DownWireInv, UpLinksInv, DownLinksInv, UpQueueInv, DownQueueInv, TxInv, TxShape, RxInv, RxShape;
    if d.Up? {
      TxInvShape(c.n, s, v.b.up.t);
      RxInvShape(c.n, s, v.b.up.t.tx.dealt, v.b.up.r, v.up);
    }
  }

  // ---- registration ------------------------------------------------------

  /** Counting stands in for set equality, and no lookup of a running loop
      misses: a launch rule that holds means the registered ids are exactly the
      ordered ones; the writer Send needs is there; until the group is removed
      the link the merge needs is there; and the merge is launched at most once. */
  lemma Registered(c: Config, s: nat, v: Stream, d: Dir)
    requires Always(c, s, v)
    ensures var t, r := v.b.At(d).t, v.b.At(d).r;
      && (Q.Ready(t.queue) ==> t.queue.Some? && t.queue.value.writers.Keys == Members(t.queue.value.sorted))
      && (L.Ready(r.links, Master(s)) ==> Master(s) in r.links && r.links.Keys == Members(r.links[Master(s)].sorted))
      && (t.tx.sender.Put? ==> TxEnabled(c, t, SendPut))
      && (r.rx.merger.Find? && !r.rx.removed ==> r.rx.merger.j < |r.rx.order| && r.rx.order[r.rx.merger.j] in r.links)
      && r.rx.launches <= 1
  {
    hide Always, Q.Ready, L.Ready, TxEnabled;
    if Q.Ready(v.b.At(d).t.queue) { ReadyQueue(c, s, v, d); }
    if L.Ready(v.b.At(d).r.links, Master(s)) { ReadyLinks(c, s, v, d); }
    SenderLookup(c, s, v, d);
    MergerLookup(c, s, v, d);
  }

  /** The same in every reachable state, for every stream of the shared hubs. */
  lemma ReachableRegistered(c: Config, evs: seq<Event>, g: System, s: nat, d: Dir)
    requires c.Valid() && Reaches(c, evs, g) && s < |g.ctls|
    ensures WellFormed(c, g)
    ensures var e := EndsOf(g.At(d), s);
      var links := Own(e.r.links, s);
      && (Q.Ready(e.t.queue) ==> e.t.queue.Some? && e.t.queue.value.writers.Keys == Members(e.t.queue.value.sorted))
      && (L.Ready(links, Master(s)) ==> Master(s) in links && links.Keys == Members(links[Master(s)].sorted))
      && (e.t.tx.sender.Put? ==> TxEnabled(c, e.t, SendPut))
      && (e.r.rx.merger.Find? && !e.r.rx.removed ==>
            e.r.rx.merger.j < |e.r.rx.order| && e.r.rx.order[e.r.rx.merger.j] in links)
      && e.r.rx.launches <= 1
  {
    hide Always, Q.Ready, L.Ready, TxEnabled, Members;
    ReachableAlways(c, evs, g);
    Registered(c, s, View(c, g, s), d);
  }

  /** One drain loop: on the client always, on the server while the closes of this queue
      come in time, a launched Send that reaches the guard
      while a loop runs, or after it ended, is turned away and changes nothing. */
  lemma OneDrainLoop(c: Config, evs: seq<Event>, g: System, s: nat, d: Dir)
    requires c.Valid() && SoundReaches(c, evs, g, s, d) && s < |g.ctls|
    ensures WellFormed(c, g)
    ensures var t := EndsOf(g.At(d), s).t;
      TxEnabled(c, t, SendBegin) && Begun(t.tx) ==>
        TxStep(c, t, SendBegin, g.clock) == t.(tx := t.tx.(pending := t.tx.pending - 1))
  {
    hide Sound, SoundReaches;
    ReachableSound(c, evs, g, s, d);
    EndFacts(c, s, View(c, g, s), d);
    hide RxInv, Bytes, EofLast, SourceInv, SenderInv, Equipped;
  }

  lemma OrderMembers(s: nat, n: nat)
    ensures forall id :: id in Members(Order(s, n)) <==> id.stream == s && id.lane < n
  {
    forall id ensures id in Members(Order(s, n)) <==> id.stream == s && id.lane < n {
      if id.stream == s && id.lane < n {
        assert Order(s, n)[id.lane] == id;
      }
    }
  }

  lemma ReadyQueue(c: Config, s: nat, v: Stream, d: Dir)
    requires Always(c, s, v) && Q.Ready(v.b.At(d).t.queue)
    ensures v.b.At(d).t.queue.Some? && v.b.At(d).t.queue.value.writers.Keys == Members(v.b.At(d).t.queue.value.sorted)
  {
    hide UpWireInv, DownWireInv, UpLinksInv, DownLinksInv, RxInv, Lane, SourceInv, SenderInv, ObjectInv, EofLast;
    var t, x := v.b.At(d).t, v.b.ctl;
    var q := t.queue.value;
    OrderMembers(s, c.n);
    assert t.tx.gone.None?;
    if d.Up? {
      assert Id(s, 0) in q.writers;
    } else {
      assert Below(x.said) <= Below(c.n);
      ReadyMeansEquipped(c.n, s, x.hi, x.estSeen, q);
    }
  }

  lemma ReadyLinks(c: Config, s: nat, v: Stream, d: Dir)
    requires Always(c, s, v) && L.Ready(v.b.At(d).r.links, Master(s))
    ensures Master(s) in v.b.At(d).r.links && v.b.At(d).r.links.Keys == Members(v.b.At(d).r.links[Master(s)].sorted)
  {
    hide UpWireInv, DownWireInv, UpQueueInv, DownQueueInv, TxInv, RxInv;
    OrderMembers(s, c.n);
    assert Below(v.b.ctl.said) <= Below(c.n);
    CountedAll(v.b.ctl.hi, c.n);
  }

  lemma SenderLookup(c: Config, s: nat, v: Stream, d: Dir)
    requires Always(c, s, v)
    ensures v.b.At(d).t.tx.sender.Put? ==> TxEnabled(c, v.b.At(d).t, SendPut)
  {
    hide UpWireInv, DownWireInv, UpLinksInv, DownLinksInv, UpQueueInv, DownQueueInv, RxInv, RxShape;
    hide SourceInv, EofLast, Bytes, Lane, Q.Ready;
  }

  lemma MergerLookup(c: Config, s: nat, v: Stream, d: Dir)
    requires Always(c, s, v)
    ensures var r := v.b.At(d).r;
      && (r.rx.merger.Find? && !r.rx.removed ==> r.rx.merger.j < |r.rx.order| && r.rx.order[r.rx.merger.j] in r.links)
      && r.rx.launches <= 1
  {
    hide UpWireInv, DownWireInv, UpLinksInv, DownLinksInv, UpQueueInv, DownQueueInv, TxInv, TxShape, RxInv, RxShape;
    ShapeFacts(c, s, v, d);
    if d.Up? {
      UpLookup(c.n, s, v.b.ctl, v.b.up.r);
    } else {
      DownLookup(c.n, s, v.b.ctl, v.b.down.r);
    }
  }

  lemma UpLookup(n: nat, s: nat, x: Ctl, r: RxEnd)
    requires n >= 1 && CtlInv(n, x) && RxShape(n, s, r) && UpLinksInv(n, s, x.hi, x.estSeen, x.dial.Ok?, r)
    ensures r.rx.launches <= 1
    ensures r.rx.merger.Find? && !r.rx.removed ==> r.rx.merger.j < |r.rx.order| && r.rx.order[r.rx.merger.j] in r.links
  {
    hide RemovedInv;
    assert Below(x.said) <= Below(n);
    CountedAll(x.hi, n);
  }

  lemma DownLookup(n: nat, s: nat, x: Ctl, r: RxEnd)
    requires n >= 1 && CtlInv(n, x) && RxShape(n, s, r) && DownLinksInv(n, s, x.added, x.linkStarted, r)
    ensures r.rx.launches <= 1
    ensures r.rx.merger.Find? && !r.rx.removed ==> r.rx.merger.j < |r.rx.order| && r.rx.order[r.rx.merger.j] in r.links
  {
    hide RemovedInv;
  }
}
