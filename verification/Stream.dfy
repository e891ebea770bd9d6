/** One stream alone on its n lanes, and the invariant every step keeps. */
module Stream {
  import opened Data
  import opened RoundRobin
  import opened Counting
  import opened Protocol
  import Q = QueueHubModel
  import L = LinkHubModel

  type Wire = seq<Msg>

  datatype Stream = Stream(b: Both, up: seq<Wire>, down: seq<Wire>) {
    function Wires(d: Dir): seq<Wire> { if d.Up? then up else down }
    function WithWires(d: Dir, w: seq<Wire>): Stream { if d.Up? then this.(up := w) else this.(down := w) }
  }

  /** The message a reader would dispatch next. */
  function Head(wires: seq<Wire>, lane: nat): Option<Msg> {
    if lane < |wires| && wires[lane] != [] then Some(wires[lane][0]) else None
  }

  function HeadFor(v: Stream, a: Act): Option<Msg> {
    if a.Receive? || a.Discard? then Head(v.Wires(a.dir), a.lane) else None
  }

  predicate Enabled(c: Config, s: nat, v: Stream, a: Act) {
    CoreEnabled(c, s, v.b, a, HeadFor(v, a))
  }

  function Dropped(wires: seq<Wire>, lane: nat): seq<Wire>
    requires Head(wires, lane).Some?
  {
    wires[lane := wires[lane][1..]]
  }

  /** Messages to a lane that does not exist cannot be written. */
  function Posted(wires: seq<Wire>, lane: nat, m: Msg): seq<Wire> {
    if lane < |wires| then wires[lane := wires[lane] + [m]] else wires
  }

  function Step(c: Config, s: nat, v: Stream, a: Act, now: nat): Stream
    requires Enabled(c, s, v, a)
  {
    var v1 := v.(b := Core(c, s, v.b, a, now, HeadFor(v, a)));
    if a.Receive? || a.Discard? then v1.WithWires(a.dir, Dropped(v.Wires(a.dir), a.lane))
    else match CorePost(c, s, v.b, a, now)
         case None => v1
         case Some((d, lane, m)) => v1.WithWires(d, Posted(v.Wires(d), lane, m))
  }

  lemma WasEnabled(c: Config, s: nat, v: Stream, a: Act)
    requires Enabled(c, s, v, a)
    ensures a.Tx_? ==> TxEnabled(c, v.b.At(a.dir).t, a.tx)
    ensures a.Rx_? ==> RxEnabled(v.b.At(a.dir).r, a.rx)
    ensures a.Again? ==> v.b.At(a.dir).t.tx.extra != []
  {
    hide TxEnabled, RxEnabled;
  }

  function NewStream(n: nat): Stream {
    var e := Ends(TxEnd(None, NEW_TX), RxEnd(map[], NEW_RX));
    Stream(Both(e, e, NEW_CTL), seq(n, _ => []), seq(n, _ => []))
  }

  // ---- sending side ------------------------------------------------------

  predicate NoEof(line: seq<Chunk>) {
    forall k :: 0 <= k < |line| ==> !line[k].eof
  }

  /** Only the last chunk may be the end mark, which carries no bytes. */
  predicate EofLast(line: seq<Chunk>) {
    forall k :: 0 <= k < |line| && line[k].eof ==> k == |line| - 1 && line[k].data == []
  }

  /** What was accepted is what was read, up to the chunk still being pushed. */
  predicate SourceInv(source: Source, src: seq<byte>, line: seq<Chunk>) {
    match source
    case Off => Bytes(line) == src && NoEof(line)
    case Reading => Bytes(line) == src && NoEof(line)
    case Pushing(x) => Bytes(line) + x.data == src && NoEof(line) && (x.eof ==> x.data == [])
    case Stopped => Bytes(line) <= src && (!NoEof(line) ==> Bytes(line) == src)
  }

  /** The loop index is the lane of the next chunk; nothing follows an end mark. */
  predicate SenderInv(n: nat, tx: Tx)
    requires n >= 1 && |tx.dealt| <= tx.taken <= |tx.line|
  {
    var w := |tx.dealt|;
    match tx.sender
    case NotBegun => tx.taken == 0
    case Check => tx.taken == w && Lane(w, n) == 0 && NoEof(tx.line[..w])
    case Take(i) => tx.taken == w && i == Lane(w, n) && NoEof(tx.line[..w])
    case Put(i, x) => tx.taken == w + 1 && x == tx.line[w] && i == Lane(w, n) && NoEof(tx.line[..w])
    case Ended => true
  }

  predicate Begun(tx: Tx) { !tx.sender.NotBegun? }

  /** The order is complete and every writer it names is registered on its lane. */
  predicate Equipped(n: nat, s: nat, q: Q.Queue) {
    q.sorted == Order(s, n) && forall j :: 0 <= j < n ==> Id(s, j) in q.writers && q.writers[Id(s, j)] == j
  }

  predicate ObjectInv(n: nat, s: nat, t: TxEnd, q: Q.Queue)
    requires t.tx.taken <= |t.tx.line|
  {
    && q.buffer == t.tx.line[t.tx.taken..]
    && (Begun(t.tx) || t.tx.pending > 0 ==> Equipped(n, s, q))
    && (!Begun(t.tx) ==> q.status == StaWait || q.status == StaClose)
    && (Begun(t.tx) && (t.tx.gone.None? || t.tx.pending > 0) ==> q.status == StaSend || q.status == StaDone)
    && (t.tx.sender.Ended? ==> q.status == StaDone || !q.open)
  }

  predicate TxInv(n: nat, s: nat, t: TxEnd)
    requires n >= 1
  {
    var tx := t.tx;
    && |tx.dealt| <= tx.taken <= |tx.line|
    && (forall k :: 0 <= k < |tx.dealt| ==> tx.dealt[k].chunk == tx.line[k])
    && EofLast(tx.line)
    && SourceInv(tx.source, tx.src, tx.line)
    && SenderInv(n, tx)
    && (Object(t).None? ==> tx == NEW_TX)
    && (Object(t).Some? ==> ObjectInv(n, s, t, Object(t).value))
    && (tx.gone.Some? ==> !Q.Ready(t.queue))
    && tx.extra == []
  }

  /** A loop stands inside the order. */
  predicate LoopShape(n: nat, loop: Sender) {
    loop.Take? || loop.Put? ==> loop.i < n
  }

  /** What holds of a sending side in every run, whatever its closes do: loops run on a
      queue with its full order and writers, each inside that order. */
  predicate TxShape(n: nat, s: nat, t: TxEnd) {
    var tx := t.tx;
    && (Object(t).None? ==> tx == NEW_TX)
    && (Object(t).Some? ==>
          && (Begun(tx) || tx.pending > 0 ==> Equipped(n, s, Object(t).value))
          && (!Begun(tx) ==> Object(t).value.status == StaWait || Object(t).value.status == StaClose))
    && (tx.gone.Some? ==> !Q.Ready(t.queue))
    && LoopShape(n, tx.sender) && (tx.extra != [] ==> Begun(tx))
    && (forall k :: 0 <= k < |tx.extra| ==> LoopShape(n, tx.extra[k]))
  }

  lemma TxInvShape(n: nat, s: nat, t: TxEnd)
    requires n >= 1 && TxInv(n, s, t)
    ensures TxShape(n, s, t)
  {
    hide Bytes, Lane, EofLast, NoEof, SourceInv, Equipped, Q.Ready;
  }

  lemma TxShapeKeeps(c: Config, s: nat, t: TxEnd, a: TxAct, now: nat)
    requires c.Valid() && TxShape(c.n, s, t) && TxEnabled(c, t, a)
    ensures TxShape(c.n, s, TxStep(c, t, a, now))
  {
    if !a.CloseQueue? {
      hide Q.Ready;
    }
  }

  lemma AgainShapeKeeps(c: Config, s: nat, t: TxEnd, k: nat, a: TxAct, now: nat)
    requires c.Valid() && TxShape(c.n, s, t) && AgainEnabled(c, t, k, a)
    ensures TxShape(c.n, s, AgainStep(c, t, k, a, now))
  {
    hide Q.Ready;
  }

  lemma TxSource(c: Config, s: nat, t: TxEnd, a: TxAct, now: nat)
    requires c.Valid() && TxInv(c.n, s, t) && TxEnabled(c, t, a)
    requires a.SrcRead? || a.SrcEof? || a.SrcFail?
    ensures TxInv(c.n, s, TxStep(c, t, a, now))
  {
    hide EofLast, Equipped, Lane, Q.Ready, Bytes;
  }

  lemma TxPush(c: Config, s: nat, t: TxEnd, now: nat)
    requires c.Valid() && TxInv(c.n, s, t) && TxEnabled(c, t, SrcPush)
    ensures TxInv(c.n, s, TxStep(c, t, SrcPush, now))
  {
    hide Lane, Q.Ready, Bytes, EofLast, SourceInv;
    var line, x := t.tx.line, t.tx.source.chunk;
    PushSource(t.tx.src, line, x);
    assert (line + [x])[..|t.tx.dealt|] == line[..|t.tx.dealt|];
    assert (line + [x])[t.tx.taken..] == line[t.tx.taken..] + [x];
  }

  lemma PushSource(src: seq<byte>, line: seq<Chunk>, x: Chunk)
    requires SourceInv(Pushing(x), src, line) && EofLast(line)
    ensures EofLast(line + [x]) && SourceInv(if x.eof then Stopped else Reading, src, line + [x])
  {
    hide Bytes;
    BytesAppend(line, x);
  }

  lemma TxGuard(c: Config, s: nat, t: TxEnd, a: TxAct, now: nat)
    requires c.Valid() && TxInv(c.n, s, t) && TxEnabled(c, t, a)
    requires a.SendBegin? || a.SendCheck?
    ensures TxInv(c.n, s, TxStep(c, t, a, now))
  {
    hide Bytes, EofLast, SourceInv, Q.Ready;
  }

  lemma TxPut(c: Config, s: nat, t: TxEnd, now: nat)
    requires c.Valid() && TxInv(c.n, s, t) && TxEnabled(c, t, SendPut)
    ensures TxInv(c.n, s, TxStep(c, t, SendPut, now))
  {
    hide Q.Ready, Bytes;
    var w := |t.tx.dealt|;
    assert Lane(w + 1, c.n) == Next(Lane(w, c.n), c.n);
    assert t.tx.line[..w + 1] == t.tx.line[..w] + [t.tx.line[w]];
  }

  lemma TxEnd_(c: Config, s: nat, t: TxEnd, a: TxAct, now: nat)
    requires c.Valid() && TxInv(c.n, s, t) && TxEnabled(c, t, a)
    requires (a.SendFail? || a.CloseQueue?) && Timely(t, a)
    ensures TxInv(c.n, s, TxStep(c, t, a, now))
  {
  }

  lemma TxTakeChunk(c: Config, s: nat, t: TxEnd, now: nat)
    requires c.Valid() && TxInv(c.n, s, t) && TxEnabled(c, t, SendTake) && Object(t).value.buffer != []
    ensures TxInv(c.n, s, TxStep(c, t, SendTake, now))
  {
    var q, tx := Object(t).value, t.tx;
    assert q.buffer[0] == tx.line[tx.taken] && q.buffer[1..] == tx.line[tx.taken + 1..];
  }

  lemma TxTakeZero(c: Config, s: nat, t: TxEnd, now: nat)
    requires c.Valid() && TxInv(c.n, s, t) && TxEnabled(c, t, SendTake) && Object(t).value.buffer == []
    ensures TxInv(c.n, s, TxStep(c, t, SendTake, now))
  {
    var tx, line' := t.tx, t.tx.line + [ZERO];
    assert |tx.line[tx.taken..]| == 0;
    assert NoEof(tx.line) by { assert tx.line[..|tx.dealt|] == tx.line; }
    assert NoEof(line') && line'[..|tx.line|] == tx.line && line'[|line'|..] == [];
    BytesAppend(tx.line, ZERO);
    assert Bytes(line') == Bytes(tx.line);
  }

  lemma TxKeeps(c: Config, s: nat, t: TxEnd, a: TxAct, now: nat)
    requires c.Valid() && TxInv(c.n, s, t) && TxEnabled(c, t, a) && Timely(t, a)
    ensures TxInv(c.n, s, TxStep(c, t, a, now))
  {
    match a
    case SendTake =>
      if Object(t).value.buffer != [] { TxTakeChunk(c, s, t, now); } else { TxTakeZero(c, s, t, now); }
    case SendPut => TxPut(c, s, t, now);
    case SendBegin => TxGuard(c, s, t, a, now);
    case SendCheck => TxGuard(c, s, t, a, now);
    case SendFail => TxEnd_(c, s, t, a, now);
    case CloseQueue => TxEnd_(c, s, t, a, now);
    case SrcPush => TxPush(c, s, t, now);
    case _ => TxSource(c, s, t, a, now);
  }

  // ---- receiving side ----------------------------------------------------

  /** The data messages of a wire, in order. */
  function Items(w: Wire): seq<Item> {
    if w == [] then [] else (if w[0].Carry? then [w[0].item] else []) + Items(w[1..])
  }

  lemma {:induction false} ItemsAppend(w: Wire, m: Msg)
    ensures Items(w + [m]) == Items(w) + (if m.Carry? then [m.item] else [])
  {
    var all, last := w + [m], if m.Carry? then [m.item] else [];
    if w == [] {
      assert all == [m] && all[1..] == [];
      assert Items(all[1..]) == [];
    } else {
      assert all[0] == w[0] && all[1..] == w[1..] + [m];
      ItemsAppend(w[1..], m);
      var first := if w[0].Carry? then [w[0].item] else [];
      assert Items(all) == first + Items(all[1..]);
      Assoc(first, Items(w[1..]), last);
    }
  }

  /** The bytes of the first k items. */
  function Sent(dealt: seq<Item>, k: nat): seq<byte>
    requires k <= |dealt|
  {
    if k == 0 then [] else Sent(dealt, k - 1) + dealt[k - 1].chunk.data
  }

  lemma {:induction false} SentExtend(dealt: seq<Item>, x: Item, k: nat)
    requires k <= |dealt|
    ensures Sent(dealt + [x], k) == Sent(dealt, k)
  {
    if k > 0 { SentExtend(dealt, x, k - 1); }
  }

  lemma {:induction false} SentPrefix(dealt: seq<Item>, j: nat, k: nat)
    requires j <= k <= |dealt|
    ensures Sent(dealt, j) <= Sent(dealt, k)
    decreases k
  {
    if j < k { SentPrefix(dealt, j, k - 1); }
  }

  /** What is buffered on a lane and what is still on its wire are, in this
      order, the lane's share of the items not yet received. */
  predicate LaneInv(n: nat, s: nat, dealt: seq<Item>, popped: nat, links: Hub, wire: Wire, j: nat)
    requires n >= 1 && popped <= |dealt|
  {
    L.Waiting(links, Id(s, j)) + Items(wire) == Stripe(dealt[popped..], popped, j, n)
  }

  predicate Lanes(n: nat, s: nat, dealt: seq<Item>, popped: nat, links: Hub, wires: seq<Wire>)
    requires n >= 1 && popped <= |dealt| && |wires| == n
  {
    forall j :: 0 <= j < n ==> LaneInv(n, s, dealt, popped, links, wires[j], j)
  }

  /** The output is exactly what was received so far; the cursor of the merge is
      the lane of the next item. Once the group is gone at most one more receive
      can happen, and it yields the next item in line or a zero value. */
  predicate MergerInv(n: nat, s: nat, dealt: seq<Item>, r: RxEnd)
    requires n >= 1 && r.rx.popped <= |dealt|
  {
    var rx, p := r.rx, r.rx.popped;
    match rx.merger
    case Dormant => p == 0 && rx.out == []
    case Launched => p == 0 && rx.out == []
    case Round => rx.out == Sent(dealt, p) && (!rx.removed ==> Lane(p, n) == 0)
    case Find(j) => rx.out == Sent(dealt, p) && j < n && (!rx.removed ==> j == Lane(p, n))
    case Read(j, None) => rx.out == Sent(dealt, p) && !rx.removed && j == Lane(p, n) && Id(s, j) in r.links
    case Read(j, Some(rest)) =>
      rx.out == Sent(dealt, p) && rx.removed && j == Lane(p, n) && rest <= Stripe(dealt[p..], p, j, n)
    case Write(j, x) =>
      j < n && (
        || (p > 0 && x == dealt[p - 1].chunk && rx.out == Sent(dealt, p - 1) && (!rx.removed ==> j == Lane(p - 1, n)))
        || (rx.removed && x == ZERO && rx.out == Sent(dealt, p)))
    case Over => rx.out <= Sent(dealt, |dealt|)
  }

  /** A half-closed connection has everything. */
  predicate ShutInv(dealt: seq<Item>, rx: Rx) {
    rx.shut ==> rx.merger.Over? && rx.popped == |dealt| && dealt != [] && dealt[|dealt| - 1].chunk.eof && rx.out == Sent(dealt, |dealt|)
  }

  predicate Cleared(n: nat, s: nat, links: Hub) {
    forall j :: 0 <= j < n ==> Id(s, j) !in links
  }

  predicate RemovedInv(n: nat, s: nat, r: RxEnd) {
    var m := r.rx.merger;
    && (r.rx.closing ==> r.rx.removed)
    && (r.rx.removed && !m.Dormant? ==> Master(s) !in r.links)
    && (r.rx.removed && (m.Read? || m.Write? || (m.Find? && m.j > 0)) ==> r.rx.closing && Cleared(n, s, r.links))
  }

  /** Neither torn down nor given up: still merging, or finished by the end mark. */
  predicate Flowing(rx: Rx) {
    !rx.removed && (rx.merger.Over? ==> rx.shut)
  }

  predicate NoneDone(links: Hub) {
    forall id :: id in links ==> links[id].status != StaDone
  }

  predicate RxInv(n: nat, s: nat, dealt: seq<Item>, r: RxEnd, wires: seq<Wire>)
    requires n >= 1 && |wires| == n
  {
    var rx := r.rx;
    && rx.popped <= |dealt|
    && (rx.merger.Dormant? <==> rx.launches == 0)
    && (!rx.merger.Dormant? ==> rx.order == Order(s, n))
    && (Flowing(rx) ==> Lanes(n, s, dealt, rx.popped, r.links, wires))
    && (!rx.removed && !rx.merger.Over? ==> NoneDone(r.links))
    && MergerInv(n, s, dealt, r)
    && ShutInv(dealt, rx)
    && RemovedInv(n, s, r)
  }

  /** What holds of a receiving side in every run: the merge, once launched, walks the
      whole order, and what it may still find after a removal is bounded. */
  predicate RxShape(n: nat, s: nat, r: RxEnd) {
    var m := r.rx.merger;
    && (m.Dormant? <==> r.rx.launches == 0)
    && (!m.Dormant? ==> r.rx.order == Order(s, n))
    && (m.Find? || m.Read? || m.Write? ==> m.j < n)
    && (m.Read? ==> (m.orphan.Some? <==> r.rx.removed))
    && (r.rx.shut ==> m.Over?)
    && RemovedInv(n, s, r)
  }

  lemma RxInvShape(n: nat, s: nat, dealt: seq<Item>, r: RxEnd, wires: seq<Wire>)
    requires n >= 1 && |wires| == n && RxInv(n, s, dealt, r, wires)
    ensures RxShape(n, s, r)
  {
    hide Lanes, Stripe, RemovedInv, Sent, NoneDone;
  }

  predicate DealtEofLast(dealt: seq<Item>) {
    forall k :: 0 <= k < |dealt| && dealt[k].chunk.eof ==> k == |dealt| - 1 && dealt[k].chunk.data == []
  }

  /** The master's entry lists the whole group once it has launched. */
  predicate Sorted(n: nat, s: nat, r: RxEnd) {
    !r.rx.removed && !r.rx.merger.Dormant? ==> Master(s) in r.links && r.links[Master(s)].sorted == Order(s, n)
  }

  lemma RxShapeKeeps(n: nat, s: nat, r: RxEnd, a: RxAct)
    requires n >= 1 && RxShape(n, s, r) && RxEnabled(r, a) && (a.CloseLinks? ==> Sorted(n, s, r))
    ensures RxShape(n, s, RxStep(r, Master(s), a))
  {
    if a.CloseLinks? && !r.rx.merger.Dormant? && !r.rx.removed {
      forall j | 0 <= j < n ensures Id(s, j) in Members(r.links[Master(s)].sorted) {
        assert Order(s, n)[j] == Id(s, j);
      }
    }
  }

  lemma LanesKept(n: nat, s: nat, dealt: seq<Item>, p: nat, links: Hub, links': Hub, wires: seq<Wire>)
    requires n >= 1 && |wires| == n && p <= |dealt| && Lanes(n, s, dealt, p, links, wires)
    requires forall id :: L.Waiting(links', id) == L.Waiting(links, id)
    ensures Lanes(n, s, dealt, p, links', wires)
  {
    hide Stripe, Items;
    forall j | 0 <= j < n ensures LaneInv(n, s, dealt, p, links', wires[j], j) {
      assert LaneInv(n, s, dealt, p, links, wires[j], j);
    }
  }

  lemma RxControl(n: nat, s: nat, dealt: seq<Item>, r: RxEnd, a: RxAct, wires: seq<Wire>)
    requires n >= 1 && |wires| == n && RxInv(n, s, dealt, r, wires) && RxEnabled(r, a)
    requires a.MergeBegin? || a.MergeRound? || a.MergeFind?
    ensures RxInv(n, s, dealt, RxStep(r, Master(s), a), wires)
  {
    hide Lanes, Stripe;
    var r' := RxStep(r, Master(s), a);
    assert forall id :: L.Waiting(r'.links, id) == L.Waiting(r.links, id);
    SentPrefix(dealt, r.rx.popped, |dealt|);
    if Flowing(r'.rx) {
      LanesKept(n, s, dealt, r.rx.popped, r.links, r'.links, wires);
    }
  }

  /** The item under the cursor is the next one in line. */
  lemma NextItem(n: nat, s: nat, dealt: seq<Item>, p: nat, have: seq<Item>)
    requires n >= 1 && p <= |dealt| && have != []
    requires have <= Stripe(dealt[p..], p, Lane(p, n), n)
    ensures p < |dealt| && have[0] == dealt[p]
    ensures dealt[p..][1..] == dealt[p + 1..]
  {
    if p < |dealt| {
      assert dealt[p..][0] == dealt[p];
    }
  }

  lemma LanesAfterPop(n: nat, s: nat, dealt: seq<Item>, p: nat, links: Hub, wires: seq<Wire>)
    requires n >= 1 && |wires| == n && p < |dealt|
    requires Lanes(n, s, dealt, p, links, wires)
    requires var id := Id(s, Lane(p, n)); id in links && links[id].buffer != []
    ensures Lanes(n, s, dealt, p + 1, L.PopLink(links, Id(s, Lane(p, n))), wires)
  {
    var id := Id(s, Lane(p, n));
    var links' := L.PopLink(links, id);
    assert dealt[p..][1..] == dealt[p + 1..];
    forall j | 0 <= j < n ensures LaneInv(n, s, dealt, p + 1, links', wires[j], j) {
      assert LaneInv(n, s, dealt, p, links, wires[j], j);
      var before := L.Waiting(links, Id(s, j)) + Items(wires[j]);
      if j == Lane(p, n) {
        assert L.Waiting(links', Id(s, j)) + Items(wires[j]) == before[1..];
        assert before == [dealt[p]] + Stripe(dealt[p + 1..], p + 1, j, n);
      } else {
        assert before == [] + Stripe(dealt[p + 1..], p + 1, j, n);
      }
    }
  }

  lemma RxRead(n: nat, s: nat, dealt: seq<Item>, r: RxEnd, wires: seq<Wire>)
    requires n >= 1 && |wires| == n && RxInv(n, s, dealt, r, wires) && RxEnabled(r, MergeRead)
    ensures RxInv(n, s, dealt, RxStep(r, Master(s), MergeRead), wires)
  {
    hide Stripe, Items, Cleared, Sent;
    var p, m := r.rx.popped, r.rx.merger;
    if m.orphan.None? {
      assert LaneInv(n, s, dealt, p, r.links, wires[m.j], m.j);
      NextItem(n, s, dealt, p, L.Waiting(r.links, Id(s, m.j)));
      LanesAfterPop(n, s, dealt, p, r.links, wires);
    } else if m.orphan.value != [] {
      NextItem(n, s, dealt, p, m.orphan.value);
    }
  }

  lemma RxWrite(n: nat, s: nat, dealt: seq<Item>, r: RxEnd, wires: seq<Wire>)
    requires n >= 1 && |wires| == n && RxInv(n, s, dealt, r, wires) && RxEnabled(r, MergeWrite) && DealtEofLast(dealt)
    ensures RxInv(n, s, dealt, RxStep(r, Master(s), MergeWrite), wires)
  {
    hide Lanes, Stripe, Cleared;
    var p := r.rx.popped;
    if Flowing(r.rx) {
      LanesKept(n, s, dealt, p, r.links, RxStep(r, Master(s), MergeWrite).links, wires);
    }
    SentPrefix(dealt, p, |dealt|);
    if p > 0 {
      assert Lane(p, n) == Next(Lane(p - 1, n), n);
    }
  }

  lemma RxFail(n: nat, s: nat, dealt: seq<Item>, r: RxEnd, k: nat, wires: seq<Wire>)
    requires n >= 1 && |wires| == n && RxInv(n, s, dealt, r, wires) && RxEnabled(r, MergeFail(k))
    ensures RxInv(n, s, dealt, RxStep(r, Master(s), MergeFail(k)), wires)
  {
    hide Lanes, Stripe, Cleared, Lane, NoneDone;
    var p, m := r.rx.popped, r.rx.merger;
    SentPrefix(dealt, p, |dealt|);
    if m.Write? && p > 0 {
      assert Sent(dealt, p) == Sent(dealt, p - 1) + dealt[p - 1].chunk.data;
    }
  }

  lemma RxClose(n: nat, s: nat, dealt: seq<Item>, r: RxEnd, wires: seq<Wire>)
    requires n >= 1 && |wires| == n && RxInv(n, s, dealt, r, wires) && RxEnabled(r, CloseLinks) && Sorted(n, s, r)
    ensures RxInv(n, s, dealt, RxStep(r, Master(s), CloseLinks), wires)
  {
    var m := r.rx.merger;
    if m.Read? {
      assert LaneInv(n, s, dealt, r.rx.popped, r.links, wires[m.j], m.j);
    }
    if !m.Dormant? {
      forall j | 0 <= j < n ensures Id(s, j) in Members(r.links[Master(s)].sorted) {
        assert Order(s, n)[j] == Id(s, j);
      }
    }
  }

  lemma RxKeeps(n: nat, s: nat, dealt: seq<Item>, r: RxEnd, a: RxAct, wires: seq<Wire>)
    requires n >= 1 && |wires| == n && RxInv(n, s, dealt, r, wires) && RxEnabled(r, a) && DealtEofLast(dealt)
    requires a.CloseLinks? ==> Sorted(n, s, r)
    ensures RxInv(n, s, dealt, RxStep(r, Master(s), a), wires)
  {
    match a
    case MergeRead => RxRead(n, s, dealt, r, wires);
    case MergeWrite => RxWrite(n, s, dealt, r, wires);
    case MergeFail(k) => RxFail(n, s, dealt, r, k, wires);
    case CloseLinks => RxClose(n, s, dealt, r, wires);
    case _ => RxControl(n, s, dealt, r, a, wires);
  }
}
