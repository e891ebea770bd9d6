/** The transitions of one proxied stream: the client's transData, the server's
    dispatch and establish, and in each direction the copy loop, queue.Send, the
    websocket reader and link.Send. `Core` is one atomic step; Stream.dfy runs it
    on one stream alone and Mux.dfy on any number of streams sharing the sockets. */
module Protocol {
  import opened Data
  import Q = QueueHubModel
  import L = LinkHubModel

  /** Up carries the request (client to server), Down the response. */
  datatype Dir = Up | Down

  /** n websockets; every buffer channel holds at most cap chunks. */
  datatype Config = Config(n: nat, cap: nat) {
    predicate Valid() { n >= 1 && cap >= 1 }
  }

  /** A chunk together with the moment it was written to its websocket. The
      moment is an auxiliary variable: no step depends on it. */
  datatype Item = Item(chunk: Chunk, at: nat)

  datatype Msg =
    | Hi(id: Id, master: Id, at: nat)
    | Est(id: Id, sorted: seq<Id>, at: nat)
    | Carry(id: Id, item: Item)
  {
    function Moment(): nat { if Carry? then item.at else at }
  }

  type Hub = L.Links<Item>

  // ---- sending side of one direction -------------------------------------

  /** CopyBuffer: reading, holding a chunk to push into the queue, or finished. */
  datatype Source = Off | Reading | Pushing(chunk: Chunk) | Stopped

  /** queue.Send: top-of-loop check, receive for sorted[i], write to sorted[i]. */
  datatype Sender = NotBegun | Check | Take(i: nat) | Put(i: nat, chunk: Chunk) | Ended

  /** `gone` is the queue object once the hub has dropped it: its goroutines keep
      using it. `pending` counts launched Sends that have not reached the status
      guard. `sender` is the first loop, `extra` any loops a later Send started on
      the same queue. Auxiliary: `src` all bytes read from the connection, `line` all
      chunks the channel ever yielded or still holds, `taken` how many of them
      Send has received, `dealt` those it wrote to a websocket. */
  datatype Tx = Tx(source: Source, src: seq<byte>, pending: nat, sender: Sender, extra: seq<Sender>,
                   gone: Option<Q.Queue>, line: seq<Chunk>, taken: nat, dealt: seq<Item>)

  /** `queue` is the hub's entry for the stream. */
  datatype TxEnd = TxEnd(queue: Option<Q.Queue>, tx: Tx)

  const NEW_TX := Tx(Off, [], 0, NotBegun, [], None, [], 0, [])

  datatype TxAct =
    | SrcRead(data: seq<byte>) | SrcEof | SrcPush | SrcFail
    | SendBegin | SendCheck | SendTake | SendPut | SendFail
    | CloseQueue

  function Object(t: TxEnd): Option<Q.Queue> {
    if t.tx.gone.Some? then t.tx.gone else t.queue
  }

  function Store(t: TxEnd, q: Q.Queue, tx: Tx): TxEnd {
    if t.tx.gone.Some? then TxEnd(t.queue, tx.(gone := Some(q))) else TxEnd(Some(q), tx)
  }

  predicate TxEnabled(c: Config, t: TxEnd, a: TxAct) {
    var tx := t.tx;
    match a
    case SrcRead(data) => tx.source.Reading? && data != []
    case SrcEof => tx.source.Reading?
    case SrcPush =>
      tx.source.Pushing? && Object(t).Some? && Object(t).value.open
      && Object(t).value.status != StaDone && |Object(t).value.buffer| < c.cap
    case SrcFail => tx.source.Pushing?
    case SendBegin => tx.pending > 0 && Object(t).Some?
    case SendCheck =>
      tx.sender.Check? && Object(t).Some? && (Object(t).value.status == StaClose || Object(t).value.sorted != [])
    case SendTake =>
      tx.sender.Take? && Object(t).Some? && (Object(t).value.buffer != [] || !Object(t).value.open)
    case SendPut =>
      tx.sender.Put? && Object(t).Some? && tx.sender.i < |Object(t).value.sorted|
      && Object(t).value.sorted[tx.sender.i] in Object(t).value.writers
    case SendFail => (tx.sender.Take? || tx.sender.Put?) && Object(t).Some?
    case CloseQueue => t.queue.Some? && tx.gone.None?
  }

  function TxStep(c: Config, t: TxEnd, a: TxAct, now: nat): TxEnd
    requires TxEnabled(c, t, a)
  {
    var tx := t.tx;
    match a
    case SrcRead(data) => t.(tx := tx.(source := Pushing(Chunk(false, data)), src := tx.src + data))
    case SrcEof => t.(tx := tx.(source := Pushing(EOF_MARK)))
    case SrcPush =>
      var q, x := Object(t).value, tx.source.chunk;
      Store(t, q.(buffer := q.buffer + [x]),
            tx.(line := tx.line + [x], source := if x.eof then Stopped else Reading))
    case SrcFail => t.(tx := tx.(source := Stopped))
    case SendBegin =>
      var q := Object(t).value;
      if q.status == StaSend || q.status == StaDone then t.(tx := tx.(pending := tx.pending - 1))
      else
        var tx' := tx.(pending := tx.pending - 1);
        Store(t, q.(status := StaSend),
              if tx.sender.NotBegun? then tx'.(sender := Check) else tx'.(extra := tx.extra + [Check]))
    case SendCheck =>
      var q := Object(t).value;
      if q.status == StaClose then Store(t, q.(status := StaDone), tx.(sender := Ended))
      else t.(tx := tx.(sender := Take(0)))
    case SendTake =>
      var q, i := Object(t).value, tx.sender.i;
      if q.buffer != [] then
        Store(t, q.(buffer := q.buffer[1..]), tx.(taken := tx.taken + 1, sender := Put(i, q.buffer[0])))
      else
        t.(tx := tx.(line := tx.line + [ZERO], taken := tx.taken + 1, sender := Put(i, ZERO)))
    case SendPut =>
      var q, i, x := Object(t).value, tx.sender.i, tx.sender.chunk;
      var tx' := tx.(dealt := tx.dealt + [Item(x, now)]);
      if x.eof then Store(t, q.(status := StaDone), tx'.(sender := Ended))
      else t.(tx := tx'.(sender := if i + 1 < |q.sorted| then Take(i + 1) else Check))
    case SendFail =>
      Store(t, Object(t).value.(status := StaDone), tx.(sender := Ended))
    case CloseQueue => TxEnd(None, tx.(gone := Some(Q.Closed(t.queue.value))))
  }

  /** Where SendPut writes, and what. */
  function TxPost(c: Config, t: TxEnd, now: nat): (nat, Msg)
    requires TxEnabled(c, t, SendPut)
  {
    var q, i := Object(t).value, t.tx.sender.i;
    (q.writers[q.sorted[i]], Carry(q.sorted[i], Item(t.tx.sender.chunk, now)))
  }

  // ---- further loops on the same queue -----------------------------------

  predicate LoopAct(a: TxAct) {
    a.SendCheck? || a.SendTake? || a.SendPut? || a.SendFail?
  }

  /** The sending side as the k-th further loop sees it. */
  function Focus(t: TxEnd, k: nat): TxEnd
    requires k < |t.tx.extra|
  {
    t.(tx := t.tx.(sender := t.tx.extra[k]))
  }

  predicate AgainEnabled(c: Config, t: TxEnd, k: nat, a: TxAct) {
    LoopAct(a) && k < |t.tx.extra| && TxEnabled(c, Focus(t, k), a)
  }

  function AgainStep(c: Config, t: TxEnd, k: nat, a: TxAct, now: nat): TxEnd
    requires AgainEnabled(c, t, k, a)
  {
    var t' := TxStep(c, Focus(t, k), a, now);
    t'.(tx := t'.tx.(sender := t.tx.sender, extra := t.tx.extra[k := t'.tx.sender]))
  }

  /** A close comes in time when it finds no launched Send that has yet to reach the
      guard while a loop has begun. */
  predicate Timely(t: TxEnd, a: TxAct) {
    a.CloseQueue? ==> t.tx.pending == 0 || t.tx.sender.NotBegun?
  }

  /** `go q.Send()` when the launch rule holds for the hub's entry. */
  function TryLaunch(t: TxEnd): TxEnd {
    if Q.Ready(t.queue) then t.(tx := t.tx.(pending := t.tx.pending + 1)) else t
  }

  // ---- receiving side of one direction -----------------------------------

  /** link.Send: launched but not started, top-of-loop check, hub lookup of
      order[j], receive from that link, write to the connection. A receive that
      was started before the group left the hub goes on reading the closed
      channel, kept in `orphan`. */
  datatype Merger =
    | Dormant | Launched | Round | Find(j: nat)
    | Read(j: nat, orphan: Option<seq<Item>>) | Write(j: nat, chunk: Chunk) | Over

  /** `closing` is the status close of the master link; `removed` says RemoveAll
      has run. `out` is what the connection was given, `shut` its half-close.
      Auxiliary: `launches`, and `popped`, how many items were received. */
  datatype Rx = Rx(merger: Merger, order: seq<Id>, closing: bool, removed: bool, launches: nat,
                   out: seq<byte>, shut: bool, popped: nat)

  datatype RxEnd = RxEnd(links: Hub, rx: Rx)

  const NEW_RX := Rx(Dormant, [], false, false, 0, [], false, 0)

  datatype RxAct =
    | MergeBegin | MergeRound | MergeFind | MergeRead | MergeWrite | MergeFail(k: nat)
    | CloseLinks

  predicate RxEnabled(r: RxEnd, a: RxAct) {
    var m := r.rx.merger;
    match a
    case MergeBegin => m.Launched?
    case MergeRound => m.Round? && (r.rx.closing || r.rx.order != [])
    case MergeFind => m.Find? && m.j < |r.rx.order|
    case MergeRead =>
      m.Read? && (m.orphan.Some? || (m.j < |r.rx.order| && L.Waiting(r.links, r.rx.order[m.j]) != []))
    case MergeWrite => m.Write?
    case MergeFail(k) => (m.Read? && k == 0) || (m.Write? && k <= |m.chunk.data|)
    case CloseLinks => !r.rx.removed
  }

  function Finish(r: RxEnd, master: Id, rx: Rx): RxEnd {
    RxEnd(if rx.removed then r.links else L.SetStatus(r.links, master, StaDone), rx.(merger := Over))
  }

  function RxStep(r: RxEnd, master: Id, a: RxAct): RxEnd
    requires RxEnabled(r, a)
  {
    var rx, m := r.rx, r.rx.merger;
    match a
    case MergeBegin =>
      RxEnd(if rx.removed then r.links else L.SetStatus(r.links, master, StaSend),
            rx.(merger := Round, closing := false))
    case MergeRound =>
      if rx.closing then Finish(r, master, rx) else r.(rx := rx.(merger := Find(0)))
    case MergeFind =>
      if rx.order[m.j] in r.links then r.(rx := rx.(merger := Read(m.j, None)))
      else Finish(r, master, rx)
    case MergeRead =>
      (match m.orphan
       case None =>
         var id := rx.order[m.j];
         RxEnd(L.PopLink(r.links, id),
               rx.(merger := Write(m.j, L.Waiting(r.links, id)[0].chunk), popped := rx.popped + 1))
       case Some(rest) =>
         if rest == [] then r.(rx := rx.(merger := Write(m.j, ZERO)))
         else r.(rx := rx.(merger := Write(m.j, rest[0].chunk), popped := rx.popped + 1)))
    case MergeWrite =>
      if m.chunk.eof then Finish(r, master, rx.(shut := true))
      else r.(rx := rx.(out := rx.out + m.chunk.data,
                        merger := if m.j + 1 < |rx.order| then Find(m.j + 1) else Round))
    case MergeFail(k) =>
      Finish(r, master, if m.Write? then rx.(out := rx.out + m.chunk.data[..k]) else rx)
    case CloseLinks =>
      var m' := if m.Read? && m.orphan.None? && m.j < |rx.order|
                then Read(m.j, Some(L.Waiting(r.links, rx.order[m.j]))) else m;
      RxEnd(L.RemoveGroup(r.links, master), rx.(merger := m', closing := true, removed := true))
  }

  /** `go q.Send(h)`. */
  function Launch(rx: Rx, order: seq<Id>): Rx {
    rx.(launches := rx.launches + 1, order := order, merger := if rx.merger.Dormant? then Launched else rx.merger)
  }

  function TryLaunchLinks(r: RxEnd, master: Id): RxEnd {
    if L.Ready(r.links, master) then r.(rx := Launch(r.rx, r.links[master].sorted)) else r
  }

  /** A data message meets its link: unknown id and finished master are silent
      drops, a full buffer blocks the reader of that websocket. */
  predicate Acceptable(c: Config, links: Hub, id: Id) {
    id in links && links[id].status != StaDone ==> |links[id].buffer| < c.cap
  }

  function Accept(links: Hub, id: Id, x: Item): Hub {
    if id in links && links[id].status != StaDone then L.PushLink(links, id, x) else links
  }

  // ---- set-up ------------------------------------------------------------

  datatype Dial = NotYet | Ok | Failed

  /** Client: lanes announced, lanes registered, Est sent, queue started, link
      looked up, link started. Server: dial result, copy loop started.
      Auxiliary: `hi` the lanes whose Hi was dispatched, `estSeen`. */
  datatype Ctl = Ctl(said: nat, added: nat, est: bool, queueStarted: bool, linkFound: bool, linkStarted: bool,
                     hi: set<nat>, estSeen: bool, dial: Dial, serving: bool)

  const NEW_CTL := Ctl(0, 0, false, false, false, false, {}, false, NotYet, false)

  datatype Ends = Ends(t: TxEnd, r: RxEnd)

  datatype Both = Both(up: Ends, down: Ends, ctl: Ctl) {
    function At(d: Dir): Ends { if d.Up? then up else down }
    function With(d: Dir, e: Ends): Both { if d.Up? then this.(up := e) else this.(down := e) }
  }

  datatype Act =
    | Say | Register | SendEst | StartQueue | FindLink | StartLink
    | Connect(ok: bool) | Serve
    | Tx_(dir: Dir, tx: TxAct) | Again(dir: Dir, k: nat, tx: TxAct) | Rx_(dir: Dir, rx: RxAct)
    | Receive(dir: Dir, lane: nat) | Discard(dir: Dir, lane: nat)

  function Master(s: nat): Id { Id(s, 0) }

  /** Each side tears down its own half: the server only once the connection is
      registered in its hub, the client once every lane is registered. */
  predicate MayClose(c: Config, ctl: Ctl, serverSide: bool) {
    if serverSide then ctl.dial.Ok? else ctl.added == c.n
  }

  predicate CoreEnabled(c: Config, s: nat, b: Both, a: Act, head: Option<Msg>) {
    var ctl := b.ctl;
    match a
    case Say => ctl.said == ctl.added < c.n
    case Register => ctl.added < ctl.said
    case SendEst => ctl.added == c.n && !ctl.est && c.n > 0
    case StartQueue => ctl.est && !ctl.queueStarted && b.up.t.queue.Some?
    case FindLink => ctl.queueStarted && !ctl.linkFound && Master(s) in b.down.r.links
    case StartLink => ctl.linkFound && !ctl.linkStarted
    case Connect(_) => ctl.estSeen && ctl.dial.NotYet?
    case Serve => ctl.dial.Ok? && !ctl.serving
    case Tx_(d, x) => TxEnabled(c, b.At(d).t, x) && (x.CloseQueue? ==> MayClose(c, ctl, d.Down?))
    case Again(d, k, x) => AgainEnabled(c, b.At(d).t, k, x)
    case Rx_(d, x) => RxEnabled(b.At(d).r, x) && (x.CloseLinks? ==> MayClose(c, ctl, d.Up?))
    case Receive(d, lane) =>
      head.Some? && (head.value.Carry? ==> Acceptable(c, b.At(d).r.links, head.value.id))
    case Discard(d, lane) => head.Some? && head.value.Carry? && b.At(d).r.rx.removed
  }

  function Core(c: Config, s: nat, b: Both, a: Act, now: nat, head: Option<Msg>): Both
    requires CoreEnabled(c, s, b, a, head)
  {
    var ctl := b.ctl;
    match a
    case Say => b.(ctl := ctl.(said := ctl.said + 1))
    case Register => DoRegister(s, b)
    case SendEst => b.(ctl := ctl.(est := true))
    case StartQueue => DoStartQueue(c, s, b)
    case FindLink => b.(ctl := ctl.(linkFound := true))
    case StartLink => DoStartLink(c, s, b)
    case Connect(ok) => DoConnect(s, b, ok)
    case Serve => DoServe(b)
    case Tx_(d, x) => b.With(d, b.At(d).(t := TxStep(c, b.At(d).t, x, now)))
    case Again(d, k, x) => b.With(d, b.At(d).(t := AgainStep(c, b.At(d).t, k, x, now)))
    case Rx_(d, x) => b.With(d, b.At(d).(r := RxStep(b.At(d).r, Master(s), x)))
    case Receive(d, lane) =>
      (match head.value
       case Hi(id, master, _) => DoHi(b, id, master, lane)
       case Est(id, sorted, _) => DoEst(b, id, sorted)
       case Carry(id, x) =>
         var e := b.At(d);
         b.With(d, e.(r := e.r.(links := Accept(e.r.links, id, x)))))
    case Discard(_, _) => b
  }

  /** One turn of transData's loop, after SayID: both client hubs get the lane. */
  function DoRegister(s: nat, b: Both): Both {
    var lane := b.ctl.added;
    var t := b.up.t;
    b.(up := b.up.(t := TryLaunch(t.(queue := Some(Q.WithWriter(t.queue, Id(s, lane), lane))))),
       down := b.down.(r := TryLaunchLinks(b.down.r.(links := L.AddLink(b.down.r.links, Id(s, lane), Master(s))), Master(s))),
       ctl := b.ctl.(added := lane + 1))
  }

  /** qq.SetSort; go qq.Send(); go CopyBuffer(qq, conn). */
  function DoStartQueue(c: Config, s: nat, b: Both): Both
    requires b.up.t.queue.Some?
  {
    var t := b.up.t;
    b.(up := b.up.(t := TxEnd(Some(Q.WithSort(t.queue, Order(s, c.n))),
                              t.tx.(pending := t.tx.pending + 1, source := Reading))),
       ctl := b.ctl.(queueStarted := true))
  }

  /** oo.SetConn; oo.SetSort; go oo.Send(hub). The object may have left the hub
      since it was looked up. */
  function DoStartLink(c: Config, s: nat, b: Both): Both {
    var r := b.down.r;
    var links := if r.rx.removed then r.links
                 else L.SortLink(L.ConnectLink(r.links, Master(s)), Master(s), Order(s, c.n));
    b.(down := b.down.(r := RxEnd(links, Launch(r.rx, Order(s, c.n)))), ctl := b.ctl.(linkStarted := true))
  }

  /** establish: dial, then serverLinkHub.TrySend. */
  function DoConnect(s: nat, b: Both, ok: bool): Both {
    if !ok then b.(ctl := b.ctl.(dial := Failed))
    else
      var r := b.up.r;
      b.(up := b.up.(r := TryLaunchLinks(r.(links := L.ConnectLink(r.links, Master(s))), Master(s))),
         ctl := b.ctl.(dial := Ok))
  }

  /** establish: serverQueueHub.TrySend, then go CopyBuffer(writer, conn). Once the
      queue has left the hub there is no copy loop for it. */
  function DoServe(b: Both): Both {
    var t := TryLaunch(b.down.t);
    b.(down := b.down.(t := t.(tx := t.tx.(source := if t.tx.gone.None? then Reading else Stopped))),
       ctl := b.ctl.(serving := true))
  }

  /** dispatchDataMessage, sayhi: the writer goes to the socket the Hi came from. */
  function DoHi(b: Both, id: Id, master: Id, lane: nat): Both {
    var t := b.down.t;
    b.(down := b.down.(t := TryLaunch(t.(queue := Some(Q.WithWriter(t.queue, id, lane))))),
       up := b.up.(r := TryLaunchLinks(b.up.r.(links := L.AddLink(b.up.r.links, id, master)), master)),
       ctl := b.ctl.(hi := b.ctl.hi + {id.lane}))
  }

  /** dispatchDataMessage, est: both server hubs learn the order. */
  function DoEst(b: Both, id: Id, sorted: seq<Id>): Both {
    b.(down := b.down.(t := b.down.t.(queue := Some(Q.WithSort(b.down.t.queue, sorted)))),
       up := b.up.(r := b.up.r.(links := L.SortLink(b.up.r.links, id, sorted))),
       ctl := b.ctl.(estSeen := true))
  }

  /** The act is no close of the response queue, or one that comes in time. */
  predicate OwnTimely(b: Both, a: Act) {
    a.Tx_? && a.dir.Down? ==> Timely(b.down.t, a.tx)
  }

  /** The message a step writes to a websocket, with direction and lane. */
  function CorePost(c: Config, s: nat, b: Both, a: Act, now: nat): Option<(Dir, nat, Msg)>
    requires CoreEnabled(c, s, b, a, None) || a.Receive? || a.Discard?
  {
    match a
    case Say => Some((Up, b.ctl.said, Hi(Id(s, b.ctl.said), Master(s), now)))
    case SendEst => Some((Up, 0, Est(Master(s), Order(s, c.n), now)))
    case Tx_(d, x) =>
      if x.SendPut? then var p := TxPost(c, b.At(d).t, now); Some((d, p.0, p.1)) else None
    case Again(d, k, x) =>
      if x.SendPut? then var p := TxPost(c, Focus(b.At(d).t, k), now); Some((d, p.0, p.1)) else None
    case _ => None
  }
}
