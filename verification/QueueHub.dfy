/** pipe/queue.go as classes: queue objects on the heap, the hub's map of them, and
    the dealing loop. */
module QueueHub {
  import opened Data
  import opened RoundRobin
  import opened Counting
  import M = QueueHubModel

  /** A PipeWriter bound to one websocket: what it sent, and how many more writes
      succeed. */
  class Writer {
    const lane: nat
    var sent: seq<Chunk>
    var credit: nat

    constructor (socket: nat, writes: nat)
      ensures lane == socket && sent == [] && credit == writes
    {
      lane, sent, credit := socket, [], writes;
    }

    method Write(c: Chunk) returns (ok: bool)
      modifies this
      ensures ok == (old(credit) > 0) && credit == old(credit) - if ok then 1 else 0
      ensures sent == if ok then old(sent) + [c] else old(sent)
    {
      ok := credit > 0;
      if ok { sent, credit := sent + [c], credit - 1; }
    }
  }

  /** How queue.Send leaves: turned away by the guard, closed at the start of a
      round, the end mark was received (and passed on, if its write succeeded),
      nothing to receive yet, or a write failed. */
  datatype Ending = TurnedAway | Closed | Finished(told: bool) | Starved | Failed

  function Zeros(k: nat): (r: seq<Chunk>)
    ensures |r| == k
  {
    seq(k, _ => ZERO)
  }

  /** A channel that held b0 has given `taken` and holds b: in order, and beyond
      its contents only zero values, once it is closed and empty. */
  ghost predicate Drained(b0: seq<Chunk>, b: seq<Chunk>, open: bool, taken: seq<Chunk>) {
    && |b0| <= |taken| + |b|
    && taken + b == b0 + Zeros(|taken| + |b| - |b0|)
    && (|b0| < |taken| + |b| ==> !open && b == [])
  }

  lemma DrainedStart(b: seq<Chunk>, open: bool)
    ensures Drained(b, b, open, [])
  {
  }

  lemma DrainedStep(b0: seq<Chunk>, b: seq<Chunk>, open: bool, taken: seq<Chunk>)
    requires Drained(b0, b, open, taken) && (b != [] || !open)
    ensures b != [] ==> Drained(b0, b[1..], open, taken + [b[0]])
    ensures b == [] ==> Drained(b0, b, open, taken + [ZERO])
  {
    if b != [] {
      assert taken + [b[0]] + b[1..] == taken + b;
    } else {
      var z := |taken| - |b0|;
      assert Zeros(z + 1) == Zeros(z) + [ZERO];
      assert taken + b == taken;
      Assoc(b0, Zeros(z), [ZERO]);
    }
  }

  /** Why the loop stopped. */
  predicate Leaves(r: Ending, last: Option<Chunk>, buffer: seq<Chunk>, open: bool) {
    match r
    case TurnedAway => false
    case Closed => last.None?
    case Finished(_) => last.Some? && last.value.eof
    case Starved => last.None? && buffer == [] && open
    case Failed => last.Some? && !last.value.eof
  }

  ghost predicate NoEof(sent: seq<Chunk>) {
    forall x <- sent :: !x.eof
  }

  /** What a writer had sent, and how many more of its writes would succeed. */
  datatype Start = Start(sent: seq<Chunk>, credit: nat)

  /** The chunks that reached the writers. */
  function Told(r: Ending, sent: seq<Chunk>, last: Option<Chunk>): seq<Chunk> {
    if r == Finished(true) then Taken(sent, last) else sent
  }

  class Queue {
    var buffer: seq<Chunk>
    var open: bool
    var writers: map<Id, Writer>
    var sorted: seq<Id>
    var status: Status
    /** The id the hub keeps this queue under. */
    ghost const key: Id
    /** How often the channel has been closed; a second time would panic. */
    ghost var closes: nat

    constructor (master: Id)
      ensures Value() == M.NEW_QUEUE && open && status == StaWait && key == master && closes == 0
    {
      key := master;
      buffer, open, writers, sorted, status, closes := [], true, map[], [], StaWait, 0;
    }

    function Value(): M.Queue
      reads this
    {
      M.Queue(buffer, open, map id | id in writers :: writers[id].lane, sorted, status)
    }

    /** queue.close; closing the channel itself requires that it is open. */
    method Close()
      requires status != StaClose ==> open
      modifies this`status, this`open, this`closes
      ensures Value() == M.Closed(old(Value()))
      ensures status == StaClose && open == (old(status) == StaClose && old(open))
      ensures closes == old(closes) + if old(status) == StaClose then 0 else 1
    {
      if status == StaClose { return; }
      status := StaClose;
      open := false;
      closes := closes + 1;
    }

    /** writeBuf: the channel has room for `cap` chunks. */
    method WriteBuf(b: Chunk, cap: nat) returns (r: Outcome)
      requires |buffer| <= cap
      modifies this`buffer
      ensures |buffer| <= cap
      ensures buffer == old(buffer) + if r.Queued? then [b] else []
      ensures r.Queued? <==> status != StaDone && open && |old(buffer)| < cap
      ensures r.Refused? <==> status == StaDone
      ensures r.Lost? <==> status != StaDone && !open
      ensures r.Blocked? <==> status != StaDone && open && |old(buffer)| == cap
    {
      if status == StaDone { return Refused; }
      if !open { return Lost; }
      if |buffer| == cap { return Blocked; }
      buffer := buffer + [b];
      r := Queued;
    }

    /** Every id of the order has a writer, and no two share one. */
    ghost predicate Equipped()
      reads this`sorted, this`writers
    {
      && sorted != [] && Distinct(sorted)
      && (forall id <- sorted :: id in writers)
      && (forall i, j :: 0 <= i < j < |sorted| ==> writers[sorted[i]] != writers[sorted[j]])
    }

    ghost function Pool(): set<Writer>
      reads this`sorted, this`writers
    {
      set id | id in writers :: writers[id]
    }

    /** Since base, each writer has sent exactly its share of `told`, and paid for it. */
    ghost predicate Dealt(base: seq<Start>, told: seq<Chunk>)
      requires Equipped()
      reads this`sorted, this`writers, Pool()
    {
      && |base| == |sorted|
      && (forall i :: 0 <= i < |sorted| ==>
        && writers[sorted[i]].sent == base[i].sent + Stripe(told, 0, i, |sorted|)
        && writers[sorted[i]].credit + |Stripe(told, 0, i, |sorted|)| == base[i].credit)
    }

    ghost function Base(): (b: seq<Start>)
      requires Equipped()
      reads this, Pool()
      ensures Dealt(b, [])
    {
      seq(|sorted|, i requires 0 <= i < |sorted| && Equipped() reads this, Pool() =>
        Start(writers[sorted[i]].sent, writers[sorted[i]].credit))
    }

    /** The writer whose turn comes after k chunks can write no more. */
    ghost predicate Spent(k: nat)
      requires Equipped()
      reads this`sorted, this`writers, Pool()
    {
      writers[sorted[Lane(k, |sorted|)]].credit == 0
    }

    /** readWithTimeout: a chunk, a zero value from the closed and empty channel, or
        nothing yet. */
    method Receive(ghost b0: seq<Chunk>, ghost taken: seq<Chunk>) returns (c: Option<Chunk>)
      requires Drained(b0, buffer, open, taken)
      modifies this`buffer
      ensures c.Some? ==> Drained(b0, buffer, open, taken + [c.value])
      ensures c.None? ==> buffer == old(buffer) == [] && open
    {
      if buffer == [] && open { return None; }
      DrainedStep(b0, buffer, open, taken);
      if buffer == [] { return Some(ZERO); }
      c := Some(buffer[0]);
      buffer := buffer[1..];
    }

    /** A write to the writer of sorted[j], whose turn it is. */
    method Put(j: nat, x: Chunk, ghost base: seq<Start>, ghost told: seq<Chunk>) returns (ok: bool)
      requires Equipped() && Dealt(base, told) && j == Lane(|told|, |sorted|)
      modifies Pool()
      ensures Dealt(base, if ok then told + [x] else told)
      ensures ok == (old(writers[sorted[j]].credit) > 0) && (!ok ==> Spent(|told|))
      ensures writers[sorted[0]].credit == old(writers[sorted[0]].credit) - if ok && j == 0 then 1 else 0
    {
      hide Lane, Stripe;
      ok := writers[sorted[j]].Write(x);
      if ok {
        forall i | 0 <= i < |sorted|
          ensures writers[sorted[i]].sent == base[i].sent + Stripe(told + [x], 0, i, |sorted|)
          ensures writers[sorted[i]].credit + |Stripe(told + [x], 0, i, |sorted|)| == base[i].credit
        {
          StripeAppend(told, x, 0, i, |sorted|);
          Assoc(base[i].sent, Stripe(told, 0, i, |sorted|), [x]);
          assert i != j ==> Stripe(told, 0, i, |sorted|) + [] == Stripe(told, 0, i, |sorted|);
        }
      }
    }

    /** One turn: a receive and a write to the writer under the cursor. It either
        sends one more chunk or gives the reason to leave the loop. */
    method Turn(j: nat, before: seq<Chunk>, ghost b0: seq<Chunk>, ghost base: seq<Start>)
      returns (r: Option<Ending>, sent: seq<Chunk>, last: Option<Chunk>)
      requires Equipped() && j == Lane(|before|, |sorted|)
      requires Dealt(base, before) && Drained(b0, buffer, open, before) && NoEof(before)
      modifies this`buffer, Pool()
      ensures r.None? ==> last.None? && |sent| == |before| + 1 && Dealt(base, sent)
      ensures r.None? ==> writers[sorted[0]].credit == old(writers[sorted[0]].credit) - if j == 0 then 1 else 0
      ensures r.Some? ==> Leaves(r.value, last, buffer, open) && !r.value.Closed? && Dealt(base, Told(r.value, sent, last))
      ensures r == Some(Finished(false)) || r == Some(Failed) ==> Spent(|sent|)
      ensures Drained(b0, buffer, open, Taken(sent, last)) && NoEof(sent)
    {
      assert sorted[0] in writers;
      hide Equipped, Dealt, Spent, Drained, Lane;
      sent, last := before, None;
      var c := Receive(b0, before);
      if c.None? { return Some(Starved), sent, last; }
      var ok := Put(j, c.value, base, before);
      if ok && !c.value.eof {
        r, sent := None, before + [c.value];
      } else {
        r, last := Some(if c.value.eof then Finished(ok) else Failed), c;
      }
    }

    /** The inner loop: one pass over the order, from a cursor at its start. */
    method Round(before: seq<Chunk>, ghost b0: seq<Chunk>, ghost base: seq<Start>)
      returns (r: Option<Ending>, sent: seq<Chunk>, last: Option<Chunk>)
      requires Equipped() && Lane(|before|, |sorted|) == 0
      requires Dealt(base, before) && Drained(b0, buffer, open, before) && NoEof(before)
      modifies this`buffer, Pool()
      ensures r.None? ==> last.None? && Lane(|sent|, |sorted|) == 0 && Dealt(base, sent)
      ensures r.None? ==> writers[sorted[0]].credit == old(writers[sorted[0]].credit) - 1
      ensures r.Some? ==> Leaves(r.value, last, buffer, open) && !r.value.Closed? && Dealt(base, Told(r.value, sent, last))
      ensures r == Some(Finished(false)) || r == Some(Failed) ==> Spent(|sent|)
      ensures Drained(b0, buffer, open, Taken(sent, last)) && NoEof(sent)
    {
      assert sorted[0] in writers;
      hide Equipped, Dealt, Spent, Drained, Lane, Leaves;
      r, sent, last := None, before, None;
      var j := 0;
      while j < |sorted|
        invariant 0 <= j <= |sorted| && r.None? && last.None?
        invariant Dealt(base, sent) && Drained(b0, buffer, open, sent) && NoEof(sent)
        invariant Lane(|sent|, |sorted|) == if j < |sorted| then j else 0
        invariant writers[sorted[0]].credit == old(writers[sorted[0]].credit) - if j == 0 then 0 else 1
      {
        LaneSteps(|sent|, |sorted|);
        r, sent, last := Turn(j, sent, b0, base);
        if r.Some? { return; }
        j := j + 1;
      }
    }

    /** The loop of queue.Send. Each writer sends exactly its share of the chunks, in
        the cyclic order, and the chunks are the channel's contents in order. The end mark
        is passed on, and a chunk is not given up, unless the writer in turn can write no
        more. */
    method Deal(ghost base: seq<Start>) returns (r: Ending, sent: seq<Chunk>, last: Option<Chunk>)
      requires Equipped() && Dealt(base, [])
      modifies this`buffer, Pool()
      ensures Dealt(base, Told(r, sent, last)) && Drained(old(buffer), buffer, open, Taken(sent, last))
      ensures Leaves(r, last, buffer, open) && NoEof(sent) && (r.Closed? ==> status == StaClose)
      ensures r == Finished(false) || r.Failed? ==> Spent(|sent|)
    {
      sent, last := [], None;
      ghost var b0 := buffer;
      DrainedStart(buffer, open);
      LaneSteps(0, |sorted|);
      assert sorted[0] in writers;
      hide Equipped, Dealt, Spent, Drained, Lane;
      while status != StaClose
        invariant last.None? && Lane(|sent|, |sorted|) == 0
        invariant Dealt(base, sent) && Drained(b0, buffer, open, sent) && NoEof(sent)
        decreases writers[sorted[0]].credit
      {
        var e;
        e, sent, last := Round(sent, b0, base);
        if e.Some? { return e.value, sent, last; }
      }
      r := Closed;
    }

    /** queue.Send: the guard, the loop, and the deferred end. */
    method Send() returns (r: Ending, sent: seq<Chunk>, last: Option<Chunk>)
      requires Equipped()
      modifies this`buffer, this`status, Pool()
      ensures r.TurnedAway? <==> old(status) == StaSend || old(status) == StaDone
      ensures r.TurnedAway? ==> buffer == old(buffer) && status == old(status) && Dealt(old(Base()), [])
      ensures !r.TurnedAway? ==> status == StaDone && !r.Closed? && NoEof(sent) && Leaves(r, last, buffer, open)
      ensures !r.TurnedAway? ==>
        Dealt(old(Base()), Told(r, sent, last)) && Drained(old(buffer), buffer, open, Taken(sent, last))
      ensures r == Finished(false) || r.Failed? ==> Spent(|sent|)
    {
      ghost var base := Base();
      sent, last := [], None;
      if status == StaSend || status == StaDone { return TurnedAway, sent, last; }
      status := StaSend;
      r, sent, last := Deal(base);
      status := StaDone;
    }
  }

  /** From `before` to `after`, the map's entries for `ids` were closed, and no other queue
      changed. */
  ghost predicate OnlyClosed(before: map<Queue, M.Queue>, after: map<Queue, M.Queue>, entries: map<Id, Queue>, ids: set<Id>) {
    && after.Keys == before.Keys
    && forall q :: q in before ==>
      after[q] == if q.key in ids && q.key in entries && entries[q.key] == q then M.Closed(before[q]) else before[q]
  }

  lemma NoneClosed(a: map<Queue, M.Queue>, entries: map<Id, Queue>)
    ensures OnlyClosed(a, a, entries, {})
  {
  }

  lemma OneMoreClosed(a: map<Queue, M.Queue>, b: map<Queue, M.Queue>, c: map<Queue, M.Queue>,
                      entries: map<Id, Queue>, ids: set<Id>, id: Id)
    requires OnlyClosed(a, b, entries, ids) && OnlyClosed(b, c, entries - ids, {id})
    ensures OnlyClosed(a, c, entries, ids + {id})
  {
  }

  class QueueHub {
    var queue: map<Id, Queue>
    /** Every queue this hub ever created, removed ones included. */
    var all: set<Queue>

    constructor ()
      ensures Valid() && queue == map[] && all == {}
    {
      queue, all := map[], {};
    }

    /** The open queues are exactly those in the map, and none was closed twice. */
    ghost predicate Valid()
      reads this, all
    {
      && (forall id :: id in queue ==>
        queue[id] in all && queue[id].key == id && queue[id].open && queue[id].status != StaClose)
      && (forall q :: q in all ==>
        && (q.open ==> q.key in queue && queue[q.key] == q)
        && q.closes == if q.open then 0 else 1)
    }

    ghost function Model(): M.Queues
      reads this, set id | id in queue :: queue[id]
    {
      map id | id in queue :: queue[id].Value()
    }

    /** What every queue ever created holds. */
    ghost function Values(): map<Queue, M.Queue>
      reads this`all, all
    {
      map q | q in all :: q.Value()
    }

    /** The object the map has for an id, if any. */
    ghost function At(id: Id): set<Queue>
      reads this
    {
      if id in queue then {queue[id]} else {}
    }

    lemma AtIsOwn(id: Id)
      requires Valid()
      ensures At(id) <= all
    {
    }

    /** The queue of a stream, created when the map has none. */
    method Ensure(master: Id) returns (q: Queue)
      requires Valid()
      modifies this
      ensures Valid() && old(all) <= all && fresh(all - old(all))
      ensures queue == old(queue)[master := q] && (q in old(At(master)) || fresh(q))
      ensures Model() == old(Model())[master := M.Ensured(M.Entry(old(Model()), master))]
    {
      hide q.Value;
      if master !in queue {
        q := new Queue(master);
        queue, all := queue[master := q], all + {q};
      } else {
        q := queue[master];
      }
    }

    /** One queue's set-up changes; the model changes at its id only. */
    twostate lemma OneChanged(id: Id)
      requires old(Valid()) && queue == old(queue) && all == old(all) && id in queue
      requires forall q :: q in all && q != queue[id] ==> unchanged(q)
      requires queue[id].open && queue[id].closes == old(queue[id].closes) && queue[id].status != StaClose
      ensures Valid() && Model() == old(Model())[id := queue[id].Value()]
    {
    }

    method AddWriter(master: Id, id: Id, w: Writer) returns (launched: bool)
      requires Valid() && master in queue
      modifies At(master)
      ensures Valid()
      ensures queue[master].writers == old(queue[master].writers)[id := w]
      ensures Model() == old(Model())[master := M.WithWriter(Some(old(Model())[master]), id, w.lane)]
      ensures launched == M.Ready(M.Entry(Model(), master))
    {
      var q := queue[master];
      q.writers := q.writers[id := w];
      OneChanged(master);
      assert q.Value().writers == old(q.Value()).writers[id := w.lane];
      assert q.Value().writers.Keys == q.writers.Keys;
      launched := |q.writers| == |q.sorted|;
      assert |q.writers| == |q.writers.Keys| == |q.Value().writers|;
    }

    method Add(master: Id, id: Id, w: Writer) returns (launched: bool)
      requires Valid()
      modifies this, At(master)
      ensures Valid() && old(all) <= all && fresh(all - old(all))
      ensures master in queue && id in queue[master].writers && queue[master].writers[id] == w
      ensures Model() == M.Apply(old(Model()), M.Add(master, id, w.lane))
      ensures launched == M.Launches(old(Model()), M.Add(master, id, w.lane))
    {
      hide Valid, Model;
      var q := Ensure(master);
      launched := AddWriter(master, id, w);
    }

    method SortLanes(master: Id, sort: seq<Id>)
      requires Valid() && master in queue
      modifies At(master)
      ensures Valid()
      ensures Model() == old(Model())[master := old(Model())[master].(sorted := sort)]
    {
      queue[master].sorted := sort;
      OneChanged(master);
    }

    method SetSort(master: Id, sort: seq<Id>)
      requires Valid()
      modifies this, At(master)
      ensures Valid() && old(all) <= all && fresh(all - old(all))
      ensures Model() == M.Apply(old(Model()), M.SetSort(master, sort))
    {
      hide Valid, Model;
      var q := Ensure(master);
      SortLanes(master, sort);
    }

    method TrySend(master: Id) returns (launched: bool)
      requires Valid()
      ensures launched == M.Launches(Model(), M.TrySend(master))
    {
      launched := false;
      if master in queue {
        var q := queue[master];
        assert q.Value().writers.Keys == q.writers.Keys;
        launched := |q.writers| == |q.sorted|;
        assert |q.writers| == |q.writers.Keys| == |q.Value().writers|;
      }
    }

    method Get(master: Id) returns (q: Queue?)
      requires Valid()
      ensures q != null <==> master in queue
      ensures q != null ==> q == queue[master]
    {
      q := if master in queue then queue[master] else null;
    }

    method CloseOne(q: Queue)
      requires Valid() && q.key in queue && queue[q.key] == q
      modifies q
      ensures q.status == StaClose && !q.open && q.closes == 1
      ensures OnlyClosed(old(Values()), Values(), queue, {q.key})
    {
      hide q.Value;
      q.Close();
    }

    /** Remove: the queue is closed, so that a running Send sees it, and leaves the map;
        every other queue stays as it was. */
    method Remove(master: Id)
      requires Valid()
      modifies this`queue, At(master)
      ensures Valid() && queue == old(queue) - {master}
      ensures Model() == M.Apply(old(Model()), M.Remove(master))
      ensures master in old(queue) ==> old(queue)[master].status == StaClose && !old(queue)[master].open
      ensures OnlyClosed(old(Values()), Values(), old(queue), {master})
    {
      if master in queue {
        hide OnlyClosed, Values;
        Drop(master, queue[master]);
      }
    }

    method Drop(id: Id, q: Queue)
      requires Valid() && id in queue && queue[id] == q
      modifies this`queue, q
      ensures Valid() && queue == old(queue) - {id} && Model() == old(Model()) - {id}
      ensures q.status == StaClose && !q.open && OnlyClosed(old(Values()), Values(), old(queue), {id})
    {
      hide OnlyClosed, Values, q.Value;
      CloseOne(q);
      queue := queue - {id};
    }

    /** TimeoutClose: the expired queues it found are closed and removed, nothing else. */
    method TimeoutClose(expired: set<Id>) returns (gone: seq<Id>)
      requires Valid()
      modifies this`queue, all
      ensures Valid()
      ensures queue == old(queue) - Members(gone) && Model() == old(Model()) - Members(gone)
      ensures Members(gone) <= old(queue).Keys * expired
      ensures |gone| < 101 ==> Members(gone) == old(queue).Keys * expired
      ensures OnlyClosed(old(Values()), Values(), old(queue), Members(gone))
    {
      hide Valid, Model, OnlyClosed, Values;
      gone := Expired(queue.Keys, expired);
      ghost var before := Values();
      NoneClosed(before, queue);
      assert Members(gone[..0]) == {};
      var k := 0;
      while k < |gone|
        invariant 0 <= k <= |gone| && Valid()
        invariant queue == old(queue) - Members(gone[..k])
        invariant Model() == old(Model()) - Members(gone[..k])
        invariant OnlyClosed(before, Values(), old(queue), Members(gone[..k]))
      {
        assert Members(gone[..k + 1]) == Members(gone[..k]) + {gone[k]};
        ghost var now := Values();
        AtIsOwn(gone[k]);
        Remove(gone[k]);
        OneMoreClosed(before, now, Values(), old(queue), Members(gone[..k]), gone[k]);
        k := k + 1;
      }
      assert gone[..|gone|] == gone;
    }

    /** An assignment to q.status by a running Send; the object may have left the map. */
    method Mark(q: Queue, status: Status)
      requires Valid() && q in all && status != StaClose
      modifies q`status
      ensures Valid() && q.status == status
    {
      q.status := status;
    }
  }

  /** Any hub operation, or a running Send setting the status of any queue that was
      ever created, whether or not it is still in the map. */
  datatype Op =
    | OpAdd(master: Id, id: Id, lane: nat) | OpSetSort(master: Id, sort: seq<Id>)
    | OpRemove(master: Id) | OpTimeout(ids: set<Id>) | OpMark(done: bool)

  /** Close at most once: in every run no channel is closed twice, and a queue whose
      channel is still open is in the map. */
  method AnyRun(ops: seq<Op>) returns (hub: QueueHub)
    ensures hub.Valid() && forall q :: q in hub.all ==> q.closes <= 1
  {
    hub := new QueueHub();
    var k := 0;
    while k < |ops|
      invariant 0 <= k <= |ops| && hub.Valid() && fresh(hub) && fresh(hub.all)
    {
      AnyStep(hub, ops[k]);
      k := k + 1;
    }
  }

  method AnyStep(hub: QueueHub, op: Op)
    requires hub.Valid()
    modifies hub, hub.all
    ensures hub.Valid() && fresh(hub.all - old(hub.all))
  {
    hide hub.Valid, hub.Model, M.Apply, M.Launches;
    match op {
      case OpAdd(master, id, lane) =>
        hub.AtIsOwn(master);
        var w := new Writer(lane, 0);
        var _ := hub.Add(master, id, w);
      case OpSetSort(master, sort) =>
        hub.AtIsOwn(master);
        hub.SetSort(master, sort);
      case OpRemove(master) =>
        hub.AtIsOwn(master);
        hub.Remove(master);
      case OpTimeout(ids) => var _ := hub.TimeoutClose(ids);
      case OpMark(done) =>
        if hub.all != {} {
          var q :| q in hub.all;
          hub.Mark(q, if done then StaDone else StaSend);
        }
    }
  }
}
