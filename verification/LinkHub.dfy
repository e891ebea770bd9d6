/** pipe/link.go as classes: link objects on the heap, the hub's map of them, and
    the merging loop. */
module LinkHub {
  import opened Data
  import opened RoundRobin
  import opened Counting
  import M = LinkHubModel

  /** The bytes of a chunk that go out in a write that fails after `spill` bytes. */
  function Part(c: Chunk, spill: nat): seq<byte> {
    if c.eof then [] else if spill < |c.data| then c.data[..spill] else c.data
  }

  /** The destination: what it was given, whether its write half is closed, how many
      more writes succeed, and how many bytes a failing write still puts out. */
  class Conn {
    const spill: nat
    var out: seq<byte>
    var shut: bool
    var credit: nat

    constructor (writes: nat, part: nat)
      ensures out == [] && !shut && credit == writes && spill == part
    {
      spill, out, shut, credit := part, [], false, writes;
    }

    /** safeWrite on a connection that is set. */
    method Write(c: Chunk) returns (ok: bool)
      modifies this
      ensures ok == (old(credit) > 0) && credit == old(credit) - (if ok then 1 else 0)
      ensures out == if !ok then old(out) + Part(c, spill) else if c.eof then old(out) else old(out) + c.data
      ensures shut == (old(shut) || (ok && c.eof))
    {
      ok := credit > 0;
      if ok {
        credit := credit - 1;
        if c.eof { shut := true; } else { out := out + c.data; }
      } else {
        out := out + Part(c, spill);
      }
    }
  }

  /** hub.Get and a receive: no such link, nothing to receive yet, or a chunk. */
  datatype Took = Absent | Empty | Got(chunk: Chunk)

  /** How link.Send leaves: turned away by the guard, closed at the start of a
      round, the end mark was passed on, the next link is missing or has nothing
      to receive, or the connection failed. */
  datatype Ending = TurnedAway | Closed | Finished | Missing | Starved | Failed

  /** The links after `taken` went out in the cyclic order: every lane gave exactly
      its share from the front of its buffer, no other link gave anything. */
  ghost predicate Merged(m0: M.Links<Chunk>, m: M.Links<Chunk>, order: seq<Id>, taken: seq<Chunk>)
    requires order != []
  {
    && m.Keys == m0.Keys
    && (forall id :: id in m ==> SameButBuffer(m0[id], m[id]))
    && (forall id :: id in m && id !in order ==> m[id].buffer == m0[id].buffer)
    && (forall i :: 0 <= i < |order| ==>
      M.Waiting(m0, order[i]) == Stripe(taken, 0, i, |order|) + M.Waiting(m, order[i]))
  }

  predicate SameButBuffer(a: M.Link<Chunk>, b: M.Link<Chunk>) {
    a.(buffer := b.buffer, status := b.status) == b
  }

  lemma MergedStart(m: M.Links<Chunk>, order: seq<Id>)
    requires order != []
    ensures Merged(m, m, order, [])
  {
  }

  /** One more receive from the lane under the cursor. */
  lemma MergedStep(m0: M.Links<Chunk>, m: M.Links<Chunk>, order: seq<Id>, taken: seq<Chunk>, j: nat)
    requires order != [] && Distinct(order) && Merged(m0, m, order, taken)
    requires j == Lane(|taken|, |order|) && order[j] in m && m[order[j]].buffer != []
    ensures Merged(m0, M.PopLink(m, order[j]), order, taken + [m[order[j]].buffer[0]])
  {
    var n, x, m' := |order|, m[order[j]].buffer[0], M.PopLink(m, order[j]);
    forall i | 0 <= i < n
      ensures M.Waiting(m0, order[i]) == Stripe(taken + [x], 0, i, n) + M.Waiting(m', order[i])
    {
      assert i != j ==> order[i] != order[j];
      LaneGives(M.Waiting(m0, order[i]), M.Waiting(m, order[i]), taken, x, i, n);
    }
  }

  lemma LaneGives(before: seq<Chunk>, after: seq<Chunk>, taken: seq<Chunk>, x: Chunk, i: nat, n: nat)
    requires n >= 1 && before == Stripe(taken, 0, i, n) + after
    requires Lane(|taken|, n) == i ==> after != [] && after[0] == x
    ensures before == Stripe(taken + [x], 0, i, n) + if Lane(|taken|, n) == i then after[1..] else after
  {
    StripeAppend(taken, x, 0, i, n);
    hide Lane, Stripe;
    if Lane(|taken|, n) == i {
      assert after == [x] + after[1..];
      Assoc(Stripe(taken, 0, i, n), [x], after[1..]);
    } else {
      assert Stripe(taken, 0, i, n) + [] == Stripe(taken, 0, i, n);
    }
  }

  lemma FirstLane(m: M.Links<Chunk>, order: seq<Id>, j: nat)
    requires Distinct(order) && j < |order| && order[j] in m && m[order[j]].buffer != []
    ensures var m' := M.PopLink(m, order[j]);
      |M.Waiting(m', order[0])| == |M.Waiting(m, order[0])| - if j == 0 then 1 else 0
  {
  }

  /** Statuses set before and after the loop do not matter to what was merged. */
  lemma MergedStatus(m0: M.Links<Chunk>, m1: M.Links<Chunk>, m2: M.Links<Chunk>, m3: M.Links<Chunk>,
                     order: seq<Id>, taken: seq<Chunk>)
    requires order != [] && Merged(m1, m2, order, taken)
    requires SameButStatus(m0, m1) && SameButStatus(m2, m3)
    ensures Merged(m0, m3, order, taken)
  {
    hide Stripe;
  }

  ghost predicate SameButStatus(a: M.Links<Chunk>, b: M.Links<Chunk>) {
    a.Keys == b.Keys && forall id :: id in a ==> a[id].(status := b[id].status) == b[id]
  }

  /** A connection that was given `before` has since been given these data chunks. */
  ghost predicate Wrote(before: seq<byte>, out: seq<byte>, sent: seq<Chunk>) {
    out == before + Bytes(sent) && forall x <- sent :: !x.eof
  }

  /** As Wrote, but the last write failed and put out a part of its chunk. */
  ghost predicate Gave(before: seq<byte>, out: seq<byte>, sent: seq<Chunk>, r: Ending, last: Option<Chunk>, spill: nat) {
    if r.Failed? then last.Some? && out == before + Bytes(sent) + Part(last.value, spill) && forall x <- sent :: !x.eof
    else Wrote(before, out, sent)
  }

  /** Every chunk written, and a half-close, used up one successful write; the loop gives
      up on the connection only when no write succeeds any more. */
  predicate Paid(before: nat, credit: nat, sent: seq<Chunk>, r: Ending) {
    && before == credit + |sent| + (if r.Finished? then 1 else 0)
    && (r.Failed? ==> credit == 0)
  }

  lemma GaveWhole(before: seq<byte>, out: seq<byte>, sent: seq<Chunk>, r: Ending, last: Option<Chunk>, spill: nat)
    requires Wrote(before, out, sent) && !r.Failed?
    ensures Gave(before, out, sent, r, last, spill)
  {
  }

  lemma GavePart(before: seq<byte>, out: seq<byte>, sent: seq<Chunk>, x: Chunk, spill: nat)
    requires Wrote(before, out, sent)
    ensures Gave(before, out + Part(x, spill), sent, Failed, Some(x), spill)
  {
  }

  lemma WroteMore(before: seq<byte>, out: seq<byte>, sent: seq<Chunk>, x: Chunk)
    requires Wrote(before, out, sent) && !x.eof
    ensures Wrote(before, out + x.data, sent + [x])
  {
    BytesAppend(sent, x);
    Assoc(before, Bytes(sent), x.data);
  }

  /** Why the loop stopped, after k chunks were written. */
  ghost predicate Leaves(r: Ending, last: Option<Chunk>, m: M.Links<Chunk>, order: seq<Id>, k: nat)
    requires order != []
  {
    var id := order[Lane(k, |order|)];
    match r
    case TurnedAway => false
    case Closed => last.None?
    case Finished => last.Some? && last.value.eof
    case Missing => last.None? && id !in m
    case Starved => last.None? && id in m && m[id].buffer == []
    case Failed => last.Some?
  }

  function Buffers(m: M.Links<Chunk>, order: seq<Id>): (r: seq<seq<Chunk>>)
    ensures |r| == |order| && forall i :: 0 <= i < |r| ==> r[i] == M.Waiting(m, order[i])
  {
    seq(|order|, i requires 0 <= i < |order| => M.Waiting(m, order[i]))
  }

  /** What went out, followed by the round-robin merge of what is left, is the
      round-robin merge of what there was. */
  lemma MergedIsInterleave(m0: M.Links<Chunk>, m: M.Links<Chunk>, order: seq<Id>, taken: seq<Chunk>)
    requires order != [] && Merged(m0, m, order, taken)
    ensures Interleave(Buffers(m0, order), Lane(0, |order|))
         == taken + Interleave(Buffers(m, order), Lane(|taken|, |order|))
  {
    MergedLanes(m0, m, order, taken);
    InterleaveFromStart(Buffers(m0, order), taken, Buffers(m, order), |order|);
  }

  lemma MergedLanes(m0: M.Links<Chunk>, m: M.Links<Chunk>, order: seq<Id>, taken: seq<Chunk>)
    requires order != [] && Merged(m0, m, order, taken)
    ensures Splits(Buffers(m0, order), taken, Buffers(m, order), 0, |order|)
  {
    hide Stripe;
  }

  class Link {
    const master: Id
    var buffer: seq<Chunk>
    var open: bool
    var status: Status
    var sorted: seq<Id>
    var conn: Conn?
    var counter: nat
    /** The id the hub keeps this link under. */
    ghost const key: Id
    /** How often the channel has been closed; a second time would panic. */
    ghost var closes: nat

    constructor (id: Id, masterId: Id)
      ensures Value() == M.NewLink(masterId) && key == id && open && closes == 0
    {
      key := id;
      master, buffer, open, status, sorted, conn, counter, closes := masterId, [], true, StaWait, [], null, 0, 0;
    }

    function Value(): M.Link<Chunk>
      reads this
    {
      M.Link(master, buffer, sorted, conn != null, counter, status)
    }

    /** link.close; closing the channel itself requires that it is open. */
    method Close()
      requires status != StaClose ==> open
      modifies this
      ensures status == StaClose
      ensures open == (old(status) == StaClose && old(open))
      ensures closes == old(closes) + if old(status) == StaClose then 0 else 1
      ensures buffer == old(buffer) && sorted == old(sorted) && conn == old(conn) && counter == old(counter)
    {
      if status == StaClose { return; }
      status := StaClose;
      open := false;
      closes := closes + 1;
    }

    /** writeBuf: the channel has room for `cap` chunks. */
    method WriteBuf(b: Chunk, cap: nat) returns (r: Outcome)
      requires |buffer| <= cap
      modifies this`buffer
      ensures |buffer| <= cap
      ensures buffer == old(buffer) + if r.Queued? then [b] else []
      ensures r.Queued? <==> status != StaDone && open && |old(buffer)| < cap
      ensures r.Refused? <==> status == StaDone
      ensures r.Lost? <==> status != StaDone && !open
      ensures r.Blocked? <==> status != StaDone && open && |old(buffer)| == cap
    {
      if status == StaDone { return Refused; }
      if !open { return Lost; }
      if |buffer| == cap { return Blocked; }
      buffer := buffer + [b];
      r := Queued;
    }
  }

  /** From `before` to `after`, the map's entries for `ids` were closed, and no other link
      changed. */
  ghost predicate OnlyClosed(before: map<Link, M.Link<Chunk>>, after: map<Link, M.Link<Chunk>>,
                             entries: map<Id, Link>, ids: set<Id>) {
    && after.Keys == before.Keys
    && forall l :: l in before ==>
      after[l] == if l.key in ids && l.key in entries && entries[l.key] == l then before[l].(status := StaClose) else before[l]
  }

  lemma NoneClosed(a: map<Link, M.Link<Chunk>>, entries: map<Id, Link>)
    ensures OnlyClosed(a, a, entries, {})
  {
  }

  lemma OneMoreClosed(a: map<Link, M.Link<Chunk>>, b: map<Link, M.Link<Chunk>>, c: map<Link, M.Link<Chunk>>,
                      entries: map<Id, Link>, ids: set<Id>, id: Id)
    requires OnlyClosed(a, b, entries, ids) && OnlyClosed(b, c, entries - ids, {id})
    ensures OnlyClosed(a, c, entries, ids + {id})
  {
  }

  class LinkHub {
    var links: map<Id, Link>
    /** Every link this hub ever created, removed ones included. */
    var all: set<Link>

    constructor ()
      ensures Valid() && links == map[] && all == {}
    {
      links, all := map[], {};
    }

    /** The open links are exactly those in the map, and no link was closed twice. */
    ghost predicate Valid()
      reads this, all
    {
      && (forall id :: id in links ==>
        links[id] in all && links[id].key == id && links[id].open && links[id].status != StaClose)
      && (forall l :: l in all ==>
        && (l.open ==> l.key in links && links[l.key] == l)
        && l.closes == if l.open then 0 else 1)
    }

    ghost function Model(): M.Links<Chunk>
      reads this, set id | id in links :: links[id]
    {
      map id | id in links :: links[id].Value()
    }

    /** What every link ever created holds. */
    ghost function Values(): map<Link, M.Link<Chunk>>
      reads this`all, all
    {
      map l | l in all :: l.Value()
    }

    /** The object the map has for an id, if any. */
    ghost function At(id: Id): set<Link>
      reads this
    {
      if id in links then {links[id]} else {}
    }

    lemma AtIsOwn(id: Id)
      requires Valid()
      ensures At(id) <= all
    {
    }

    /** The link of an id, created when the map has none. */
    method Ensure(id: Id, master: Id) returns (l: Link)
      requires Valid()
      modifies this
      ensures Valid() && old(all) <= all && fresh(all - old(all))
      ensures links == old(links)[id := l] && (l in old(At(id)) || fresh(l))
      ensures Model() == old(Model())[id := M.Ensured(old(Model()), id, master)]
    {
      if id !in links {
        l := new Link(id, master);
        links, all := links[id := l], all + {l};
      } else {
        l := links[id];
      }
    }

    /** One link's bookkeeping changes; the model changes at its id only. */
    twostate lemma OneChanged(id: Id)
      requires old(Valid()) && links == old(links) && all == old(all) && id in links
      requires forall l :: l in all && l != links[id] ==> unchanged(l)
      requires links[id].open && links[id].closes == old(links[id].closes) && links[id].status != StaClose
      ensures Valid() && Model() == old(Model())[id := links[id].Value()]
    {
    }

    /** m.counter++, then the launch rule of trySend(masterID, nil). */
    method CountLane(master: Id) returns (launched: bool)
      requires Valid() && master in links
      modifies At(master)
      ensures Valid()
      ensures links[master].conn == old(links[master].conn)
      ensures Model() == old(Model())[master := old(Model())[master].(counter := old(Model())[master].counter + 1)]
      ensures launched == M.Ready(Model(), master)
    {
      var m := links[master];
      m.counter := m.counter + 1;
      OneChanged(master);
      launched := m.conn != null && m.counter == |m.sorted|;
    }

    method Add(id: Id, master: Id) returns (launched: bool)
      requires Valid()
      modifies this, At(master)
      ensures Valid() && old(all) <= all && fresh(all - old(all))
      ensures Model() == M.AddLink(old(Model()), id, master)
      ensures launched == M.Ready(Model(), master)
    {
      hide Valid, Model;
      var m := Ensure(master, master);
      var l := Ensure(id, master);
      launched := CountLane(master);
    }

    method SortLanes(master: Id, sort: seq<Id>)
      requires Valid() && master in links
      modifies At(master)
      ensures Valid()
      ensures links[master].conn == old(links[master].conn)
      ensures Model() == old(Model())[master := old(Model())[master].(sorted := sort)]
    {
      links[master].sorted := sort;
      OneChanged(master);
    }

    method SetSort(master: Id, sort: seq<Id>)
      requires Valid()
      modifies this, At(master)
      ensures Valid() && old(all) <= all && fresh(all - old(all))
      ensures Model() == M.SortLink(old(Model()), master, sort)
    {
      hide Valid, Model;
      var m := Ensure(master, master);
      SortLanes(master, sort);
    }

    method TrySend(master: Id, c: Conn) returns (launched: bool)
      requires Valid()
      modifies At(master)
      ensures Valid()
      ensures Model() == M.ConnectLink(old(Model()), master)
      ensures launched == M.Ready(Model(), master)
      ensures master in links ==> links[master].conn == c
    {
      launched := false;
      if master in links {
        var m := links[master];
        m.conn := c;
        OneChanged(master);
        launched := m.counter == |m.sorted|;
      }
    }

    method Get(id: Id) returns (l: Link?)
      requires Valid()
      ensures l != null <==> id in links
      ensures l != null ==> l == links[id]
    {
      l := if id in links then links[id] else null;
    }

    method CloseOne(l: Link)
      requires Valid() && l.key in links && links[l.key] == l
      modifies l
      ensures l.status == StaClose && !l.open && l.closes == 1
      ensures OnlyClosed(old(Values()), Values(), links, {l.key})
    {
      l.Close();
    }

    method Drop(id: Id, l: Link)
      requires Valid() && id in links && links[id] == l
      modifies this`links, l
      ensures Valid() && links == old(links) - {id} && Model() == old(Model()) - {id}
      ensures l.status == StaClose && !l.open && OnlyClosed(old(Values()), Values(), old(links), {id})
    {
      hide OnlyClosed, Values, l.Value;
      CloseOne(l);
      links := links - {id};
    }

    /** Closes one link, so that a running Send sees it, and takes it out of the map, if
        the map has it. */
    method Retire(id: Id)
      requires Valid()
      modifies this`links, At(id)
      ensures Valid() && links == old(links) - {id}
      ensures Model() == old(Model()) - {id}
      ensures id in old(links) ==> old(links)[id].status == StaClose && !old(links)[id].open
      ensures OnlyClosed(old(Values()), Values(), old(links), {id})
    {
      if id in links {
        hide OnlyClosed, Values;
        Drop(id, links[id]);
      }
    }

    /** Retires those of the ids that the map has. */
    method RetireEach(tmp: seq<Id>)
      requires Valid()
      modifies this`links, all
      ensures Valid()
      ensures links == old(links) - Members(tmp)
      ensures Model() == old(Model()) - Members(tmp)
      ensures OnlyClosed(old(Values()), Values(), old(links), Members(tmp))
    {
      hide Valid, Model, OnlyClosed, Values;
      ghost var before := Values();
      NoneClosed(before, links);
      assert Members(tmp[..0]) == {};
      var k := 0;
      while k < |tmp|
        invariant 0 <= k <= |tmp| && Valid()
        invariant links == old(links) - Members(tmp[..k])
        invariant Model() == old(Model()) - Members(tmp[..k])
        invariant OnlyClosed(before, Values(), old(links), Members(tmp[..k]))
      {
        assert Members(tmp[..k + 1]) == Members(tmp[..k]) + {tmp[k]};
        ghost var now := Values();
        AtIsOwn(tmp[k]);
        Retire(tmp[k]);
        OneMoreClosed(before, now, Values(), old(links), Members(tmp[..k]), tmp[k]);
        k := k + 1;
      }
      assert tmp[..|tmp|] == tmp;
    }

    /** Retires those of the ids that the map has, sparing one. */
    method RetireLanes(order: seq<Id>, spared: Id)
      requires Valid()
      modifies this`links, all
      ensures Valid()
      ensures links == old(links) - (Members(order) - {spared})
      ensures Model() == old(Model()) - (Members(order) - {spared})
      ensures OnlyClosed(old(Values()), Values(), old(links), Members(order) - {spared})
    {
      hide Valid, Model, OnlyClosed, Values;
      ghost var before := Values();
      NoneClosed(before, links);
      assert Members(order[..0]) - {spared} == {};
      var k := 0;
      while k < |order|
        invariant 0 <= k <= |order| && Valid()
        invariant links == old(links) - (Members(order[..k]) - {spared})
        invariant Model() == old(Model()) - (Members(order[..k]) - {spared})
        invariant OnlyClosed(before, Values(), old(links), Members(order[..k]) - {spared})
      {
        ghost var ids := Members(order[..k]) - {spared};
        assert Members(order[..k + 1]) == Members(order[..k]) + {order[k]};
        if order[k] != spared {
          ghost var now := Values();
          AtIsOwn(order[k]);
          Retire(order[k]);
          OneMoreClosed(before, now, Values(), old(links), ids, order[k]);
          assert Members(order[..k + 1]) - {spared} == ids + {order[k]};
        } else {
          assert Members(order[..k + 1]) - {spared} == ids;
        }
        k := k + 1;
      }
      assert order[..|order|] == order;
    }

    /** The ids RemoveAll is about. */
    ghost function Group(master: Id): set<Id>
      reads this, At(master)
    {
      if master in links then Members(links[master].sorted) + {master} else {}
    }

    /** The whole group is closed and removed; every other link stays as it was. */
    method RemoveAll(master: Id)
      requires Valid()
      modifies this`links, all
      ensures Valid()
      ensures Model() == M.RemoveGroup(old(Model()), master)
      ensures forall id :: id in old(links) && id !in links ==> !old(links)[id].open && old(links)[id].status == StaClose
      ensures OnlyClosed(old(Values()), Values(), old(links), old(Group(master)))
    {
      ghost var entries := links;
      assert forall id :: id in entries ==> entries[id] in all && entries[id].key == id;
      hide Valid, Model, OnlyClosed, Values;
      NoneClosed(Values(), links);
      if master in links {
        MasterSorted(master);
        RetireGroup(master, links[master].sorted);
        ClosedOnes(old(Values()), entries, old(Group(master)));
      } else {
        NoMaster(master);
      }
    }

    lemma MasterSorted(master: Id)
      requires Valid() && master in links
      ensures master in Model() && Model()[master].sorted == links[master].sorted
    {
    }

    lemma NoMaster(master: Id)
      requires Valid() && master !in links
      ensures master !in Model()
    {
    }

    method RetireGroup(master: Id, order: seq<Id>)
      requires Valid() && master in links
      modifies this`links, all
      ensures Valid()
      ensures links == old(links) - (Members(order) + {master}) && Model() == old(Model()) - (Members(order) + {master})
      ensures OnlyClosed(old(Values()), Values(), old(links), Members(order) + {master})
    {
      hide Valid, Model, OnlyClosed, Values;
      ghost var before, lanes := Values(), Members(order) - {master};
      RetireLanes(order, master);
      ghost var now := Values();
      AtIsOwn(master);
      Retire(master);
      OneMoreClosed(before, now, Values(), old(links), lanes, master);
      assert lanes + {master} == Members(order) + {master};
    }

    /** What left the map in this way is closed. */
    lemma ClosedOnes(before: map<Link, M.Link<Chunk>>, entries: map<Id, Link>, ids: set<Id>)
      requires Valid() && links == entries - ids && OnlyClosed(before, Values(), entries, ids)
      requires forall id :: id in entries ==> entries[id] in all && entries[id].key == id
      ensures forall id :: id in entries && id !in links ==> !entries[id].open && entries[id].status == StaClose
    {
      forall id | id in entries && id !in links ensures !entries[id].open && entries[id].status == StaClose {
        assert Values()[entries[id]].status == StaClose;
      }
    }

    /** TimeoutClose: the expired links it found are closed and removed, nothing else. */
    method TimeoutClose(expired: set<Id>) returns (gone: seq<Id>)
      requires Valid()
      modifies this`links, all
      ensures Valid()
      ensures links == old(links) - Members(gone) && Model() == old(Model()) - Members(gone)
      ensures Members(gone) <= old(links).Keys * expired
      ensures |gone| < 101 ==> Members(gone) == old(links).Keys * expired
      ensures OnlyClosed(old(Values()), Values(), old(links), Members(gone))
    {
      hide Valid, Model, OnlyClosed, Values;
      gone := Expired(links.Keys, expired);
      RetireEach(gone);
    }

    /** An assignment to q.status by a running Send; the object may have left the
        map, and then the map does not see it. */
    method Mark(l: Link, status: Status)
      requires Valid() && l in all && status != StaClose
      modifies l`status
      ensures Valid() && l.status == status
      ensures SameButStatus(old(Model()), Model())
    {
      l.status := status;
    }

    /** hub.Get(id) and a receive from the link's channel. */
    method Take(id: Id) returns (r: Took)
      requires Valid()
      modifies all`buffer
      ensures Valid()
      ensures r.Absent? <==> id !in Model()
      ensures r.Empty? ==> M.Waiting(Model(), id) == []
      ensures r.Got? ==> id in old(Model()) && old(Model())[id].buffer != [] && r.chunk == old(Model())[id].buffer[0]
      ensures Model() == if r.Got? then M.PopLink(old(Model()), id) else old(Model())
    {
      var s := Get(id);
      if s == null { return Absent; }
      if s.buffer == [] { return Empty; }
      r := Got(s.buffer[0]);
      s.buffer := s.buffer[1..];
      OneChanged(id);
    }

    /** One turn: a receive from the link under the cursor and a write. It either
        sends one more chunk or gives the reason to leave the loop. */
    method Turn(order: seq<Id>, j: nat, c: Conn, before: seq<Chunk>, ghost m0: M.Links<Chunk>, ghost out0: seq<byte>)
      returns (r: Option<Ending>, sent: seq<Chunk>, last: Option<Chunk>)
      requires Valid() && order != [] && Distinct(order) && j == Lane(|before|, |order|)
      requires Merged(m0, Model(), order, before) && Wrote(out0, c.out, before)
      modifies all`buffer, c
      ensures Valid()
      ensures Merged(m0, Model(), order, Taken(sent, last))
      ensures if r.None? then Wrote(out0, c.out, sent) else Gave(out0, c.out, sent, r.value, last, c.spill)
      ensures Paid(old(c.credit) + |before|, c.credit, sent, if r.None? then Closed else r.value)
      ensures c.shut == (old(c.shut) || r == Some(Finished)) && r != Some(Closed)
      ensures r.None? ==> last.None? && |sent| == |before| + 1
      ensures r.None? ==> |M.Waiting(Model(), order[0])| == |M.Waiting(old(Model()), order[0])| - if j == 0 then 1 else 0
      ensures r.Some? ==> sent == before && Leaves(r.value, last, Model(), order, |sent|)
    {
      hide Valid, Model, Merged, Lane, Wrote, Gave, M.PopLink, Distinct, Part;
      ghost var m, out := Model(), c.out;
      sent, last := before, None;
      var t := Take(order[j]);
      match t {
        case Absent =>
          r := Some(Missing);
          GaveWhole(out0, out, before, Missing, None, c.spill);
        case Empty =>
          r := Some(Starved);
          GaveWhole(out0, out, before, Starved, None, c.spill);
        case Got(x) =>
          MergedStep(m0, m, order, before, j);
          var ok := c.Write(x);
          if ok && !x.eof {
            FirstLane(m, order, j);
            WroteMore(out0, out, before, x);
            r, sent := None, before + [x];
          } else if ok {
            r, last := Some(Finished), Some(x);
            GaveWhole(out0, out, before, Finished, last, c.spill);
          } else {
            r, last := Some(Failed), Some(x);
            GavePart(out0, out, before, x, c.spill);
          }
      }
    }

    /** The inner loop: one pass over the order, from a cursor at its start. */
    method Round(order: seq<Id>, c: Conn, before: seq<Chunk>, ghost m0: M.Links<Chunk>, ghost out0: seq<byte>)
      returns (r: Option<Ending>, sent: seq<Chunk>, last: Option<Chunk>)
      requires Valid() && order != [] && Distinct(order) && Lane(|before|, |order|) == 0
      requires Merged(m0, Model(), order, before) && Wrote(out0, c.out, before)
      modifies all`buffer, c
      ensures Valid()
      ensures Merged(m0, Model(), order, Taken(sent, last))
      ensures if r.None? then Wrote(out0, c.out, sent) else Gave(out0, c.out, sent, r.value, last, c.spill)
      ensures Paid(old(c.credit) + |before|, c.credit, sent, if r.None? then Closed else r.value)
      ensures c.shut == (old(c.shut) || r == Some(Finished)) && r != Some(Closed)
      ensures r.None? ==> last.None? && Lane(|sent|, |order|) == 0
      ensures r.None? ==> |M.Waiting(Model(), order[0])| == |M.Waiting(old(Model()), order[0])| - 1
      ensures r.Some? ==> Leaves(r.value, last, Model(), order, |sent|)
    {
      hide Valid, Model, Merged, Lane, Wrote, Gave, Distinct, Leaves, M.Waiting;
      r, sent, last := None, before, None;
      var j := 0;
      while j < |order|
        invariant 0 <= j <= |order| && Valid()
        invariant Merged(m0, Model(), order, sent) && Wrote(out0, c.out, sent)
        invariant r.None? && last.None? && c.shut == old(c.shut) && old(c.credit) + |before| == c.credit + |sent|
        invariant Lane(|sent|, |order|) == if j < |order| then j else 0
        invariant |M.Waiting(Model(), order[0])| == |M.Waiting(old(Model()), order[0])| - if j == 0 then 0 else 1
      {
        LaneSteps(|sent|, |order|);
        r, sent, last := Turn(order, j, c, sent, m0, out0);
        if r.Some? { return; }
        j := j + 1;
      }
    }

    /** The loop of link.Send: `sent` are the chunks written, `last` the chunk that
        ended the loop. The bytes written are those of `sent`, the links gave up
        `sent` and `last` in the cyclic order, and the reason for leaving is true. */
    method Merge(l: Link, c: Conn) returns (r: Ending, sent: seq<Chunk>, last: Option<Chunk>)
      requires Valid() && l in all && l.sorted != [] && Distinct(l.sorted)
      modifies all`buffer, c
      ensures Valid()
      ensures Merged(old(Model()), Model(), l.sorted, Taken(sent, last)) && Gave(old(c.out), c.out, sent, r, last, c.spill)
      ensures c.shut == (old(c.shut) || r.Finished?) && Paid(old(c.credit), c.credit, sent, r)
      ensures Leaves(r, last, Model(), l.sorted, |sent|) && (r.Closed? ==> l.status == StaClose)
    {
      ghost var m0, out0 := Model(), c.out;
      var order, e := l.sorted, None;
      sent, last := [], None;
      MergedStart(m0, order);
      assert Wrote(out0, c.out, []) && Lane(0, |order|) == 0;
      hide Valid, Model, Merged, Lane, Wrote, Gave, Distinct, M.Waiting;
      while l.status != StaClose
        invariant Valid()
        invariant Merged(m0, Model(), order, sent) && Wrote(out0, c.out, sent)
        invariant last.None? && c.shut == old(c.shut) && Lane(|sent|, |order|) == 0
        invariant old(c.credit) == c.credit + |sent|
        decreases |M.Waiting(Model(), order[0])|
      {
        e, sent, last := Round(order, c, sent, m0, out0);
        if e.Some? { return e.value, sent, last; }
      }
      GaveWhole(out0, c.out, sent, Closed, last, c.spill);
      r := Closed;
    }

    /** link.Send: the guard, the loop, and the deferred end. */
    method Send(l: Link) returns (r: Ending, sent: seq<Chunk>, last: Option<Chunk>)
      requires Valid() && l in all && l.conn != null && l.sorted != [] && Distinct(l.sorted)
      modifies all`buffer, l`status, l.conn
      ensures Valid()
      ensures r.TurnedAway? <==> old(l.status) == StaSend || old(l.status) == StaDone
      ensures r.TurnedAway? ==> Model() == old(Model()) && l.conn.out == old(l.conn.out) && l.conn.shut == old(l.conn.shut)
      ensures !r.TurnedAway? ==> l.status == StaDone && !r.Closed?
      ensures !r.TurnedAway? ==> Merged(old(Model()), Model(), l.sorted, Taken(sent, last))
      ensures !r.TurnedAway? ==> Gave(old(l.conn.out), l.conn.out, sent, r, last, l.conn.spill) && Leaves(r, last, Model(), l.sorted, |sent|)
      ensures !r.TurnedAway? ==> l.conn.shut == (old(l.conn.shut) || r.Finished?) && Paid(old(l.conn.credit), l.conn.credit, sent, r)
    {
      sent, last := [], None;
      if l.status == StaSend || l.status == StaDone { return TurnedAway, sent, last; }
      var c := l.conn;
      hide Valid, Model, Merged, Wrote, Gave, Lane, Leaves, SameButStatus, Distinct;
      ghost var m0 := Model();
      Mark(l, StaSend);
      ghost var m1 := Model();
      r, sent, last := Merge(l, c);
      ghost var m2 := Model();
      Mark(l, StaDone);
      MergedStatus(m0, m1, m2, Model(), l.sorted, Taken(sent, last));
    }
  }

  /** Any hub operation, or a running Send setting the status of any link that was
      ever created, whether or not it is still in the map. */
  datatype Op =
    | OpAdd(id: Id, master: Id) | OpSetSort(master: Id, sort: seq<Id>) | OpTrySend(master: Id)
    | OpRemoveAll(master: Id) | OpTimeout(ids: set<Id>) | OpMark(done: bool)

  /** Close at most once: in every run no channel is closed twice, and a link whose
      channel is still open is in the map. */
  method AnyRun(ops: seq<Op>) returns (hub: LinkHub)
    ensures hub.Valid() && forall l :: l in hub.all ==> l.closes <= 1
  {
    hub := new LinkHub();
    var k := 0;
    while k < |ops|
      invariant 0 <= k <= |ops| && hub.Valid() && fresh(hub) && fresh(hub.all)
    {
      AnyStep(hub, ops[k]);
      k := k + 1;
    }
  }

  method AnyStep(hub: LinkHub, op: Op)
    requires hub.Valid()
    modifies hub, hub.all
    ensures hub.Valid() && fresh(hub.all - old(hub.all))
  {
    hide hub.Valid, hub.Model, M.AddLink, M.SortLink, M.ConnectLink, M.RemoveGroup;
    match op {
      case OpAdd(id, master) =>
        hub.AtIsOwn(master);
        var _ := hub.Add(id, master);
      case OpSetSort(master, sort) =>
        hub.AtIsOwn(master);
        hub.SetSort(master, sort);
      case OpTrySend(master) =>
        hub.AtIsOwn(master);
        var c := new Conn(0, 0);
        var _ := hub.TrySend(master, c);
      case OpRemoveAll(master) => hub.RemoveAll(master);
      case OpTimeout(ids) => var _ := hub.TimeoutClose(ids);
      case OpMark(done) =>
        if hub.all != {} {
          var l :| l in hub.all;
          hub.Mark(l, if done then StaDone else StaSend);
        }
    }
  }
}
