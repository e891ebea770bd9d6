/** wss/conn_records.go: how many proxied connections are open, in total and for each
    target address. */
module ConnRecord {

  /** `uint` on a 64-bit platform, with its wrap-around. */
  const MOD := 0x1_0000_0000_0000_0000

  type uint = x: int | 0 <= x < MOD

  function Inc(x: uint): uint {
    if x + 1 < MOD then x + 1 else 0
  }

  function Dec(x: uint): uint {
    if x > 0 then x - 1 else MOD - 1
  }

  datatype Address = Address(text: string)

  /** The sum of all entries of a map. */
  ghost function Sum(m: map<Address, uint>): nat
    decreases |m|
  {
    if m == map[] then 0
    else
      var a :| a in m;
      assert |m - {a}| < |m| by { Smaller(m, a); }
      m[a] + Sum(m - {a})
  }

  lemma Smaller(m: map<Address, uint>, a: Address)
    requires a in m
    ensures |m - {a}| < |m|
  {
    assert m.Keys == (m - {a}).Keys + {a};
    assert |m.Keys| == |(m - {a}).Keys| + 1;
  }

  /** The map holds the multiplicities of the multiset, and no zero entry. */
  ghost predicate Matches(m: map<Address, uint>, ms: multiset<Address>) {
    && (forall a :: a in m <==> a in ms)
    && (forall a :: a in m ==> m[a] == ms[a])
  }

  lemma CountedIff(m: map<Address, uint>, ms: multiset<Address>, a: Address)
    requires Matches(m, ms)
    ensures a in m <==> a in ms
    ensures a in m ==> m[a] > 0
  {
  }

  lemma CountUp(m: map<Address, uint>, ms: multiset<Address>, a: Address)
    requires Matches(m, ms) && |ms| + 1 < MOD
    ensures Matches(m[a := if a in m then Inc(m[a]) else 1], ms + multiset{a})
  {
    assert |ms| == ms[a] + |ms[a := 0]|;
    assert a in m ==> m[a] + 1 < MOD;
  }

  lemma CountDown(m: map<Address, uint>, ms: multiset<Address>, a: Address)
    requires Matches(m, ms) && a in m
    ensures m[a] > 0 && |ms - multiset{a}| == |ms| - 1
    ensures Matches(if Dec(m[a]) == 0 then m - {a} else m[a := Dec(m[a])], ms - multiset{a})
  {
    assert ms - multiset{a} == ms[a := ms[a] - 1];
  }

  /** A map of multiplicities sums to the size of the multiset. */
  lemma {:induction false} SumOfCounts(m: map<Address, uint>, ms: multiset<Address>)
    requires Matches(m, ms)
    ensures Sum(m) == |ms|
    decreases |m|
  {
    if m == map[] {
      assert ms == multiset{};
    } else {
      var a :| a in m && Sum(m) == m[a] + Sum(m - {a});
      Smaller(m, a);
      SumOfCounts(m - {a}, ms[a := 0]);
    }
  }

  class ConnRecord {
    var size: uint
    var addresses: map<Address, uint>
    /** The sizes of the two client hubs at the last update. */
    var queueHubLen: nat
    var linkHubLen: nat
    /** Whether OnChange is set, and what it was told. */
    var listening: bool
    var told: seq<(Address, bool)>
    /** The connections that are open, by address. */
    ghost var open: multiset<Address>

    constructor ()
      ensures Valid() && open == multiset{} && !listening && told == []
    {
      size, addresses, open := 0, map[], multiset{};
      queueHubLen, linkHubLen, listening, told := 0, 0, false, [];
    }

    ghost predicate Valid()
      reads this`size, this`open, this`addresses
    {
      size == |open| && Matches(addresses, open)
    }

    /** The counters are exact: the total is the sum of the entries, and an entry is
        there only while a connection to that address is open. */
    lemma Exact()
      requires Valid()
      ensures size == Sum(addresses) == |open|
      ensures forall a :: a in addresses ==> addresses[a] > 0
    {
      SumOfCounts(addresses, open);
    }

    method CountNew(addr: Address)
      requires Valid()
      modifies this`size, this`addresses, this`open
      ensures open == old(open) + multiset{addr} && (|open| < MOD ==> Valid())
    {
      hide Matches;
      if |open| + 1 < MOD { CountUp(addresses, open, addr); }
      size := Inc(size);
      addresses := addresses[addr := if addr in addresses then Inc(addresses[addr]) else 1];
      open := open + multiset{addr};
    }

    method CountClosed(addr: Address) returns (fatal: bool)
      requires Valid()
      modifies this`size, this`addresses, this`open
      ensures fatal <==> addr !in old(open)
      ensures fatal ==> open == old(open) && size == Dec(old(size)) && addresses == old(addresses)
      ensures !fatal ==> open == old(open) - multiset{addr} && Valid()
    {
      hide Matches;
      CountedIff(addresses, open, addr);
      fatal := false;
      size := Dec(size);
      if addr in addresses && addresses[addr] > 0 {
        CountDown(addresses, open, addr);
        if Dec(addresses[addr]) == 0 {
          addresses := addresses - {addr};
        } else {
          addresses := addresses[addr := Dec(addresses[addr])];
        }
        open := open - multiset{addr};
      } else {
        fatal := true;
      }
    }

    /** Update: the fatal branch is taken exactly when a connection is reported closed
        and none to that address is open. Unless 2^64 connections are open at once,
        the counters stay exact. */
    method Update(addr: Address, isNew: bool, queues: nat, links: nat) returns (fatal: bool)
      requires Valid()
      modifies this
      ensures fatal <==> !isNew && addr !in old(open)
      ensures open == if fatal then old(open) else if isNew then old(open) + multiset{addr} else old(open) - multiset{addr}
      ensures !fatal && |open| < MOD ==> Valid()
      ensures fatal ==> size == Dec(old(size)) && addresses == old(addresses) && told == old(told)
      ensures !fatal ==> queueHubLen == queues && linkHubLen == links
      ensures !fatal ==> told == old(told) + if old(listening) then [(addr, isNew)] else []
      ensures listening == old(listening)
    {
      hide Valid;
      fatal := false;
      if isNew {
        CountNew(addr);
      } else {
        fatal := CountClosed(addr);
        if fatal { return; }
      }
      queueHubLen, linkHubLen := queues, links;
      if listening {
        told := told + [(addr, isNew)];
      }
    }
  }

  /** A connection, with its address, is opened or ends. */
  datatype Event = Opened(conn: nat, addr: Address) | Ended(conn: nat, addr: Address)

  /** The connections open after the first k events. */
  function Live(evs: seq<Event>, k: nat): map<nat, Address>
    requires k <= |evs|
  {
    if k == 0 then map[] else After(Live(evs, k - 1), evs[k - 1])
  }

  function After(live: map<nat, Address>, e: Event): map<nat, Address> {
    if e.Opened? then live[e.conn := e.addr] else live - {e.conn}
  }

  /** Connections are distinct, and each ends at most once, after it was opened. */
  ghost predicate Sane(evs: seq<Event>) {
    forall k :: 0 <= k < |evs| ==> May(Live(evs, k), evs[k])
  }

  predicate May(live: map<nat, Address>, e: Event) {
    if e.Opened? then e.conn !in live else e.conn in live && live[e.conn] == e.addr
  }

  function At(live: map<nat, Address>, a: Address): set<nat> {
    set c | c in live && live[c] == a
  }

  /** `open` holds each address as often as there are live connections to it. */
  ghost predicate Counts(live: map<nat, Address>, open: multiset<Address>) {
    |open| == |live| && forall a :: open[a] == |At(live, a)|
  }

  lemma CountsOpened(live: map<nat, Address>, open: multiset<Address>, c: nat, addr: Address)
    requires Counts(live, open) && c !in live
    ensures Counts(live[c := addr], open + multiset{addr})
  {
    var live' := live[c := addr];
    assert live'.Keys == live.Keys + {c};
    assert |live'| == |live'.Keys| == |live.Keys| + 1;
    forall a ensures (open + multiset{addr})[a] == |At(live', a)| {
      AtOpened(live, c, addr, a);
    }
  }

  lemma AtOpened(live: map<nat, Address>, c: nat, addr: Address, a: Address)
    requires c !in live
    ensures |At(live[c := addr], a)| == |At(live, a)| + if a == addr then 1 else 0
  {
    assert At(live[c := addr], a) == if a == addr then At(live, a) + {c} else At(live, a);
  }

  lemma CountsEnded(live: map<nat, Address>, open: multiset<Address>, c: nat)
    requires Counts(live, open) && c in live
    ensures live[c] in open && Counts(live - {c}, open - multiset{live[c]})
  {
    var live', addr := live - {c}, live[c];
    assert c in At(live, addr);
    assert live.Keys == live'.Keys + {c};
    assert |live'| == |live'.Keys| && |live| == |live.Keys| == |live'.Keys| + 1;
    forall a ensures (open - multiset{addr})[a] == |At(live', a)| {
      assert live'[c := addr] == live;
      AtOpened(live', c, addr, a);
    }
  }

  method Feed(r: ConnRecord, ghost live: map<nat, Address>, e: Event, lens: (nat, nat)) returns (fatal: bool)
    requires r.Valid() && Counts(live, r.open) && May(live, e) && |After(live, e)| < MOD
    modifies r
    ensures !fatal && r.Valid() && Counts(After(live, e), r.open)
  {
    if e.Opened? {
      CountsOpened(live, r.open, e.conn, e.addr);
    } else {
      CountsEnded(live, r.open, e.conn);
    }
    hide Matches;
    fatal := r.Update(e.addr, e.Opened?, lens.0, lens.1);
  }

  /** Over every sane run with fewer than 2^64 connections open at a time the fatal
      branch is never reached, and in the end the total is the number of live
      connections, the sum of the entries, and each entry counts its own address. */
  method Replay(evs: seq<Event>, lens: seq<(nat, nat)>) returns (r: ConnRecord, fatal: bool)
    requires Sane(evs) && |lens| == |evs| && forall k :: 0 <= k <= |evs| ==> |Live(evs, k)| < MOD
    ensures !fatal && r.Valid() && Counts(Live(evs, |evs|), r.open)
    ensures r.size == Sum(r.addresses) == |Live(evs, |evs|)|
    ensures forall a :: a in r.addresses <==> a in Live(evs, |evs|).Values
    ensures forall a :: a in r.addresses ==> r.addresses[a] == |At(Live(evs, |evs|), a)| > 0
  {
    hide Sum, Matches, After, May;
    r := new ConnRecord();
    assert forall a :: At(map[], a) == {};
    var k := 0;
    fatal := false;
    while k < |evs|
      invariant 0 <= k <= |evs| && fresh(r) && r.Valid() && !fatal && Counts(Live(evs, k), r.open)
    {
      hide Counts, r.Valid;
      assert Live(evs, k + 1) == After(Live(evs, k), evs[k]);
      fatal := Feed(r, Live(evs, k), evs[k], lens[k]);
      k := k + 1;
    }
    r.Exact();
    CountsMeans(Live(evs, |evs|), r.addresses, r.open);
  }

  lemma CountsMeans(live: map<nat, Address>, m: map<Address, uint>, open: multiset<Address>)
    requires Counts(live, open) && Matches(m, open)
    ensures forall a :: a in m <==> a in live.Values
    ensures forall a :: a in m ==> m[a] == |At(live, a)| > 0
  {
    forall a ensures a in open <==> a in live.Values {
      if a in live.Values {
        var c :| c in live && live[c] == a;
        assert c in At(live, a);
      } else {
        assert At(live, a) == {};
      }
    }
  }
}
