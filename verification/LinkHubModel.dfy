/** pipe/link.go on values: a link, the hub's map of links, and the rule that
    launches `Send`. The class in LinkHub.dfy is proved against these functions.
    The element type of a buffer is a parameter. */
module LinkHubModel {
  import opened Data
  import opened Counting

  datatype Link<T> = Link(master: Id, buffer: seq<T>, sorted: seq<Id>, conn: bool, counter: nat, status: Status)

  type Links<T> = map<Id, Link<T>>

  function NewLink<T>(master: Id): Link<T> {
    Link(master, [], [], false, 0, StaWait)
  }

  /** The link of an id, or a new one when the hub has none. */
  function Ensured<T>(m: Links<T>, id: Id, master: Id): Link<T> {
    if id in m then m[id] else NewLink(master)
  }

  /** LinkHub.Add: master entry first (it counts), then the id's own entry. */
  function AddLink<T>(m: Links<T>, id: Id, master: Id): Links<T> {
    var m1 := m[master := Ensured(m, master, master)];
    var m2 := m1[id := Ensured(m1, id, master)];
    m2[master := m2[master].(counter := m2[master].counter + 1)]
  }

  function SortLink<T>(m: Links<T>, master: Id, sorted: seq<Id>): Links<T> {
    m[master := Ensured(m, master, master).(sorted := sorted)]
  }

  /** The connection handed to trySend is kept only when the master exists. */
  function ConnectLink<T>(m: Links<T>, master: Id): Links<T> {
    if master in m then m[master := m[master].(conn := true)] else m
  }

  /** LinkHub.RemoveAll: the whole group leaves the map in one step. */
  function RemoveGroup<T>(m: Links<T>, master: Id): Links<T> {
    if master in m then m - (Members(m[master].sorted) + {master}) else m
  }

  /** The launch rule of trySend. */
  predicate Ready<T>(m: Links<T>, master: Id) {
    master in m && m[master].conn && m[master].counter == |m[master].sorted|
  }

  function SetStatus<T>(m: Links<T>, id: Id, status: Status): Links<T> {
    if id in m then m[id := m[id].(status := status)] else m
  }

  function PushLink<T>(m: Links<T>, id: Id, x: T): Links<T>
    requires id in m
  {
    m[id := m[id].(buffer := m[id].buffer + [x])]
  }

  function PopLink<T>(m: Links<T>, id: Id): Links<T>
    requires id in m && m[id].buffer != []
  {
    m[id := m[id].(buffer := m[id].buffer[1..])]
  }

  function Waiting<T>(m: Links<T>, id: Id): seq<T> {
    if id in m then m[id].buffer else []
  }

  /** When the master's order lists exactly its group, RemoveAll takes out every
      link of the group and leaves every other link as it was. */
  lemma GroupRemoval<T>(m: Links<T>, master: Id)
    requires master in m && m[master].master == master
    requires forall id :: id in m ==> (m[id].master == master <==> id in m[master].sorted)
    ensures forall id :: id in RemoveGroup(m, master) <==> id in m && m[id].master != master
    ensures forall id :: id in RemoveGroup(m, master) ==> RemoveGroup(m, master)[id] == m[id]
  {
    assert master in m[master].sorted;
    assert forall id :: id in Members(m[master].sorted) <==> id in m[master].sorted;
  }

  datatype Event =
    | Add(master: Id, id: Id)
    | SetSort(master: Id, sorted: seq<Id>)
    | TrySend(master: Id)

  function Apply<T>(m: Links<T>, e: Event): Links<T> {
    match e
    case Add(master, id) => AddLink(m, id, master)
    case SetSort(master, sorted) => SortLink(m, master, sorted)
    case TrySend(master) => ConnectLink(m, master)
  }

  predicate Launches<T>(m: Links<T>, e: Event) {
    (e.Add? || e.TrySend?) && Ready(Apply(m, e), e.master)
  }

  function Run<T>(m: Links<T>, evs: seq<Event>, k: nat): Links<T>
    requires k <= |evs|
  {
    if k == 0 then m else Apply(Run(m, evs, k - 1), evs[k - 1])
  }

  /** How often the first k events start `Send` for this master. */
  function Fired<T>(m: Links<T>, evs: seq<Event>, k: nat, master: Id): nat
    requires k <= |evs|
  {
    if k == 0 then 0
    else
      var fires := evs[k - 1].master == master && Launches(Run(m, evs, k - 1), evs[k - 1]);
      Fired(m, evs, k - 1, master) + if fires then 1 else 0
  }

  predicate AddsTo(e: Event, master: Id) {
    e.Add? && e.master == master
  }

  /** The id each event adds to the group, if it adds one. */
  function Adds(evs: seq<Event>, master: Id): (r: seq<Option<Id>>)
    ensures |r| == |evs|
    ensures forall i :: 0 <= i < |evs| ==> r[i] == if AddsTo(evs[i], master) then Some(evs[i].id) else None
  {
    seq(|evs|, i requires 0 <= i < |evs| => if AddsTo(evs[i], master) then Some(evs[i].id) else None)
  }

  /** An interleaving of one group's set-up with the events of any other groups:
      each id is added once, the last one at index a; the order is set once, at
      index b; TrySend hands over the connection once, at a later index c. */
  ghost predicate Setup(evs: seq<Event>, master: Id, sorted: seq<Id>, a: nat, b: nat, c: nat) {
    && JoinsOnce(Adds(evs, master), sorted, a) && b < c < |evs|
    && evs[b] == SetSort(master, sorted) && evs[c] == TrySend(master)
    && (forall i :: 0 <= i < |evs| && evs[i].master == master ==> AddsTo(evs[i], master) || i == b || i == c)
    && (forall i :: 0 <= i < |evs| && evs[i].Add? && evs[i].master != master ==> evs[i].id != master)
  }

  /** One event changes only its own master's bookkeeping and loses no link. */
  lemma ApplyEffect<T>(m: Links<T>, e: Event, master: Id)
    requires e.Add? && e.master != master ==> e.id != master
    ensures m.Keys <= Apply(m, e).Keys
    ensures var l, l' := Ensured(m, master, master), Ensured(Apply(m, e), master, master);
      && l'.counter == l.counter + (if AddsTo(e, master) then 1 else 0)
      && l'.sorted == (if e.SetSort? && e.master == master then e.sorted else l.sorted)
      && l'.conn == (l.conn || (e == TrySend(master) && master in m))
    ensures (AddsTo(e, master) || (e.SetSort? && e.master == master)) ==> master in Apply(m, e)
    ensures AddsTo(e, master) ==> e.id in Apply(m, e)
  {
  }

  /** The counter is the number of ids added, and each of those has a link. */
  lemma {:induction false} SetupState<T>(m: Links<T>, evs: seq<Event>, master: Id, sorted: seq<Id>, a: nat, b: nat, c: nat, k: nat)
    requires master !in m && Setup(evs, master, sorted, a, b, c) && k <= |evs|
    ensures var r := Run(m, evs, k);
      var l := Ensured(r, master, master);
      && l.counter == |Joined(Adds(evs, master), k)|
      && l.sorted == (if k > b then sorted else [])
      && l.conn == (k > c)
      && (k > b ==> master in r)
      && Joined(Adds(evs, master), k) <= r.Keys
  {
    if k > 0 {
      SetupState(m, evs, master, sorted, a, b, c, k - 1);
      ApplyEffect(Run(m, evs, k - 1), evs[k - 1], master);
    }
  }

  /** The link barrier: over every interleaving `Send` is launched exactly once,
      by the last Add or by TrySend, whichever comes later; so never before the
      order and the connection are set and every lane has its link. */
  lemma {:induction false} LinkBarrier<T>(m: Links<T>, evs: seq<Event>, master: Id, sorted: seq<Id>, a: nat, b: nat, c: nat, k: nat)
    requires master !in m && Setup(evs, master, sorted, a, b, c) && k <= |evs|
    ensures Fired(m, evs, k, master) == if a < k && c < k then 1 else 0
    ensures Fired(m, evs, k, master) > 0 ==>
      var r := Run(m, evs, k);
      master in r && r[master].conn && r[master].sorted == sorted && Members(sorted) <= r.Keys
  {
    if k > 0 {
      LinkBarrier(m, evs, master, sorted, a, b, c, k - 1);
      SetupState(m, evs, master, sorted, a, b, c, k);
      JoinedComplete(Adds(evs, master), sorted, a, k);
    }
  }

  /** Other groups use none of the group's ids, neither before nor during the events. */
  ghost predicate Apart<T>(m: Links<T>, evs: seq<Event>, master: Id, sorted: seq<Id>) {
    && master in sorted
    && (forall id :: id in m ==> id !in sorted && m[id].master != master)
    && (forall e <- evs :: e.master != master ==> e.master !in sorted && (e.Add? ==> e.id !in sorted))
  }

  /** Every link points back to its own master: the links of the group are those with
      this master, at every moment. */
  lemma {:induction false} MastersKnown<T>(m: Links<T>, evs: seq<Event>, master: Id, sorted: seq<Id>, a: nat, b: nat, c: nat, k: nat)
    requires Setup(evs, master, sorted, a, b, c) && Apart(m, evs, master, sorted) && k <= |evs|
    ensures forall id :: id in Run(m, evs, k) ==> (Run(m, evs, k)[id].master == master <==> id in sorted)
  {
    hide Apply;
    if k > 0 {
      MastersKnown(m, evs, master, sorted, a, b, c, k - 1);
      var e := evs[k - 1];
      assert e in evs;
      if AddsTo(e, master) {
        JoinedGrows(Adds(evs, master), k, |evs|);
        assert e.id in Members(sorted);
      }
      OneMaster(Run(m, evs, k - 1), e, master, sorted);
    }
  }

  lemma OneMaster<T>(m: Links<T>, e: Event, master: Id, sorted: seq<Id>)
    requires forall id :: id in m ==> (m[id].master == master <==> id in sorted)
    requires e.master == master ==> master in sorted && (e.Add? ==> e.id in sorted)
    requires e.master != master ==> e.master !in sorted && (e.Add? ==> e.id !in sorted)
    ensures forall id :: id in Apply(m, e) ==> (Apply(m, e)[id].master == master <==> id in sorted)
  {
  }

  /** After any interleaving of its set-up with other groups, RemoveAll takes out the links
      of all the group's ids, and leaves every other link as it was. */
  lemma RemovalAfterSetup<T>(m: Links<T>, evs: seq<Event>, master: Id, sorted: seq<Id>, a: nat, b: nat, c: nat)
    requires Setup(evs, master, sorted, a, b, c) && Apart(m, evs, master, sorted)
    ensures var r := Run(m, evs, |evs|);
      && Members(sorted) <= r.Keys && RemoveGroup(r, master).Keys == r.Keys - Members(sorted)
      && forall id :: id in RemoveGroup(r, master) ==> RemoveGroup(r, master)[id] == r[id]
  {
    var r := Run(m, evs, |evs|);
    hide Run, Setup, RemoveGroup;
    AfterSetup(m, evs, master, sorted, a, b, c);
    MastersKnown(m, evs, master, sorted, a, b, c, |evs|);
    GroupRemoval(r, master);
  }

  lemma AfterSetup<T>(m: Links<T>, evs: seq<Event>, master: Id, sorted: seq<Id>, a: nat, b: nat, c: nat)
    requires Setup(evs, master, sorted, a, b, c) && Apart(m, evs, master, sorted)
    ensures var r := Run(m, evs, |evs|); master in r && r[master].sorted == sorted && Members(sorted) <= r.Keys
  {
    SetupState(m, evs, master, sorted, a, b, c, |evs|);
    JoinedComplete(Adds(evs, master), sorted, a, |evs|);
  }
}
