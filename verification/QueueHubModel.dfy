/** pipe/queue.go on values: a queue, the hub's map of queues, and the rule that
    launches `Send`. The class in QueueHub.dfy is proved against these functions. */
module QueueHubModel {
  import opened Data
  import opened Counting

  /** `writers` maps an id to the websocket its writer writes to. */
  datatype Queue = Queue(buffer: seq<Chunk>, open: bool, writers: map<Id, nat>, sorted: seq<Id>, status: Status)

  type Queues = map<Id, Queue>

  const NEW_QUEUE := Queue([], true, map[], [], StaWait)

  function Entry(m: Queues, master: Id): Option<Queue> {
    if master in m then Some(m[master]) else None
  }

  function Ensured(e: Option<Queue>): Queue {
    if e.Some? then e.value else NEW_QUEUE
  }

  function WithWriter(e: Option<Queue>, id: Id, lane: nat): Queue {
    var q := Ensured(e);
    q.(writers := q.writers[id := lane])
  }

  function WithSort(e: Option<Queue>, sorted: seq<Id>): Queue {
    Ensured(e).(sorted := sorted)
  }

  /** The launch rule of trySend. */
  predicate Ready(e: Option<Queue>) {
    e.Some? && |e.value.writers| == |e.value.sorted|
  }

  /** queue.close */
  function Closed(q: Queue): Queue {
    if q.status == StaClose then q else q.(status := StaClose, open := false)
  }

  datatype Event =
    | Add(master: Id, id: Id, lane: nat)
    | SetSort(master: Id, sorted: seq<Id>)
    | TrySend(master: Id)
    | Remove(master: Id)

  function Apply(m: Queues, e: Event): Queues {
    match e
    case Add(master, id, lane) => m[master := WithWriter(Entry(m, master), id, lane)]
    case SetSort(master, sorted) => m[master := WithSort(Entry(m, master), sorted)]
    case TrySend(_) => m
    case Remove(master) => m - {master}
  }

  /** Whether the event starts `go q.Send()`, always for its own master. */
  predicate Launches(m: Queues, e: Event) {
    (e.Add? || e.TrySend?) && Ready(Entry(Apply(m, e), e.master))
  }

  function Run(m: Queues, evs: seq<Event>, k: nat): Queues
    requires k <= |evs|
  {
    if k == 0 then m else Apply(Run(m, evs, k - 1), evs[k - 1])
  }

  /** How often the first k events start `Send` for this master. */
  function Fired(m: Queues, evs: seq<Event>, k: nat, master: Id): nat
    requires k <= |evs|
  {
    if k == 0 then 0
    else
      var fires := evs[k - 1].master == master && Launches(Run(m, evs, k - 1), evs[k - 1]);
      Fired(m, evs, k - 1, master) + if fires then 1 else 0
  }

  /** The id each event adds to the group, if it adds one. */
  function Adds(evs: seq<Event>, master: Id): (r: seq<Option<Id>>)
    ensures |r| == |evs|
    ensures forall i :: 0 <= i < |evs| ==> r[i] == if AddsTo(evs[i], master) then Some(evs[i].id) else None
  {
    seq(|evs|, i requires 0 <= i < |evs| => if AddsTo(evs[i], master) then Some(evs[i].id) else None)
  }

  predicate AddsTo(e: Event, master: Id) {
    e.Add? && e.master == master
  }

  /** An interleaving of one group's set-up with the events of any other groups:
      each id is added once, the last one at index a; the order is set once, at
      index b; TrySend is called once, at a later index c. */
  ghost predicate Setup(evs: seq<Event>, master: Id, sorted: seq<Id>, a: nat, b: nat, c: nat) {
    && JoinsOnce(Adds(evs, master), sorted, a) && b < c < |evs|
    && evs[b] == SetSort(master, sorted) && evs[c] == TrySend(master)
    && (forall i :: 0 <= i < |evs| && evs[i].master == master ==> AddsTo(evs[i], master) || i == b || i == c)
  }

  /** The writers registered so far are exactly the ids added so far. */
  lemma {:induction false} SetupState(m: Queues, evs: seq<Event>, master: Id, sorted: seq<Id>, a: nat, b: nat, c: nat, k: nat)
    requires master !in m && Setup(evs, master, sorted, a, b, c) && k <= |evs|
    ensures Ensured(Entry(Run(m, evs, k), master)).writers.Keys == Joined(Adds(evs, master), k)
    ensures Ensured(Entry(Run(m, evs, k), master)).sorted == if k > b then sorted else []
  {
    if k > 0 {
      SetupState(m, evs, master, sorted, a, b, c, k - 1);
    }
  }

  /** The launch rule holds exactly when every ordered id has its writer and the order
      is known, and then the writers are those of the ordered ids and no others. */
  lemma ReadyIffComplete(m: Queues, evs: seq<Event>, master: Id, sorted: seq<Id>, a: nat, b: nat, c: nat, k: nat)
    requires master !in m && Setup(evs, master, sorted, a, b, c) && k <= |evs|
    ensures var e := Entry(Run(m, evs, k), master);
      && (Ready(e) <==> a < k && b < k)
      && (Ready(e) ==> e.value.writers.Keys == Members(sorted) && e.value.sorted == sorted)
  {
    SetupState(m, evs, master, sorted, a, b, c, k);
    JoinedComplete(Adds(evs, master), sorted, a, k);
    var e := Entry(Run(m, evs, k), master);
    assert e.Some? ==> |e.value.writers| == |e.value.writers.Keys|;
    EntryExists(m, evs, master, k);
  }

  /** An entry comes with its first writer or with its order. */
  lemma {:induction false} EntryExists(m: Queues, evs: seq<Event>, master: Id, k: nat)
    requires master !in m && k <= |evs|
    requires forall i :: 0 <= i < k && evs[i].master == master ==> !evs[i].Remove?
    ensures Entry(Run(m, evs, k), master).Some? ==>
      Joined(Adds(evs, master), k) != {} || exists i :: 0 <= i < k && evs[i].SetSort? && evs[i].master == master
  {
    if k > 0 {
      EntryExists(m, evs, master, k - 1);
    }
  }

  /** The queue barrier: over every interleaving `Send` is launched once by the
      last Add if the order is already known then, and once by TrySend if every
      writer is already there; so at least once and at most twice. */
  lemma {:induction false} QueueBarrier(m: Queues, evs: seq<Event>, master: Id, sorted: seq<Id>, a: nat, b: nat, c: nat, k: nat)
    requires master !in m && Setup(evs, master, sorted, a, b, c) && k <= |evs|
    ensures Fired(m, evs, k, master) == (if b < a < k then 1 else 0) + (if a < c < k then 1 else 0)
    ensures k == |evs| ==> 1 <= Fired(m, evs, k, master) <= 2
  {
    if k > 0 {
      QueueBarrier(m, evs, master, sorted, a, b, c, k - 1);
      SetupState(m, evs, master, sorted, a, b, c, k);
      JoinedComplete(Adds(evs, master), sorted, a, k);
      var e := Entry(Run(m, evs, k), master);
      assert e.Some? ==> |e.value.writers| == |e.value.writers.Keys|;
    }
  }
}
