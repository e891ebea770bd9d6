/** Dealing a sequence over n lanes and re-merging the lanes in the same cyclic
    order. `Stripe` is what one lane holds; `Interleave` is the merge. */
module RoundRobin {

  /** The lane of the k-th element dealt. */
  function Lane(k: nat, n: nat): (r: nat)
    requires n >= 1
    ensures r < n
  {
    if k == 0 then 0 else Next(Lane(k - 1, n), n)
  }

  /** The cursor step of `for _, id := range sorted` inside `for {}`. */
  function Next(i: nat, n: nat): (r: nat)
    requires i < n
    ensures r < n
  {
    if i + 1 < n then i + 1 else 0
  }

  lemma LaneSteps(k: nat, n: nat)
    requires n >= 1
    ensures Lane(0, n) == 0 && Lane(k + 1, n) == Next(Lane(k, n), n)
  {
  }

  lemma {:induction false} LaneIsMod(k: nat, n: nat)
    requires n >= 1
    ensures Lane(k, n) == k % n
  {
    if k > 0 {
      LaneIsMod(k - 1, n);
      ModNext(k - 1, n);
    }
  }

  lemma ModNext(k: nat, n: nat)
    requires n >= 1
    ensures (k + 1) % n == Next(k % n, n)
  {
    var q, r := k / n, k % n;
    if r + 1 < n {
      ModUnique(k + 1, n, q, r + 1);
    } else {
      assert n * (q + 1) == n * q + n;
      ModUnique(k + 1, n, q + 1, 0);
    }
  }

  lemma ModUnique(k: nat, n: nat, q: nat, r: nat)
    requires n >= 1 && r < n && k == n * q + r
    ensures k % n == r
  {
    var d := k / n - q;
    assert k == n * (k / n) + k % n;
    assert n * (k / n) - n * q == n * d;
    assert d >= 1 ==> n * d >= n * 1;
    assert d <= -1 ==> n * d <= n * -1;
  }

  /** The elements of `xs` that belong to lane j, when xs[0] is the off-th
      element of the whole sequence. */
  function Stripe<T>(xs: seq<T>, off: nat, j: nat, n: nat): seq<T>
    requires n >= 1
  {
    if xs == [] then []
    else (if Lane(off, n) == j then [xs[0]] else []) + Stripe(xs[1..], off + 1, j, n)
  }

  lemma {:induction false} StripeAppend<T>(xs: seq<T>, x: T, off: nat, j: nat, n: nat)
    requires n >= 1
    ensures Stripe(xs + [x], off, j, n)
         == Stripe(xs, off, j, n) + (if Lane(off + |xs|, n) == j then [x] else [])
  {
    hide Lane;
    var all := xs + [x];
    var last := if Lane(off + |xs|, n) == j then [x] else [];
    if xs == [] {
      assert all == [x] && all[1..] == [];
      assert Stripe(all[1..], off + 1, j, n) == [];
    } else {
      assert all[0] == xs[0] && all[1..] == xs[1..] + [x];
      StripeAppend(xs[1..], x, off + 1, j, n);
      var first := if Lane(off, n) == j then [xs[0]] else [];
      assert Stripe(all, off, j, n) == first + Stripe(all[1..], off + 1, j, n);
      assert off + 1 + |xs[1..]| == off + |xs|;
      Assoc(first, Stripe(xs[1..], off + 1, j, n), last);
    }
  }

  lemma Assoc<T>(a: seq<T>, b: seq<T>, c: seq<T>)
    ensures (a + b) + c == a + (b + c)
  {
  }

  /** Lane contents of a whole sequence. */
  function Stripes<T>(xs: seq<T>, off: nat, n: nat): (r: seq<seq<T>>)
    requires n >= 1
    ensures |r| == n
    ensures forall j :: 0 <= j < n ==> r[j] == Stripe(xs, off, j, n)
  {
    seq(n, j requires 0 <= j < n => Stripe(xs, off, j, n))
  }

  function Total<T>(lanes: seq<seq<T>>): nat {
    if lanes == [] then 0 else |lanes[0]| + Total(lanes[1..])
  }

  lemma {:induction false} TotalUpdate<T>(lanes: seq<seq<T>>, c: nat, lane: seq<T>)
    requires c < |lanes|
    ensures Total(lanes[c := lane]) == Total(lanes) - |lanes[c]| + |lane|
  {
    if c == 0 {
      assert lanes[c := lane][1..] == lanes[1..];
    } else {
      assert lanes[c := lane][1..] == lanes[1..][c - 1 := lane];
      TotalUpdate(lanes[1..], c - 1, lane);
    }
  }

  /** The merge: read one element from the lane under the cursor, step the
      cursor, stop at the first empty lane. */
  function Interleave<T>(lanes: seq<seq<T>>, c: nat): seq<T>
    requires c < |lanes|
    decreases Total(lanes)
  {
    if lanes[c] == [] then []
    else
      TotalUpdate(lanes, c, lanes[c][1..]);
      [lanes[c][0]] + Interleave(lanes[c := lanes[c][1..]], Next(c, |lanes|))
  }

  /** Merging from the cursor position undoes dealing, whatever the position
      the dealing started from. */
  lemma {:induction false} InterleaveStripes<T>(xs: seq<T>, off: nat, n: nat)
    requires n >= 1
    ensures Interleave(Stripes(xs, off, n), Lane(off, n)) == xs
  {
    var lanes, c := Stripes(xs, off, n), Lane(off, n);
    if xs != [] {
      StripesPop(xs, off, n);
      InterleaveStripes(xs[1..], off + 1, n);
      assert Lane(off + 1, n) == Next(c, n);
      assert [xs[0]] + xs[1..] == xs;
    }
  }

  /** Every lane is its share of xs followed by the rest. */
  ghost predicate Splits<T>(lanes: seq<seq<T>>, xs: seq<T>, rest: seq<seq<T>>, off: nat, n: nat)
    requires n >= 1
  {
    |lanes| == |rest| == n && forall j :: 0 <= j < n ==> lanes[j] == Stripe(xs, off, j, n) + rest[j]
  }

  /** A merge that has taken xs and stopped leaves lanes whose merge, resumed at
      the cursor, completes it. */
  lemma {:induction false} InterleaveResumes<T>(lanes: seq<seq<T>>, xs: seq<T>, rest: seq<seq<T>>, off: nat, n: nat)
    requires n >= 1 && Splits(lanes, xs, rest, off, n)
    ensures Interleave(lanes, Lane(off, n)) == xs + Interleave(rest, Lane(off + |xs|, n))
    decreases |xs|
  {
    if xs == [] {
      assert forall j :: 0 <= j < n ==> lanes[j] == rest[j];
      assert lanes == rest;
    } else {
      var c := Lane(off, n);
      var lanes' := lanes[c := lanes[c][1..]];
      LanesPop(lanes, xs, rest, off, n);
      InterleaveResumes(lanes', xs[1..], rest, off + 1, n);
      hide Stripe;
      assert Interleave(lanes, c) == [xs[0]] + Interleave(lanes', Next(c, n));
      hide Interleave;
      Assoc([xs[0]], xs[1..], Interleave(rest, Lane(off + |xs|, n)));
      assert [xs[0]] + xs[1..] == xs;
    }
  }

  lemma InterleaveFromStart<T>(lanes: seq<seq<T>>, xs: seq<T>, rest: seq<seq<T>>, n: nat)
    requires n >= 1 && Splits(lanes, xs, rest, 0, n)
    ensures Interleave(lanes, Lane(0, n)) == xs + Interleave(rest, Lane(|xs|, n))
  {
    hide Interleave;
    InterleaveResumes(lanes, xs, rest, 0, n);
    assert 0 + |xs| == |xs|;
  }

  lemma LanesPop<T>(lanes: seq<seq<T>>, xs: seq<T>, rest: seq<seq<T>>, off: nat, n: nat)
    requires n >= 1 && xs != [] && Splits(lanes, xs, rest, off, n)
    ensures var c := Lane(off, n);
      lanes[c] != [] && lanes[c][0] == xs[0] && Splits(lanes[c := lanes[c][1..]], xs[1..], rest, off + 1, n)
  {
    forall j | 0 <= j < n
      ensures PopsLane(lanes[j], xs, rest[j], off, j, n)
    {
      LanePop(lanes[j], xs, rest[j], off, j, n);
    }
    hide Lane, Stripe;
    assert PopsLane(lanes[Lane(off, n)], xs, rest[Lane(off, n)], off, Lane(off, n), n);
  }

  ghost predicate PopsLane<T>(lane: seq<T>, xs: seq<T>, rest: seq<T>, off: nat, j: nat, n: nat)
    requires n >= 1 && xs != []
  {
    var tail := Stripe(xs[1..], off + 1, j, n) + rest;
    if Lane(off, n) == j then lane != [] && lane[0] == xs[0] && lane[1..] == tail else lane == tail
  }

  lemma LanePop<T>(lane: seq<T>, xs: seq<T>, rest: seq<T>, off: nat, j: nat, n: nat)
    requires n >= 1 && xs != [] && lane == Stripe(xs, off, j, n) + rest
    ensures PopsLane(lane, xs, rest, off, j, n)
  {
    hide Lane;
    var first := if Lane(off, n) == j then [xs[0]] else [];
    assert Stripe(xs, off, j, n) == first + Stripe(xs[1..], off + 1, j, n);
    Assoc(first, Stripe(xs[1..], off + 1, j, n), rest);
  }

  /** Taking the next element out of its lane leaves the lanes of the rest. */
  lemma StripesPop<T>(xs: seq<T>, off: nat, n: nat)
    requires n >= 1 && xs != []
    ensures var lanes, c := Stripes(xs, off, n), Lane(off, n);
      lanes[c] != [] && lanes[c][0] == xs[0]
      && lanes[c := lanes[c][1..]] == Stripes(xs[1..], off + 1, n)
  {
    hide Lane;
    var lanes, c, rest := Stripes(xs, off, n), Lane(off, n), Stripes(xs[1..], off + 1, n);
    assert lanes[c] == [xs[0]] + rest[c];
    var lanes' := lanes[c := lanes[c][1..]];
    forall j | 0 <= j < n ensures lanes'[j] == rest[j] {
      if j != c {
        assert lanes[j] == [] + rest[j];
      }
    }
  }
}
