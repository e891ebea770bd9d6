/** What a link write timeout does. The receiving side ignores the result of the push,
    so a chunk that waited too long for room in its link is lost from one lane. */
module LostChunk {
  import opened RoundRobin

  /** The lanes of xs when the element at index k never reached its lane. */
  function Lanes<T>(xs: seq<T>, k: nat, n: nat): (r: seq<seq<T>>)
    requires n >= 1 && k < |xs|
    ensures |r| == n
    ensures forall j :: 0 <= j < n ==> r[j] == Stripe(xs[..k], 0, j, n) + Stripe(xs[k + 1..], k + 1, j, n)
  {
    seq(n, j requires 0 <= j < n => Stripe(xs[..k], 0, j, n) + Stripe(xs[k + 1..], k + 1, j, n))
  }

  lemma {:induction false} LaneAdd(k: nat, m: nat, n: nat)
    requires n >= 1 && m <= n
    ensures Lane(k + m, n) == if Lane(k, n) + m < n then Lane(k, n) + m else Lane(k, n) + m - n
  {
    if m > 0 {
      LaneAdd(k, m - 1, n);
      LaneSteps(k + m - 1, n);
    }
  }

  /** Elements of other lanes may be skipped. */
  lemma {:induction false} StripeSkips<T>(ys: seq<T>, off: nat, j: nat, n: nat, d: nat)
    requires n >= 1 && d <= |ys| && forall i :: off <= i < off + d ==> Lane(i, n) != j
    ensures Stripe(ys, off, j, n) == Stripe(ys[d..], off + d, j, n)
    decreases d
  {
    hide Lane;
    if d == 0 {
      assert ys[d..] == ys;
    } else {
      assert Lane(off, n) != j;
      StripeSkips(ys[1..], off + 1, j, n, d - 1);
      assert ys[1..][d - 1..] == ys[d..];
      assert Stripe(ys, off, j, n) == [] + Stripe(ys[1..], off + 1, j, n);
    }
  }

  lemma {:induction false} StripeConcat<T>(xs: seq<T>, ys: seq<T>, off: nat, j: nat, n: nat)
    requires n >= 1
    ensures Stripe(xs + ys, off, j, n) == Stripe(xs, off, j, n) + Stripe(ys, off + |xs|, j, n)
    decreases |xs|
  {
    hide Lane;
    if xs == [] {
      assert xs + ys == ys;
    } else {
      var first := if Lane(off, n) == j then [xs[0]] else [];
      assert (xs + ys)[0] == xs[0] && (xs + ys)[1..] == xs[1..] + ys;
      StripeConcat(xs[1..], ys, off + 1, j, n);
      assert off + 1 + |xs[1..]| == off + |xs|;
      Assoc(first, Stripe(xs[1..], off + 1, j, n), Stripe(ys, off + |xs|, j, n));
    }
  }

  /** The lanes from the lost element on. */
  function After<T>(xs: seq<T>, k: nat, n: nat): (r: seq<seq<T>>)
    requires n >= 1 && k < |xs|
    ensures |r| == n && forall j :: 0 <= j < n ==> r[j] == Stripe(xs[k + 1..], k + 1, j, n)
  {
    Stripes(xs[k + 1..], k + 1, n)
  }

  /** What is merged from there on, one round at a time: the lane of the lost element
      is one round ahead of the others. */
  function Shifted<T>(xs: seq<T>, k: nat, n: nat): seq<T>
    requires n >= 1 && k < |xs|
    decreases |xs| - k
  {
    if k + n < |xs| then Round(xs, k, n) + Shifted(xs, k + n, n) else []
  }

  /** What comes out in one round: the lane of the lost element gives its next. */
  function Round<T>(xs: seq<T>, k: nat, n: nat): (r: seq<T>)
    requires n >= 1 && k + n < |xs|
    ensures |r| == n
  {
    [xs[k + n]] + xs[k + 1..k + n]
  }

  /** What one lane gives in a round, and what it has left. */
  lemma RoundOfLane<T>(xs: seq<T>, k: nat, n: nat, j: nat)
    requires n >= 1 && k + n < |xs| && j < n
    ensures Stripe(xs[k + 1..], k + 1, j, n)
         == Stripe(Round(xs, k, n), k, j, n) + Stripe(xs[k + n + 1..], k + n + 1, j, n)
  {
    hide Stripe, Lane;
    var mid, tail := xs[k + 1..k + n], xs[k + n + 1..];
    assert xs[k + 1..] == mid + xs[k + n..];
    StripeConcat(mid, xs[k + n..], k + 1, j, n);
    assert xs[k + n..] == [xs[k + n]] + tail;
    StripeConcat([xs[k + n]], tail, k + n, j, n);
    StripeConcat([xs[k + n]], mid, k, j, n);
    LaneAdd(k, n, n);
    One(xs[k + n], k + n, j, n);
    One(xs[k + n], k, j, n);
    if j == Lane(k, n) {
      OtherLanes(mid, k, n);
    }
  }

  /** The n - 1 elements after an element are on other lanes. */
  lemma OtherLanes<T>(ys: seq<T>, k: nat, n: nat)
    requires n >= 1 && |ys| < n
    ensures Stripe(ys, k + 1, Lane(k, n), n) == []
  {
    forall i | k + 1 <= i < k + 1 + |ys| ensures Lane(i, n) != Lane(k, n) {
      LaneAdd(k, i - k, n);
    }
    StripeSkips(ys, k + 1, Lane(k, n), n, |ys|);
    assert ys[|ys|..] == [];
  }

  lemma One<T>(x: T, off: nat, j: nat, n: nat)
    requires n >= 1
    ensures Stripe([x], off, j, n) == if Lane(off, n) == j then [x] else []
  {
    assert [x][1..] == [];
  }

  /** What the merge makes of the lanes from the lost element on. */
  function Remaining<T>(xs: seq<T>, k: nat, n: nat): seq<T>
    requires n >= 1 && k < |xs|
  {
    Interleave(After(xs, k, n), Lane(k, n))
  }

  lemma {:induction false} MergeIsShifted<T>(xs: seq<T>, k: nat, n: nat)
    requires n >= 1 && k < |xs|
    ensures Remaining(xs, k, n) == Shifted(xs, k, n)
    decreases |xs| - k
  {
    hide Remaining, Round;
    if k + n < |xs| {
      OneRound(xs, k, n);
      MergeIsShifted(xs, k + n, n);
    } else {
      LastRound(xs, k, n);
    }
  }

  lemma LastRound<T>(xs: seq<T>, k: nat, n: nat)
    requires n >= 1 && k < |xs| <= k + n
    ensures Remaining(xs, k, n) == []
  {
    OtherLanes(xs[k + 1..], k, n);
  }

  lemma OneRound<T>(xs: seq<T>, k: nat, n: nat)
    requires n >= 1 && k + n < |xs|
    ensures Remaining(xs, k, n) == Round(xs, k, n) + Remaining(xs, k + n, n)
  {
    hide Interleave, After, Splits, Lane, Round;
    RoundSplits(xs, k, n);
    ResumesAt(After(xs, k, n), Round(xs, k, n), After(xs, k + n, n), k, k + n, n);
  }

  lemma ResumesAt<T>(lanes: seq<seq<T>>, xs: seq<T>, rest: seq<seq<T>>, off: nat, off': nat, n: nat)
    requires n >= 1 && Splits(lanes, xs, rest, off, n) && off' == off + |xs|
    ensures Interleave(lanes, Lane(off, n)) == xs + Interleave(rest, Lane(off', n))
  {
    hide Interleave;
    InterleaveResumes(lanes, xs, rest, off, n);
  }

  lemma RoundSplits<T>(xs: seq<T>, k: nat, n: nat)
    requires n >= 1 && k + n < |xs|
    ensures Splits(After(xs, k, n), Round(xs, k, n), After(xs, k + n, n), k, n)
  {
    hide Stripe, After, Round;
    forall j | 0 <= j < n
      ensures After(xs, k, n)[j] == Stripe(Round(xs, k, n), k, j, n) + After(xs, k + n, n)[j]
    {
      RoundOfLane(xs, k, n, j);
    }
  }

  /** Where the shifted part ends: where the lane of the lost element runs out. */
  lemma {:induction false} ShiftedEnd<T>(xs: seq<T>, k: nat, n: nat)
    requires n >= 1 && k < |xs|
    ensures k + |Shifted(xs, k, n)| < |xs| <= k + |Shifted(xs, k, n)| + n
    ensures Lane(k + |Shifted(xs, k, n)|, n) == Lane(k, n)
    decreases |xs| - k
  {
    if k + n < |xs| {
      LaneAdd(k, n, n);
      hide Lane;
      ShiftedEnd(xs, k + n, n);
      assert |Shifted(xs, k, n)| == n + |Shifted(xs, k + n, n)|;
    }
  }

  /** The element that comes out at place i: its own, or on the lane of the lost
      element the one a round later. */
  ghost predicate ComesOut<T>(xs: seq<T>, k: nat, n: nat, i: nat, x: T)
    requires n >= 1 && i < |xs|
  {
    if k <= i && Lane(i, n) == Lane(k, n) then i + n < |xs| && x == xs[i + n] else x == xs[i]
  }

  lemma {:induction false} ShiftedAt<T>(xs: seq<T>, k: nat, n: nat, i: nat)
    requires n >= 1 && k < |xs| && k <= i < k + |Shifted(xs, k, n)|
    ensures i < |xs| && ComesOut(xs, k, n, i, Shifted(xs, k, n)[i - k])
    decreases |xs| - k
  {
    ShiftedEnd(xs, k, n);
    LaneAdd(k, n, n);
    if i < k + n {
      LaneAdd(k, i - k, n);
    } else {
      hide Lane;
      ShiftedAt(xs, k + n, n, i);
      assert Shifted(xs, k, n)[i - k] == Shifted(xs, k + n, n)[i - (k + n)];
    }
  }

  /** The lane of the lost element repeats itself from there on. */
  ghost predicate Repeats<T>(xs: seq<T>, k: nat, n: nat)
    requires n >= 1
  {
    forall i :: k <= i && i + n < |xs| && Lane(i, n) == Lane(k, n) ==> xs[i] == xs[i + n]
  }

  /** What comes out after the chunk at index k was lost: everything up to it, then
      every chunk at its place except that the lane of the lost one is a round ahead,
      up to where that lane runs out. */
  lemma LossyMerge<T>(xs: seq<T>, k: nat, n: nat)
    requires n >= 1 && k < |xs|
    ensures var out := Interleave(Lanes(xs, k, n), 0);
      && k <= |out| < |xs| <= |out| + n && Lane(|out|, n) == Lane(k, n)
      && forall i :: 0 <= i < |out| ==> ComesOut(xs, k, n, i, out[i])
  {
    hide Interleave, Lanes, After;
    var tail, out := Shifted(xs, k, n), Interleave(Lanes(xs, k, n), 0);
    LossyIsShifted(xs, k, n);
    ShiftedEnd(xs, k, n);
    hide Lane, Shifted;
    forall i | 0 <= i < |out| ensures ComesOut(xs, k, n, i, out[i]) {
      if k <= i {
        ShiftedAt(xs, k, n, i);
        assert out[i] == tail[i - k];
      }
    }
  }

  lemma LossyIsShifted<T>(xs: seq<T>, k: nat, n: nat)
    requires n >= 1 && k < |xs|
    ensures Interleave(Lanes(xs, k, n), 0) == xs[..k] + Shifted(xs, k, n)
  {
    hide Interleave, Lanes, After, Shifted;
    StartSplits(xs, k, n);
    LaneSteps(0, n);
    hide Lane, Splits;
    InterleaveFromStart(Lanes(xs, k, n), xs[..k], After(xs, k, n), n);
    assert |xs[..k]| == k;
    MergeIsShifted(xs, k, n);
  }

  lemma StartSplits<T>(xs: seq<T>, k: nat, n: nat)
    requires n >= 1 && k < |xs|
    ensures Splits(Lanes(xs, k, n), xs[..k], After(xs, k, n), 0, n)
  {
    hide Stripe, Lanes, After;
  }

  /** After a lost chunk the output is a prefix of what was sent if and only if all
      later chunks of its lane are equal to it. */
  lemma LossLeavesGap<T>(xs: seq<T>, k: nat, n: nat)
    requires n >= 1 && k < |xs|
    ensures Interleave(Lanes(xs, k, n), 0) <= xs <==> Repeats(xs, k, n)
  {
    var out := Interleave(Lanes(xs, k, n), 0);
    LossyMerge(xs, k, n);
    hide Interleave, Lanes, Lane;
    if out <= xs {
      forall i | k <= i && i + n < |xs| && Lane(i, n) == Lane(k, n) ensures xs[i] == xs[i + n] {
        assert ComesOut(xs, k, n, i, out[i]);
        assert out[i] == xs[i];
      }
    }
    if Repeats(xs, k, n) {
      forall i | 0 <= i < |out| ensures out[i] == xs[i] {
        assert ComesOut(xs, k, n, i, out[i]);
      }
    }
  }
}
