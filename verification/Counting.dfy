/** Counting facts: both hubs decide that a group is complete by comparing two
    sizes, which is sound because of the set facts proved here. */
module Counting {
  import opened Data

  predicate Distinct<T(==)>(xs: seq<T>) {
    forall i, j :: 0 <= i < j < |xs| ==> xs[i] != xs[j]
  }

  function Members<T>(xs: seq<T>): set<T> {
    set x | x in xs
  }

  lemma {:induction false} DistinctSize<T>(xs: seq<T>)
    requires Distinct(xs)
    ensures |Members(xs)| == |xs|
  {
    if xs == [] {
      assert Members(xs) == {};
    } else {
      DistinctSize(xs[1..]);
      assert xs == [xs[0]] + xs[1..];
      assert Members(xs) == {xs[0]} + Members(xs[1..]);
    }
  }

  /** A subset of the right size is the whole set. */
  lemma SubsetOfSameSize<T>(a: set<T>, b: set<T>)
    requires a <= b
    ensures |a| <= |b|
    ensures |a| == |b| <==> a == b
  {
    assert b == a + (b - a);
    assert |b| == |a| + |b - a|;
  }

  /** The members of a group after k events, when adds[i] is the one event i adds. */
  function Joined<T>(adds: seq<Option<T>>, k: nat): set<T>
    requires k <= |adds|
  {
    if k == 0 then {}
    else if adds[k - 1].Some? then Joined(adds, k - 1) + {adds[k - 1].value}
    else Joined(adds, k - 1)
  }

  lemma {:induction false} JoinedGrows<T>(adds: seq<Option<T>>, k: nat, l: nat)
    requires k <= l <= |adds|
    ensures Joined(adds, k) <= Joined(adds, l)
    ensures (forall i :: k <= i < l ==> adds[i].None?) ==> Joined(adds, l) == Joined(adds, k)
    decreases l
  {
    if k < l {
      JoinedGrows(adds, k, l - 1);
    }
  }

  /** Each member of the list joins once, the last one by event a. */
  ghost predicate JoinsOnce<T>(adds: seq<Option<T>>, members: seq<T>, a: nat) {
    && Distinct(members) && a < |adds| && adds[a].Some?
    && (forall i :: 0 <= i < |adds| && adds[i].Some? ==> i <= a && adds[i].value !in Joined(adds, i))
    && Joined(adds, |adds|) == Members(members)
  }

  /** The group is complete exactly after the last one joined, and counting shows it. */
  lemma JoinedComplete<T>(adds: seq<Option<T>>, members: seq<T>, a: nat, k: nat)
    requires JoinsOnce(adds, members, a) && k <= |adds|
    ensures Joined(adds, k) <= Members(members) && members != []
    ensures |Joined(adds, k)| == |members| <==> k > a
    ensures k > a ==> Joined(adds, k) == Members(members)
  {
    DistinctSize(members);
    JoinedGrows(adds, k, |adds|);
    SubsetOfSameSize(Joined(adds, k), Members(members));
    JoinedGrows(adds, a + 1, |adds|);
    assert adds[a].value in Members(members);
    if k <= a {
      JoinedGrows(adds, k, a);
    }
  }

  function Below(n: nat): (r: set<nat>)
    ensures forall j :: j in r <==> 0 <= j < n
  {
    if n == 0 then {} else Below(n - 1) + {n - 1}
  }

  lemma {:induction false} BelowSize(n: nat)
    ensures |Below(n)| == n
  {
    if n > 0 {
      BelowSize(n - 1);
    }
  }

  /** Counting lanes stands in for set equality. */
  lemma CountedAll(a: set<nat>, n: nat)
    requires a <= Below(n)
    ensures |a| <= n
    ensures |a| == n <==> a == Below(n)
  {
    BelowSize(n);
    SubsetOfSameSize(a, Below(n));
  }

  /** The first half of both TimeoutClose methods: the ids older than an hour, in no
      particular order, and no more than 101 of them. */
  method Expired<T(==)>(live: set<T>, expired: set<T>) returns (tmp: seq<T>)
    ensures Distinct(tmp) && Members(tmp) <= live * expired
    ensures |tmp| <= 101 && (|tmp| < 101 ==> Members(tmp) == live * expired)
  {
    var todo := live * expired;
    tmp := [];
    while todo != {} && |tmp| <= 100
      invariant Distinct(tmp) && Members(tmp) + todo == live * expired && Members(tmp) !! todo && |tmp| <= 101
      decreases todo
    {
      var id :| id in todo;
      assert forall i :: 0 <= i < |tmp| ==> tmp[i] in Members(tmp);
      tmp, todo := tmp + [id], todo - {id};
    }
  }
}
