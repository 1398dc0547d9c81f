/** The profile-guided admission policy: sort the profile once, answer by first match. */
module SloPolicy {
  import opened Messages

  datatype Bucket = Bucket(maxInput: nat, active: nat, predicted: real)

  datatype Decision = Decision(admitted: bool, predicted: real)

  const REFUSED := Decision(false, 0.0)

  datatype Snapshot = Snapshot(accepting: bool, active: nat, maxActive: nat)

  /** Lexicographic order on (maxInput, active), the order the profile is sorted by. */
  predicate Before(a: Bucket, b: Bucket) {
    a.maxInput < b.maxInput || (a.maxInput == b.maxInput && a.active < b.active)
  }

  predicate SameKey(a: Bucket, b: Bucket) {
    a.maxInput == b.maxInput && a.active == b.active
  }

  predicate Sorted(s: seq<Bucket>) {
    forall i, j | 0 <= i < j < |s| :: !Before(s[j], s[i])
  }

  predicate DistinctKeys(s: seq<Bucket>) {
    forall i, j | 0 <= i < j < |s| :: !SameKey(s[i], s[j])
  }

  predicate ValidBucket(b: Bucket) {
    b.maxInput > 0 && b.active > 0 && b.predicted > 0.0
  }

  predicate Covers(b: Bucket, tokens: nat, active: nat) {
    tokens <= b.maxInput && active <= b.active
  }

  // ---------- the constructor

  function Insert(b: Bucket, s: seq<Bucket>): (r: seq<Bucket>)
    requires Sorted(s)
    ensures Sorted(r) && multiset(r) == multiset(s) + multiset{b}
  {
    if |s| == 0 then [b]
    else if !Before(s[0], b) then
      assert forall j | 0 <= j < |s| :: !Before(s[j], b);
      assert multiset([b] + s) == multiset{b} + multiset(s);
      [b] + s
    else
      var t := Insert(b, s[1..]);
      assert s == [s[0]] + s[1..];
      assert forall j | 0 <= j < |t| :: !Before(t[j], s[0]) by {
        forall j | 0 <= j < |t| ensures !Before(t[j], s[0]) {
          assert t[j] in multiset(t);
          assert t[j] == b || t[j] in s[1..];
        }
      }
      [s[0]] + t
  }

  /** A sorted rearrangement of the configured buckets. */
  function Arrange(s: seq<Bucket>): (r: seq<Bucket>)
    ensures Sorted(r) && multiset(r) == multiset(s)
  {
    if |s| == 0 then []
    else
      assert s == s[..|s| - 1] + [s[|s| - 1]];
      Insert(s[|s| - 1], Arrange(s[..|s| - 1]))
  }

  predicate AdjacentDuplicate(s: seq<Bucket>) {
    exists i | 0 <= i < |s| - 1 :: SameKey(s[i], s[i + 1])
  }

  /** After sorting, looking at neighbours finds every duplicate. */
  lemma NeighboursSuffice(s: seq<Bucket>)
    requires Sorted(s)
    ensures AdjacentDuplicate(s) <==> !DistinctKeys(s)
  {
    if !DistinctKeys(s) {
      var i, j :| 0 <= i < j < |s| && SameKey(s[i], s[j]);
      assert !Before(s[i + 1], s[i]);
      assert j == i + 1 || !Before(s[j], s[i + 1]);
      assert SameKey(s[i], s[i + 1]);
    }
  }

  /** Distinct keys, said of the buckets regardless of their order. */
  ghost predicate DistinctBag(m: multiset<Bucket>) {
    && (forall x :: m[x] <= 1)
    && (forall x, y | x in m && y in m && SameKey(x, y) :: x == y)
  }

  lemma {:induction false} DistinctRegardlessOfOrder(s: seq<Bucket>)
    ensures DistinctKeys(s) <==> DistinctBag(multiset(s))
  {
    if |s| > 0 {
      var (t, e) := (s[..|s| - 1], s[|s| - 1]);
      assert s == t + [e];
      DistinctRegardlessOfOrder(t);
      assert DistinctKeys(s) <==> DistinctKeys(t) && forall i | 0 <= i < |t| :: !SameKey(t[i], e) by {
        assert forall i | 0 <= i < |t| :: s[i] == t[i];
      }
      assert (forall i | 0 <= i < |t| :: !SameKey(t[i], e)) <==> (forall x | x in multiset(t) :: !SameKey(x, e)) by {
        assert forall i | 0 <= i < |t| :: t[i] in multiset(t);
      }
      BagSnoc(multiset(t), e);
    }
  }

  lemma BagSnoc(m: multiset<Bucket>, e: Bucket)
    ensures DistinctBag(m + multiset{e}) <==> DistinctBag(m) && forall x | x in m :: !SameKey(x, e)
  {
    var n := m + multiset{e};
    if DistinctBag(n) {
      assert forall x :: m[x] <= n[x];
      forall x | x in m ensures !SameKey(x, e) {
        assert x in n && e in n && n[e] == m[e] + 1;
      }
    }
  }

  lemma SortedFindsDuplicates(buckets: seq<Bucket>, s: seq<Bucket>)
    requires Sorted(s) && multiset(s) == multiset(buckets)
    ensures DistinctKeys(s) <==> DistinctKeys(buckets)
    ensures AdjacentDuplicate(s) <==> !DistinctKeys(buckets)
  {
    DistinctRegardlessOfOrder(buckets);
    DistinctRegardlessOfOrder(s);
    NeighboursSuffice(s);
  }

  /** Sorts the profile: only that the result is a sorted rearrangement is used. */
  method SortProfile(buckets: seq<Bucket>) returns (s: seq<Bucket>)
    ensures Sorted(s) && multiset(s) == multiset(buckets)
  {
    s := Arrange(buckets);
  }

  /** The profile as the constructor leaves it, or None when it throws. */
  method Configure(buckets: seq<Bucket>, named: bool, slo: real, margin: real) returns (r: Option<seq<Bucket>>)
    ensures r.Some? <==>
      && named && slo > 0.0 && margin >= 0.0 && |buckets| > 0
      && (forall i | 0 <= i < |buckets| :: ValidBucket(buckets[i]))
      && DistinctKeys(buckets)
    ensures r.Some? ==> Sorted(r.value) && multiset(r.value) == multiset(buckets) && DistinctKeys(r.value)
  {
    if !named || slo <= 0.0 || margin < 0.0 || |buckets| == 0 { return None; }
    for i := 0 to |buckets|
      invariant forall j | 0 <= j < i :: ValidBucket(buckets[j])
    {
      if !ValidBucket(buckets[i]) { return None; }
    }
    var s := SortProfile(buckets);
    SortedFindsDuplicates(buckets, s);
    for i := 0 to |s| - 1
      invariant forall j | 0 <= j < i :: !SameKey(s[j], s[j + 1])
    {
      if SameKey(s[i], s[i + 1]) { return None; }
    }
    return Some(s);
  }

  // ---------- evaluation

  /** The first bucket of the profile that covers the request. */
  function FirstMatch(s: seq<Bucket>, tokens: nat, active: nat): (r: Option<Bucket>)
    ensures r.None? ==> forall i | 0 <= i < |s| :: !Covers(s[i], tokens, active)
    ensures r.Some? ==> r.value in s && Covers(r.value, tokens, active)
  {
    if |s| == 0 then None
    else if Covers(s[0], tokens, active) then Some(s[0])
    else FirstMatch(s[1..], tokens, active)
  }

  function Evaluate(s: seq<Bucket>, slo: real, margin: real, tokens: nat, a: Snapshot): (r: Decision) {
    if tokens == 0 || !a.accepting then REFUSED
    else if a.active >= a.maxActive then Decision(true, 0.0)
    else match FirstMatch(s, tokens, a.active + 1)
      case None => REFUSED
      case Some(b) => Decision(b.predicted + margin <= slo, b.predicted)
  }

  /** `b` covers the request and no covering bucket comes before it. */
  ghost predicate IsLeastCover(buckets: seq<Bucket>, tokens: nat, active: nat, b: Bucket) {
    && b in buckets && Covers(b, tokens, active)
    && (forall x | x in buckets && Covers(x, tokens, active) :: !Before(x, b))
  }

  lemma {:induction false} FirstIsLeast(s: seq<Bucket>, tokens: nat, active: nat)
    requires Sorted(s) && FirstMatch(s, tokens, active).Some?
    ensures IsLeastCover(s, tokens, active, FirstMatch(s, tokens, active).value)
  {
    if !Covers(s[0], tokens, active) {
      FirstIsLeast(s[1..], tokens, active);
      assert forall x | x in s && Covers(x, tokens, active) :: x in s[1..];
    } else {
      forall x | x in s && Covers(x, tokens, active) ensures !Before(x, s[0]) {
        var i :| 0 <= i < |s| && s[i] == x;
      }
    }
  }

  /**
   The answer is that of the lexicographically least configured bucket covering the request,
   and the refusal is given exactly when none covers it; the profile passed in is any sorted
   rearrangement of the configured buckets.
   */
  lemma AnswersByLeastCover(buckets: seq<Bucket>, s: seq<Bucket>, tokens: nat, active: nat)
    requires Sorted(s) && multiset(s) == multiset(buckets) && DistinctKeys(buckets)
    ensures FirstMatch(s, tokens, active).None? <==> forall x | x in buckets :: !Covers(x, tokens, active)
    ensures forall b :: FirstMatch(s, tokens, active) == Some(b) <==> IsLeastCover(buckets, tokens, active, b)
  {
    assert forall x :: x in s <==> x in buckets by {
      assert forall x :: x in s <==> x in multiset(s);
      assert forall x :: x in buckets <==> x in multiset(buckets);
    }
    if FirstMatch(s, tokens, active).Some? {
      FirstIsLeast(s, tokens, active);
      var m := FirstMatch(s, tokens, active).value;
      forall b | IsLeastCover(buckets, tokens, active, b) ensures b == m {
        LeastIsUnique(buckets, tokens, active, m, b);
      }
    }
  }

  lemma LeastIsUnique(buckets: seq<Bucket>, tokens: nat, active: nat, a: Bucket, b: Bucket)
    requires DistinctKeys(buckets)
    requires IsLeastCover(buckets, tokens, active, a) && IsLeastCover(buckets, tokens, active, b)
    ensures a == b
  {
    var i :| 0 <= i < |buckets| && buckets[i] == a;
    var j :| 0 <= j < |buckets| && buckets[j] == b;
    assert SameKey(buckets[i], buckets[j]) && SameKey(buckets[j], buckets[i]);
  }

  /**
   Below the hard active limit a request is admitted exactly when the least configured bucket
   that covers it, with itself counted as active, is predicted to meet the objective.
   */
  lemma AdmitsExactlyWhenInTime(
    buckets: seq<Bucket>, s: seq<Bucket>, slo: real, margin: real, tokens: nat, snap: Snapshot)
    requires Sorted(s) && multiset(s) == multiset(buckets) && DistinctKeys(buckets)
    requires tokens > 0 && snap.accepting && snap.active < snap.maxActive
    ensures Evaluate(s, slo, margin, tokens, snap).admitted <==>
              exists b :: IsLeastCover(buckets, tokens, snap.active + 1, b) && b.predicted + margin <= slo
  {
    AnswersByLeastCover(buckets, s, tokens, snap.active + 1);
  }

  /** The order in which the buckets were configured does not matter. */
  lemma PermutationInvariance(
    a: seq<Bucket>, b: seq<Bucket>, s: seq<Bucket>, t: seq<Bucket>,
    slo: real, margin: real, tokens: nat, snap: Snapshot)
    requires multiset(a) == multiset(b) && DistinctKeys(a)
    requires Sorted(s) && multiset(s) == multiset(a)
    requires Sorted(t) && multiset(t) == multiset(b)
    ensures Evaluate(s, slo, margin, tokens, snap) == Evaluate(t, slo, margin, tokens, snap)
  {
    AnswersByLeastCover(a, s, tokens, snap.active + 1);
    AnswersByLeastCover(a, t, tokens, snap.active + 1);
  }
}
