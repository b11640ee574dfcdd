/**
  Replica sets as the executor sees them, their totals and the filters over lists of them
  (pkg/util/deployment/deployment.go). A replica set is a value: the source never updates one in
  memory, it copies, changes the copy and writes that.
 */
module ReplicaSets {
  import opened Base
  import opened Limits

  /** The revision annotation: absent (read as 0), a number, or a text that is not a number. */
  datatype Revision = Absent | Number(v: int) | Garbled

  /** `desired` and `maxReplicas` are the two replica annotations, None when absent or unparsable. */
  datatype ReplicaSet = ReplicaSet(
    name: string,
    uid: nat,
    created: int,
    template: Template,
    revision: Revision,
    size: int,
    available: nat,
    desired: Option<int>,
    maxReplicas: Option<int>)

  /** What can be added up over a list of replica sets. `Serving` counts the available pods
      that a set keeps whatever its size is lowered to. */
  datatype Measure = Size | Available | Serving

  function Of(m: Measure, rs: ReplicaSet): int {
    match m
    case Size => rs.size
    case Available => rs.available
    case Serving => Min(rs.size, rs.available)
  }

  function Total(m: Measure, rss: seq<ReplicaSet>): int {
    if rss == [] then 0 else Of(m, rss[0]) + Total(m, rss[1..])
  }

  predicate IsActive(rs: ReplicaSet) {
    rs.size > 0
  }

  function Active(rss: seq<ReplicaSet>): (r: seq<ReplicaSet>)
    ensures forall x :: x in r <==> x in rss && IsActive(x)
  {
    if rss == [] then [] else (if IsActive(rss[0]) then [rss[0]] else []) + Active(rss[1..])
  }

  function Inactive(rss: seq<ReplicaSet>): (r: seq<ReplicaSet>)
    ensures forall x :: x in r <==> x in rss && !IsActive(x)
  {
    if rss == [] then [] else (if IsActive(rss[0]) then [] else [rss[0]]) + Inactive(rss[1..])
  }

  /** No two entries share a name or a uid: what the API server guarantees of one namespace. */
  ghost predicate Distinct(rss: seq<ReplicaSet>) {
    forall i, j :: 0 <= i < j < |rss| ==> rss[i].name != rss[j].name && rss[i].uid != rss[j].uid
  }

  /** The pods each set reports are among the pods it asked for. */
  ghost predicate Sane(rss: seq<ReplicaSet>) {
    forall rs :: rs in rss ==> 0 <= rs.available <= rs.size
  }

  ghost predicate NonNegative(rss: seq<ReplicaSet>) {
    forall rs :: rs in rss ==> rs.size >= 0
  }

  /** What the API server lists for one deployment. */
  ghost predicate Listing(rss: seq<ReplicaSet>) {
    Distinct(rss) && NonNegative(rss)
  }

  /** Same replica set up to its size and its two replica annotations. */
  predicate SameSet(x: ReplicaSet, y: ReplicaSet) {
    y == x.(size := y.size, desired := y.desired, maxReplicas := y.maxReplicas)
  }

  ghost predicate SameSets(xs: seq<ReplicaSet>, ys: seq<ReplicaSet>) {
    |xs| == |ys| && forall i :: 0 <= i < |xs| ==> SameSet(xs[i], ys[i])
  }

  /** What identifies a set: everything but its size, its pods and its replica annotations. */
  function Id(rs: ReplicaSet): ReplicaSet {
    rs.(size := 0, available := 0, desired := None, maxReplicas := None)
  }

  function Ids(rss: seq<ReplicaSet>): (r: seq<ReplicaSet>)
    ensures |r| == |rss| && forall i :: 0 <= i < |rss| ==> r[i] == Id(rss[i])
  {
    if rss == [] then [] else [Id(rss[0])] + Ids(rss[1..])
  }

  /** The same sets in any order. */
  ghost predicate SameIds(a: seq<ReplicaSet>, b: seq<ReplicaSet>) {
    multiset(Ids(a)) == multiset(Ids(b))
  }

  lemma {:induction false} TotalAppend(m: Measure, a: seq<ReplicaSet>, b: seq<ReplicaSet>)
    ensures Total(m, a + b) == Total(m, a) + Total(m, b)
  {
    if a == [] {
      assert a + b == b;
    } else {
      assert (a + b)[1..] == a[1..] + b;
      TotalAppend(m, a[1..], b);
    }
  }

  lemma TotalHead(s: seq<ReplicaSet>)
    requires s != []
    ensures forall m :: Total(m, s) == Of(m, s[0]) + Total(m, s[1..])
  {
  }

  lemma TotalOfNone()
    ensures forall m :: Total(m, []) == 0
  {
  }

  lemma TotalOfOne(x: ReplicaSet)
    ensures forall m :: Total(m, [x]) == Of(m, x)
  {
  }

  lemma RemoveAtTotal(m: Measure, s: seq<ReplicaSet>, i: nat)
    requires i < |s|
    ensures Total(m, s) == Of(m, s[i]) + Total(m, RemoveAt(s, i))
  {
    TotalAppend(m, s[..i], s[i + 1..]);
    TotalAppend(m, s[..i], s[i..]);
    assert s == s[..i] + s[i..] && s[i..][1..] == s[i + 1..];
  }

  /** A total does not depend on the order of the list. */
  lemma {:induction false} TotalPermuted(m: Measure, a: seq<ReplicaSet>, b: seq<ReplicaSet>)
    requires multiset(a) == multiset(b)
    ensures |a| == |b| && Total(m, a) == Total(m, b)
  {
    PermutedLength(a, b);
    if a != [] {
      var i := PermutedTails(a, b);
      RemoveAtTotal(m, b, i);
      TotalPermuted(m, a[1..], RemoveAt(b, i));
    }
  }

  lemma {:induction false} ActiveSplit(rss: seq<ReplicaSet>)
    ensures multiset(rss) == multiset(Inactive(rss)) + multiset(Active(rss))
  {
    if rss != [] {
      assert rss == [rss[0]] + rss[1..];
      ActiveSplit(rss[1..]);
    }
  }

  /** Dropping the empty sets loses no pod. */
  lemma {:induction false} ActiveTotal(rss: seq<ReplicaSet>)
    requires NonNegative(rss)
    ensures Total(Size, Active(rss)) == Total(Size, rss)
    ensures Total(Size, Inactive(rss)) == 0
  {
    if rss != [] {
      ActiveTotal(rss[1..]);
      assert Active(rss) == (if IsActive(rss[0]) then [rss[0]] else []) + Active(rss[1..]);
      TotalAppend(Size, if IsActive(rss[0]) then [rss[0]] else [], Active(rss[1..]));
      TotalAppend(Size, if IsActive(rss[0]) then [] else [rss[0]], Inactive(rss[1..]));
    }
  }

  lemma {:induction false} TotalNonNegative(rss: seq<ReplicaSet>)
    requires NonNegative(rss)
    ensures Total(Size, rss) >= 0
    ensures forall x :: x in rss ==> x.size <= Total(Size, rss)
    ensures Total(Size, rss) > 0 <==> Active(rss) != []
  {
    if rss != [] {
      TotalNonNegative(rss[1..]);
    }
  }

  /** Distinctness read from the head. */
  lemma DistinctHead(s: seq<ReplicaSet>)
    requires s != []
    ensures Distinct(s)
            <==> Distinct(s[1..]) && forall y :: y in s[1..] ==> y.name != s[0].name && y.uid != s[0].uid
  {
    var rest := s[1..];
    if Distinct(s) {
      forall y | y in rest ensures y.name != s[0].name && y.uid != s[0].uid {
        var i :| 0 <= i < |rest| && rest[i] == y;
        assert s[i + 1] == y;
      }
    } else {
      var i, j :| 0 <= i < j < |s| && !(s[i].name != s[j].name && s[i].uid != s[j].uid);
      assert s[j] == rest[j - 1];
      if i > 0 {
        assert s[i] == rest[i - 1];
      }
    }
  }

  /** In a list without repeated names every value occurs at most once. */
  lemma {:induction false} DistinctCounts(s: seq<ReplicaSet>, x: ReplicaSet)
    requires Distinct(s)
    ensures multiset(s)[x] <= 1
  {
    if s != [] {
      HeadCounts(s);
      DistinctHead(s);
      DistinctCounts(s[1..], x);
      assert s[0] !in s[1..];
      assert s[0] !in multiset(s[1..]);
    }
  }

  lemma {:induction false} RepeatedCounts(s: seq<ReplicaSet>, i: nat, j: nat)
    requires i < j < |s| && s[i] == s[j]
    ensures multiset(s)[s[i]] >= 2
  {
    RemoveAtCounts(s, j);
    assert RemoveAt(s, j)[i] == s[i];
    assert s[i] in multiset(RemoveAt(s, j));
  }

  lemma DistinctPair(s: seq<ReplicaSet>, x: ReplicaSet, y: ReplicaSet)
    requires Distinct(s) && x in s && y in s && x != y
    ensures x.name != y.name && x.uid != y.uid
  {
    var i :| 0 <= i < |s| && s[i] == x;
    var j :| 0 <= j < |s| && s[j] == y;
    assert i < j || j < i;
  }

  lemma DistinctPermuted(a: seq<ReplicaSet>, b: seq<ReplicaSet>)
    requires multiset(a) == multiset(b) && Distinct(a)
    ensures Distinct(b)
  {
    forall i, j | 0 <= i < j < |b|
      ensures b[i].name != b[j].name && b[i].uid != b[j].uid
    {
      assert b[i] in multiset(a) && b[j] in multiset(a);
      DistinctCounts(a, b[i]);
      if b[i] == b[j] {
        RepeatedCounts(b, i, j);
      } else {
        DistinctPair(a, b[i], b[j]);
      }
    }
  }

  /** Distinctness read by membership instead of position. */
  lemma DistinctNames(s: seq<ReplicaSet>, x: ReplicaSet, y: ReplicaSet)
    requires Distinct(s) && x in s && y in s && (x.name == y.name || x.uid == y.uid)
    ensures x == y
  {
    var i :| 0 <= i < |s| && s[i] == x;
    var j :| 0 <= j < |s| && s[j] == y;
    assert !(i < j) && !(j < i);
  }

  lemma IdsAppend(a: seq<ReplicaSet>, b: seq<ReplicaSet>)
    ensures Ids(a + b) == Ids(a) + Ids(b)
  {
  }

  lemma {:induction false} IdsPermuted(a: seq<ReplicaSet>, b: seq<ReplicaSet>)
    requires multiset(a) == multiset(b)
    ensures SameIds(a, b)
  {
    PermutedLength(a, b);
    if a != [] {
      var i := PermutedTails(a, b);
      IdsPermuted(a[1..], RemoveAt(b, i));
      IdsWithout(a, b, i);
    }
  }

  lemma IdsWithout(a: seq<ReplicaSet>, b: seq<ReplicaSet>, i: nat)
    requires a != [] && i < |b| && b[i] == a[0] && SameIds(a[1..], RemoveAt(b, i))
    ensures SameIds(a, b)
  {
    hide Ids;
    assert Ids(RemoveAt(b, i)) == RemoveAt(Ids(b), i);
    assert Ids(a)[1..] == Ids(a[1..]);
    RemoveAtCounts(Ids(b), i);
    HeadCounts(Ids(a));
  }

  lemma DistinctByIds(a: seq<ReplicaSet>, b: seq<ReplicaSet>)
    requires SameIds(a, b) && Distinct(a)
    ensures Distinct(b)
  {
    assert Distinct(Ids(a));
    DistinctPermuted(Ids(a), Ids(b));
    forall i, j | 0 <= i < j < |b| ensures b[i].name != b[j].name && b[i].uid != b[j].uid {
      assert Ids(b)[i].name != Ids(b)[j].name;
    }
  }

  /** The entry of b that is the same set as an entry of a. */
  lemma Counterpart(a: seq<ReplicaSet>, b: seq<ReplicaSet>, x: ReplicaSet) returns (y: ReplicaSet)
    requires SameIds(a, b) && x in a
    ensures y in b && Id(y) == Id(x)
  {
    var i :| 0 <= i < |a| && a[i] == x;
    assert Ids(a)[i] == Id(x);
    assert Id(x) in multiset(Ids(b));
    var j :| 0 <= j < |b| && Ids(b)[j] == Id(x);
    y := b[j];
  }

  lemma {:induction false} ActiveDistinct(s: seq<ReplicaSet>)
    requires Distinct(s)
    ensures Distinct(Active(s)) && Distinct(Inactive(s))
  {
    if s != [] {
      DistinctHead(s);
      ActiveDistinct(s[1..]);
      if IsActive(s[0]) {
        assert Active(s)[1..] == Active(s[1..]);
        DistinctHead(Active(s));
      } else {
        assert Inactive(s)[1..] == Inactive(s[1..]);
        DistinctHead(Inactive(s));
      }
    }
  }

  /** Sums the source computes by loops over the list. */
  method GetReplicaCountForReplicaSets(rss: seq<ReplicaSet>) returns (total: int)
    ensures total == Total(Size, rss)
  {
    total := 0;
    for i := 0 to |rss|
      invariant total == Total(Size, rss[..i])
    {
      assert rss[..i + 1] == rss[..i] + [rss[i]];
      TotalAppend(Size, rss[..i], [rss[i]]);
      total := total + rss[i].size;
    }
    assert rss[..|rss|] == rss;
  }

  method GetAvailableReplicaCountForReplicaSets(rss: seq<ReplicaSet>) returns (total: int)
    ensures total == Total(Available, rss)
  {
    total := 0;
    for i := 0 to |rss|
      invariant total == Total(Available, rss[..i])
    {
      assert rss[..i + 1] == rss[..i] + [rss[i]];
      TotalAppend(Available, rss[..i], [rss[i]]);
      total := total + rss[i].available;
    }
    assert rss[..|rss|] == rss;
  }

  lemma {:induction false} ActiveAppend(a: seq<ReplicaSet>, b: seq<ReplicaSet>)
    ensures Active(a + b) == Active(a) + Active(b)
  {
    if a == [] {
      assert a + b == b;
    } else {
      assert (a + b)[1..] == a[1..] + b;
      ActiveAppend(a[1..], b);
    }
  }

  lemma ActiveHead(s: seq<ReplicaSet>)
    requires s != []
    ensures Active(s) == (if IsActive(s[0]) then [s[0]] else []) + Active(s[1..])
  {
  }

  lemma {:induction false} AllActive(rss: seq<ReplicaSet>)
    requires forall rs :: rs in rss ==> IsActive(rs)
    ensures Active(rss) == rss && Inactive(rss) == []
  {
    if rss != [] {
      assert rss[0] in rss && forall x :: x in rss[1..] ==> x in rss;
      AllActive(rss[1..]);
    }
  }

  lemma NoneActive()
    ensures Active([]) == []
  {
  }

  lemma ActiveOfOne(x: ReplicaSet)
    ensures Active([x]) == if IsActive(x) then [x] else []
  {
  }

  method FilterActiveReplicaSets(rss: seq<ReplicaSet>) returns (filtered: seq<ReplicaSet>)
    ensures filtered == Active(rss)
  {
    hide Active;
    filtered := [];
    NoneActive();
    for i := 0 to |rss|
      invariant filtered == Active(rss[..i])
    {
      assert rss[..i + 1] == rss[..i] + [rss[i]];
      ActiveAppend(rss[..i], [rss[i]]);
      ActiveOfOne(rss[i]);
      if IsActive(rss[i]) {
        filtered := filtered + [rss[i]];
      }
    }
    assert rss[..|rss|] == rss;
  }
}
