/**
  The four sort orders over replica sets, sorting in place, and the choice of the new replica
  set by the oldest matching template (pkg/util/deployment/deployment.go).
 */
module Ordering {
  import opened Base
  import opened Limits
  import opened ReplicaSets

  datatype Order = ByCreation | ByCreationReversed | BySmallerRevision | BySizeOlder | BySizeNewer

  /** Byte order of names. */
  predicate NameLess(a: string, b: string) {
    b != [] && (a == [] || a[0] < b[0] || (a[0] == b[0] && NameLess(a[1..], b[1..])))
  }

  predicate CreatedBefore(x: ReplicaSet, y: ReplicaSet) {
    if x.created == y.created then NameLess(x.name, y.name) else x.created < y.created
  }

  /** The number a revision annotation stands for; None when it does not parse. */
  function RevisionOf(rs: ReplicaSet): Option<int> {
    match rs.revision
    case Absent => Some(0)
    case Number(v) => Some(v)
    case Garbled => None
  }

  /** The same with an unparsable annotation counted as 0. */
  function RevisionNumber(rs: ReplicaSet): int {
    if RevisionOf(rs).Some? then RevisionOf(rs).value else 0
  }

  predicate Less(o: Order, x: ReplicaSet, y: ReplicaSet) {
    match o
    case ByCreation => CreatedBefore(x, y)
    case ByCreationReversed => CreatedBefore(y, x)
    case BySmallerRevision =>
      var a, b := RevisionOf(x), RevisionOf(y);
      if a.None? || b.None? || a == b then CreatedBefore(x, y) else a.value > b.value
    case BySizeOlder => if x.size == y.size then CreatedBefore(x, y) else x.size > y.size
    case BySizeNewer => if x.size == y.size then CreatedBefore(y, x) else x.size > y.size
  }

  /** An unparsable revision whose set was created between two sets that the revision order wants
      the other way round. */
  predicate Straddled(x: ReplicaSet, y: ReplicaSet, z: ReplicaSet) {
    && RevisionOf(x).Some? && RevisionOf(y).None? && RevisionOf(z).Some?
    && RevisionOf(x).value < RevisionOf(z).value
    && CreatedBefore(x, y) && CreatedBefore(y, z)
  }

  /** Where the order is a strict total one: always, except that no revision may be straddled. */
  ghost predicate Comparable(o: Order, s: seq<ReplicaSet>) {
    o.BySmallerRevision? ==> forall x, y, z :: x in s && y in s && z in s ==> !Straddled(x, y, z)
  }

  ghost predicate Ordered(o: Order, s: seq<ReplicaSet>) {
    forall i, j :: 0 <= i < j < |s| ==> Less(o, s[i], s[j])
  }

  function Insert(o: Order, x: ReplicaSet, s: seq<ReplicaSet>): seq<ReplicaSet> {
    if s == [] then [x]
    else if Less(o, x, s[0]) then [x] + s
    else [s[0]] + Insert(o, x, s[1..])
  }

  function Sorted(o: Order, s: seq<ReplicaSet>): seq<ReplicaSet> {
    if s == [] then [] else Insert(o, s[0], Sorted(o, s[1..]))
  }

  lemma {:induction false} NameOrder(a: string, b: string, c: string)
    ensures !NameLess(a, a)
    ensures a != b ==> (NameLess(a, b) <==> !NameLess(b, a))
    ensures NameLess(a, b) && NameLess(b, c) ==> NameLess(a, c)
    decreases |a| + |b| + |c|
  {
    if a != [] {
      NameOrder(a[1..], if b == [] then [] else b[1..], if c == [] then [] else c[1..]);
      if b != [] && a[0] == b[0] {
        assert a == [a[0]] + a[1..] && b == [b[0]] + b[1..];
      }
    }
  }

  /** The place at which two names part: there the one ends or has the smaller letter. */
  ghost predicate PartsAt(a: string, b: string, k: nat) {
    k <= |a| && k < |b| && a[..k] == b[..k] && (k == |a| || a[k] < b[k])
  }

  lemma {:induction false} NamesPart(a: string, b: string)
    ensures NameLess(a, b) <==> exists k :: PartsAt(a, b, k)
  {
    if a != [] && b != [] && a[0] == b[0] {
      NamesPart(a[1..], b[1..]);
      if k: nat :| PartsAt(a[1..], b[1..], k) {
        assert a[..k + 1] == [a[0]] + a[1..][..k] && b[..k + 1] == [b[0]] + b[1..][..k];
        assert PartsAt(a, b, k + 1);
      }
      if k: nat :| PartsAt(a, b, k) {
        assert k > 0 && a[..k][1..] == a[1..][..k - 1] && b[..k][1..] == b[1..][..k - 1];
        assert PartsAt(a[1..], b[1..], k - 1);
      }
    } else {
      if NameLess(a, b) {
        assert PartsAt(a, b, 0);
      }
      if k: nat :| PartsAt(a, b, k) {
        if k > 0 {
          SameStart(a, b, k);
        }
      }
    }
  }

  lemma SameStart(a: string, b: string, k: nat)
    requires 0 < k <= |a| && k <= |b| && a[..k] == b[..k]
    ensures a[0] == b[0]
  {
    assert a[0] == a[..k][0] && b[0] == b[..k][0];
  }

  /** Of two matching sets created in the same second the one with the smaller name is the new one. */
  lemma SameSecondByName(t: Template, x: ReplicaSet, y: ReplicaSet)
    requires x.template == t == y.template && x.created == y.created && Distinct([x, y])
    ensures NewOf(t, [x, y]) == Some(x) <==> exists k :: PartsAt(x.name, y.name, k)
  {
    NamesPart(x.name, y.name);
    assert x in [x, y] && y in [x, y] && [x, y][0].name != [x, y][1].name;
    NewOfIsNew(t, [x, y], x);
  }

  /** A set without a revision counts as revision 0: exactly those of a positive one go before it, and
      those of revision 0 that are older. */
  lemma AbsentIsZero(x: ReplicaSet, y: ReplicaSet, v: int)
    requires y.revision == Absent && x.revision == Number(v)
    ensures Less(BySmallerRevision, x, y) <==> v > 0 || (v == 0 && CreatedBefore(x, y))
    ensures Less(BySmallerRevision, y, x) <==> v < 0 || (v == 0 && CreatedBefore(y, x))
  {
  }

  /** Each order is a strict total order on sets with different names; the revision order as long
      as none of the three is straddled. */
  lemma StrictTotalOrder(o: Order, x: ReplicaSet, y: ReplicaSet, z: ReplicaSet)
    requires Comparable(o, [x, y, z])
    ensures !Less(o, x, x)
    ensures x.name != y.name ==> (Less(o, x, y) <==> !Less(o, y, x))
    ensures Less(o, x, y) && Less(o, y, z)
            ==> Less(o, x, z) || (o.BySmallerRevision? && x.name == z.name && (RevisionOf(x).None? || RevisionOf(z).None?))
  {
    NameOrder(x.name, y.name, z.name);
    NameOrder(z.name, y.name, x.name);
    NameOrder(x.name, z.name, y.name);
    NameOrder(z.name, x.name, y.name);
    assert x in [x, y, z] && y in [x, y, z] && z in [x, y, z];
    assert o.BySmallerRevision? ==> !Straddled(x, y, z) && !Straddled(z, x, y) && !Straddled(y, z, x);
  }

  /** A straddled revision closes a cycle of three. */
  lemma StraddledCycle(x: ReplicaSet, y: ReplicaSet, z: ReplicaSet)
    ensures Straddled(x, y, z)
            ==> Less(BySmallerRevision, x, y) && Less(BySmallerRevision, y, z) && Less(BySmallerRevision, z, x)
  {
  }

  /** It does happen: three sets of which the middle one's annotation is not a number. */
  lemma GarbledRevisionCycle() returns (x: ReplicaSet, y: ReplicaSet, z: ReplicaSet)
    ensures Distinct([x, y, z]) && Straddled(x, y, z)
    ensures Less(BySmallerRevision, x, y) && Less(BySmallerRevision, y, z) && Less(BySmallerRevision, z, x)
  {
    x := ReplicaSet("a", 1, 1, 0, Number(1), 1, 1, None, None);
    y := ReplicaSet("b", 2, 2, 0, Garbled, 1, 1, None, None);
    z := ReplicaSet("c", 3, 3, 0, Number(2), 1, 1, None, None);
  }

  ghost predicate Transitive(o: Order, s: seq<ReplicaSet>) {
    forall x, y, z :: x in s && y in s && z in s && Less(o, x, y) && Less(o, y, z) ==> Less(o, x, z)
  }

  /** The revision order is transitive on the sets of a deployment exactly when no unparsable
      revision is straddled. */
  lemma TransitiveExactly(o: Order, s: seq<ReplicaSet>)
    requires Distinct(s)
    ensures Transitive(o, s) <==> Comparable(o, s)
  {
    if Comparable(o, s) {
      forall x, y, z | x in s && y in s && z in s && Less(o, x, y) && Less(o, y, z) ensures Less(o, x, z) {
        assert Comparable(o, [x, y, z]);
        StrictTotalOrder(o, x, y, z);
        StrictTotalOrder(o, y, x, y);
        if x.name == z.name {
          DistinctNames(s, x, z);
        } else if x.name == y.name {
          DistinctNames(s, x, y);
        }
      }
    } else {
      var x, y, z :| x in s && y in s && z in s && Straddled(x, y, z);
      StraddledCycle(x, y, z);
      assert Comparable(ByCreation, [x, z, x]);
      StrictTotalOrder(ByCreation, x, z, x);
      assert !Less(o, x, z);
    }
  }

  lemma {:induction false} InsertPermutes(o: Order, x: ReplicaSet, s: seq<ReplicaSet>)
    ensures multiset(Insert(o, x, s)) == multiset{x} + multiset(s)
  {
    if s != [] {
      assert s == [s[0]] + s[1..];
      InsertPermutes(o, x, s[1..]);
    }
  }

  lemma {:induction false} SortedPermutes(o: Order, s: seq<ReplicaSet>)
    ensures multiset(Sorted(o, s)) == multiset(s) && |Sorted(o, s)| == |s|
    ensures Distinct(s) ==> Distinct(Sorted(o, s))
    ensures forall x :: x in Sorted(o, s) <==> x in s
  {
    if s != [] {
      assert s == [s[0]] + s[1..];
      SortedPermutes(o, s[1..]);
      InsertPermutes(o, s[0], Sorted(o, s[1..]));
    }
    assert |multiset(Sorted(o, s))| == |multiset(s)|;
    assert forall x :: x in Sorted(o, s) <==> x in multiset(Sorted(o, s));
    assert forall x :: x in s <==> x in multiset(s);
    if Distinct(s) {
      DistinctPermuted(s, Sorted(o, s));
    }
  }

  lemma ComparableSubset(o: Order, s: seq<ReplicaSet>, t: seq<ReplicaSet>)
    requires Comparable(o, s) && forall x :: x in t ==> x in s
    ensures Comparable(o, t)
  {
  }

  lemma FrontOrdered(o: Order, x: ReplicaSet, t: seq<ReplicaSet>)
    requires Ordered(o, t) && forall y :: y in t ==> Less(o, x, y)
    ensures Ordered(o, [x] + t)
  {
    hide Less;
  }

  /** A set that comes before the first of an ordered list comes before all of them. */
  lemma BeforeAll(o: Order, x: ReplicaSet, s: seq<ReplicaSet>)
    requires s != [] && Ordered(o, s) && Comparable(o, [x] + s) && Less(o, x, s[0])
    requires forall y :: y in s ==> y.name != x.name
    ensures forall y :: y in s ==> Less(o, x, y)
  {
    hide Less, Comparable;
    forall i | 0 < i < |s| ensures Less(o, x, s[i]) {
      assert Less(o, s[0], s[i]);
      ComparableSubset(o, [x] + s, [x, s[0], s[i]]);
      StrictTotalOrder(o, x, s[0], s[i]);
    }
  }

  lemma InsertMembers(o: Order, x: ReplicaSet, s: seq<ReplicaSet>)
    ensures forall y :: y in Insert(o, x, s) ==> y == x || y in s
  {
    InsertPermutes(o, x, s);
    assert forall y :: y in Insert(o, x, s) ==> y in multiset(Insert(o, x, s));
    assert forall y :: y in multiset(s) ==> y in s;
  }

  lemma HeadBefore(o: Order, s: seq<ReplicaSet>)
    requires s != [] && Ordered(o, s)
    ensures Ordered(o, s[1..]) && forall y :: y in s[1..] ==> Less(o, s[0], y)
  {
    hide Less;
    assert forall i :: 0 <= i < |s[1..]| ==> s[1..][i] == s[i + 1];
  }

  lemma {:induction false} InsertOrdered(o: Order, x: ReplicaSet, s: seq<ReplicaSet>)
    requires Ordered(o, s) && Comparable(o, [x] + s)
    requires forall y :: y in s ==> y.name != x.name
    ensures Ordered(o, Insert(o, x, s))
  {
    hide Less, Comparable, Ordered;
    if s == [] {
      SingleOrdered(o, x);
    } else {
      ComparableSubset(o, [x] + s, [x, s[0], x]);
      StrictTotalOrder(o, x, s[0], x);
      if Less(o, x, s[0]) {
        BeforeAll(o, x, s);
        FrontOrdered(o, x, s);
      } else {
        ComparableSubset(o, [x] + s, [x] + s[1..]);
        HeadBefore(o, s);
        InsertOrdered(o, x, s[1..]);
        InsertMembers(o, x, s[1..]);
        FrontOrdered(o, s[0], Insert(o, x, s[1..]));
      }
    }
  }

  lemma SingleOrdered(o: Order, x: ReplicaSet)
    ensures Ordered(o, [x])
  {
  }

  lemma {:induction false} SortedOrdered(o: Order, s: seq<ReplicaSet>)
    requires Distinct(s) && Comparable(o, s)
    ensures Ordered(o, Sorted(o, s))
  {
    if s != [] {
      DistinctHead(s);
      SortedOrdered(o, s[1..]);
      SortedPermutes(o, s[1..]);
      assert forall y :: y in Sorted(o, s[1..]) ==> y in s[1..];
      InsertOrdered(o, s[0], Sorted(o, s[1..]));
    }
  }

  lemma OrderedIsComparable(o: Order, t: seq<ReplicaSet>, x: ReplicaSet, y: ReplicaSet, z: ReplicaSet)
    requires Distinct(t) && Ordered(o, t) && x in t && y in t && z in t
    ensures !(o.BySmallerRevision? && Straddled(x, y, z))
  {
    StraddledCycle(x, y, z);
    var i :| 0 <= i < |t| && t[i] == x;
    var j :| 0 <= j < |t| && t[j] == y;
    var k :| 0 <= k < |t| && t[k] == z;
    if j <= i {
      OrderedAgrees(o, t, j, i);
    } else if k <= j {
      OrderedAgrees(o, t, k, j);
    } else {
      OrderedAgrees(o, t, i, k);
    }
  }

  lemma OrderedAgrees(o: Order, t: seq<ReplicaSet>, i: nat, j: nat)
    requires Distinct(t) && Ordered(o, t) && i <= j < |t|
    ensures !Less(o, t[j], t[i])
  {
    StrictTotalOrder(ByCreation, t[i], t[j], t[i]);
    assert i < j ==> Less(o, t[i], t[j]) && t[i].name != t[j].name;
  }

  lemma OrderedPlaces(o: Order, t: seq<ReplicaSet>)
    requires Distinct(t) && Ordered(o, t)
    ensures forall i, j :: 0 <= i <= j < |t| ==> !Less(o, t[j], t[i])
  {
    forall i, j | 0 <= i <= j < |t| ensures !Less(o, t[j], t[i]) {
      OrderedAgrees(o, t, i, j);
    }
  }

  /** The sets of a deployment can be put in order at all exactly when no unparsable revision is
      straddled; and then sorting does it. */
  lemma OrderedExactly(o: Order, s: seq<ReplicaSet>)
    requires Distinct(s)
    ensures Comparable(o, s) <==> Ordered(o, Sorted(o, s))
    ensures Comparable(o, s) <==> exists t :: multiset(t) == multiset(s) && Ordered(o, t)
  {
    SortedPermutes(o, s);
    if Comparable(o, s) {
      SortedOrdered(o, s);
    }
    forall t | multiset(t) == multiset(s) && Ordered(o, t) ensures Comparable(o, s) {
      DistinctPermuted(s, t);
      PermutedLength(s, t);
      forall x, y, z | x in s && y in s && z in s ensures !(o.BySmallerRevision? && Straddled(x, y, z)) {
        OrderedIsComparable(o, t, x, y, z);
      }
    }
  }

  lemma OrderedHeads(o: Order, a: seq<ReplicaSet>, b: seq<ReplicaSet>)
    requires a != [] && b != [] && b[0] in a && a[0] in b
    requires Ordered(o, a) && Ordered(o, b) && Distinct(a) && Comparable(o, a)
    ensures a[0] == b[0]
  {
    var i :| 0 <= i < |b| && b[i] == a[0];
    var j :| 0 <= j < |a| && a[j] == b[0];
    if i > 0 && j > 0 {
      assert Less(o, b[0], b[i]) && Less(o, a[0], a[j]);
      assert a[0].name != a[j].name;
      StrictTotalOrder(o, a[0], b[0], a[0]);
    }
  }

  lemma OrderedTail(o: Order, s: seq<ReplicaSet>)
    requires s != [] && Ordered(o, s)
    ensures Ordered(o, s[1..])
    ensures Comparable(o, s) ==> Comparable(o, s[1..])
  {
    forall i, j | 0 <= i < j < |s[1..]| ensures Less(o, s[1..][i], s[1..][j]) {
      assert Less(o, s[i + 1], s[j + 1]);
    }
  }

  /** An ordered arrangement of given sets is unique. */
  lemma {:induction false} OrderedUnique(o: Order, a: seq<ReplicaSet>, b: seq<ReplicaSet>)
    requires multiset(a) == multiset(b) && Ordered(o, a) && Ordered(o, b)
    requires Distinct(a) && Comparable(o, a)
    ensures a == b
  {
    PermutedLength(a, b);
    if a != [] {
      OrderedHeads(o, a, b);
      PermutedRest(a, b);
      OrderedTail(o, a);
      OrderedTail(o, b);
      DistinctHead(a);
      OrderedUnique(o, a[1..], b[1..]);
      assert a == [a[0]] + a[1..] && b == [b[0]] + b[1..];
    }
  }

  /** Sorting forgets the order the API server listed the sets in. */
  lemma SortedCanonical(o: Order, a: seq<ReplicaSet>, b: seq<ReplicaSet>)
    requires multiset(a) == multiset(b) && Distinct(a) && Comparable(o, a)
    ensures Sorted(o, a) == Sorted(o, b)
  {
    DistinctPermuted(a, b);
    assert forall x :: x in b ==> x in multiset(b);
    assert forall x :: x in multiset(a) ==> x in a;
    SortedOrdered(o, a);
    SortedOrdered(o, b);
    SortedPermutes(o, a);
    SortedPermutes(o, b);
    OrderedUnique(o, Sorted(o, a), Sorted(o, b));
  }

  /** sort.Sort over one of the orders: rearranges a slice, here the front of an array, in place. */
  method SortPrefix(o: Order, a: array<ReplicaSet>, n: nat)
    requires n <= a.Length
    modifies a
    ensures a[..n] == Sorted(o, old(a[..n])) && a[n..] == old(a[n..])
  {
    hide Sorted, Distinct;
    var s := Sorted(o, a[..n]);
    SortedPermutes(o, a[..n]);
    for i := 0 to n
      invariant forall k :: 0 <= k < i ==> a[k] == s[k]
      invariant forall k :: n <= k < a.Length ==> a[k] == old(a[k])
    {
      a[i] := s[i];
    }
  }

  method SortInPlace(o: Order, a: array<ReplicaSet>)
    modifies a
    ensures a[..] == Sorted(o, old(a[..]))
  {
    assert a[..] == a[..a.Length];
    SortPrefix(o, a, a.Length);
    assert a[..] == a[..a.Length];
  }

  // ---- the new replica set and the old ones ----

  function FirstMatch(t: Template, s: seq<ReplicaSet>): (r: Option<ReplicaSet>)
    ensures r.Some? ==> r.value in s && r.value.template == t
    ensures r.None? ==> forall x :: x in s ==> x.template != t
  {
    if s == [] then None
    else if s[0].template == t then Some(s[0])
    else FirstMatch(t, s[1..])
  }

  /** The oldest set with the deployment's template. */
  function NewOf(t: Template, rss: seq<ReplicaSet>): Option<ReplicaSet> {
    FirstMatch(t, Sorted(ByCreation, rss))
  }

  function Without(uid: nat, rss: seq<ReplicaSet>): (r: seq<ReplicaSet>)
    ensures forall x :: x in r <==> x in rss && x.uid != uid
  {
    if rss == [] then [] else (if rss[0].uid == uid then [] else [rss[0]]) + Without(uid, rss[1..])
  }

  /** All sets but the new one, oldest first. */
  function OldsOf(t: Template, rss: seq<ReplicaSet>): seq<ReplicaSet> {
    var sorted := Sorted(ByCreation, rss);
    var found := FirstMatch(t, sorted);
    if found.None? then sorted else Without(found.value.uid, sorted)
  }

  lemma {:induction false} FirstMatchEarliest(t: Template, s: seq<ReplicaSet>, y: ReplicaSet)
    requires Ordered(ByCreation, s) && y in s && y.template == t
    ensures FirstMatch(t, s).Some?
    ensures FirstMatch(t, s).value == y || CreatedBefore(FirstMatch(t, s).value, y)
  {
    if s[0].template == t {
      var i :| 0 <= i < |s| && s[i] == y;
      if i > 0 {
        assert Less(ByCreation, s[0], s[i]);
      }
    } else {
      FirstMatchEarliest(t, s[1..], y);
    }
  }

  /** What the choice means: the matching set that was created before every other matching one. */
  ghost predicate IsNew(t: Template, rss: seq<ReplicaSet>, x: ReplicaSet) {
    && x in rss && x.template == t
    && forall y :: y in rss && y.template == t ==> x == y || CreatedBefore(x, y)
  }

  lemma NewOfIsNew(t: Template, rss: seq<ReplicaSet>, x: ReplicaSet)
    requires Distinct(rss)
    ensures NewOf(t, rss) == Some(x) <==> IsNew(t, rss, x)
    ensures NewOf(t, rss).None? <==> forall y :: y in rss ==> y.template != t
  {
    SortedPermutes(ByCreation, rss);
    SortedOrdered(ByCreation, rss);
    var s := Sorted(ByCreation, rss);
    forall y | y in rss && y.template == t
      ensures NewOf(t, rss).Some? && (NewOf(t, rss).value == y || CreatedBefore(NewOf(t, rss).value, y))
    {
      FirstMatchEarliest(t, s, y);
    }
    if NewOf(t, rss).Some? && IsNew(t, rss, x) {
      StrictTotalOrder(ByCreation, x, NewOf(t, rss).value, x);
    }
  }

  /** The same set is chosen, and the same old list is left, for every listing order. */
  lemma NewOfPermuted(t: Template, a: seq<ReplicaSet>, b: seq<ReplicaSet>)
    requires multiset(a) == multiset(b) && Distinct(a)
    ensures NewOf(t, a) == NewOf(t, b)
    ensures OldsOf(t, a) == OldsOf(t, b)
  {
    SortedCanonical(ByCreation, a, b);
  }

  /** The choice only looks at what identifies the sets, never at sizes or pods. */
  lemma NewOfSameIds(t: Template, a: seq<ReplicaSet>, b: seq<ReplicaSet>, x: ReplicaSet)
    requires SameIds(a, b) && Distinct(a)
    ensures NewOf(t, a).Some? && x in b && Id(x) == Id(NewOf(t, a).value) ==> NewOf(t, b) == Some(x)
    ensures NewOf(t, a).None? ==> NewOf(t, b).None?
  {
    DistinctByIds(a, b);
    forall y | y in b && y.template == t
      ensures NewOf(t, a).Some?
              && (x in b && Id(x) == Id(NewOf(t, a).value) ==> x == y || CreatedBefore(x, y))
    {
      var w := Counterpart(b, a, y);
      NewOfIsNew(t, a, w);
      if NewOf(t, a).Some? {
        NewOfIsNew(t, a, NewOf(t, a).value);
        if x in b && Id(x) == Id(NewOf(t, a).value) && x != y {
          DistinctPair(b, x, y);
        }
      }
    }
    NewOfIsNew(t, b, x);
  }

  lemma {:induction false} WithoutSplits(x: ReplicaSet, s: seq<ReplicaSet>)
    requires Distinct(s) && x in s
    ensures multiset(s) == multiset(Without(x.uid, s)) + multiset{x}
    ensures Distinct(Without(x.uid, s))
  {
    HeadCounts(s);
    DistinctHead(s);
    if s[0].uid == x.uid {
      DistinctNames(s, s[0], x);
      WithoutAbsent(x.uid, s[1..]);
    } else {
      WithoutSplits(x, s[1..]);
      var rest := Without(x.uid, s[1..]);
      var w := Without(x.uid, s);
      assert w == [s[0]] + rest && w[1..] == rest;
      DistinctHead(w);
    }
  }

  lemma {:induction false} WithoutAbsent(uid: nat, s: seq<ReplicaSet>)
    requires forall y :: y in s ==> y.uid != uid
    ensures Without(uid, s) == s
  {
    if s != [] {
      WithoutAbsent(uid, s[1..]);
    }
  }

  /** Nothing lost, nothing listed twice: the new set and the old ones make up the listing. */
  lemma OldsAreTheRest(t: Template, rss: seq<ReplicaSet>)
    requires Distinct(rss)
    ensures multiset(rss) == multiset(OldsOf(t, rss))
                             + (if NewOf(t, rss).Some? then multiset{NewOf(t, rss).value} else multiset{})
    ensures Distinct(OldsOf(t, rss))
    ensures forall x :: x in OldsOf(t, rss) <==> x in rss && NewOf(t, rss) != Some(x)
  {
    SortedPermutes(ByCreation, rss);
    var found := NewOf(t, rss);
    if found.Some? {
      WithoutSplits(found.value, Sorted(ByCreation, rss));
      forall x | x in rss ensures x.uid == found.value.uid <==> x == found.value {
        if x.uid == found.value.uid {
          DistinctNames(rss, x, found.value);
        }
      }
    }
  }

  /** Two sets of which one matches. */
  lemma PairListing(t: Template, oldRS: ReplicaSet, newRS: ReplicaSet)
    requires Distinct([oldRS, newRS]) && newRS.template == t != oldRS.template
    ensures NewOf(t, [oldRS, newRS]) == Some(newRS) && OldsOf(t, [oldRS, newRS]) == [oldRS]
  {
    hide Sorted, NewOf, OldsOf;
    var rss := [oldRS, newRS];
    assert newRS in rss && rss == [oldRS] + [newRS];
    NewOfIsNew(t, rss, newRS);
    var rest := OldsOf(t, rss);
    OldsAreTheRest(t, rss);
    assert multiset(rest) == multiset(rss) - multiset{newRS} == multiset([oldRS]);
    PermutedLength(rest, [oldRS]);
    assert rest == [oldRS];
  }

  lemma {:induction false} FirstMatchSkips(t: Template, s: seq<ReplicaSet>, i: nat)
    requires i < |s| && s[i].template == t && forall j :: 0 <= j < i ==> s[j].template != t
    ensures FirstMatch(t, s) == Some(s[i])
  {
    if i > 0 {
      FirstMatchSkips(t, s[1..], i - 1);
    }
  }

  method FindNewReplicaSet(t: Template, rsList: array<ReplicaSet>) returns (r: Option<ReplicaSet>)
    modifies rsList
    ensures rsList[..] == Sorted(ByCreation, old(rsList[..]))
    ensures r == NewOf(t, old(rsList[..]))
  {
    SortInPlace(ByCreation, rsList);
    for i := 0 to rsList.Length
      invariant forall j :: 0 <= j < i ==> rsList[j].template != t
      invariant rsList[..] == Sorted(ByCreation, old(rsList[..]))
    {
      if rsList[i].template == t {
        FirstMatchSkips(t, rsList[..], i);
        return Some(rsList[i]);
      }
    }
    r := None;
  }

  lemma {:induction false} WithoutAppend(uid: nat, a: seq<ReplicaSet>, b: seq<ReplicaSet>)
    ensures Without(uid, a + b) == Without(uid, a) + Without(uid, b)
  {
    if a == [] {
      assert a + b == b;
    } else {
      assert (a + b)[1..] == a[1..] + b;
      WithoutAppend(uid, a[1..], b);
    }
  }

  lemma WithoutOne(s: seq<ReplicaSet>)
    ensures forall uid :: Without(uid, []) == []
    ensures forall uid, i :: 0 <= i < |s| ==> Without(uid, [s[i]]) == if s[i].uid == uid then [] else [s[i]]
  {
  }

  /** The sets that have pods, in list order. */
  function WithPods(rss: seq<ReplicaSet>): seq<ReplicaSet> {
    if rss == [] then [] else (if rss[0].size != 0 then [rss[0]] else []) + WithPods(rss[1..])
  }

  lemma {:induction false} WithPodsAppend(a: seq<ReplicaSet>, x: ReplicaSet)
    ensures WithPods(a + [x]) == WithPods(a) + (if x.size != 0 then [x] else [])
  {
    if a == [] {
      assert a + [x] == [x];
    } else {
      assert (a + [x])[1..] == a[1..] + [x] && (a + [x])[0] == a[0];
      WithPodsAppend(a[1..], x);
      assert WithPods(a) == (if a[0].size != 0 then [a[0]] else []) + WithPods(a[1..]);
    }
  }

  method FindOldReplicaSets(t: Template, rsList: array<ReplicaSet>)
    returns (required: seq<ReplicaSet>, all: seq<ReplicaSet>)
    modifies rsList
    ensures rsList[..] == Sorted(ByCreation, old(rsList[..]))
    ensures all == OldsOf(t, old(rsList[..]))
    ensures required == WithPods(all)
  {
    hide Sorted, Without, FirstMatch;
    var newRS := FindNewReplicaSet(t, rsList);
    required, all := [], [];
    WithoutOne(rsList[..]);
    for i := 0 to rsList.Length
      invariant rsList[..] == Sorted(ByCreation, old(rsList[..]))
      invariant all == if newRS.None? then rsList[..i] else Without(newRS.value.uid, rsList[..i])
      invariant required == WithPods(all)
    {
      assert rsList[..i + 1] == rsList[..i] + [rsList[i]];
      if newRS.Some? {
        WithoutAppend(newRS.value.uid, rsList[..i], [rsList[i]]);
        assert rsList[i] == rsList[..][i];
      }
      if newRS.None? || rsList[i].uid != newRS.value.uid {
        WithPodsAppend(all, rsList[i]);
        all := all + [rsList[i]];
        if rsList[i].size != 0 {
          required := required + [rsList[i]];
        }
      }
    }
    assert rsList[..rsList.Length] == rsList[..];
  }
}
