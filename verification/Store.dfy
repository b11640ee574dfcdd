/** The replica sets the API server holds, keyed by name, and what a list of writes makes of them. */
module Store {
  import opened Base
  import opened ReplicaSets

  type ReplicaSetStore = map<string, ReplicaSet>

  /** The store after every set of the list has been written. */
  function Merge(store: ReplicaSetStore, list: seq<ReplicaSet>): ReplicaSetStore {
    if list == [] then store
    else Merge(store, list[..|list| - 1])[list[|list| - 1].name := list[|list| - 1]]
  }

  /** The list in memory is what the store holds: the reads were current. */
  ghost predicate Current(store: ReplicaSetStore, list: seq<ReplicaSet>) {
    forall rs :: rs in list ==> rs.name in store && store[rs.name] == rs
  }

  ghost predicate Names(list: seq<ReplicaSet>, name: string) {
    exists i :: 0 <= i < |list| && list[i].name == name
  }

  lemma NamesOfSameIds(a: seq<ReplicaSet>, b: seq<ReplicaSet>, name: string)
    requires SameIds(a, b) && Names(a, name)
    ensures Names(b, name)
  {
    var i :| 0 <= i < |a| && a[i].name == name;
    var y := Counterpart(a, b, a[i]);
    var j :| 0 <= j < |b| && b[j] == y;
    assert b[j].name == Id(y).name == Id(a[i]).name == name;
  }

  lemma NamesOfPrefix(list: seq<ReplicaSet>, k: nat, name: string)
    requires k <= |list| && Names(list[..k], name)
    ensures Names(list, name)
  {
    var i :| 0 <= i < k && list[..k][i].name == name;
    assert list[i].name == name;
  }

  lemma {:induction false} MergeLookup(store: ReplicaSetStore, list: seq<ReplicaSet>)
    requires Distinct(list)
    ensures forall i :: 0 <= i < |list| ==> list[i].name in Merge(store, list) && Merge(store, list)[list[i].name] == list[i]
    ensures forall name :: !Names(list, name) ==>
                             (name in Merge(store, list) <==> name in store)
                             && (name in store ==> Merge(store, list)[name] == store[name])
  {
    if list != [] {
      var init := list[..|list| - 1];
      MergeLookup(store, init);
      forall i | 0 <= i < |list| - 1 ensures list[i].name != list[|list| - 1].name && list[i] == init[i] {}
      forall name | Names(init, name) ensures Names(list, name) {
        NamesOfPrefix(list, |list| - 1, name);
      }
    }
  }

  /** Two stores agree when they agree on every name. */
  lemma SameStore(a: ReplicaSetStore, b: ReplicaSetStore)
    requires forall name :: (name in a <==> name in b) && (name in a ==> a[name] == b[name])
    ensures a == b
  {
  }

  lemma MergeCurrent(store: ReplicaSetStore, list: seq<ReplicaSet>)
    requires Distinct(list) && Current(store, list)
    ensures Merge(store, list) == store
  {
    MergeLookup(store, list);
    forall name ensures (name in Merge(store, list) <==> name in store)
                        && (name in store ==> Merge(store, list)[name] == store[name]) {
      if Names(list, name) {
        var i :| 0 <= i < |list| && list[i].name == name;
        assert list[i] in list;
      }
    }
    SameStore(Merge(store, list), store);
  }

  lemma MergeUpdate(store: ReplicaSetStore, list: seq<ReplicaSet>, i: nat, y: ReplicaSet)
    requires Distinct(list) && i < |list| && y.name == list[i].name && y.uid == list[i].uid
    ensures Distinct(list[i := y])
    ensures Merge(store, list[i := y]) == Merge(store, list)[y.name := y]
  {
    var list' := list[i := y];
    MergeLookup(store, list);
    MergeLookup(store, list');
    var a, b := Merge(store, list'), Merge(store, list)[y.name := y];
    forall name | Names(list, name) ensures Names(list', name) {
      var j :| 0 <= j < |list| && list[j].name == name;
      assert list'[j].name == name;
    }
    forall name ensures (name in a <==> name in b) && (name in a ==> a[name] == b[name]) {
      if Names(list', name) {
        var j :| 0 <= j < |list'| && list'[j].name == name;
        assert list[j].name == name;
      }
    }
    SameStore(a, b);
  }

  /** Writing a list over another one of the same sets: only the second one shows. */
  lemma MergeOver(store: ReplicaSetStore, a: seq<ReplicaSet>, b: seq<ReplicaSet>)
    requires Distinct(a) && SameIds(a, b)
    ensures Distinct(b) && Merge(Merge(store, a), b) == Merge(store, b)
  {
    DistinctByIds(a, b);
    var m := Merge(store, a);
    MergeLookup(store, a);
    MergeLookup(m, b);
    MergeLookup(store, b);
    forall name | Names(a, name) ensures Names(b, name) {
      NamesOfSameIds(a, b, name);
    }
    forall name ensures (name in Merge(m, b) <==> name in Merge(store, b))
                        && (name in Merge(m, b) ==> Merge(m, b)[name] == Merge(store, b)[name]) {
      if Names(b, name) {
        var i :| 0 <= i < |b| && b[i].name == name;
      }
    }
    SameStore(Merge(m, b), Merge(store, b));
  }

  lemma {:induction false} MergeAppend(store: ReplicaSetStore, a: seq<ReplicaSet>, b: seq<ReplicaSet>)
    ensures Merge(store, a + b) == Merge(Merge(store, a), b)
  {
    if b == [] {
      assert a + b == a;
    } else {
      assert (a + b)[..|a + b| - 1] == a + b[..|b| - 1];
      MergeAppend(store, a, b[..|b| - 1]);
    }
  }

  /** The order of a list of different sets does not matter to the store. */
  lemma MergePermuted(store: ReplicaSetStore, a: seq<ReplicaSet>, b: seq<ReplicaSet>)
    requires multiset(a) == multiset(b) && Distinct(a)
    ensures Merge(store, a) == Merge(store, b)
  {
    PermutedLength(a, b);
    DistinctPermuted(a, b);
    MergeLookup(store, a);
    MergeLookup(store, b);
    IdsPermuted(a, b);
    forall name | Names(b, name) ensures Names(a, name) {
      NamesOfSameIds(b, a, name);
    }
    forall name ensures (name in Merge(store, a) <==> name in Merge(store, b))
                        && (name in Merge(store, a) ==> Merge(store, a)[name] == Merge(store, b)[name]) {
      if Names(a, name) {
        var i :| 0 <= i < |a| && a[i].name == name;
        assert a[i] in b;
        var j :| 0 <= j < |b| && b[j] == a[i];
        assert b[j].name == name;
      }
    }
    SameStore(Merge(store, a), Merge(store, b));
  }
}
