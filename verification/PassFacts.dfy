/** Where a loop over the old sets stands in relation to the pass that specifies it. */
module PassFacts {
  import opened Base
  import opened Limits
  import opened ReplicaSets
  import opened Scaling
  import opened Proportional

  /** The pass over all of `s` is what was done to the first i sets (`current` shows them, `count`
      replicas gone, `budget` writes left) followed by the rest of the pass. */
  ghost predicate Continues(whole: Pass, rest: Pass, s: seq<ReplicaSet>, i: int, current: seq<ReplicaSet>, count: int) {
    && 0 <= i <= |s| == |current|
    && current[i..] == s[i..]
    && whole.list == current[..i] + rest.list
    && whole.removed == count + rest.removed
    && whole.budget == rest.budget && whole.ok == rest.ok
  }

  /** One more set done: the rest of the pass starts with it. */
  lemma Advance(whole: Pass, rest: Pass, tail: Pass, s: seq<ReplicaSet>, i: int, current: seq<ReplicaSet>, count: int,
                y: ReplicaSet, c: int)
    requires Continues(whole, rest, s, i, current, count) && i < |s|
    requires rest == Prepend(y, c, tail)
    ensures Continues(whole, tail, s, i + 1, current[i := y], count + c)
  {
    var next := current[i := y];
    assert next[..i + 1] == current[..i] + [y];
    assert next[i + 1..] == current[i..][1..] == s[i..][1..] == s[i + 1..];
    assert current[..i] + ([y] + tail.list) == next[..i + 1] + tail.list;
  }

  /** Nothing more is done: the pass leaves the sets as they are now. */
  lemma Stop(whole: Pass, rest: Pass, s: seq<ReplicaSet>, i: int, current: seq<ReplicaSet>, count: int)
    requires Continues(whole, rest, s, i, current, count)
    requires rest.list == s[i..] && rest.removed == 0
    ensures whole.list == current && whole.removed == count
  {
    assert current == current[..i] + current[i..];
  }

  lemma Start(whole: Pass, s: seq<ReplicaSet>)
    ensures Continues(whole, whole, s, 0, s, 0)
  {
  }

  lemma CurrentEntry(whole: Pass, rest: Pass, s: seq<ReplicaSet>, i: int, current: seq<ReplicaSet>, count: int)
    requires Continues(whole, rest, s, i, current, count) && i < |s|
    ensures |current| == |s| && current[i] == s[i]
  {
    assert current[i..][0] == s[i..][0];
  }

  lemma CleanupHead(cfg: Config, s: seq<ReplicaSet>, i: int, most: int, budget: nat)
    requires 0 <= i < |s| && most > 0
    ensures var rest := Cleanup(cfg, s[i..], most, budget);
            var count := Min(most, s[i].size - s[i].available);
            if s[i].size == 0 || s[i].size == s[i].available then
              rest == Prepend(s[i], 0, Cleanup(cfg, s[i + 1..], most, budget))
            else if count < 0 || budget == 0 then rest == Pass(s[i..], 0, budget, false)
            else rest == Prepend(Resized(cfg, s[i], s[i].size - count), count, Cleanup(cfg, s[i + 1..], most - count, budget - 1))
  {
    assert s[i..][0] == s[i] && s[i..][1..] == s[i + 1..];
  }

  lemma CleanupEnd(cfg: Config, rest: seq<ReplicaSet>, most: int, budget: nat)
    requires rest == [] || most <= 0
    ensures Cleanup(cfg, rest, most, budget) == Pass(rest, 0, budget, true)
  {
  }

  lemma DrainHead(cfg: Config, s: seq<ReplicaSet>, i: int, most: int, budget: nat)
    requires 0 <= i < |s| && most > 0
    ensures var rest := Drain(cfg, s[i..], most, budget);
            var count := Min(s[i].size, most);
            if s[i].size == 0 then rest == Prepend(s[i], 0, Drain(cfg, s[i + 1..], most, budget))
            else if count < 0 || budget == 0 then rest == Pass(s[i..], 0, budget, false)
            else rest == Prepend(Resized(cfg, s[i], s[i].size - count), count, Drain(cfg, s[i + 1..], most - count, budget - 1))
  {
    assert s[i..][0] == s[i] && s[i..][1..] == s[i + 1..];
  }

  lemma DrainEnd(cfg: Config, rest: seq<ReplicaSet>, most: int, budget: nat)
    requires rest == [] || most <= 0
    ensures Drain(cfg, rest, most, budget) == Pass(rest, 0, budget, true)
  {
  }

  lemma NothingLeft(cfg: Config, s: seq<ReplicaSet>, targets: seq<int>, budget: nat)
    requires |targets| == |s|
    ensures s[|s|..] == []
    ensures ZeroAll(cfg, s[|s|..], budget) == Pass([], 0, budget, true)
    ensures WriteAll(cfg, s[|s|..], targets[|s|..], budget) == Pass([], 0, budget, true)
  {
  }

  lemma ZeroHead(cfg: Config, s: seq<ReplicaSet>, i: int, budget: nat)
    requires 0 <= i < |s|
    ensures var rest := ZeroAll(cfg, s[i..], budget);
            if s[i].size == 0 then rest == Prepend(s[i], 0, ZeroAll(cfg, s[i + 1..], budget))
            else if budget == 0 then rest == Pass(s[i..], 0, 0, false)
            else rest == Prepend(Resized(cfg, s[i], 0), s[i].size, ZeroAll(cfg, s[i + 1..], budget - 1))
  {
    assert s[i..][0] == s[i] && s[i..][1..] == s[i + 1..];
  }

  lemma WriteHead(cfg: Config, s: seq<ReplicaSet>, targets: seq<int>, i: int, budget: nat)
    requires 0 <= i < |s| == |targets|
    ensures var rest := WriteAll(cfg, s[i..], targets[i..], budget);
            if !NeedsWrite(cfg, s[i], targets[i]) then rest == Prepend(s[i], 0, WriteAll(cfg, s[i + 1..], targets[i + 1..], budget))
            else if budget == 0 then rest == Pass(s[i..], 0, 0, false)
            else rest == Prepend(Resized(cfg, s[i], targets[i]), s[i].size - targets[i],
                                 WriteAll(cfg, s[i + 1..], targets[i + 1..], budget - 1))
  {
    assert s[i..][0] == s[i] && s[i..][1..] == s[i + 1..];
    assert targets[i..][0] == targets[i] && targets[i..][1..] == targets[i + 1..];
  }

  lemma {:induction false} ProportionAt(cfg: Config, rss: seq<ReplicaSet>, toAdd: int, added: int, i: nat)
    requires i < |rss|
    ensures var ps := Proportions(cfg, rss, toAdd, added);
            && ps[i] == GetProportion(cfg, rss[i], toAdd, added + Sum(ps[..i]))
            && Sum(ps[..i + 1]) == Sum(ps[..i]) + ps[i]
  {
    var ps := Proportions(cfg, rss, toAdd, added);
    if i > 0 {
      var rest := Proportions(cfg, rss[1..], toAdd, added + ps[0]);
      ProportionAt(cfg, rss[1..], toAdd, added + ps[0], i - 1);
      assert ps[..i] == [ps[0]] + rest[..i - 1] && ps[..i + 1] == [ps[0]] + rest[..i];
      assert ps[..i][1..] == rest[..i - 1] && ps[..i + 1][1..] == rest[..i];
    } else {
      assert ps[..1] == [ps[0]];
    }
  }
}
