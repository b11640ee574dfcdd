/**
  The revision annotation of the new replica set and its bounded history
  (internal/controller/partition/executor.go, setNewReplicaSetAnnotations;
  pkg/util/deployment/deployment.go, MaxRevision).
 */
module Revisions {
  import opened Base
  import opened Limits
  import opened ReplicaSets
  import opened Ordering
  import opened Scaling

  // ---- decimal texts of int64 ----

  predicate IsDigit(c: char) {
    '0' <= c <= '9'
  }

  function Digit(n: nat): (c: char)
    requires n < 10
    ensures IsDigit(c) && c as int - '0' as int == n
  {
    '0' + n as char
  }

  function Digits(n: nat): (s: string)
    ensures |s| > 0 && forall i :: 0 <= i < |s| ==> IsDigit(s[i])
  {
    if n < 10 then [Digit(n)] else Digits(n / 10) + [Digit(n % 10)]
  }

  function FormatInt(n: int): (s: string)
    ensures |s| > 0 && forall i :: 0 <= i < |s| ==> IsDigit(s[i]) || s[i] == '-'
  {
    if n < 0 then ['-'] + Digits(-n) else Digits(n)
  }

  function DigitsValue(s: string): nat
    requires forall i :: 0 <= i < |s| ==> IsDigit(s[i])
  {
    if s == [] then 0
    else
      assert IsDigit(s[|s| - 1]);
      10 * DigitsValue(s[..|s| - 1]) + (s[|s| - 1] as int - '0' as int)
  }

  /** strconv.ParseInt(text, 10, 64). */
  function ParseInt(text: string): Option<int> {
    var signed := text != [] && (text[0] == '-' || text[0] == '+');
    var body := if signed then text[1..] else text;
    if body == [] || exists i :: 0 <= i < |body| && !IsDigit(body[i]) then None
    else
      var v: int := if signed && text[0] == '-' then 0 - DigitsValue(body) else DigitsValue(body);
      if -MAX_INT64 - 1 <= v <= MAX_INT64 then Some(v) else None
  }

  lemma {:induction false} DigitsRoundTrip(n: nat)
    ensures DigitsValue(Digits(n)) == n
  {
    if n >= 10 {
      DigitsRoundTrip(n / 10);
      assert Digits(n)[..|Digits(n)| - 1] == Digits(n / 10);
    }
  }

  /** A formatted int64 parses back to itself. */
  lemma FormatRoundTrip(n: int)
    requires -MAX_INT64 - 1 <= n <= MAX_INT64
    ensures ParseInt(FormatInt(n)) == Some(n)
  {
    DigitsRoundTrip(Abs(n));
    if n < 0 {
      assert FormatInt(n)[1..] == Digits(-n);
    }
  }

  /** Digits parse with and without a sign, exactly as long as the number fits int64. */
  lemma SignsParse(n: nat)
    ensures ParseInt(Digits(n)) == ParseInt(['+'] + Digits(n)) == if n <= MAX_INT64 then Some(n) else None
    ensures var negative: int := 0 - n; ParseInt(['-'] + Digits(n)) == if n <= MAX_INT64 + 1 then Some(negative) else None
  {
    DigitsRoundTrip(n);
    assert (['+'] + Digits(n))[1..] == Digits(n) && (['-'] + Digits(n))[1..] == Digits(n);
  }

  // ---- the history list ----

  function Join(parts: seq<string>): string {
    if parts == [] then ""
    else if |parts| == 1 then parts[0]
    else parts[0] + "," + Join(parts[1..])
  }

  predicate NoComma(s: string) {
    forall i :: 0 <= i < |s| ==> s[i] != ','
  }

  function Split(s: string): (parts: seq<string>)
    ensures |parts| > 0
    ensures forall i :: 0 <= i < |parts| ==> NoComma(parts[i])
  {
    if s == [] then [""]
    else
      var rest := Split(s[1..]);
      if s[0] == ',' then [""] + rest else [[s[0]] + rest[0]] + rest[1..]
  }

  lemma {:induction false} JoinSplit(s: string)
    ensures Join(Split(s)) == s
  {
    if s != [] {
      var rest := Split(s[1..]);
      JoinSplit(s[1..]);
      if s[0] == ',' {
        assert ([""] + rest)[1..] == rest;
        assert s == "," + s[1..];
      } else {
        var parts := [[s[0]] + rest[0]] + rest[1..];
        assert parts[1..] == rest[1..];
        assert s == [s[0]] + s[1..];
      }
    }
  }

  lemma {:induction false} SplitPart(a: string, t: string)
    requires NoComma(a)
    ensures Split(a + "," + t) == [a] + Split(t)
    ensures Split(a) == [a]
  {
    if a == [] {
      assert a + "," + t == "," + t && ("," + t)[1..] == t;
    } else {
      SplitPart(a[1..], t);
      assert (a + "," + t)[1..] == a[1..] + "," + t;
      assert [a[0]] + a[1..] == a;
    }
  }

  lemma {:induction false} SplitJoin(parts: seq<string>)
    requires parts != [] && forall i :: 0 <= i < |parts| ==> NoComma(parts[i])
    ensures Split(Join(parts)) == parts
  {
    if |parts| == 1 {
      SplitPart(parts[0], "");
    } else {
      SplitJoin(parts[1..]);
      SplitPart(parts[0], Join(parts[1..]));
      assert parts == [parts[0]] + parts[1..];
    }
  }

  /** The length of the joined list is what the loop's running total says. */
  lemma {:induction false} JoinedLength(parts: seq<string>, last: string)
    ensures |Join(parts + [last])| == (if parts == [] then 0 else |Join(parts)| + 1) + |last|
  {
    if parts != [] {
      assert (parts + [last])[1..] == parts[1..] + [last];
      JoinedLength(parts[1..], last);
    }
  }

  lemma {:induction false} DropFirst(parts: seq<string>, last: string)
    requires parts != []
    ensures |Join(parts + [last])| == |parts[0]| + 1 + |Join(parts[1..] + [last])|
  {
    assert (parts + [last])[1..] == parts[1..] + [last];
  }

  /** The first start at or after k from which the old revisions and the displaced one fit. */
  function FirstFit(olds: seq<string>, displaced: string, limit: int, k: nat): nat
    requires k <= |olds|
    decreases |olds| - k
  {
    if |Join(olds[k..] + [displaced])| <= limit then k
    else if k == |olds| then |olds| + 1
    else FirstFit(olds, displaced, limit, k + 1)
  }

  /** The stored history: the longest suffix of the old revisions that fits together with the
      displaced one, or the history as it was when even that one alone is too long. */
  function NextHistory(history: string, displaced: string, limit: int): string {
    var olds := Split(history);
    if olds[0] == "" then displaced
    else
      var start := FirstFit(olds, displaced, limit, 0);
      if start > |olds| then history else Join(olds[start..] + [displaced])
  }

  lemma {:induction false} FirstFitIsFirst(olds: seq<string>, displaced: string, limit: int, k: nat)
    requires k <= |olds|
    ensures var start := FirstFit(olds, displaced, limit, k);
            && k <= start <= |olds| + 1
            && (start <= |olds| ==> |Join(olds[start..] + [displaced])| <= limit)
            && forall j :: k <= j < start && j <= |olds| ==> |Join(olds[j..] + [displaced])| > limit
    decreases |olds| - k
  {
    if |Join(olds[k..] + [displaced])| > limit && k < |olds| {
      FirstFitIsFirst(olds, displaced, limit, k + 1);
    }
  }

  /** What the history holds afterwards, as a list: the displaced revision last, before it the
      longest run of the most recent old ones that fits the limit. */
  lemma HistoryIsLongestSuffix(history: string, displaced: string, limit: int)
    requires NoComma(displaced) && Split(history)[0] != "" && |displaced| <= limit
    ensures var olds := Split(history);
            exists start :: 0 <= start <= |olds|
                            && Split(NextHistory(history, displaced, limit)) == olds[start..] + [displaced]
                            && |NextHistory(history, displaced, limit)| <= limit
                            && forall j :: 0 <= j < start ==> |Join(olds[j..] + [displaced])| > limit
  {
    var olds := Split(history);
    FirstFitIsFirst(olds, displaced, limit, 0);
    var start := FirstFit(olds, displaced, limit, 0);
    assert olds[|olds|..] + [displaced] == [displaced];
    assert start <= |olds|;
    SplitJoin(olds[start..] + [displaced]);
  }

  /** A history without a first entry starts anew with the displaced revision, however long; one that
      leaves no room even for that stays as it was. */
  lemma HistoryStartsOrStays(history: string, displaced: string, limit: int)
    requires NoComma(displaced)
    ensures Split(history)[0] == "" ==> Split(NextHistory(history, displaced, limit)) == [displaced]
    ensures Split(history)[0] != "" && |displaced| > limit ==> NextHistory(history, displaced, limit) == history
  {
    var olds := Split(history);
    SplitPart(displaced, "");
    if olds[0] != "" && |displaced| > limit {
      FirstFitIsFirst(olds, displaced, limit, 0);
      forall j | 0 <= j <= |olds| ensures |Join(olds[j..] + [displaced])| > limit {
        JoinedLength(olds[j..], displaced);
      }
    }
  }

  // ---- the annotations of one replica set ----

  /** The number the new set's annotation counts as: absent and empty are 0. */
  function AnnotationNumber(text: Option<string>): Option<int> {
    if text.None? || text.value == "" then Some(0) else ParseInt(text.value)
  }

  predicate Raises(text: Option<string>, newRevision: string) {
    var o, n := AnnotationNumber(text), ParseInt(newRevision);
    o.Some? && n.Some? && o.value < n.value
  }

  class RevisionAnnotations {
    var revision: Option<string>
    var history: string

    constructor (revision: Option<string>, history: string)
      ensures this.revision == revision && this.history == history
    {
      this.revision, this.history := revision, history;
    }

    /** Raise the revision and remember the displaced one. */
    method SetNewRevision(newRevision: string, revHistoryLimitInChars: int) returns (changed: bool)
      modifies this
      ensures changed <==> Raises(old(revision), newRevision)
      ensures revision == if changed then Some(newRevision) else old(revision)
      ensures history == if changed && old(revision).Some?
                         then NextHistory(old(history), old(revision).value, revHistoryLimitInChars) else old(history)
    {
      changed := false;
      var present := revision.Some?;
      var oldRevision := if present then revision.value else "";
      var oldRevisionInt := ParseInt(oldRevision);
      if oldRevisionInt.None? {
        if oldRevision != "" {
          return;
        }
        oldRevisionInt := Some(0);
      }
      var newRevisionInt := ParseInt(newRevision);
      if newRevisionInt.None? {
        return;
      }
      if oldRevisionInt.value < newRevisionInt.value {
        revision := Some(newRevision);
        changed := true;
      }
      if present && oldRevisionInt.value < newRevisionInt.value {
        history := AppendRevision(history, oldRevision, revHistoryLimitInChars);
      }
    }
  }

  method AppendRevision(history: string, oldRevision: string, limit: int) returns (r: string)
    ensures r == NextHistory(history, oldRevision, limit)
  {
    var oldRevisions := Split(history);
    if |oldRevisions[0]| == 0 {
      return oldRevision;
    }
    var totalLen := |history| + |oldRevision| + 1;
    var start := 0;
    JoinSplit(history);
    JoinedLength(oldRevisions, oldRevision);
    assert oldRevisions[0..] == oldRevisions;
    while totalLen > limit && start < |oldRevisions|
      invariant 0 <= start <= |oldRevisions|
      invariant totalLen == |Join(oldRevisions[start..] + [oldRevision])|
      invariant FirstFit(oldRevisions, oldRevision, limit, 0) == FirstFit(oldRevisions, oldRevision, limit, start)
    {
      DropFirst(oldRevisions[start..], oldRevision);
      assert oldRevisions[start..][1..] == oldRevisions[start + 1..];
      totalLen := totalLen - |oldRevisions[start]| - 1;
      start := start + 1;
    }
    if totalLen <= limit {
      r := Join(oldRevisions[start..] + [oldRevision]);
    } else {
      r := history;
    }
  }

  // ---- the new set has the highest revision ----

  method MaxRevisionOf(rss: seq<ReplicaSet>) returns (max: int)
    ensures max == MaxRevision(rss)
  {
    max := 0;
    for i := 0 to |rss|
      invariant max == MaxRevision(rss[..i])
    {
      assert rss[..i + 1] == rss[..i] + [rss[i]];
      MaxRevisionAppend(rss[..i], rss[i]);
      var v := RevisionOf(rss[i]);
      if v.Some? && v.value > max {
        max := v.value;
      }
    }
    assert rss[..|rss|] == rss;
  }

  lemma {:induction false} MaxRevisionAppend(rss: seq<ReplicaSet>, x: ReplicaSet)
    ensures MaxRevision(rss + [x]) == Max(MaxRevision(rss), RevisionNumber(x))
    ensures MaxRevision(rss) >= 0
  {
    if rss == [] {
      assert ([x] + [])[1..] == [];
      assert rss + [x] == [x];
    } else {
      assert (rss + [x])[1..] == rss[1..] + [x];
      MaxRevisionAppend(rss[1..], x);
    }
  }

  lemma {:induction false} MaxRevisionIsMax(rss: seq<ReplicaSet>)
    ensures forall rs :: rs in rss ==> RevisionNumber(rs) <= MaxRevision(rss)
    ensures MaxRevision(rss) == 0 || exists rs :: rs in rss && RevisionOf(rs) == Some(MaxRevision(rss))
    ensures MaxRevision(rss) >= 0
  {
    if rss != [] {
      MaxRevisionIsMax(rss[1..]);
      if MaxRevision(rss) == RevisionNumber(rss[0]) {
        assert rss[0] in rss;
      } else if MaxRevision(rss) != 0 {
        var rs :| rs in rss[1..] && RevisionOf(rs) == Some(MaxRevision(rss[1..]));
        assert rs in rss;
      }
    }
  }

  /** Revisions as they parse: every number fits int64. */
  ghost predicate Int64Revisions(rss: seq<ReplicaSet>) {
    forall rs :: rs in rss && RevisionOf(rs).Some? ==> -MAX_INT64 - 1 <= RevisionOf(rs).value <= MAX_INT64
  }

  /** A created set is numbered above every old one, exactly as long as the highest old revision
      has a successor in int64. */
  lemma CreatedRevisionIsHighest(cfg: Config, olds: seq<ReplicaSet>, id: Identity)
    requires Int64Revisions(olds)
    ensures (forall rs :: rs in olds ==> RevisionNumber(Created(cfg, olds, id)) > RevisionNumber(rs))
            <==> MaxRevision(olds) < MAX_INT64
  {
    hide MaxRevision;
    MaxRevisionIsMax(olds);
    var top := MaxRevision(olds);
    assert top <= MAX_INT64;
    if top == MAX_INT64 {
      assert Int64(top + 1) == -MAX_INT64 - 1;
      var rs :| rs in olds && RevisionOf(rs) == Some(top);
      assert RevisionNumber(rs) == top;
    } else {
      assert Int64(top + 1) == top + 1;
    }
  }

  /** What the created set's annotation reads as is what SetNewRevision leaves of no annotation. */
  lemma CreatedRevisionIsSuccessor(cfg: Config, olds: seq<ReplicaSet>, id: Identity)
    requires Int64Revisions(olds)
    ensures AnnotationNumber(Successor(None, olds)) == Some(RevisionNumber(Created(cfg, olds, id)))
  {
    hide MaxRevision, FormatInt, ParseInt;
    MaxRevisionIsMax(olds);
    FormatRoundTrip(Int64(MaxRevision(olds) + 1));
  }

  /** The annotation text after SetNewRevision with the successor of the highest old revision. */
  function Successor(text: Option<string>, rss: seq<ReplicaSet>): Option<string> {
    var newRevision := FormatInt(Int64(MaxRevision(rss) + 1));
    if Raises(text, newRevision) then Some(newRevision) else text
  }

  /** Raising a found set's number is what SetNewRevision does to its text. */
  lemma RenumberedIsSuccessor(text: Option<string>, rs: ReplicaSet, olds: seq<ReplicaSet>)
    requires Int64Revisions(olds) && !rs.revision.Garbled? && AnnotationNumber(text) == Some(RevisionNumber(rs))
    ensures AnnotationNumber(Successor(text, olds)) == Some(RevisionNumber(Renumbered(rs, olds)))
  {
    hide MaxRevision, FormatInt, ParseInt;
    MaxRevisionIsMax(olds);
    FormatRoundTrip(Int64(MaxRevision(olds) + 1));
  }

  /** With a parsable annotation the new set ends strictly above every parsable old revision,
      exactly as long as the highest old revision has a successor in int64. */
  lemma NewRevisionIsHighest(text: Option<string>, rss: seq<ReplicaSet>)
    requires AnnotationNumber(text).Some?
    requires Int64Revisions(rss)
    ensures AnnotationNumber(Successor(text, rss)).Some?
    ensures (forall rs :: rs in rss && RevisionOf(rs).Some?
                          ==> AnnotationNumber(Successor(text, rss)).value > RevisionOf(rs).value)
            <==> MaxRevision(rss) < MAX_INT64
  {
    hide MaxRevision, FormatInt, ParseInt;
    MaxRevisionIsMax(rss);
    var top := MaxRevision(rss);
    assert top <= MAX_INT64;
    FormatRoundTrip(Int64(top + 1));
    if top < MAX_INT64 {
      assert Int64(top + 1) == top + 1;
      assert AnnotationNumber(Successor(text, rss)).value > top;
      assert forall rs :: rs in rss && RevisionOf(rs).Some? ==> RevisionNumber(rs) == RevisionOf(rs).value;
    } else {
      assert AnnotationNumber(text).value <= MAX_INT64 by {
        ParsedRange(text);
      }
      assert Int64(top + 1) == -MAX_INT64 - 1;
      ParsedRange(Successor(text, rss));
      var rs :| rs in rss && RevisionOf(rs) == Some(top);
      assert AnnotationNumber(Successor(text, rss)).value <= RevisionOf(rs).value;
    }
  }

  lemma ParsedRange(text: Option<string>)
    ensures AnnotationNumber(text).Some? ==> -MAX_INT64 - 1 <= AnnotationNumber(text).value <= MAX_INT64
  {
  }
}
