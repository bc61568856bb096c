/** What the audit chain detects, what it cannot, and the order of inserts it relies on. */
module AuditGuarantees {
  import opened Wrappers
  import opened Text
  import opened AuditChain

  // --- building a log keeps it clean ---

  lemma {:induction false} FilledAt(log: seq<Row>, prev: Hash, k: nat)
    requires k < |log|
    ensures var r := Filled(log, prev);
            r[k] == Chained(log[k].id, log[k].entry, if k == 0 then prev else OrZeros(r[k - 1].entryHash))
  {
    if k > 0 {
      FilledAt(log[1..], Chained(log[0].id, log[0].entry, prev).entryHash.value, k - 1);
    }
  }

  /** A back-filled log is clean and holds the same entries, whatever hashes it had before. */
  lemma {:induction false} FilledIsClean(log: seq<Row>)
    ensures Clean(Filled(log, Zeros))
    ensures forall k :: 0 <= k < |log| ==>
              Filled(log, Zeros)[k].id == log[k].id && Filled(log, Zeros)[k].entry == log[k].entry
  {
    forall k | 0 <= k < |log|
      ensures !BadAt(Filled(log, Zeros), k) && Filled(log, Zeros)[k].id == log[k].id
              && Filled(log, Zeros)[k].entry == log[k].entry
    {
      FilledAt(log, Zeros, k);
    }
  }

  predicate Newest(log: seq<Row>, id: nat) {
    forall k :: 0 <= k < |log| ==> log[k].id < id
  }

  lemma {:induction false} BeforeNewest(log: seq<Row>, id: nat)
    requires Newest(log, id)
    ensures Before(log, id) == |log|
  {
    if log != [] {
      BeforeNewest(log[1..], id);
    }
  }

  /** Inserting the newest id appends to a clean log and leaves it clean. */
  lemma {:induction false} NewestInsertIsClean(log: seq<Row>, id: nat, e: Entry)
    requires ById(log) && Clean(log) && Newest(log, id)
    ensures Inserted(log, id, e) == log + [Chained(id, e, Lag(log, |log|))]
    ensures Clean(Inserted(log, id, e)) && ById(Inserted(log, id, e))
  {
    BeforeNewest(log, id);
    var after := Inserted(log, id, e);
    assert after == log + [Chained(id, e, Lag(log, |log|))];
    forall k | 0 <= k < |after|
      ensures !BadAt(after, k)
    {
      assert Lag(after, k) == Lag(log, k);
      assert k < |log| ==> !BadAt(log, k);
    }
  }

  // --- distinct rows have distinct hashes ---

  predicate GenuineRow(r: Row) {
    r.prevHash.Some? && r.entryHash == Some(Digest(r.prevHash.value, Encoded(r.id, r.entry)))
  }

  predicate Genuine(log: seq<Row>) {
    ById(log) && forall k :: 0 <= k < |log| ==> GenuineRow(log[k])
  }

  lemma {:induction false} EncodedNamesItsId(id: nat, e: Entry)
    ensures Split(Encoded(id, e), '|')[0] == Decimal(id)
  {
    var rest := Covered(id, e)[1..];
    JoinConcat([Decimal(id)], rest, '|');
    assert Covered(id, e) == [Decimal(id)] + rest;
    assert Encoded(id, e) == Decimal(id) + (['|'] + Join(rest, '|'));
    assert '|' !in Decimal(id);
    SplitFront(Decimal(id), ['|'] + Join(rest, '|'), '|');
  }

  lemma DistinctIdsDistinctText(a: nat, b: nat, e: Entry, f: Entry)
    requires Encoded(a, e) == Encoded(b, f)
    ensures a == b
  {
    EncodedNamesItsId(a, e);
    EncodedNamesItsId(b, f);
    DecimalIsInjective(a, b);
  }

  /** A row that was chained to a row it now precedes. */
  predicate TornAt(log: seq<Row>, k: nat, m: nat) {
    k < m < |log| && log[k].prevHash == log[m].entryHash
  }

  ghost predicate Torn(log: seq<Row>) {
    exists k: nat, m: nat :: TornAt(log, k, m)
  }

  lemma TornIsBad(log: seq<Row>, k: nat, m: nat)
    requires Genuine(log) && TornAt(log, k, m)
    ensures BadAt(log, k)
  {
    assert GenuineRow(log[m]);
    if k > 0 {
      assert GenuineRow(log[k - 1]) && log[k - 1].id < log[m].id;
      if Encoded(log[k - 1].id, log[k - 1].entry) == Encoded(log[m].id, log[m].entry) {
        DistinctIdsDistinctText(log[k - 1].id, log[m].id, log[k - 1].entry, log[m].entry);
      }
    }
  }

  lemma InsertKeepsGenuine(log: seq<Row>, id: nat, e: Entry)
    requires Genuine(log) && Unused(log, id)
    ensures Genuine(Inserted(log, id, e))
  {
    BeforeSplits(log, id);
  }

  lemma InsertKeepsTorn(log: seq<Row>, id: nat, e: Entry)
    requires Torn(log)
    ensures Torn(Inserted(log, id, e))
  {
    var k: nat, m: nat :| TornAt(log, k, m);
    var p := Before(log, id);
    var after := Inserted(log, id, e);
    var k', m' := if k < p then k else k + 1, if m < p then m else m + 1;
    assert after[k'] == log[k] && after[m'] == log[m];
    assert TornAt(after, k', m');
  }

  lemma LateInsertTears(log: seq<Row>, id: nat, e: Entry)
    requires Genuine(log) && Unused(log, id) && !Newest(log, id)
    ensures Torn(Inserted(log, id, e))
  {
    BeforeSplits(log, id);
    var p := Before(log, id);
    var after := Inserted(log, id, e);
    assert p < |log| && GenuineRow(log[|log| - 1]);
    assert after[p] == Chained(id, e, Lag(log, |log|)) && after[|log|] == log[|log| - 1];
    assert TornAt(after, p, |log|);
  }

  // --- whole runs of inserts, in the order they took the lock ---

  datatype Insert = Insert(id: nat, entry: Entry)

  function InsertAll(log: seq<Row>, ins: seq<Insert>): seq<Row> {
    if ins == [] then log
    else
      var last := ins[|ins| - 1];
      Inserted(InsertAll(log, ins[..|ins| - 1]), last.id, last.entry)
  }

  /** Each insert drew an id no row has yet. */
  predicate AllUnused(log: seq<Row>, ins: seq<Insert>) {
    ins != [] ==> AllUnused(log, ins[..|ins| - 1]) && Unused(InsertAll(log, ins[..|ins| - 1]), ins[|ins| - 1].id)
  }

  /** The lock was taken in id order. */
  predicate LockedInIdOrder(log: seq<Row>, ins: seq<Insert>) {
    && (forall i :: 0 <= i < |ins| ==> Newest(log, ins[i].id))
    && (forall i, j :: 0 <= i < j < |ins| ==> ins[i].id < ins[j].id)
  }

  predicate Has(log: seq<Row>, id: nat) {
    exists k :: 0 <= k < |log| && log[k].id == id
  }

  lemma InsertedHas(log: seq<Row>, id: nat, e: Entry, x: nat)
    ensures Has(Inserted(log, id, e), x) <==> x == id || Has(log, x)
  {
    var p, after := Before(log, id), Inserted(log, id, e);
    assert after[p].id == id;
    if Has(log, x) {
      var k :| 0 <= k < |log| && log[k].id == x;
      assert after[if k < p then k else k + 1] == log[k];
    }
    if Has(after, x) && x != id {
      var k :| 0 <= k < |after| && after[k].id == x;
      assert log[if k < p then k else k - 1] == after[k];
    }
  }

  lemma {:induction false} InsertAllHas(log: seq<Row>, ins: seq<Insert>, x: nat)
    ensures Has(InsertAll(log, ins), x) <==> Has(log, x) || exists i :: 0 <= i < |ins| && ins[i].id == x
  {
    if ins != [] {
      var n := |ins| - 1;
      InsertAllHas(log, ins[..n], x);
      InsertedHas(InsertAll(log, ins[..n]), ins[n].id, ins[n].entry, x);
      hide Has, Inserted;
      assert forall i :: 0 <= i < n ==> ins[..n][i] == ins[i];
    }
  }

  lemma {:induction false} NewestAfterAll(log: seq<Row>, ins: seq<Insert>, id: nat)
    ensures Newest(InsertAll(log, ins), id) <==> Newest(log, id) && forall i :: 0 <= i < |ins| ==> ins[i].id < id
  {
    var after := InsertAll(log, ins);
    forall k | 0 <= k < |log|
      ensures Has(after, log[k].id)
    {
      InsertAllHas(log, ins, log[k].id);
    }
    forall i | 0 <= i < |ins|
      ensures Has(after, ins[i].id)
    {
      InsertAllHas(log, ins, ins[i].id);
    }
    forall k | 0 <= k < |after|
      ensures Has(log, after[k].id) || exists i :: 0 <= i < |ins| && ins[i].id == after[k].id
    {
      InsertAllHas(log, ins, after[k].id);
    }
  }

  lemma OneMoreInsert(log: seq<Row>, id: nat, e: Entry)
    requires Genuine(log) && Unused(log, id)
    ensures Genuine(Inserted(log, id, e))
    ensures Clean(log) && Newest(log, id) ==> Clean(Inserted(log, id, e))
    ensures Torn(log) || !Newest(log, id) ==> Torn(Inserted(log, id, e))
  {
    InsertKeepsGenuine(log, id, e);
    if Clean(log) && Newest(log, id) {
      NewestInsertIsClean(log, id, e);
    }
    if Torn(log) {
      InsertKeepsTorn(log, id, e);
    }
    if !Newest(log, id) {
      LateInsertTears(log, id, e);
    }
  }

  lemma CleanIsGenuine(log: seq<Row>)
    requires ById(log) && Clean(log)
    ensures Genuine(log)
  {
    forall k | 0 <= k < |log|
      ensures GenuineRow(log[k])
    {
      assert !BadAt(log, k);
    }
  }

  lemma {:induction false} InsertsAreCleanOrTorn(log: seq<Row>, ins: seq<Insert>)
    requires ById(log) && Clean(log) && AllUnused(log, ins)
    ensures Genuine(InsertAll(log, ins))
    ensures LockedInIdOrder(log, ins) ==> Clean(InsertAll(log, ins))
    ensures !LockedInIdOrder(log, ins) ==> Torn(InsertAll(log, ins))
  {
    if ins == [] {
      CleanIsGenuine(log);
    } else {
      var n := |ins| - 1;
      var before := InsertAll(log, ins[..n]);
      InsertsAreCleanOrTorn(log, ins[..n]);
      hide Torn, Clean, Genuine, Newest, Unused, ById, Inserted, LockedInIdOrder;
      NewestAfterAll(log, ins[..n], ins[n].id);
      assert forall i :: 0 <= i < n ==> ins[..n][i] == ins[i];
      OneMoreInsert(before, ins[n].id, ins[n].entry);
      OrderOneMore(log, ins);
    }
  }

  lemma OrderOneMore(log: seq<Row>, ins: seq<Insert>)
    requires ins != []
    ensures var n := |ins| - 1;
            LockedInIdOrder(log, ins) <==>
            LockedInIdOrder(log, ins[..n]) && Newest(log, ins[n].id) && forall i :: 0 <= i < n ==> ins[i].id < ins[n].id
  {
  }

  /** Starting from a clean log, the verifier finds no bad row exactly when the inserts took the
      lock in the order of their ids. */
  lemma {:induction false} CleanIffLockedInIdOrder(log: seq<Row>, ins: seq<Insert>)
    requires ById(log) && Clean(log) && AllUnused(log, ins)
    ensures Clean(InsertAll(log, ins)) <==> LockedInIdOrder(log, ins)
  {
    InsertsAreCleanOrTorn(log, ins);
    var after := InsertAll(log, ins);
    if Torn(after) {
      var k: nat, m: nat :| TornAt(after, k, m);
      TornIsBad(after, k, m);
    }
  }

  // --- edits ---

  /** After an edit of one entry, that row is the first bad one exactly when the covered text changed;
      otherwise nothing is bad. */
  lemma EditIsLocated(log: seq<Row>, i: nat, e: Entry)
    requires Clean(log) && i < |log|
    ensures var after := log[i := log[i].(entry := e)];
            if Encoded(log[i].id, e) != Encoded(log[i].id, log[i].entry) then FirstBadIs(after, i) else Clean(after)
  {
    var after := log[i := log[i].(entry := e)];
    forall k | 0 <= k < |log|
      ensures Lag(after, k) == Lag(log, k) && !BadAt(log, k)
    {
    }
  }

  lemma {:induction false} CoveredSplits(id: nat, e: Entry)
    requires NoBars(e)
    ensures Split(Encoded(id, e), '|') ==
            [Decimal(id), e.action, e.resourceType, e.resourceId] + Split(e.details, '|') + [e.source]
  {
    var front := [Decimal(id), e.action, e.resourceType, e.resourceId];
    var text := Encoded(id, e);
    assert Covered(id, e) == front + ([e.details] + [e.source]);
    JoinConcat(front, [e.details] + [e.source], '|');
    JoinConcat([e.details], [e.source], '|');
    assert Join([e.details], '|') == e.details && Join([e.source], '|') == e.source;
    SplitConcat(Join(front, '|'), e.details + ['|'] + e.source, '|');
    SplitConcat(e.details, e.source, '|');
    assert '|' !in Decimal(id);
    SplitJoin(front, '|');
    assert [e.source] == Split(e.source, '|') by {
      SplitJoin([e.source], '|');
    }
    assert text == Join(front, '|') + ['|'] + (e.details + ['|'] + e.source);
  }

  /** When no column but the details holds a bar, the covered text determines every column but who
      acted and when. */
  lemma CoveredTextIsUnambiguous(id: nat, e: Entry, f: Entry)
    requires NoBars(e) && NoBars(f)
    ensures Encoded(id, e) == Encoded(id, f) <==> e == f.(actor := e.actor, createdAt := e.createdAt)
  {
    if Encoded(id, e) == Encoded(id, f) {
      CoveredSplits(id, e);
      CoveredSplits(id, f);
      var s := Split(Encoded(id, e), '|');
      assert s[1] == e.action && s[2] == e.resourceType && s[3] == e.resourceId && s[|s| - 1] == e.source;
      assert s[1] == f.action && s[2] == f.resourceType && s[3] == f.resourceId && s[|s| - 1] == f.source;
      assert s[4..|s| - 1] == Split(e.details, '|') && s[4..|s| - 1] == Split(f.details, '|');
      JoinSplit(e.details, '|');
      JoinSplit(f.details, '|');
    }
  }

  /** Two columns are not covered: changing who acted, or when, is never seen. */
  lemma ActorAndTimeEditsAreUnseen(log: seq<Row>, i: nat, actor: Option<string>, createdAt: int)
    requires Clean(log) && i < |log|
    ensures Clean(log[i := log[i].(entry := log[i].entry.(actor := actor, createdAt := createdAt))])
  {
    EditIsLocated(log, i, log[i].entry.(actor := actor, createdAt := createdAt));
  }

  /** So among entries without stray bars an edit is unseen exactly when only who and when changed. */
  lemma EditIsUnseenIff(log: seq<Row>, i: nat, e: Entry)
    requires Clean(log) && i < |log| && NoBars(e) && NoBars(log[i].entry)
    ensures Clean(log[i := log[i].(entry := e)]) <==>
            e == log[i].entry.(actor := e.actor, createdAt := e.createdAt)
  {
    var after := log[i := log[i].(entry := e)];
    EditIsLocated(log, i, e);
    CoveredTextIsUnambiguous(log[i].id, e, log[i].entry);
    hide BadAt, Encoded;
    if FirstBadIs(after, i) {
      assert BadAt(after, i);
    }
  }

  lemma JoinThree(a: string, b: string, c: string)
    ensures Join([a, b, c], '|') == a + "|" + (b + "|" + c)
  {
    assert [a, b, c][1..] == [b, c] && [b, c][1..] == [c];
    assert Join([c], '|') == c && Join([b, c], '|') == b + "|" + c;
  }

  /** A bar can move between columns without changing the covered text. */
  lemma BarsCanMove(id: nat, details: string, source: string, at: int)
    ensures Encoded(id, Entry(None, "a|b", "c", "d", details, source, at)) ==
              Encoded(id, Entry(None, "a", "b|c", "d", details, source, at))
  {
    var rest := ["d", details, source];
    var x, y := [Decimal(id), "a|b", "c"], [Decimal(id), "a", "b|c"];
    assert Covered(id, Entry(None, "a|b", "c", "d", details, source, at)) == x + rest;
    assert Covered(id, Entry(None, "a", "b|c", "d", details, source, at)) == y + rest;
    JoinConcat(x, rest, '|');
    JoinConcat(y, rest, '|');
    JoinThree(Decimal(id), "a|b", "c");
    JoinThree(Decimal(id), "a", "b|c");
    assert "a|b" + "|" + "c" == "a" + "|" + "b|c";
  }

  // --- deletions ---

  function Depth(h: Hash): nat {
    match h
    case Digest(p, _) => 1 + Depth(p)
    case _ => 0
  }

  /** In a clean log the hash before row `k` is `k` digests deep. */
  lemma {:induction false} LagDepth(log: seq<Row>, k: nat)
    requires Clean(log) && k <= |log|
    ensures Depth(Lag(log, k)) == k
  {
    if k > 0 {
      LagDepth(log, k - 1);
      assert !BadAt(log, k - 1);
    }
  }

  /** The rows left when only the positions `kept` survive. */
  predicate Positions(kept: seq<nat>, n: nat) {
    (forall j :: 0 <= j < |kept| ==> kept[j] < n) && forall i, j :: 0 <= i < j < |kept| ==> kept[i] < kept[j]
  }

  lemma {:induction false} PositionsAreFar(kept: seq<nat>, n: nat, j: nat)
    requires Positions(kept, n) && j < |kept|
    ensures j <= kept[j] < n
  {
    if j > 0 {
      PositionsAreFar(kept, n, j - 1);
    }
  }

  function Kept(log: seq<Row>, kept: seq<nat>): (r: seq<Row>)
    requires Positions(kept, |log|)
    ensures |r| == |kept| && forall j :: 0 <= j < |kept| ==> r[j] == log[kept[j]]
  {
    seq(|kept|, j requires 0 <= j < |kept| => log[kept[j]])
  }

  predicate Contiguous(kept: seq<nat>, n: nat)
    requires n <= |kept|
  {
    forall j :: 0 <= j < n ==> kept[j] == j
  }

  lemma ContiguousIsClean(log: seq<Row>, kept: seq<nat>, n: nat, j: nat)
    requires Clean(log) && Positions(kept, |log|) && n <= |kept| && Contiguous(kept, n) && j < n
    ensures !BadAt(Kept(log, kept), j)
  {
    PositionsAreFar(kept, |log|, j);
    assert !BadAt(log, j);
    assert Lag(Kept(log, kept), j) == Lag(log, j);
  }

  /** The row after the first gap is the first bad row. */
  lemma FirstGapIsFirstBad(log: seq<Row>, kept: seq<nat>, n: nat)
    requires Clean(log) && Positions(kept, |log|) && n < |kept| && Contiguous(kept, n) && kept[n] != n
    ensures FirstBadIs(Kept(log, kept), n)
  {
    var after := Kept(log, kept);
    forall j | 0 <= j < n
      ensures !BadAt(after, j)
    {
      ContiguousIsClean(log, kept, n, j);
    }
    PositionsAreFar(kept, |log|, n);
    assert Lag(after, n) == Lag(log, n);
    assert !BadAt(log, kept[n]);
    LagDepth(log, n);
    LagDepth(log, kept[n]);
  }

  lemma {:induction false} FirstGap(kept: seq<nat>, n: nat) returns (g: nat)
    requires n <= |kept| && Contiguous(kept, n) && !Contiguous(kept, |kept|)
    ensures g < |kept| && Contiguous(kept, g) && kept[g] != g
    decreases |kept| - n
  {
    if n < |kept| && kept[n] == n {
      g := FirstGap(kept, n + 1);
    } else {
      g := n;
    }
  }

  /** Deleting rows goes unseen exactly when what is left is a prefix of the log. */
  lemma DeletionIsUnseenIffSuffix(log: seq<Row>, kept: seq<nat>)
    requires Clean(log) && Positions(kept, |log|)
    ensures |kept| <= |log|
    ensures Clean(Kept(log, kept)) <==> Kept(log, kept) == log[..|kept|]
  {
    if kept != [] {
      PositionsAreFar(kept, |log|, |kept| - 1);
    }
    CleanPrefix(log, |kept|);
    if Contiguous(kept, |kept|) {
      forall j | 0 <= j < |kept|
        ensures !BadAt(Kept(log, kept), j)
      {
        ContiguousIsClean(log, kept, |kept|, j);
      }
    } else {
      var g := FirstGap(kept, 0);
      FirstGapIsFirstBad(log, kept, g);
    }
  }

  /** Deleting one row that is not the last flags its successor. */
  lemma DeletingOneFlagsItsSuccessor(log: seq<Row>, i: nat)
    requires Clean(log) && i + 1 < |log|
    ensures FirstBadIs(log[..i] + log[i + 1..], i)
  {
    var kept := seq(|log| - 1, j => if j < i then j else j + 1);
    assert Kept(log, kept) == log[..i] + log[i + 1..];
    FirstGapIsFirstBad(log, kept, i);
  }

  // --- a remembered hash ---

  /** Two clean logs that end in the same hash cover the same texts, row by row: whoever remembers
      the last hash detects any rewrite of the log, however consistently it was re-chained. */
  lemma {:induction false} SameAnchorSameLog(a: seq<Row>, b: seq<Row>)
    requires Clean(a) && Clean(b) && Lag(a, |a|) == Lag(b, |b|)
    ensures |a| == |b|
    ensures forall k :: 0 <= k < |a| ==>
              Encoded(a[k].id, a[k].entry) == Encoded(b[k].id, b[k].entry) && a[k].id == b[k].id
  {
    hide Encoded, Decimal;
    LagDepth(a, |a|);
    LagDepth(b, |b|);
    if a != [] {
      var n := |a| - 1;
      assert !BadAt(a, n) && !BadAt(b, n);
      CleanPrefix(a, n);
      CleanPrefix(b, n);
      SameAnchorSameLog(a[..n], b[..n]);
      assert forall k :: 0 <= k < n ==> a[k] == a[..n][k] && b[k] == b[..n][k];
      DistinctIdsDistinctText(a[n].id, b[n].id, a[n].entry, b[n].entry);
    }
  }

  lemma CleanPrefix(log: seq<Row>, n: nat)
    requires Clean(log) && n <= |log|
    ensures Clean(log[..n]) && Lag(log[..n], n) == Lag(log, n)
  {
    forall k | 0 <= k < n
      ensures !BadAt(log[..n], k)
    {
      assert !BadAt(log, k) && Lag(log[..n], k) == Lag(log, k);
    }
  }
}
