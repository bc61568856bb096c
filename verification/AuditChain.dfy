/** The hash-chained audit log: back-fill, the insert trigger, and the verifier. The digest is
    symbolic: equal digests come from equal inputs, and none is the all-zero start value. */
module AuditChain {
  import opened Wrappers
  import opened Text

  /** A stored hash. `Digest(p, t)` is the digest of `p`, a bar and `t`; `Other` is no digest at all. */
  datatype Hash = Zeros | Digest(prev: Hash, text: string) | Other(tag: nat)

  datatype Entry = Entry(actor: Option<string>, action: string, resourceType: string, resourceId: string,
                         details: string, source: string, createdAt: int)

  datatype Row = Row(id: nat, entry: Entry, prevHash: Option<Hash>, entryHash: Option<Hash>)

  // --- the text a digest covers ---

  function Digit(d: nat): char
    requires d < 10
  {
    "0123456789"[d]
  }

  function Decimal(n: nat): (s: string)
    ensures s != "" && forall i :: 0 <= i < |s| ==> '0' <= s[i] <= '9'
  {
    if n < 10 then [Digit(n)] else Decimal(n / 10) + [Digit(n % 10)]
  }

  lemma {:induction false} DecimalIsInjective(a: nat, b: nat)
    requires Decimal(a) == Decimal(b)
    ensures a == b
  {
    var s, t := Decimal(a), Decimal(b);
    assert s[|s| - 1] == t[|t| - 1] && s[|s| - 1] == Digit(a % 10) && t[|t| - 1] == Digit(b % 10);
    if a >= 10 && b >= 10 {
      assert s[..|s| - 1] == Decimal(a / 10) && t[..|t| - 1] == Decimal(b / 10);
      DecimalIsInjective(a / 10, b / 10);
    }
  }

  /** The columns a digest covers, in order. The actor and the time are not among them. */
  function Covered(id: nat, e: Entry): seq<string> {
    [Decimal(id), e.action, e.resourceType, e.resourceId, e.details, e.source]
  }

  function Encoded(id: nat, e: Entry): string {
    Join(Covered(id, e), '|')
  }

  /** The text, written out. */
  lemma EncodedIs(id: nat, e: Entry)
    ensures Encoded(id, e) == TextOf(id, e)
  {
    JoinTwo(e.details, e.source);
    JoinMore(e.resourceId, [e.details, e.source]);
    JoinMore(e.resourceType, [e.resourceId, e.details, e.source]);
    JoinMore(e.action, [e.resourceType, e.resourceId, e.details, e.source]);
    JoinMore(Decimal(id), [e.action, e.resourceType, e.resourceId, e.details, e.source]);
  }

  /** The id and the covered columns, with a bar between each two. */
  function TextOf(id: nat, e: Entry): string {
    Decimal(id) + ("|" + (e.action + ("|" + (e.resourceType + ("|" + (e.resourceId + ("|" + (e.details + ("|" +
    e.source)))))))))
  }

  lemma JoinTwo(a: string, b: string)
    ensures Join([a, b], '|') == a + ("|" + b)
  {
    assert [a, b][1..] == [b];
    assert Join([b], '|') == b;
    assert a + ['|'] + b == a + ("|" + b);
  }

  lemma {:induction false} JoinMore(a: string, rest: seq<string>)
    requires rest != []
    ensures Join([a] + rest, '|') == a + ("|" + Join(rest, '|'))
  {
    assert ([a] + rest)[1..] == rest;
    assert a + ['|'] + Join(rest, '|') == a + ("|" + Join(rest, '|'));
  }

  /** The number a text of digits stands for. */
  function ValueOf(s: string): nat {
    if s == "" then 0
    else 10 * ValueOf(s[..|s| - 1]) + (if '0' <= s[|s| - 1] <= '9' then (s[|s| - 1] as int) - 48 else 0)
  }

  /** An id's text stands for it, with no zero in front. */
  lemma {:induction false} DecimalStandsFor(n: nat)
    ensures ValueOf(Decimal(n)) == n && (n > 0 ==> Decimal(n)[0] != '0')
  {
    DigitIs(n % 10);
    if n < 10 {
      assert Decimal(n)[..0] == "" && ValueOf("") == 0;
    } else {
      DecimalStandsFor(n / 10);
      assert Decimal(n)[..|Decimal(n)| - 1] == Decimal(n / 10);
    }
  }

  lemma DigitIs(d: nat)
    requires d < 10
    ensures '0' <= Digit(d) <= '9' && (Digit(d) as int) - 48 == d
  {
  }

  predicate NoBars(e: Entry) {
    '|' !in e.action && '|' !in e.resourceType && '|' !in e.resourceId && '|' !in e.source
  }

  // --- the chain ---

  predicate ById(log: seq<Row>) {
    forall i, j :: 0 <= i < j < |log| ==> log[i].id < log[j].id
  }

  function OrZeros(h: Option<Hash>): Hash {
    if h.Some? then h.value else Zeros
  }

  function Lag(log: seq<Row>, k: nat): Hash
    requires k <= |log|
  {
    if k == 0 then Zeros else OrZeros(log[k - 1].entryHash)
  }

  predicate BadAt(log: seq<Row>, k: nat)
    requires k < |log|
  {
    log[k].prevHash != Some(Lag(log, k))
    || log[k].entryHash != Some(Digest(Lag(log, k), Encoded(log[k].id, log[k].entry)))
  }

  predicate Clean(log: seq<Row>) {
    forall k :: 0 <= k < |log| ==> !BadAt(log, k)
  }

  predicate FirstBadIs(log: seq<Row>, k: nat) {
    k < |log| && BadAt(log, k) && forall j :: 0 <= j < k ==> !BadAt(log, j)
  }

  function Chained(id: nat, e: Entry, prev: Hash): Row {
    Row(id, e, Some(prev), Some(Digest(prev, Encoded(id, e))))
  }

  /** Filling the chain over a log, after `prev`. */
  function Filled(log: seq<Row>, prev: Hash): (r: seq<Row>)
    ensures |r| == |log|
  {
    if log == [] then []
    else
      var row := Chained(log[0].id, log[0].entry, prev);
      [row] + Filled(log[1..], row.entryHash.value)
  }

  /** How many rows come before `id`. */
  function Before(log: seq<Row>, id: nat): (k: nat)
    ensures k <= |log|
  {
    if log == [] then 0 else if log[0].id < id then 1 + Before(log[1..], id) else 0
  }

  /** The trigger chains a new row to the row with the greatest id; the table keeps id order. */
  function Inserted(log: seq<Row>, id: nat, e: Entry): seq<Row> {
    var k := Before(log, id);
    log[..k] + [Chained(id, e, Lag(log, |log|))] + log[k..]
  }

  predicate Unused(log: seq<Row>, id: nat) {
    forall k :: 0 <= k < |log| ==> log[k].id != id
  }

  lemma {:induction false} BeforeSplits(log: seq<Row>, id: nat)
    requires ById(log) && Unused(log, id)
    ensures forall k :: 0 <= k < |log| ==> (log[k].id < id <==> k < Before(log, id))
  {
    if log != [] {
      BeforeSplits(log[1..], id);
      forall k | 0 <= k < |log|
        ensures log[k].id < id <==> k < Before(log, id)
      {
        if k > 0 {
          assert log[k] == log[1..][k - 1];
        }
      }
    }
  }

  lemma InsertedById(log: seq<Row>, id: nat, e: Entry)
    requires ById(log) && Unused(log, id)
    ensures ById(Inserted(log, id, e))
  {
    BeforeSplits(log, id);
  }

  lemma {:induction false} FilledKeepsIds(log: seq<Row>, prev: Hash, k: nat)
    requires k < |log|
    ensures Filled(log, prev)[k].id == log[k].id
  {
    if k > 0 {
      FilledKeepsIds(log[1..], Chained(log[0].id, log[0].entry, prev).entryHash.value, k - 1);
    }
  }

  lemma {:induction false} FilledById(log: seq<Row>, prev: Hash)
    requires ById(log)
    ensures ById(Filled(log, prev))
  {
    forall k | 0 <= k < |log|
      ensures Filled(log, prev)[k].id == log[k].id
    {
      FilledKeepsIds(log, prev, k);
    }
  }

  // --- the chain in so many words ---

  /** The hash a row is chained to: that of the row before it, or all zeros. */
  function HashBefore(rows: seq<Row>, k: nat): Hash
    requires k <= |rows|
  {
    if k == 0 || rows[k - 1].entryHash.None? then Zeros else rows[k - 1].entryHash.value
  }

  /** The row holds that hash, and the digest of it and of the row's text. */
  predicate IsChained(row: Row, before: Hash) {
    row.prevHash == Some(before) && row.entryHash == Some(Digest(before, TextOf(row.id, row.entry)))
  }

  lemma CleanMeans(rows: seq<Row>)
    ensures forall k :: 0 <= k < |rows| ==> (BadAt(rows, k) <==> !IsChained(rows[k], HashBefore(rows, k)))
  {
    forall k | 0 <= k < |rows|
      ensures BadAt(rows, k) <==> !IsChained(rows[k], HashBefore(rows, k))
    {
      EncodedIs(rows[k].id, rows[k].entry);
      hide Encoded, TextOf;
    }
  }

  predicate AllChained(rows: seq<Row>, n: nat)
    requires n <= |rows|
  {
    forall k :: 0 <= k < n ==> IsChained(rows[k], HashBefore(rows, k))
  }

  predicate FirstUnchainedIs(rows: seq<Row>, k: nat) {
    k < |rows| && !IsChained(rows[k], HashBefore(rows, k)) && AllChained(rows, k)
  }

  lemma FirstBadMeans(rows: seq<Row>)
    ensures Clean(rows) <==> AllChained(rows, |rows|)
    ensures forall k: nat :: FirstBadIs(rows, k) <==> FirstUnchainedIs(rows, k)
  {
    CleanMeans(rows);
    hide BadAt, IsChained, HashBefore;
  }

  lemma {:induction false} FilledIsChained(log: seq<Row>, prev: Hash, k: nat)
    requires k < |log|
    ensures var after := Filled(log, prev);
            && after[k].id == log[k].id && after[k].entry == log[k].entry
            && IsChained(after[k], if k == 0 then prev else HashBefore(after, k))
    decreases |log|
  {
    EncodedIs(log[0].id, log[0].entry);
    hide Encoded, TextOf;
    var row := Chained(log[0].id, log[0].entry, prev);
    assert Filled(log, prev)[1..] == Filled(log[1..], row.entryHash.value);
    if k > 0 {
      FilledIsChained(log[1..], row.entryHash.value, k - 1);
    }
  }

  /** A row is put in its place, chained to the row that has the greatest id. */
  predicate InsertedAs(before: seq<Row>, after: seq<Row>, id: nat, e: Entry, k: int) {
    && 0 <= k <= |before| && |after| == |before| + 1
    && after == before[..k] + [after[k]] + before[k..]
    && (forall i :: 0 <= i < |before| ==> (before[i].id < id <==> i < k))
    && after[k].id == id && after[k].entry == e && IsChained(after[k], HashBefore(before, |before|))
  }

  lemma {:induction false} InsertIsInPlace(log: seq<Row>, id: nat, e: Entry)
    requires ById(log) && Unused(log, id)
    ensures InsertedAs(log, Inserted(log, id, e), id, e, Before(log, id))
  {
    BeforeSplits(log, id);
    EncodedIs(id, e);
    hide Encoded, TextOf, ById;
  }

  /** The table in the order of its primary key. */
  class AuditLog {
    var rows: seq<Row>

    ghost predicate Valid()
      reads this
    {
      ById(rows)
    }

    constructor ()
      ensures Valid() && rows == []
    {
      rows := [];
    }

    /** Chain the rows that were written before the chain existed. */
    method Backfill()
      requires Valid()
      modifies this
      ensures Valid() && rows == Filled(old(rows), Zeros)
      ensures |rows| == |old(rows)|
      ensures forall k :: 0 <= k < |rows| ==>
                && rows[k].id == old(rows)[k].id && rows[k].entry == old(rows)[k].entry
                && IsChained(rows[k], HashBefore(rows, k))
    {
      var prev := Zeros;
      var i := 0;
      ghost var before := rows;
      while i < |rows|
        invariant 0 <= i <= |rows| == |before|
        invariant rows[i..] == before[i..]
        invariant Filled(before, Zeros) == rows[..i] + Filled(before[i..], prev)
      {
        var row := Chained(rows[i].id, rows[i].entry, prev);
        rows := rows[i := row];
        prev := row.entryHash.value;
        assert before[i..][1..] == before[i + 1..];
        i := i + 1;
      }
      assert rows == rows[..i] + Filled(before[i..], prev);
      FilledById(before, Zeros);
      hide ById, Filled, IsChained;
      forall k | 0 <= k < |rows|
        ensures rows[k].id == before[k].id && rows[k].entry == before[k].entry
        ensures IsChained(rows[k], HashBefore(rows, k))
      {
        FilledIsChained(before, Zeros, k);
      }
    }

    /** Insert an entry under the id its sequence drew; the primary key refuses a used one. */
    method Insert(id: nat, e: Entry) returns (ok: bool)
      requires Valid()
      modifies this
      ensures Valid() && (ok <==> Unused(old(rows), id))
      ensures rows == if ok then Inserted(old(rows), id, e) else old(rows)
      ensures ok <==> forall k :: 0 <= k < |old(rows)| ==> old(rows)[k].id != id
      ensures ok ==> exists k :: InsertedAs(old(rows), rows, id, e, k)
    {
      hide InsertedAs;
      ok := Unused(rows, id);
      if ok {
        InsertIsInPlace(rows, id, e);
        InsertedById(rows, id, e);
        rows := Inserted(rows, id, e);
      }
    }

    /** The first bad row, and how many rows were looked at. */
    method Verify() returns (firstBad: Option<nat>, checked: nat)
      requires Valid()
      ensures checked == |rows|
      ensures firstBad.None? <==> Clean(rows)
      ensures firstBad.None? <==> AllChained(rows, |rows|)
      ensures firstBad.Some? ==>
                exists k: nat :: k < |rows| && rows[k].id == firstBad.value && FirstUnchainedIs(rows, k)
      ensures firstBad.Some? ==> exists k: nat :: FirstBadIs(rows, k) && rows[k].id == firstBad.value
    {
      hide AllChained, FirstUnchainedIs;
      firstBad, checked := None, 0;
      var lag := Zeros;
      while checked < |rows|
        invariant 0 <= checked <= |rows| && lag == Lag(rows, checked)
        invariant firstBad.None? <==> forall j :: 0 <= j < checked ==> !BadAt(rows, j)
        invariant firstBad.Some? ==> exists k: nat :: FirstBadIs(rows, k) && rows[k].id == firstBad.value
      {
        var row := rows[checked];
        var bad := row.prevHash != Some(lag) || row.entryHash != Some(Digest(lag, Encoded(row.id, row.entry)));
        if bad && firstBad.None? {
          firstBad := Some(row.id);
          assert FirstBadIs(rows, checked);
        }
        lag := OrZeros(row.entryHash);
        checked := checked + 1;
      }
      FirstBadMeans(rows);
      hide Clean, FirstBadIs;
    }
  }
}
