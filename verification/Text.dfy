/** Splitting text on a separator and joining it back. */
module Text {
  /** The parts between separators: always one more part than there are separators. */
  function Split(s: string, sep: char): (parts: seq<string>)
    ensures |parts| > 0
  {
    if s == [] then [[]]
    else
      var rest := Split(s[1..], sep);
      if s[0] == sep then [[]] + rest else [[s[0]] + rest[0]] + rest[1..]
  }

  function Join(parts: seq<string>, sep: char): string
    requires |parts| > 0
  {
    if |parts| == 1 then parts[0] else parts[0] + [sep] + Join(parts[1..], sep)
  }

  predicate Plain(parts: seq<string>, sep: char) {
    forall i :: 0 <= i < |parts| ==> sep !in parts[i]
  }

  lemma {:induction false} SplitIsPlain(s: string, sep: char)
    ensures Plain(Split(s, sep), sep)
  {
    if s != [] {
      SplitIsPlain(s[1..], sep);
    }
  }

  lemma {:induction false} JoinSplit(s: string, sep: char)
    ensures Join(Split(s, sep), sep) == s
  {
    if s != [] {
      JoinSplit(s[1..], sep);
      var rest := Split(s[1..], sep);
      if s[0] == sep {
        assert ([[]] + rest)[1..] == rest;
        assert s == [sep] + s[1..];
      } else {
        var parts := [[s[0]] + rest[0]] + rest[1..];
        assert parts[1..] == rest[1..];
        assert s == [s[0]] + s[1..];
      }
    }
  }

  /** A part without the separator stays in one piece at the front. */
  lemma {:induction false} SplitFront(part: string, tail: string, sep: char)
    requires sep !in part
    ensures Split(part + tail, sep) == [part + Split(tail, sep)[0]] + Split(tail, sep)[1..]
  {
    if part == [] {
      var parts := Split(tail, sep);
      assert part + tail == tail && part + parts[0] == parts[0];
      assert [parts[0]] + parts[1..] == parts;
    } else {
      SplitFront(part[1..], tail, sep);
      assert (part + tail)[1..] == part[1..] + tail;
      var rest, parts := Split(part[1..] + tail, sep), Split(tail, sep);
      assert [part[0]] + rest[0] == part + parts[0];
      assert rest[1..] == parts[1..];
      assert part[0] in part && (part + tail)[0] == part[0];
    }
  }

  lemma {:induction false} SplitJoin(parts: seq<string>, sep: char)
    requires |parts| > 0 && Plain(parts, sep)
    ensures Split(Join(parts, sep), sep) == parts
  {
    var tail := if |parts| == 1 then [] else [sep] + Join(parts[1..], sep);
    assert Join(parts, sep) == parts[0] + tail;
    SplitFront(parts[0], tail, sep);
    assert parts[0] + [] == parts[0];
    if |parts| > 1 {
      SplitJoin(parts[1..], sep);
      assert tail[1..] == Join(parts[1..], sep);
    }
  }

  lemma {:induction false} JoinConcat(x: seq<string>, y: seq<string>, sep: char)
    requires |x| > 0 && |y| > 0
    ensures Join(x + y, sep) == Join(x, sep) + [sep] + Join(y, sep)
  {
    assert (x + y)[1..] == x[1..] + y;
    if |x| > 1 {
      JoinConcat(x[1..], y, sep);
    } else {
      assert x[1..] + y == y;
    }
  }

  /** A separator between two texts separates their parts. */
  lemma {:induction false} SplitConcat(a: string, b: string, sep: char)
    ensures Split(a + [sep] + b, sep) == Split(a, sep) + Split(b, sep)
  {
    JoinConcat(Split(a, sep), Split(b, sep), sep);
    JoinSplit(a, sep);
    JoinSplit(b, sep);
    SplitIsPlain(a, sep);
    SplitIsPlain(b, sep);
    SplitJoin(Split(a, sep) + Split(b, sep), sep);
  }
}
