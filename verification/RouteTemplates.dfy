/** The route language: templates, matching, validation and the collision shape. */
module RouteTemplates {
  import opened Wrappers
  import opened Text

  type Params = map<string, string>

  function Segments(path: string): (segs: seq<string>)
    ensures |segs| > 0
  {
    Split(path, '/')
  }

  /** `{name}`: a prefix `{` and, in what is left, a suffix `}`. */
  predicate IsCapture(seg: string) {
    |seg| >= 2 && seg[0] == '{' && seg[|seg| - 1] == '}'
  }

  function CaptureName(seg: string): string
    requires IsCapture(seg)
  {
    seg[1..|seg| - 1]
  }

  /** A capture takes any one non-empty segment; other segments match themselves. */
  predicate SegmentAccepts(t: string, p: string) {
    if IsCapture(t) then p != "" else t == p
  }

  predicate AllAccept(ts: seq<string>, ps: seq<string>) {
    |ts| == |ps| && forall i :: 0 <= i < |ts| ==> SegmentAccepts(ts[i], ps[i])
  }

  predicate Accepts(template: string, path: string) {
    AllAccept(Segments(template), Segments(path))
  }

  /** The captures of matching segments; a repeated name keeps its last value. */
  function Captures(ts: seq<string>, ps: seq<string>): Params
    requires |ts| == |ps|
  {
    if ts == [] then map[]
    else
      var n := |ts| - 1;
      var before := Captures(ts[..n], ps[..n]);
      if IsCapture(ts[n]) then before[CaptureName(ts[n]) := ps[n]] else before
  }

  function Match(template: string, path: string): Option<Params> {
    if Accepts(template, path) then Some(Captures(Segments(template), Segments(path))) else None
  }

  /** In so many words: `{...}` is a capture and takes one segment that is not empty, any other segment is
      matched by itself, and a name keeps what its last capture took. */
  lemma {:induction false} MatchMeans(template: string, path: string)
    ensures Match(template, path).Some? <==> TakesEverySegment(Split(template, '/'), Split(path, '/'))
    ensures Match(template, path).Some? ==>
              CapturesExactly(Split(template, '/'), Split(path, '/'), Match(template, path).value)
  {
    if Match(template, path).Some? {
      CapturesAre(Segments(template), Segments(path));
    }
  }

  /** Opens with one brace and closes with another. */
  predicate Bracketed(seg: string) {
    |seg| >= 2 && seg[0] == '{' && seg[|seg| - 1] == '}'
  }

  predicate TakesEverySegment(t: seq<string>, p: seq<string>) {
    |t| == |p| && forall i :: 0 <= i < |t| ==> if Bracketed(t[i]) then |p[i]| > 0 else t[i] == p[i]
  }

  /** Each name in brackets has the segment of its last place, and there are no others. */
  predicate CapturesExactly(t: seq<string>, p: seq<string>, params: Params) {
    && |t| == |p|
    && (forall n :: n in params ==> HasName(t, n))
    && (forall i :: 0 <= i < |t| && Bracketed(t[i]) && (forall j :: i < j < |t| ==> t[j] != t[i]) ==>
          InBrackets(t[i]) in params && params[InBrackets(t[i])] == p[i])
  }

  predicate HasName(t: seq<string>, n: string) {
    exists i :: 0 <= i < |t| && Bracketed(t[i]) && InBrackets(t[i]) == n
  }

  function InBrackets(seg: string): string {
    if |seg| >= 2 then seg[1..|seg| - 1] else ""
  }

  lemma SameBrackets(a: string, b: string)
    ensures Bracketed(a) <==> IsCapture(a)
    ensures IsCapture(a) ==> CaptureName(a) == InBrackets(a)
    ensures Bracketed(b) <==> IsCapture(b)
    ensures IsCapture(b) ==> CaptureName(b) == InBrackets(b)
    ensures Bracketed(a) && Bracketed(b) ==> (InBrackets(a) == InBrackets(b) <==> a == b)
  {
    if IsCapture(a) && IsCapture(b) && CaptureName(a) == CaptureName(b) {
      assert a == ['{'] + a[1..|a| - 1] + ['}'] && b == ['{'] + b[1..|b| - 1] + ['}'];
    }
  }

  lemma {:induction false} CapturesAre(ts: seq<string>, ps: seq<string>)
    requires |ts| == |ps|
    ensures CapturesExactly(ts, ps, Captures(ts, ps))
  {
    if ts != [] {
      var n := |ts| - 1;
      CapturesAre(ts[..n], ps[..n]);
      CapturesOneMore(ts, ps, Captures(ts[..n], ps[..n]), Captures(ts, ps));
    }
  }

  lemma CapturesOneMore(ts: seq<string>, ps: seq<string>, before: Params, after: Params)
    requires |ts| == |ps| > 0 && CapturesExactly(ts[..|ts| - 1], ps[..|ts| - 1], before)
    requires after == if IsCapture(ts[|ts| - 1]) then before[CaptureName(ts[|ts| - 1]) := ps[|ts| - 1]] else before
    ensures CapturesExactly(ts, ps, after)
  {
    var n := |ts| - 1;
    SameBrackets(ts[n], ts[n]);
    NamesOneMore(ts);
    hide InBrackets, Bracketed, IsCapture, CaptureName, HasName;
    forall i | 0 <= i < |ts| && Bracketed(ts[i]) && (forall j :: i < j < |ts| ==> ts[j] != ts[i])
      ensures InBrackets(ts[i]) in after && after[InBrackets(ts[i])] == ps[i]
    {
      LastPlaceKeeps(ts, ps, before, after, i);
    }
  }

  lemma LastPlaceKeeps(ts: seq<string>, ps: seq<string>, before: Params, after: Params, i: nat)
    requires |ts| == |ps| > 0 && CapturesExactly(ts[..|ts| - 1], ps[..|ts| - 1], before)
    requires after == if IsCapture(ts[|ts| - 1]) then before[CaptureName(ts[|ts| - 1]) := ps[|ts| - 1]] else before
    requires i < |ts| && Bracketed(ts[i]) && forall j :: i < j < |ts| ==> ts[j] != ts[i]
    ensures InBrackets(ts[i]) in after && after[InBrackets(ts[i])] == ps[i]
  {
    var n := |ts| - 1;
    SameBrackets(ts[i], ts[n]);
    hide InBrackets, Bracketed, IsCapture, CaptureName, HasName;
    if i < n {
      assert ts[..n][i] == ts[i] && ps[..n][i] == ps[i];
      assert forall j :: i < j < n ==> ts[..n][j] == ts[j];
    }
  }

  lemma NamesOneMore(ts: seq<string>)
    requires ts != []
    ensures forall n :: HasName(ts[..|ts| - 1], n) ==> HasName(ts, n)
    ensures Bracketed(ts[|ts| - 1]) ==> HasName(ts, InBrackets(ts[|ts| - 1]))
  {
    hide InBrackets, Bracketed;
    assert forall k :: 0 <= k < |ts| - 1 ==> ts[..|ts| - 1][k] == ts[k];
  }

  /** Match a route template against a request path. */
  method MatchPath(template: string, path: string) returns (r: Option<Params>)
    ensures r == Match(template, path)
    ensures r.Some? <==> TakesEverySegment(Split(template, '/'), Split(path, '/'))
    ensures r.Some? ==> CapturesExactly(Split(template, '/'), Split(path, '/'), r.value)
  {
    MatchMeans(template, path);
    hide CapturesExactly, TakesEverySegment, Split;
    var t, p := Segments(template), Segments(path);
    if |t| != |p| {
      return None;
    }
    var params: Params := map[];
    for i := 0 to |t|
      invariant forall k :: 0 <= k < i ==> SegmentAccepts(t[k], p[k])
      invariant params == Captures(t[..i], p[..i])
    {
      assert t[..i + 1][..i] == t[..i] && p[..i + 1][..i] == p[..i];
      if IsCapture(t[i]) {
        if p[i] == "" {
          return None;
        }
        params := params[CaptureName(t[i]) := p[i]];
      } else if t[i] != p[i] {
        return None;
      }
    }
    assert t[..|t|] == t && p[..|p|] == p;
    return Some(params);
  }

  // --- the shape two templates collide on ---

  function ShapeSegment(seg: string): string {
    if |seg| > 0 && seg[0] == '{' && seg[|seg| - 1] == '}' then "{}" else seg
  }

  function Shape(segs: seq<string>): (r: seq<string>)
    ensures |r| == |segs| && forall i :: 0 <= i < |segs| ==> r[i] == ShapeSegment(segs[i])
  {
    seq(|segs|, i requires 0 <= i < |segs| => ShapeSegment(segs[i]))
  }

  /** Every capture becomes `{}`; literal segments are unchanged. */
  function NormalizedRoutePath(path: string): string {
    Join(Shape(Segments(path)), '/')
  }

  lemma NormalizedSegments(path: string)
    ensures Segments(NormalizedRoutePath(path)) == Shape(Segments(path))
  {
    SplitIsPlain(path, '/');
    SplitJoin(Shape(Segments(path)), '/');
  }

  lemma SameNormalizedIsSameShape(t1: string, t2: string)
    ensures NormalizedRoutePath(t1) == NormalizedRoutePath(t2) <==> Shape(Segments(t1)) == Shape(Segments(t2))
  {
    NormalizedSegments(t1);
    NormalizedSegments(t2);
  }

  /** The segments of a template with every capture filled by one text. */
  function FillAll(segs: seq<string>, v: string): (r: seq<string>)
    ensures |r| == |segs| && forall i :: 0 <= i < |segs| ==> r[i] == if IsCapture(segs[i]) then v else segs[i]
  {
    seq(|segs|, i requires 0 <= i < |segs| => if IsCapture(segs[i]) then v else segs[i])
  }

  /** Filling every capture with a non-empty segment gives a path the template accepts. */
  lemma AcceptsFilled(t: string, v: string)
    requires v != "" && '/' !in v
    ensures Accepts(t, Join(FillAll(Segments(t), v), '/'))
    ensures Segments(Join(FillAll(Segments(t), v), '/')) == FillAll(Segments(t), v)
  {
    SplitIsPlain(t, '/');
    SplitJoin(FillAll(Segments(t), v), '/');
  }

  lemma SegmentShape(s1: string, s2: string)
    ensures ShapeSegment(s1) == ShapeSegment(s2) <==>
            (IsCapture(s1) && IsCapture(s2)) || (!IsCapture(s1) && !IsCapture(s2) && s1 == s2)
  {
  }

  lemma SameAcceptanceSegment(t1: string, t2: string, i: int)
    requires forall path :: Accepts(t1, path) <==> Accepts(t2, path)
    ensures |Segments(t1)| == |Segments(t2)|
    ensures 0 <= i < |Segments(t1)| ==> ShapeSegment(Segments(t1)[i]) == ShapeSegment(Segments(t2)[i])
  {
    AcceptsFilled(t1, "x");
    AcceptsFilled(t1, "y");
    AcceptsFilled(t2, "x");
    assert Accepts(t2, Join(FillAll(Segments(t1), "x"), '/'));
    assert Accepts(t2, Join(FillAll(Segments(t1), "y"), '/'));
    assert Accepts(t1, Join(FillAll(Segments(t2), "x"), '/'));
    AcceptsFilled(t2, "y");
    assert Accepts(t1, Join(FillAll(Segments(t2), "y"), '/'));
    assert "x"[0] != "y"[0];
    if 0 <= i < |Segments(t1)| {
      SegmentShape(Segments(t1)[i], Segments(t2)[i]);
    }
  }

  /** Two templates collide exactly when they accept the same request paths. */
  lemma ShapeIsAcceptance(t1: string, t2: string)
    ensures NormalizedRoutePath(t1) == NormalizedRoutePath(t2) <==>
            forall path :: Accepts(t1, path) <==> Accepts(t2, path)
  {
    SameNormalizedIsSameShape(t1, t2);
    var s1, s2 := Segments(t1), Segments(t2);
    if Shape(s1) == Shape(s2) {
      forall i | 0 <= i < |s1|
        ensures (IsCapture(s1[i]) && IsCapture(s2[i])) || (!IsCapture(s1[i]) && !IsCapture(s2[i]) && s1[i] == s2[i])
      {
        assert Shape(s1)[i] == Shape(s2)[i];
        SegmentShape(s1[i], s2[i]);
      }
      assert |s1| == |s2|;
    }
    if forall path :: Accepts(t1, path) <==> Accepts(t2, path) {
      forall i
        ensures |s1| == |s2| && (0 <= i < |s1| ==> ShapeSegment(s1[i]) == ShapeSegment(s2[i]))
      {
        SameAcceptanceSegment(t1, t2, i);
      }
    }
  }

  // --- validation ---

  datatype RouteError = NotWholeSegment | BadCaptureName | DuplicateCapture

  predicate NameChar(c: char) {
    'a' <= c <= 'z' || '0' <= c <= '9' || c == '_'
  }

  predicate ValidName(name: string) {
    name != "" && forall i :: 0 <= i < |name| ==> NameChar(name[i])
  }

  predicate Braced(seg: string) {
    '{' in seg || '}' in seg
  }

  predicate ValidSegment(seg: string) {
    Braced(seg) ==> IsCapture(seg) && ValidName(CaptureName(seg))
  }

  predicate DistinctNames(segs: seq<string>) {
    forall i, j :: 0 <= i < j < |segs| && IsCapture(segs[i]) && IsCapture(segs[j]) ==>
      CaptureName(segs[i]) != CaptureName(segs[j])
  }

  /** Captures are whole segments with [a-z0-9_]+ names, each used once. */
  predicate ValidSegments(segs: seq<string>) {
    (forall i :: 0 <= i < |segs| ==> ValidSegment(segs[i])) && DistinctNames(segs)
  }

  predicate ValidTemplate(path: string) {
    ValidSegments(Segments(path))
  }

  /** A capture with a name of lower-case letters, digits and underscores. */
  predicate NamedCapture(seg: string) {
    && |seg| >= 3 && seg[0] == '{' && seg[|seg| - 1] == '}'
    && forall i :: 1 <= i < |seg| - 1 ==> 'a' <= seg[i] <= 'z' || '0' <= seg[i] <= '9' || seg[i] == '_'
  }

  predicate EveryBraceInACapture(t: seq<string>) {
    forall i :: 0 <= i < |t| && ('{' in t[i] || '}' in t[i]) ==> NamedCapture(t[i])
  }

  predicate NoCaptureTwice(t: seq<string>) {
    forall i, j :: 0 <= i < j < |t| && '{' in t[i] ==> t[i] != t[j]
  }

  predicate WellBraced(path: string) {
    EveryBraceInACapture(Split(path, '/')) && NoCaptureTwice(Split(path, '/'))
  }

  /** In so many words: a segment with a brace in it is a named capture, and no capture comes twice. */
  lemma ValidTemplateMeans(path: string)
    ensures ValidTemplate(path) <==> WellBraced(path)
  {
    var t := Split(path, '/');
    forall i | 0 <= i < |t|
      ensures ValidSegment(t[i]) <==> ('{' in t[i] || '}' in t[i] ==> NamedCapture(t[i]))
    {
      SegmentMeans(t[i]);
    }
    hide NamedCapture;
    if forall i :: 0 <= i < |t| ==> ValidSegment(t[i]) {
      TwiceMeans(t);
    }
    hide ValidSegment, DistinctNames, NoCaptureTwice;
  }

  lemma TwiceMeans(t: seq<string>)
    requires forall i :: 0 <= i < |t| ==> ValidSegment(t[i])
    ensures DistinctNames(t) <==> NoCaptureTwice(t)
  {
    forall i, j | 0 <= i < j < |t|
      ensures (IsCapture(t[i]) && IsCapture(t[j]) ==> CaptureName(t[i]) != CaptureName(t[j])) <==>
              ('{' in t[i] ==> t[i] != t[j])
    {
      CapturesHaveBraces(t[i]);
      CapturesHaveBraces(t[j]);
      SameBrackets(t[i], t[j]);
    }
    hide ValidSegment, IsCapture, CaptureName, InBrackets, Bracketed;
  }

  lemma CapturesHaveBraces(seg: string)
    ensures IsCapture(seg) ==> '{' in seg
    ensures ValidSegment(seg) && '{' in seg ==> IsCapture(seg)
  {
  }

  lemma SegmentMeans(seg: string)
    ensures ValidSegment(seg) <==> ('{' in seg || '}' in seg ==> NamedCapture(seg))
  {
    if IsCapture(seg) {
      var name := CaptureName(seg);
      assert forall i :: 0 <= i < |name| ==> name[i] == seg[i + 1];
      assert forall i :: 1 <= i < |seg| - 1 ==> seg[i] == name[i - 1];
    }
  }

  /** Validate the captures of a route path. */
  method ValidateRoutePath(path: string) returns (r: Result<(), RouteError>)
    ensures r.Ok? <==> ValidTemplate(path)
    ensures r.Ok? <==> WellBraced(path)
  {
    ValidTemplateMeans(path);
    hide WellBraced, Split;
    var segs := Segments(path);
    var seen: seq<string> := [];
    for i := 0 to |segs|
      invariant ValidSegments(segs[..i])
      invariant forall n :: n in seen <==> Names(segs[..i], n)
    {
      var seg := segs[i];
      assert seg in segs;
      if '{' !in seg && '}' !in seg {
        NotCapture(seg);
        continue;
      }
      if !IsCapture(seg) {
        return Err(NotWholeSegment);
      }
      var name := CaptureName(seg);
      if !ValidName(name) {
        return Err(BadCaptureName);
      }
      if name in seen {
        return Err(DuplicateCapture);
      }
      seen := seen + [name];
    }
    assert segs[..|segs|] == segs;
    return Ok(());
  }

  lemma NotCapture(seg: string)
    requires !Braced(seg)
    ensures !IsCapture(seg)
  {
  }

  // --- substituting captures back ---

  predicate FillsSegments(segs: seq<string>, params: Params) {
    forall i :: 0 <= i < |segs| && IsCapture(segs[i]) ==> CaptureName(segs[i]) in params
  }

  function FillSegments(segs: seq<string>, params: Params): (r: seq<string>)
    requires FillsSegments(segs, params)
    ensures |r| == |segs|
    ensures forall i :: 0 <= i < |segs| ==> r[i] == if IsCapture(segs[i]) then params[CaptureName(segs[i])] else segs[i]
  {
    seq(|segs|, i requires 0 <= i < |segs| => if IsCapture(segs[i]) then params[CaptureName(segs[i])] else segs[i])
  }

  /** The path a template names once its captures are known. */
  function Fill(template: string, params: Params): string
    requires FillsSegments(Segments(template), params)
  {
    Join(FillSegments(Segments(template), params), '/')
  }

  /** With distinct names, each capture holds the segment it matched, and nothing else is captured. */
  lemma {:induction false} CapturesHold(ts: seq<string>, ps: seq<string>)
    requires |ts| == |ps| && DistinctNames(ts)
    ensures forall i :: 0 <= i < |ts| && IsCapture(ts[i]) ==>
              CaptureName(ts[i]) in Captures(ts, ps) && Captures(ts, ps)[CaptureName(ts[i])] == ps[i]
    ensures forall n :: n in Captures(ts, ps) ==> Names(ts, n)
  {
    if ts != [] {
      var n := |ts| - 1;
      CapturesHold(ts[..n], ps[..n]);
      forall m | m in Captures(ts, ps)
        ensures Names(ts, m)
      {
        if m in Captures(ts[..n], ps[..n]) {
          var i :| 0 <= i < n && IsCapture(ts[..n][i]) && CaptureName(ts[..n][i]) == m;
          assert ts[i] == ts[..n][i];
        }
      }
      forall i | 0 <= i < n && IsCapture(ts[i])
        ensures CaptureName(ts[i]) in Captures(ts, ps) && Captures(ts, ps)[CaptureName(ts[i])] == ps[i]
      {
        assert ts[..n][i] == ts[i] && ps[..n][i] == ps[i];
      }
    }
  }

  /** Putting the captures of a match back into the template rebuilds the request path. */
  lemma FillUndoesMatch(template: string, path: string)
    requires ValidTemplate(template) && Match(template, path).Some?
    ensures FillsSegments(Segments(template), Match(template, path).value)
    ensures Fill(template, Match(template, path).value) == path
  {
    var ts, ps := Segments(template), Segments(path);
    CapturesHold(ts, ps);
    assert FillSegments(ts, Captures(ts, ps)) == ps;
    JoinSplit(path, '/');
  }

  predicate Names(segs: seq<string>, n: string) {
    exists i :: 0 <= i < |segs| && IsCapture(segs[i]) && CaptureName(segs[i]) == n
  }

  /** The parameters a template can be filled with: its names, with non-empty single segments. */
  predicate FitsTemplate(template: string, params: Params) {
    && FillsSegments(Segments(template), params)
    && (forall n :: n in params ==> Names(Segments(template), n) && params[n] != "" && '/' !in params[n])
  }

  lemma {:induction false} CapturesOfFilled(ts: seq<string>, params: Params)
    requires DistinctNames(ts) && FillsSegments(ts, params) && forall n :: n in params ==> Names(ts, n)
    ensures Captures(ts, FillSegments(ts, params)) == params
  {
    var ps := FillSegments(ts, params);
    CapturesHold(ts, ps);
    hide Captures, FillSegments, IsCapture, DistinctNames;
    var got := Captures(ts, ps);
    forall n | n in params
      ensures n in got && got[n] == params[n]
    {
      var i :| 0 <= i < |ts| && IsCapture(ts[i]) && CaptureName(ts[i]) == n;
      assert ps[i] == params[n];
    }
    forall n | n in got
      ensures n in params
    {
      var i :| 0 <= i < |ts| && IsCapture(ts[i]) && CaptureName(ts[i]) == n;
    }
  }

  /** Matching a filled template gives back exactly the parameters it was filled with. */
  lemma MatchUndoesFill(template: string, params: Params)
    requires ValidTemplate(template) && FitsTemplate(template, params)
    ensures Match(template, Fill(template, params)) == Some(params)
  {
    var ts := Segments(template);
    var ps := FillSegments(ts, params);
    CapturesOfFilled(ts, params);
    SplitIsPlain(template, '/');
    SplitJoin(ps, '/');
    hide Split, Join, Captures;
  }

  /** A capture-free template accepts exactly its own text. */
  lemma LiteralAccepts(template: string, path: string)
    requires '{' !in template
    ensures Accepts(template, path) <==> template == path
    ensures Accepts(template, path) ==> Match(template, path) == Some(map[])
  {
    SplitKeepsOut(template, '/', '{');
    JoinSplit(template, '/');
    JoinSplit(path, '/');
    var ts := Segments(template);
    assert forall i :: 0 <= i < |ts| ==> !IsCapture(ts[i]);
    if Accepts(template, path) {
      assert ts == Segments(path);
      NoCaptures(ts, ts);
    }
  }

  lemma {:induction false} SplitKeepsOut(s: string, sep: char, c: char)
    requires c !in s
    ensures forall i :: 0 <= i < |Split(s, sep)| ==> c !in Split(s, sep)[i]
  {
    if s != [] {
      SplitKeepsOut(s[1..], sep, c);
      assert s[0] in s;
    }
  }

  lemma {:induction false} NoCaptures(ts: seq<string>, ps: seq<string>)
    requires |ts| == |ps| && forall i :: 0 <= i < |ts| ==> !IsCapture(ts[i])
    ensures Captures(ts, ps) == map[]
  {
    if ts != [] {
      NoCaptures(ts[..|ts| - 1], ps[..|ts| - 1]);
    }
  }
}
