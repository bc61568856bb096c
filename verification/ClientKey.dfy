/** The key a request is counted under: the peer, or the nearest untrusted hop behind trusted ones. */
module ClientKey {
  import opened Wrappers
  import opened Text

  /** Unicode white space. */
  predicate IsSpace(c: char) {
    var n := c as int;
    || 0x9 <= n <= 0xd || n == 0x20 || n == 0x85 || n == 0xa0 || n == 0x1680 || 0x2000 <= n <= 0x200a
    || n == 0x2028 || n == 0x2029 || n == 0x202f || n == 0x205f || n == 0x3000
  }

  function TrimStart(s: string): string {
    if s != [] && IsSpace(s[0]) then TrimStart(s[1..]) else s
  }

  function TrimEnd(s: string): string {
    if s != [] && IsSpace(s[|s| - 1]) then TrimEnd(s[..|s| - 1]) else s
  }

  function Trim(s: string): string {
    TrimEnd(TrimStart(s))
  }

  function HopOf(part: string): seq<string> {
    if Trim(part) != "" then [Trim(part)] else []
  }

  function HopsOf(parts: seq<string>): seq<string> {
    if parts == [] then [] else HopOf(parts[0]) + HopsOf(parts[1..])
  }

  /** The hops of a forwarding header, in order, blanks dropped. */
  function Hops(header: string): seq<string> {
    HopsOf(Split(header, ','))
  }

  /** The last hop that is not trusted. */
  function LastUntrusted(hops: seq<string>, trusted: seq<string>): Option<string> {
    if hops == [] then None
    else
      var n := |hops| - 1;
      if hops[n] !in trusted then Some(hops[n]) else LastUntrusted(hops[..n], trusted)
  }

  function ClientKey(trusted: seq<string>, peer: string, forwarded: Option<string>): string {
    if trusted == [] || peer !in trusted then peer
    else
      var hop := LastUntrusted(Hops(if forwarded.Some? then forwarded.value else ""), trusted);
      if hop.Some? then hop.value else peer
  }

  predicate AllTrusted(hops: seq<string>, trusted: seq<string>) {
    forall h :: h in hops ==> h in trusted
  }

  lemma {:induction false} HopsOfConcat(a: seq<string>, b: seq<string>)
    ensures HopsOf(a + b) == HopsOf(a) + HopsOf(b)
  {
    hide HopOf;
    if a == [] {
      assert a + b == b;
    } else {
      HopsOfConcat(a[1..], b);
      assert (a + b)[1..] == a[1..] + b;
    }
  }

  lemma {:induction false} LastUntrustedInConcat(a: seq<string>, b: seq<string>, trusted: seq<string>)
    ensures LastUntrusted(a + b, trusted) ==
            if LastUntrusted(b, trusted).Some? then LastUntrusted(b, trusted) else LastUntrusted(a, trusted)
  {
    if b == [] {
      assert a + b == a;
    } else {
      var n := |b| - 1;
      LastUntrustedInConcat(a, b[..n], trusted);
      assert (a + b)[..|a| + n] == a + b[..n];
    }
  }

  lemma {:induction false} LastUntrustedMeans(hops: seq<string>, trusted: seq<string>)
    ensures LastUntrusted(hops, trusted).None? <==> AllTrusted(hops, trusted)
    ensures LastUntrusted(hops, trusted).Some? ==>
              exists k :: 0 <= k < |hops| && hops[k] == LastUntrusted(hops, trusted).value
                          && hops[k] !in trusted && AllTrusted(hops[k + 1..], trusted)
  {
    if hops != [] {
      var n := |hops| - 1;
      if hops[n] !in trusted {
        assert AllTrusted(hops[n + 1..], trusted);
      } else {
        LastUntrustedMeans(hops[..n], trusted);
        if LastUntrusted(hops[..n], trusted).Some? {
          var k :| 0 <= k < n && hops[..n][k] == LastUntrusted(hops[..n], trusted).value
                   && hops[..n][k] !in trusted && AllTrusted(hops[..n][k + 1..], trusted);
          assert hops[k + 1..] == hops[..n][k + 1..] + [hops[n]];
        }
      }
    }
  }

  // --- what the hops of a header are ---

  predicate Blank(s: string) {
    forall i :: 0 <= i < |s| ==> IsSpace(s[i])
  }

  /** Nothing, or a text without commas that neither begins nor ends with white space. */
  predicate BareHop(s: string) {
    ',' !in s && (s != "" ==> !IsSpace(s[0]) && !IsSpace(s[|s| - 1]))
  }

  function NonEmpty(hops: seq<string>): seq<string> {
    if hops == [] then [] else (if hops[0] != "" then [hops[0]] else []) + NonEmpty(hops[1..])
  }

  lemma {:induction false} TrimStartTakes(blank: string, s: string)
    requires Blank(blank) && (s != "" ==> !IsSpace(s[0]))
    ensures TrimStart(blank + s) == s
  {
    hide IsSpace;
    if blank == [] {
      assert blank + s == s;
    } else {
      TrimStartTakes(blank[1..], s);
      assert (blank + s)[1..] == blank[1..] + s;
    }
  }

  lemma {:induction false} TrimEndTakes(s: string, blank: string)
    requires Blank(blank) && (s != "" ==> !IsSpace(s[|s| - 1]))
    ensures TrimEnd(s + blank) == s
  {
    hide IsSpace;
    if blank == [] {
      assert s + blank == s;
    } else {
      TrimEndTakes(s, blank[..|blank| - 1]);
      assert (s + blank)[..|s + blank| - 1] == s + blank[..|blank| - 1];
    }
  }

  lemma {:induction false} TrimTakes(before: string, hop: string, after: string)
    requires Blank(before) && Blank(after) && BareHop(hop)
    ensures Trim(before + hop + after) == hop
  {
    hide IsSpace;
    if hop == "" {
      assert before + hop + after == (before + after) + "";
      TrimStartTakes(before + after, "");
      TrimEndTakes("", "");
      assert "" + "" == "";
    } else {
      assert before + hop + after == before + (hop + after);
      TrimStartTakes(before, hop + after);
      TrimEndTakes(hop, after);
    }
  }

  /** The parts of a header: each hop with the white space around it. */
  function PaddedHops(before: seq<string>, hops: seq<string>, after: seq<string>): (parts: seq<string>)
    requires |before| == |hops| == |after|
    ensures |parts| == |hops|
  {
    seq(|hops|, i requires 0 <= i < |hops| => before[i] + hops[i] + after[i])
  }

  predicate PaddingOk(before: seq<string>, hops: seq<string>, after: seq<string>) {
    |before| == |hops| == |after|
    && forall i :: 0 <= i < |hops| ==> Blank(before[i]) && Blank(after[i]) && BareHop(hops[i])
  }

  lemma {:induction false} HopsOfPadded(before: seq<string>, hops: seq<string>, after: seq<string>)
    requires PaddingOk(before, hops, after)
    ensures HopsOf(PaddedHops(before, hops, after)) == NonEmpty(hops)
  {
    hide Blank, BareHop, Trim;
    if hops != [] {
      TrimTakes(before[0], hops[0], after[0]);
      assert PaddedHops(before, hops, after)[1..] == PaddedHops(before[1..], hops[1..], after[1..]);
      HopsOfPadded(before[1..], hops[1..], after[1..]);
    }
  }

  /** The hops of a header are exactly its addresses, in order, without the white space around them and
      without the parts that hold none. */
  lemma {:induction false} HopsAreTheAddresses(before: seq<string>, hops: seq<string>, after: seq<string>)
    requires hops != [] && PaddingOk(before, hops, after)
    ensures Hops(Join(PaddedHops(before, hops, after), ',')) == NonEmpty(hops)
  {
    HopsOfPadded(before, hops, after);
    var parts := PaddedHops(before, hops, after);
    forall i | 0 <= i < |parts|
      ensures ',' !in parts[i]
    {
      NoCommas(before[i]);
      NoCommas(after[i]);
    }
    SplitJoin(parts, ',');
    hide HopsOf, Split, Join, NonEmpty;
  }

  lemma NoCommas(blank: string)
    requires Blank(blank)
    ensures ',' !in blank
  {
  }

  /** Blanks, tabs and line ends are white space, and nothing that is printed is. */
  lemma SpacesAre(c: char)
    ensures c == ' ' || c == '\t' || c == '\n' || c == '\r' ==> IsSpace(c)
    ensures '!' <= c <= '~' ==> !IsSpace(c)
  {
  }

  /** The key is the peer's address, or the one untrusted hop with nothing but trusted hops to
      its right; the header counts only when the peer is a trusted proxy. */
  lemma KeyIsPeerOrNearestUntrusted(trusted: seq<string>, peer: string, forwarded: Option<string>)
    ensures var key := ClientKey(trusted, peer, forwarded);
            var hops := Hops(if forwarded.Some? then forwarded.value else "");
            if peer in trusted && !AllTrusted(hops, trusted)
            then exists k :: 0 <= k < |hops| && key == hops[k] && hops[k] !in trusted
                             && AllTrusted(hops[k + 1..], trusted)
            else key == peer
  {
    LastUntrustedMeans(Hops(if forwarded.Some? then forwarded.value else ""), trusted);
  }

  /** What a client writes to the left of the hops its proxies append never changes its key. */
  lemma InjectedHopsAreIgnored(trusted: seq<string>, peer: string, injected: string, appended: string)
    requires !AllTrusted(Hops(appended), trusted)
    ensures ClientKey(trusted, peer, Some(injected + "," + appended)) == ClientKey(trusted, peer, Some(appended))
  {
    assert injected + "," + appended == injected + [','] + appended;
    SplitConcat(injected, appended, ',');
    HopsOfConcat(Split(injected, ','), Split(appended, ','));
    LastUntrustedInConcat(Hops(injected), Hops(appended), trusted);
    LastUntrustedMeans(Hops(appended), trusted);
  }

  /** And it does when every appended hop is trusted: the rightmost untrusted injected hop is taken. */
  lemma InjectionNeedsAnUntrustedHop(trusted: seq<string>, peer: string, injected: string, appended: string)
    requires peer in trusted && AllTrusted(Hops(appended), trusted)
    ensures ClientKey(trusted, peer, Some(injected + "," + appended)) == ClientKey(trusted, peer, Some(injected))
  {
    assert injected + "," + appended == injected + [','] + appended;
    SplitConcat(injected, appended, ',');
    HopsOfConcat(Split(injected, ','), Split(appended, ','));
    LastUntrustedInConcat(Hops(injected), Hops(appended), trusted);
    LastUntrustedMeans(Hops(appended), trusted);
  }
}
