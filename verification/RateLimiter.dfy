/** The fixed-window rate limiter. */
module RateLimiter {
  import opened Counting
  import opened Wrappers

  type Instant = int

  const PRUNE_ABOVE: nat := 10_000

  datatype Config = Config(maxRequests: nat, window: nat)

  /** The hit that opened the current window, and the hits since. */
  datatype Slot = Slot(started: Instant, count: nat)

  type Hits = map<string, Slot>

  /** Time since `started`; a clock that is behind reads as zero. */
  function Elapsed(now: Instant, started: Instant): nat {
    if started < now then now - started else 0
  }

  predicate Expired(cfg: Config, slot: Slot, now: Instant) {
    Elapsed(now, slot.started) >= cfg.window
  }

  function Pruned(cfg: Config, hits: Hits, now: Instant): Hits {
    if |hits| > PRUNE_ABOVE then map key | key in hits && !Expired(cfg, hits[key], now) :: hits[key] else hits
  }

  /** One more hit on a key's slot. */
  function Hit(cfg: Config, slot: Option<Slot>, now: Instant): Slot {
    if slot.None? || Expired(cfg, slot.value, now) then Slot(now, 1) else slot.value.(count := slot.value.count + 1)
  }

  function At(hits: Hits, key: string): Option<Slot> {
    if key in hits then Some(hits[key]) else None
  }

  function After(cfg: Config, hits: Hits, key: string, now: Instant): Hits {
    hits[key := Hit(cfg, At(hits, key), now)]
  }

  lemma CheckBoundsTheMap(cfg: Config, hits: Hits, key: string, now: Instant)
    ensures var after := After(cfg, Pruned(cfg, hits, now), key, now);
            || |after| <= PRUNE_ABOVE + 1
            || forall other :: other in after && other != key ==> !Expired(cfg, after[other], now)
  {
  }

  class RateLimiter {
    const cfg: Config
    var hits: Hits

    constructor (cfg: Config)
      ensures this.cfg == cfg && hits == map[]
    {
      this.cfg := cfg;
      hits := map[];
    }

    /** Record a hit; false when the key is over its budget. A limit of zero counts nothing. */
    method Check(key: string, now: Instant) returns (ok: bool)
      modifies this`hits
      ensures cfg.maxRequests == 0 ==> ok && hits == old(hits)
      ensures cfg.maxRequests > 0 ==>
                && hits == After(cfg, Pruned(cfg, old(hits), now), key, now)
                && (ok <==> hits[key].count <= cfg.maxRequests)
      ensures cfg.maxRequests > 0 ==>
                || |hits| <= PRUNE_ABOVE + 1
                || forall other :: other in hits && other != key ==> !Expired(cfg, hits[other], now)
      ensures cfg.maxRequests > 0 ==>
                && key in hits
                && hits[key] == (if key in old(hits) && now - old(hits)[key].started < cfg.window && cfg.window > 0
                                 then Slot(old(hits)[key].started, old(hits)[key].count + 1) else Slot(now, 1))
                && (ok <==> hits[key].count <= cfg.maxRequests)
      ensures cfg.maxRequests > 0 ==>
                forall other :: other != key ==>
                  && (other in hits <==>
                      other in old(hits)
                      && (|old(hits)| <= 10_000 || (now - old(hits)[other].started < cfg.window && cfg.window > 0)))
                  && (other in hits ==> hits[other] == old(hits)[other])
    {
      if cfg.maxRequests == 0 {
        return true;
      }
      if |hits| > PRUNE_ABOVE {
        hits := map k | k in hits && !Expired(cfg, hits[k], now) :: hits[k];
      }
      var entry := if key in hits then hits[key] else Slot(now, 0);
      if Elapsed(now, entry.started) >= cfg.window {
        entry := Slot(now, 0);
      }
      hits := hits[key := entry.(count := entry.count + 1)];
      CheckBoundsTheMap(cfg, old(hits), key, now);
      ok := hits[key].count <= cfg.maxRequests;
    }
  }

  // --- whole histories ---

  datatype Request = Request(key: string, at: Instant)

  predicate Ascending(past: seq<Request>) {
    forall i, j :: 0 <= i <= j < |past| ==> past[i].at <= past[j].at
  }

  function State(cfg: Config, past: seq<Request>): Hits {
    if past == [] then map[]
    else
      var last := past[|past| - 1];
      After(cfg, Pruned(cfg, State(cfg, past[..|past| - 1]), last.at), last.key, last.at)
  }

  /** What the limiter answers to the last request of a history. */
  predicate Admitted(cfg: Config, past: seq<Request>)
    requires past != []
  {
    var last := past[|past| - 1];
    cfg.maxRequests == 0 || (State(cfg, past))[last.key].count <= cfg.maxRequests
  }

  /** The times one key was hit. */
  function Times(past: seq<Request>, key: string): seq<Instant> {
    if past == [] then []
    else
      var n := |past| - 1;
      Times(past[..n], key) + if past[n].key == key then [past[n].at] else []
  }

  /** The slot of a key that nobody prunes. */
  function Fold(cfg: Config, times: seq<Instant>): Option<Slot> {
    if times == [] then None
    else
      var n := |times| - 1;
      Some(Hit(cfg, Fold(cfg, times[..n]), times[n]))
  }

  /** The limiter's slot for a key is the unpruned one, or both would start afresh. */
  predicate Agrees(cfg: Config, hits: Hits, past: seq<Request>, key: string, now: Instant) {
    At(hits, key) == Fold(cfg, Times(past, key))
    || (key !in hits && Fold(cfg, Times(past, key)).Some? && Expired(cfg, Fold(cfg, Times(past, key)).value, now))
  }

  lemma AgreesLater(cfg: Config, hits: Hits, past: seq<Request>, key: string, at: Instant, now: Instant)
    requires Agrees(cfg, hits, past, key, at) && at <= now
    ensures Agrees(cfg, hits, past, key, now)
  {
    hide Fold, Times;
  }

  lemma PruningAgrees(cfg: Config, hits: Hits, past: seq<Request>, key: string, now: Instant)
    requires Agrees(cfg, hits, past, key, now)
    ensures Agrees(cfg, Pruned(cfg, hits, now), past, key, now)
  {
    hide Fold, Times, Expired;
  }

  lemma {:induction false} TimesOneMore(past: seq<Request>, key: string)
    requires past != []
    ensures var n := |past| - 1;
            Times(past, key) ==
            if past[n].key == key then Times(past[..n], key) + [past[n].at] else Times(past[..n], key)
  {
  }

  lemma {:induction false} FoldOneMore(cfg: Config, times: seq<Instant>, now: Instant)
    ensures Fold(cfg, times + [now]) == Some(Hit(cfg, Fold(cfg, times), now))
  {
    assert (times + [now])[..|times|] == times;
  }

  /** A hit of any key keeps the agreement of every key. */
  lemma HitAgrees(cfg: Config, hits: Hits, past: seq<Request>, key: string)
    requires past != [] && Agrees(cfg, hits, past[..|past| - 1], key, past[|past| - 1].at)
    ensures var last := past[|past| - 1]; Agrees(cfg, After(cfg, hits, last.key, last.at), past, key, last.at)
  {
    var last := past[|past| - 1];
    TimesOneMore(past, key);
    FoldOneMore(cfg, Times(past[..|past| - 1], key), last.at);
    hide Fold, Times, Elapsed;
  }

  lemma {:induction false} StateAgrees(cfg: Config, past: seq<Request>, key: string, now: Instant)
    requires Ascending(past) && (past != [] ==> past[|past| - 1].at <= now)
    ensures Agrees(cfg, State(cfg, past), past, key, now)
  {
    if past != [] {
      var n := |past| - 1;
      var before := State(cfg, past[..n]);
      StateAgrees(cfg, past[..n], key, past[n].at);
      hide Agrees, Pruned, After;
      PruningAgrees(cfg, before, past[..n], key, past[n].at);
      HitAgrees(cfg, Pruned(cfg, before, past[n].at), past, key);
      AgreesLater(cfg, State(cfg, past), past, key, past[n].at, now);
    }
  }

  /** While the clock does not go back, the answer to a request depends on the earlier hits of
      its own key alone, although the pruning depends on every key. */
  lemma {:induction false} PruningIsInvisible(cfg: Config, past: seq<Request>)
    requires past != [] && Ascending(past)
    ensures var key := past[|past| - 1].key;
            && Fold(cfg, Times(past, key)).Some?
            && (Admitted(cfg, past) <==>
                cfg.maxRequests == 0 || Fold(cfg, Times(past, key)).value.count <= cfg.maxRequests)
  {
    var n := |past| - 1;
    var key := past[n].key;
    StateAgrees(cfg, past[..n], key, past[n].at);
    assert Times(past, key)[..|Times(past, key)| - 1] == Times(past[..n], key);
  }

  /** Two histories in which a key was hit at the same times get the same answer. */
  lemma {:induction false} OtherKeysDoNotMatter(cfg: Config, a: seq<Request>, b: seq<Request>)
    requires a != [] && b != [] && Ascending(a) && Ascending(b)
    requires a[|a| - 1].key == b[|b| - 1].key && Times(a, a[|a| - 1].key) == Times(b, a[|a| - 1].key)
    ensures Admitted(cfg, a) <==> Admitted(cfg, b)
  {
    PruningIsInvisible(cfg, a);
    PruningIsInvisible(cfg, b);
  }

  // --- exactly when the pruning shows ---

  /** The pruned slot of the key had spent its budget, and by the late clock its window still runs. */
  predicate PruneShows(cfg: Config, hits: Hits, key: string, now: Instant, late: Instant) {
    && |hits| > PRUNE_ABOVE && key in hits && hits[key].count >= cfg.maxRequests
    && Expired(cfg, hits[key], now) && !Expired(cfg, hits[key], late)
  }

  lemma {:induction false} StateOneMore(cfg: Config, past: seq<Request>, r: Request)
    ensures State(cfg, past + [r]) == After(cfg, Pruned(cfg, State(cfg, past), r.at), r.key, r.at)
  {
    assert (past + [r])[..|past|] == past;
  }

  lemma PruneShowsInSlots(cfg: Config, hits: Hits, key: string, other: string, now: Instant, late: Instant)
    requires other != key && cfg.maxRequests > 0
    ensures var seen := After(cfg, Pruned(cfg, hits, now), other, now);
            (Hit(cfg, At(Pruned(cfg, seen, late), key), late).count <= cfg.maxRequests)
            != (Hit(cfg, At(Pruned(cfg, hits, late), key), late).count <= cfg.maxRequests)
            <==> PruneShows(cfg, hits, key, now, late)
    ensures var seen := After(cfg, Pruned(cfg, hits, now), other, now);
            PruneShows(cfg, hits, key, now, late) ==>
              Hit(cfg, At(Pruned(cfg, seen, late), key), late).count <= cfg.maxRequests && late < now
  {
    PruneIsLate(cfg, hits, key, now, late);
    var seen := After(cfg, Pruned(cfg, hits, now), other, now);
    PrunedSlot(cfg, seen, key, late);
    PrunedSlot(cfg, hits, key, late);
    PrunedSlot(cfg, hits, key, now);
    assert At(seen, key) == At(Pruned(cfg, hits, now), key);
    hide Pruned, After, Elapsed;
  }

  /** Pruning takes away only expired slots, and a hit treats an expired slot as none. */
  lemma PrunedSlot(cfg: Config, hits: Hits, key: string, at: Instant)
    ensures At(Pruned(cfg, hits, at), key) ==
            if |hits| > PRUNE_ABOVE && key in hits && Expired(cfg, hits[key], at) then None else At(hits, key)
    ensures Hit(cfg, At(Pruned(cfg, hits, at), key), at) == Hit(cfg, At(hits, key), at)
  {
  }

  /** After every history, whatever its clock: a request of another key changes the answer to the
      next request of this one exactly when it prunes the spent slot of this key and the later
      request reads a clock by which that slot's window still runs. Then it is admitted over budget. */
  lemma {:induction false} PruneShowsIff(cfg: Config, past: seq<Request>, key: string, other: string, now: Instant,
                                         late: Instant)
    requires other != key && cfg.maxRequests > 0
    ensures var with, without := past + [Request(other, now), Request(key, late)], past + [Request(key, late)];
            && (Admitted(cfg, with) != Admitted(cfg, without) <==> PruneShows(cfg, State(cfg, past), key, now, late))
            && (PruneShows(cfg, State(cfg, past), key, now, late) ==> Admitted(cfg, with) && late < now)
  {
    hide *;
    assert past + [Request(other, now), Request(key, late)] == past + [Request(other, now)] + [Request(key, late)];
    StateOneMore(cfg, past, Request(other, now));
    AdmittedByHit(cfg, past + [Request(other, now)], Request(key, late));
    AdmittedByHit(cfg, past, Request(key, late));
    PruneShowsInSlots(cfg, State(cfg, past), key, other, now, late);
  }

  lemma {:induction false} AdmittedByHit(cfg: Config, past: seq<Request>, r: Request)
    requires cfg.maxRequests > 0
    ensures Admitted(cfg, past + [r]) <==>
            Hit(cfg, At(Pruned(cfg, State(cfg, past), r.at), r.key), r.at).count <= cfg.maxRequests
  {
    StateOneMore(cfg, past, r);
    hide State, Pruned, Hit;
  }

  lemma PruneIsLate(cfg: Config, hits: Hits, key: string, now: Instant, late: Instant)
    ensures PruneShows(cfg, hits, key, now, late) ==> late < now
  {
  }

  // --- over whole histories ---

  /** The slot of a request's key that nobody prunes, before the request. */
  function Unpruned(cfg: Config, past: seq<Request>, i: nat): Option<Slot>
    requires i < |past|
  {
    Fold(cfg, Times(past[..i], past[i].key))
  }

  /** The request finds its key's slot gone although by its own clock the window still runs. */
  predicate FindsItGone(cfg: Config, past: seq<Request>, i: nat)
    requires i < |past|
  {
    var slot := Unpruned(cfg, past, i);
    past[i].key !in State(cfg, past[..i]) && slot.Some? && !Expired(cfg, slot.value, past[i].at)
  }

  /** What the request counts is what it would count if nobody pruned. */
  predicate CountsTrue(cfg: Config, past: seq<Request>, i: nat)
    requires i < |past|
  {
    At(State(cfg, past[..i + 1]), past[i].key) == Fold(cfg, Times(past[..i + 1], past[i].key))
  }

  predicate AllCountTrue(cfg: Config, past: seq<Request>, n: nat)
    requires n <= |past|
  {
    forall i :: 0 <= i < n ==> CountsTrue(cfg, past, i)
  }

  /** As long as every request counted right, a slot is the unpruned one or was taken away. */
  lemma {:induction false} KeptSlotsAreTrue(cfg: Config, past: seq<Request>, n: nat, key: string)
    requires n <= |past| && AllCountTrue(cfg, past, n)
    ensures key in State(cfg, past[..n]) ==> At(State(cfg, past[..n]), key) == Fold(cfg, Times(past[..n], key))
  {
    if n > 0 {
      var before := State(cfg, past[..n - 1]);
      var last := past[n - 1];
      assert past[..n] == past[..n - 1] + [last];
      assert CountsTrue(cfg, past, n - 1);
      KeptSlotsAreTrue(cfg, past, n - 1, key);
      StateOneMore(cfg, past[..n - 1], last);
      PrunedSlot(cfg, before, key, last.at);
      TimesOneMore(past[..n], key);
      assert past[..n][..n - 1] == past[..n - 1];
      hide State, Fold, Times, Pruned, Hit, Expired;
    }
  }

  lemma {:induction false} CountsTrueIff(cfg: Config, past: seq<Request>, i: nat)
    requires i < |past| && AllCountTrue(cfg, past, i)
    ensures CountsTrue(cfg, past, i) <==> !FindsItGone(cfg, past, i)
  {
    var key, at := past[i].key, past[i].at;
    var before := State(cfg, past[..i]);
    assert past[..i + 1] == past[..i] + [past[i]];
    KeptSlotsAreTrue(cfg, past, i, key);
    StateOneMore(cfg, past[..i], past[i]);
    PrunedSlot(cfg, before, key, at);
    TimesOneMore(past[..i + 1], key);
    assert past[..i + 1][..i] == past[..i];
    FoldOneMore(cfg, Times(past[..i], key), at);
    FoldCounts(cfg, Times(past[..i], key));
    hide State, Fold, Times, Pruned, Expired, AllCountTrue;
  }

  lemma {:induction false} FoldCounts(cfg: Config, times: seq<Instant>)
    ensures Fold(cfg, times).Some? ==> Fold(cfg, times).value.count >= 1
  {
    if times != [] {
      FoldCounts(cfg, times[..|times| - 1]);
    }
  }

  /** Over every history, whatever its clock: every request counts as if nobody pruned exactly when
      none finds its key's slot gone while by its own clock the window still runs. */
  lemma {:induction false} PruningIsInvisibleIff(cfg: Config, past: seq<Request>)
    ensures AllCountTrue(cfg, past, |past|) <==> forall i :: 0 <= i < |past| ==> !FindsItGone(cfg, past, i)
  {
    hide CountsTrue, FindsItGone;
    if forall i :: 0 <= i < |past| ==> !FindsItGone(cfg, past, i) {
      var n := 0;
      while n < |past|
        invariant n <= |past| && AllCountTrue(cfg, past, n)
      {
        CountsTrueIff(cfg, past, n);
        n := n + 1;
      }
    }
    if AllCountTrue(cfg, past, |past|) {
      forall i | 0 <= i < |past|
        ensures !FindsItGone(cfg, past, i)
      {
        CountsTrueIff(cfg, past, i);
      }
    }
  }

  lemma {:induction false} GoneWasPruned(cfg: Config, past: seq<Request>, n: nat, key: string)
    requires n <= |past| && AllCountTrue(cfg, past, n)
    requires key !in State(cfg, past[..n]) && Fold(cfg, Times(past[..n], key)).Some?
    ensures exists j :: 0 <= j < n && Expired(cfg, Fold(cfg, Times(past[..n], key)).value, past[j].at)
  {
    if n > 0 {
      var before := State(cfg, past[..n - 1]);
      var last := past[n - 1];
      assert past[..n] == past[..n - 1] + [last];
      StateOneMore(cfg, past[..n - 1], last);
      PrunedSlot(cfg, before, key, last.at);
      TimesOneMore(past[..n], key);
      assert past[..n][..n - 1] == past[..n - 1];
      KeptSlotsAreTrue(cfg, past, n - 1, key);
      hide State, Fold, Times, Pruned, Hit, Expired;
      if key !in before {
        GoneWasPruned(cfg, past, n - 1, key);
      }
    }
  }

  /** The first request that finds its slot gone reads an earlier clock than some request before it. */
  lemma {:induction false} GoneNeedsALateClock(cfg: Config, past: seq<Request>, i: nat)
    requires i < |past| && AllCountTrue(cfg, past, i) && FindsItGone(cfg, past, i)
    ensures exists j :: 0 <= j < i && past[j].at > past[i].at
  {
    var slot := Unpruned(cfg, past, i).value;
    GoneWasPruned(cfg, past, i, past[i].key);
    var j :| 0 <= j < i && Expired(cfg, slot, past[j].at);
    assert past[j].at > past[i].at;
  }

  // --- a history in which it shows ---

  /** As many different keys as wanted, each hit once at the start. */
  function Crowd(n: nat): (past: seq<Request>)
    ensures |past| == n
  {
    if n == 0 then [] else Crowd(n - 1) + [Request(NthKey(n - 1), 0)]
  }

  function NthKey(n: nat): (key: string)
    ensures |key| == n
  {
    seq(n, _ => 'k')
  }

  predicate IsCrowd(hits: Hits, n: nat) {
    && |hits| == n
    && (forall key :: key in hits ==> |key| < n && hits[key] == Slot(0, 1))
    && (forall i :: 0 <= i < n ==> NthKey(i) in hits)
  }

  lemma {:induction false} CrowdIsKept(cfg: Config, n: nat)
    requires cfg.window > 0
    ensures IsCrowd(State(cfg, Crowd(n)), n)
  {
    if n > 0 {
      CrowdIsKept(cfg, n - 1);
      var hits, key := State(cfg, Crowd(n - 1)), NthKey(n - 1);
      StateOneMore(cfg, Crowd(n - 1), Request(key, 0));
      NothingToPrune(cfg, hits, n - 1);
      hide State, Pruned, Crowd, NthKey;
      CrowdGrows(hits, n - 1);
      assert After(cfg, hits, key, 0) == hits[key := Slot(0, 1)];
      hide IsCrowd, After;
    } else {
      hide NthKey;
    }
  }

  lemma OneMoreKey(hits: Hits, key: string, slot: Slot)
    requires key !in hits
    ensures |hits[key := slot]| == |hits| + 1
  {
    assert hits[key := slot].Keys == hits.Keys + {key};
    assert |hits.Keys| == |hits|;
  }

  lemma CrowdGrows(hits: Hits, n: nat)
    requires IsCrowd(hits, n)
    ensures NthKey(n) !in hits && IsCrowd(hits[NthKey(n) := Slot(0, 1)], n + 1)
  {
    var key := NthKey(n);
    var after := hits[key := Slot(0, 1)];
    hide NthKey;
    assert key !in hits;
    OneMoreKey(hits, key, Slot(0, 1));
    forall other | other in after
      ensures |other| < n + 1 && after[other] == Slot(0, 1)
    {
      assert other == key || other in hits;
    }
    forall i | 0 <= i < n + 1
      ensures NthKey(i) in after
    {
      assert i == n || NthKey(i) in hits;
    }
    hide IsCrowd;
    CrowdIs(after, n + 1);
  }

  lemma CrowdIs(hits: Hits, n: nat)
    requires |hits| == n && forall key :: key in hits ==> |key| < n && hits[key] == Slot(0, 1)
    requires forall i :: 0 <= i < n ==> NthKey(i) in hits
    ensures IsCrowd(hits, n)
  {
    hide NthKey;
  }

  lemma NothingToPrune(cfg: Config, hits: Hits, n: nat)
    requires cfg.window > 0 && IsCrowd(hits, n)
    ensures Pruned(cfg, hits, 0) == hits
  {
  }

  /** The clock matters. For every window: once enough keys were seen, a request that reads the
      clock before a prune and arrives after it is admitted although its key has spent its budget. */
  lemma {:induction false} LateClockShowsThePruning(window: nat)
    requires window > 0
    ensures var cfg := Config(1, window); var past := Crowd(PRUNE_ABOVE + 1);
            && Admitted(cfg, past + [Request("other", window), Request("", 0)])
            && !Admitted(cfg, past + [Request("", 0)])
  {
    var cfg := Config(1, window);
    var past := Crowd(PRUNE_ABOVE + 1);
    CrowdIsKept(cfg, PRUNE_ABOVE + 1);
    assert NthKey(0) == "";
    hide State, Crowd;
    assert PruneShows(cfg, State(cfg, past), "", window, 0);
    PruneShowsIff(cfg, past, "", "other", window, 0);
  }

  // --- how much one key is admitted ---

  predicate Sorted(times: seq<Instant>) {
    forall i, j :: 0 <= i <= j < |times| ==> times[i] <= times[j]
  }

  /** The hit that opened the window hit `i` falls in. */
  function Opener(cfg: Config, times: seq<Instant>, i: nat): (o: nat)
    requires i < |times|
    ensures o <= i
  {
    if i == 0 then 0
    else
      var o := Opener(cfg, times, i - 1);
      if Elapsed(times[i], times[o]) >= cfg.window then i else o
  }

  predicate AdmittedAt(cfg: Config, times: seq<Instant>, i: nat)
    requires i < |times|
  {
    cfg.maxRequests == 0 || Fold(cfg, times[..i + 1]).value.count <= cfg.maxRequests
  }

  lemma {:induction false} FoldCountsFromTheOpener(cfg: Config, times: seq<Instant>, i: nat)
    requires i < |times|
    ensures Fold(cfg, times[..i + 1]) == Some(Slot(times[Opener(cfg, times, i)], i + 1 - Opener(cfg, times, i)))
  {
    assert times[..i + 1][..i] == times[..i];
    if i > 0 {
      FoldCountsFromTheOpener(cfg, times, i - 1);
    }
  }

  /** A window admits exactly its first `maxRequests` hits. */
  lemma {:induction false} WindowAdmitsItsFirstHits(cfg: Config, times: seq<Instant>, i: nat)
    requires i < |times| && cfg.maxRequests > 0
    ensures AdmittedAt(cfg, times, i) <==> i - Opener(cfg, times, i) < cfg.maxRequests
  {
    FoldCountsFromTheOpener(cfg, times, i);
  }

  lemma {:induction false} OpenerHolds(cfg: Config, times: seq<Instant>, i: nat, j: nat)
    requires i <= j < |times| && Opener(cfg, times, j) <= i
    ensures Opener(cfg, times, i) == Opener(cfg, times, j)
    decreases j
  {
    if i < j {
      OpenerHolds(cfg, times, i, j - 1);
    }
  }

  function AdmittedIn(cfg: Config, times: seq<Instant>, lo: nat, hi: nat): set<nat>
    requires lo <= hi <= |times|
  {
    set i | lo <= i < hi && AdmittedAt(cfg, times, i)
  }

  function Range(a: nat, b: nat): set<nat>
    decreases b
  {
    if a >= b then {} else Range(a, b - 1) + {b - 1}
  }

  lemma {:induction false} RangeHolds(a: nat, b: nat, i: nat)
    ensures i in Range(a, b) <==> a <= i < b
    decreases b
  {
    if a < b {
      RangeHolds(a, b - 1, i);
    }
  }

  lemma {:induction false} RangeSize(a: nat, b: nat)
    requires a <= b
    ensures |Range(a, b)| == b - a
    decreases b
  {
    if a < b {
      RangeSize(a, b - 1);
      RangeHolds(a, b - 1, b - 1);
    }
  }

  /** The next window opens at least one window after this one. */
  lemma {:induction false} NextWindowIsLater(cfg: Config, times: seq<Instant>, o: nat)
    requires 0 < o < |times| && Opener(cfg, times, o) == o && cfg.window > 0
    ensures times[o] >= times[Opener(cfg, times, o - 1)] + cfg.window
  {
  }

  /** Hits of the window opened at `o`, from `o` on. */
  lemma {:induction false} LastWindowAdmits(cfg: Config, times: seq<Instant>, o: nat, hi: nat, i: nat)
    requires cfg.maxRequests > 0 && o <= i < hi <= |times| && o == Opener(cfg, times, hi - 1)
             && AdmittedAt(cfg, times, i)
    ensures i in Range(o, o + cfg.maxRequests)
  {
    OpenerHolds(cfg, times, i, hi - 1);
    WindowAdmitsItsFirstHits(cfg, times, i);
    RangeHolds(o, o + cfg.maxRequests, i);
  }

  lemma EarlierIsBefore(times: seq<Instant>, i: nat, j: nat)
    requires Sorted(times) && i < |times| && j < |times| && times[i] < times[j]
    ensures i < j
  {
  }

  /** The earlier window opened before the interval did, so its opener is not in it. */
  lemma {:induction false} EarlierWindowAdmits(cfg: Config, times: seq<Instant>, lo: nat, o: nat, hi: nat, i: nat)
    requires Sorted(times) && cfg.maxRequests > 0 && cfg.window > 0
    requires lo <= i < o < hi <= |times| && o == Opener(cfg, times, hi - 1) && times[hi - 1] < times[lo] + cfg.window
    requires AdmittedAt(cfg, times, i)
    ensures i in Range(Opener(cfg, times, o - 1) + 1, Opener(cfg, times, o - 1) + cfg.maxRequests)
  {
    hide Opener, Fold, AdmittedAt, Range;
    OpenerHolds(cfg, times, o, hi - 1);
    NextWindowIsLater(cfg, times, o);
    var p := Opener(cfg, times, o - 1);
    assert times[o] <= times[hi - 1];
    EarlierIsBefore(times, p, lo);
    OpenerHolds(cfg, times, i, o - 1);
    WindowAdmitsItsFirstHits(cfg, times, i);
    RangeHolds(p + 1, p + cfg.maxRequests, i);
  }

  /** In any half-open interval one window long, a key is admitted at most `2 * maxRequests - 1` times. */
  lemma {:induction false} IntervalBound(cfg: Config, times: seq<Instant>, lo: nat, hi: nat)
    requires Sorted(times) && cfg.maxRequests > 0 && lo < hi <= |times| && times[hi - 1] < times[lo] + cfg.window
    ensures |AdmittedIn(cfg, times, lo, hi)| <= 2 * cfg.maxRequests - 1
  {
    hide Range, Opener;
    var max := cfg.maxRequests;
    var o := Opener(cfg, times, hi - 1);
    var p := if o > lo then Opener(cfg, times, o - 1) else 0;
    var first, last := Range(p + 1, p + max), Range(o, o + max);
    assert cfg.window > 0;
    forall i | i in AdmittedIn(cfg, times, lo, hi)
      ensures i in first + last
    {
      if i >= o {
        LastWindowAdmits(cfg, times, o, hi, i);
      } else {
        EarlierWindowAdmits(cfg, times, lo, o, hi, i);
      }
    }
    SubsetCount(AdmittedIn(cfg, times, lo, hi), first + last);
    RangeSize(p + 1, p + max);
    RangeSize(o, o + max);
    UnionCount(first, last);
  }

  lemma UnionCount(a: set<nat>, b: set<nat>)
    ensures |a + b| <= |a| + |b|
  {
  }

  // --- the same over whole histories of many keys ---

  /** The requests of a key that were admitted in an interval of the clock. */
  function AdmittedBetween(cfg: Config, past: seq<Request>, key: string, from: Instant, until: Instant): set<nat> {
    set i | 0 <= i < |past| && past[i].key == key && from <= past[i].at < until && Admitted(cfg, past[..i + 1])
  }

  /** How many earlier hits of its key a request has. */
  function RankOf(past: seq<Request>, key: string, i: nat): nat
    requires i <= |past|
  {
    |Times(past[..i], key)|
  }

  lemma {:induction false} RankIs(past: seq<Request>, key: string, i: nat)
    requires i < |past| && past[i].key == key
    ensures var r := RankOf(past, key, i); var times := Times(past, key);
            r < |times| && times[r] == past[i].at && Times(past[..i + 1], key) == times[..r + 1]
    decreases |past|
  {
    var n := |past| - 1;
    TimesOneMore(past, key);
    if i == n {
      assert past[..i + 1] == past;
    } else {
      RankIs(past[..n], key, i);
      assert past[..n][..i] == past[..i] && past[..n][..i + 1] == past[..i + 1];
    }
  }

  lemma {:induction false} RanksDiffer(past: seq<Request>, key: string, i: nat, j: nat)
    requires i < j < |past| && past[i].key == key
    ensures RankOf(past, key, i) < RankOf(past, key, j)
  {
    RankIs(past[..j], key, i);
    assert past[..j][..i] == past[..i];
  }

  lemma {:induction false} TimesAreSorted(past: seq<Request>, key: string)
    requires Ascending(past)
    ensures Sorted(Times(past, key))
    ensures past != [] ==> forall r :: 0 <= r < |Times(past, key)| ==> Times(past, key)[r] <= past[|past| - 1].at
  {
    if past != [] {
      var n := |past| - 1;
      TimesAreSorted(past[..n], key);
      TimesOneMore(past, key);
    }
  }

  /** How many of the times lie before an instant. */
  function Before(times: seq<Instant>, t: Instant): (k: nat)
    ensures k <= |times|
  {
    if times == [] then 0
    else if times[|times| - 1] < t then |times|
    else Before(times[..|times| - 1], t)
  }

  lemma {:induction false} BeforeCounts(times: seq<Instant>, t: Instant, r: nat)
    requires Sorted(times) && r < |times|
    ensures r < Before(times, t) <==> times[r] < t
  {
    var n := |times| - 1;
    if times[n] >= t && r < n {
      BeforeCounts(times[..n], t, r);
    }
  }

  lemma {:induction false} AdmittedHasRank(cfg: Config, past: seq<Request>, key: string, from: Instant,
                                           until: Instant, i: nat)
    requires Ascending(past) && i in AdmittedBetween(cfg, past, key, from, until)
    ensures i < |past| && past[i].key == key
    ensures var times := Times(past, key); var lo, hi := Before(times, from), Before(times, until);
            lo < hi && RankOf(past, key, i) in AdmittedIn(cfg, times, lo, hi)
  {
    var times, r := Times(past, key), RankOf(past, key, i);
    RankIs(past, key, i);
    TimesAreSorted(past, key);
    PruningIsInvisible(cfg, past[..i + 1]);
    BeforeCounts(times, from, r);
    BeforeCounts(times, until, r);
  }

  /** Requests of one key are as many as their ranks. */
  lemma {:induction false} RanksCount(past: seq<Request>, key: string, requests: set<nat>, ranks: set<nat>)
    requires forall i :: i in requests ==> i < |past| && past[i].key == key && RankOf(past, key, i) in ranks
    ensures |requests| <= |ranks|
  {
    hide RankOf;
    forall i, j | i in requests && j in requests && RankOf(past, key, i) == RankOf(past, key, j)
      ensures i == j
    {
      if i < j {
        RanksDiffer(past, key, i, j);
      } else if j < i {
        RanksDiffer(past, key, j, i);
      }
    }
    InjectionCount(requests, ranks, (i: nat) => if i <= |past| then RankOf(past, key, i) else 0);
  }

  lemma {:induction false} StretchBound(cfg: Config, times: seq<Instant>, from: Instant)
    requires Sorted(times) && cfg.maxRequests > 0
    ensures var lo, hi := Before(times, from), Before(times, from + cfg.window);
            lo < hi ==> |AdmittedIn(cfg, times, lo, hi)| <= 2 * cfg.maxRequests - 1
  {
    var lo, hi := Before(times, from), Before(times, from + cfg.window);
    hide Before, AdmittedAt;
    if lo < hi {
      BeforeCounts(times, from, lo);
      BeforeCounts(times, from + cfg.window, hi - 1);
      IntervalBound(cfg, times, lo, hi);
    }
  }

  /** Over every history of requests of many keys, while the clock does not go back: in any interval
      one window long each key is admitted at most `2 * maxRequests - 1` times. */
  lemma {:induction false} HistoryBound(cfg: Config, past: seq<Request>, key: string, from: Instant)
    requires Ascending(past) && cfg.maxRequests > 0
    ensures |AdmittedBetween(cfg, past, key, from, from + cfg.window)| <= 2 * cfg.maxRequests - 1
  {
    hide *;
    var times, until := Times(past, key), from + cfg.window;
    var admitted := AdmittedBetween(cfg, past, key, from, until);
    var lo, hi := Before(times, from), Before(times, until);
    TimesAreSorted(past, key);
    StretchBound(cfg, times, from);
    if admitted != {} {
      forall i | i in admitted
        ensures i < |past| && past[i].key == key && lo < hi && RankOf(past, key, i) in AdmittedIn(cfg, times, lo, hi)
      {
        AdmittedHasRank(cfg, past, key, from, until, i);
      }
      var one :| one in admitted;
      assert lo < hi;
      RanksCount(past, key, admitted, AdmittedIn(cfg, times, lo, hi));
    }
  }

  /** A hit that opens a window, the rest of its budget at its last instant, and a whole budget as the
      next window opens. */
  function Burst(cfg: Config): seq<Instant> {
    seq(2 * cfg.maxRequests, i => if i == 0 then 0 else if i < cfg.maxRequests then cfg.window - 1 else cfg.window)
  }

  lemma {:induction false} BurstOpeners(cfg: Config, i: nat)
    requires cfg.maxRequests > 0 && cfg.window >= 2 && i < |Burst(cfg)|
    ensures Opener(cfg, Burst(cfg), i) == if i < cfg.maxRequests then 0 else cfg.maxRequests
  {
    if i > 0 {
      BurstOpeners(cfg, i - 1);
    }
  }

  /** The bound is reached, whatever the limit and the window. */
  lemma {:induction false} IntervalBoundIsReached(cfg: Config)
    requires cfg.maxRequests > 0 && cfg.window >= 2
    ensures var times := Burst(cfg); var n := 2 * cfg.maxRequests;
            && |times| == n && Sorted(times) && times[n - 1] < times[1] + cfg.window
            && |AdmittedIn(cfg, times, 1, n)| == n - 1
  {
    var times, n := Burst(cfg), 2 * cfg.maxRequests;
    hide Opener, AdmittedAt, Range;
    forall i | 1 <= i < n
      ensures AdmittedAt(cfg, times, i)
    {
      BurstOpeners(cfg, i);
      WindowAdmitsItsFirstHits(cfg, times, i);
    }
    forall i: nat
      ensures i in Range(1, n) <==> 1 <= i < n
    {
      RangeHolds(1, n, i);
    }
    assert AdmittedIn(cfg, times, 1, n) == Range(1, n);
    RangeSize(1, n);
  }
}
