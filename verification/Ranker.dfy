/** The opportunity ranker: a bounded window of scored opportunities, re-sorted on every insert
    and thinned by expiry, from which the top fraction is approved. */
module Ranker {
  import opened Outcomes
  import opened Sorting

  /** `rank` is written by the ranker and may be stale between inserts. */
  datatype Opportunity = Opportunity(id: string, qualityScore: real, expiresAt: int, rank: nat)

  datatype Options = Options(windowSize: nat, topFraction: real, minQualityScore: real)

  /** The comparator b.qualityScore - a.qualityScore: best first. */
  function Key(o: Opportunity): real {
    -o.qualityScore
  }

  predicate Expired(o: Opportunity, now: int) {
    o.expiresAt < now
  }

  function Live(window: seq<Opportunity>, now: int): seq<Opportunity> {
    if window == [] then []
    else (if Expired(window[0], now) then [] else [window[0]]) + Live(window[1..], now)
  }

  function FindId(window: seq<Opportunity>, id: string): (r: Option<nat>)
    ensures r.Some? ==> r.value < |window| && window[r.value].id == id
    ensures r.None? ==> forall i | 0 <= i < |window| :: window[i].id != id
  {
    if window == [] then None
    else
      var r := FindId(window[..|window| - 1], id);
      if r.Some? then r
      else if window[|window| - 1].id == id then Some(|window| - 1)
      else None
  }

  function Renumbered(window: seq<Opportunity>): (r: seq<Opportunity>)
    ensures |r| == |window|
    ensures forall i | 0 <= i < |r| :: r[i] == window[i].(rank := i + 1)
  {
    seq(|window|, i requires 0 <= i < |window| => window[i].(rank := i + 1))
  }

  /** The window with `opp` put in place of its older version, or at the end. */
  function Placed(window: seq<Opportunity>, opp: Opportunity): seq<Opportunity> {
    var found := FindId(window, opp.id);
    if found.Some? then window[found.value := opp] else window + [opp]
  }

  function UpsertOn(window: seq<Opportunity>, opp: Opportunity, now: int, opts: Options): seq<Opportunity> {
    var live := Live(window, now);
    if opp.qualityScore < opts.minQualityScore then live
    else Renumbered(Take(Sort(Placed(live, opp), Key), opts.windowSize))
  }

  function Ceil(x: real): (r: int)
    ensures x <= r as real < x + 1.0
  {
    -((-x).Floor)
  }

  function Cutoff(n: nat, topFraction: real): (r: int)
    ensures r >= 1 && n as real * topFraction <= r as real
    ensures r == 1 || (r - 1) as real < n as real * topFraction
  {
    var c := Ceil(n as real * topFraction);
    if c > 1 then c else 1
  }

  predicate Approved(window: seq<Opportunity>, id: string, topFraction: real) {
    var found := FindId(window, id);
    found.Some? && window[found.value].rank <= Cutoff(|window|, topFraction)
  }

  lemma LiveAt(w: seq<Opportunity>, i: nat, now: int)
    requires i < |w|
    ensures Live(w[i..], now) == (if Expired(w[i], now) then [] else [w[i]]) + Live(w[i + 1..], now)
  {
    assert w[i..][1..] == w[i + 1..];
  }

  class OpportunityRanker {
    const opts: Options
    var window: seq<Opportunity>

    constructor (opts: Options)
      ensures this.opts == opts && window == []
    {
      this.opts, window := opts, [];
    }

    method EvictExpired(now: int)
      modifies this`window
      ensures window == Live(old(window), now)
    {
      ghost var before := window;
      var i := |window|;
      while i > 0
        invariant 0 <= i <= |before|
        invariant window == before[..i] + Live(before[i..], now)
      {
        LiveAt(before, i - 1, now);
        ghost var tail := Live(before[i..], now);
        i := i - 1;
        assert window[..i] == before[..i] && window[i] == before[i] && window[i + 1..] == tail;
        if Expired(window[i], now) {
          window := window[..i] + window[i + 1..];
        }
      }
    }

    method TrimToSize()
      modifies this`window
      ensures window == Take(old(window), opts.windowSize)
    {
      while |window| > opts.windowSize
        invariant window <= old(window) && (|window| >= opts.windowSize || window == old(window))
      {
        window := window[..|window| - 1];
      }
    }

    method AssignRanks()
      modifies this`window
      ensures window == Renumbered(old(window))
    {
      for i := 0 to |window|
        invariant |window| == |old(window)|
        invariant forall j | 0 <= j < i :: window[j] == old(window)[j].(rank := j + 1)
        invariant forall j | i <= j < |window| :: window[j] == old(window)[j]
      {
        window := window[i := window[i].(rank := i + 1)];
      }
    }

    method Upsert(opp: Opportunity, now: int) returns (r: Option<Opportunity>)
      modifies this`window
      ensures window == UpsertOn(old(window), opp, now, opts)
      ensures r.Some? ==> r.value in window && r.value.id == opp.id && opp.qualityScore >= opts.minQualityScore
      ensures r.None? ==> opp.qualityScore < opts.minQualityScore || forall o <- window :: o.id != opp.id
    {
      EvictExpired(now);
      if opp.qualityScore < opts.minQualityScore {
        return None;
      }
      var idx := FindId(window, opp.id);
      if idx.Some? {
        window := window[idx.value := opp];
      } else {
        window := window + [opp];
      }
      window := Sort(window, Key);
      TrimToSize();
      AssignRanks();
      var found := FindId(window, opp.id);
      return if found.Some? then Some(window[found.value]) else None;
    }

    method IsApproved(id: string, now: int) returns (ok: bool)
      modifies this`window
      ensures window == Live(old(window), now)
      ensures ok == Approved(window, id, opts.topFraction)
    {
      EvictExpired(now);
      var found := FindId(window, id);
      if found.None? {
        return false;
      }
      return window[found.value].rank <= Cutoff(|window|, opts.topFraction);
    }
  }

  // ------------------------------------------------------------------ the shape of the window

  ghost predicate DistinctIds(w: seq<Opportunity>) {
    forall i, j | 0 <= i < j < |w| :: w[i].id != w[j].id
  }

  /** Ranks rise from one position to the next and start no lower than `lo`. */
  ghost predicate RanksFrom(w: seq<Opportunity>, lo: nat) {
    && (forall i | 0 <= i < |w| :: w[i].rank >= lo + i)
    && (forall i, j | 0 <= i < j < |w| :: w[i].rank < w[j].rank)
  }

  ghost predicate Inv(w: seq<Opportunity>, opts: Options) {
    Ordered(w, 1) && |w| <= opts.windowSize
  }

  lemma {:induction false} LiveMembers(w: seq<Opportunity>, now: int)
    ensures |Live(w, now)| <= |w|
    ensures forall o :: o in Live(w, now) <==> o in w && o.expiresAt >= now
  {
    if w != [] {
      LiveMembers(w[1..], now);
    }
  }

  /** Distinct ids, best first, and ranks rising from `lo`. */
  ghost predicate Ordered(w: seq<Opportunity>, lo: nat) {
    DistinctIds(w) && Sorted(w, Key) && RanksFrom(w, lo)
  }

  /** `x` may stand before `o`. */
  predicate Precedes(x: Opportunity, o: Opportunity) {
    o.id != x.id && Key(x) <= Key(o) && x.rank < o.rank
  }

  lemma TailKeeps(w: seq<Opportunity>, lo: nat)
    requires Ordered(w, lo) && w != []
    ensures Ordered(w[1..], lo + 1) && w[0].rank >= lo
    ensures forall o <- w[1..] :: Precedes(w[0], o)
  {
    forall i | 0 <= i < |w[1..]| ensures w[1..][i] == w[i + 1] && Precedes(w[0], w[i + 1]) {
    }
  }

  lemma ConsKeeps(x: Opportunity, rest: seq<Opportunity>, lo: nat)
    requires Ordered(rest, lo + 1) && x.rank >= lo
    requires forall o <- rest :: Precedes(x, o)
    ensures Ordered([x] + rest, lo)
  {
    var w := [x] + rest;
    forall i | 0 < i < |w| ensures w[i] == rest[i - 1] && Precedes(x, w[i]) {
    }
  }

  lemma {:induction false} LiveIsSubsequence(w: seq<Opportunity>, now: int, lo: nat)
    requires Ordered(w, lo)
    ensures Ordered(Live(w, now), lo)
  {
    if w != [] {
      TailKeeps(w, lo);
      LiveIsSubsequence(w[1..], now, lo + 1);
      if !Expired(w[0], now) {
        LiveMembers(w[1..], now);
        ConsKeeps(w[0], Live(w[1..], now), lo);
      }
    }
  }

  lemma PlacedDistinct(w: seq<Opportunity>, opp: Opportunity)
    requires DistinctIds(w)
    ensures DistinctIds(Placed(w, opp)) && opp in Placed(w, opp)
  {
    var found := FindId(w, opp.id);
    if found.Some? {
      assert Placed(w, opp)[found.value] == opp;
    } else {
      assert Placed(w, opp)[|w|] == opp;
    }
  }

  lemma {:induction false} InsertDistinct(s: seq<Opportunity>, x: Opportunity)
    requires DistinctIds(s) && forall o <- s :: o.id != x.id
    ensures DistinctIds(Insert(s, x, Key))
  {
    if s != [] && Key(s[|s| - 1]) > Key(x) {
      var front, last := s[..|s| - 1], s[|s| - 1];
      InsertDistinct(front, x);
      InsertMembers(front, x, Key);
      assert forall o <- Insert(front, x, Key) :: o.id != last.id;
    }
  }

  lemma {:induction false} SortDistinct(s: seq<Opportunity>)
    requires DistinctIds(s)
    ensures DistinctIds(Sort(s, Key)) && forall o <- Sort(s, Key) :: o in s
  {
    if s != [] {
      var front, last := s[..|s| - 1], s[|s| - 1];
      SortDistinct(front);
      InsertDistinct(Sort(front, Key), last);
      InsertMembers(Sort(front, Key), last, Key);
    }
  }

  lemma AcceptedShape(placed: seq<Opportunity>, opts: Options)
    requires DistinctIds(placed)
    ensures Inv(Renumbered(Take(Sort(placed, Key), opts.windowSize)), opts)
  {
    SortSorts(placed, Key);
    SortDistinct(placed);
  }

  /** After an accepted upsert: distinct ids, best first, ranks exactly 1..n, within the window
      size; whatever was there before. */
  lemma UpsertShape(w: seq<Opportunity>, opp: Opportunity, now: int, opts: Options)
    requires Inv(w, opts)
    ensures Inv(UpsertOn(w, opp, now, opts), opts)
    ensures opp.qualityScore >= opts.minQualityScore ==>
              forall i | 0 <= i < |UpsertOn(w, opp, now, opts)| :: UpsertOn(w, opp, now, opts)[i].rank == i + 1
  {
    LiveIsSubsequence(w, now, 1);
    LiveMembers(w, now);
    if opp.qualityScore >= opts.minQualityScore {
      PlacedDistinct(Live(w, now), opp);
      AcceptedShape(Placed(Live(w, now), opp), opts);
    }
  }

  datatype Event = Upsert(opp: Opportunity, at: int) | Query(at: int) | Clear

  function Step(w: seq<Opportunity>, e: Event, opts: Options): seq<Opportunity> {
    match e
    case Upsert(opp, at) => UpsertOn(w, opp, at, opts)
    case Query(at) => Live(w, at)
    case Clear => []
  }

  function Run(w: seq<Opportunity>, events: seq<Event>, opts: Options): seq<Opportunity>
    decreases |events|
  {
    if events == [] then w else Run(Step(w, events[0], opts), events[1..], opts)
  }

  lemma {:induction false} RunKeeps(w: seq<Opportunity>, events: seq<Event>, opts: Options)
    requires Inv(w, opts)
    ensures Inv(Run(w, events, opts), opts)
    decreases |events|
  {
    if events != [] {
      match events[0] {
        case Upsert(opp, at) => UpsertShape(w, opp, at, opts);
        case Query(at) =>
          LiveIsSubsequence(w, at, 1);
          LiveMembers(w, at);
        case Clear =>
      }
      RunKeeps(Step(w, events[0], opts), events[1..], opts);
    }
  }

  lemma FindDistinct(w: seq<Opportunity>, i: nat)
    requires DistinctIds(w) && i < |w|
    ensures FindId(w, w[i].id) == Some(i)
  {
  }

  /** The length of the approved prefix. */
  function ApprovedCount(w: seq<Opportunity>, cutoff: int): (m: nat)
    ensures m <= |w|
  {
    if w == [] || w[0].rank > cutoff then 0 else 1 + ApprovedCount(w[1..], cutoff)
  }

  lemma {:induction false} PrefixByRank(w: seq<Opportunity>, cutoff: int, lo: nat)
    requires RanksFrom(w, lo)
    ensures var m := ApprovedCount(w, cutoff);
            && (forall i | 0 <= i < |w| :: w[i].rank <= cutoff <==> i < m)
            && (m > 0 ==> m <= cutoff - lo + 1)
  {
    if w != [] && w[0].rank <= cutoff {
      var rest := w[1..];
      assert forall i | 0 <= i < |rest| :: rest[i] == w[i + 1];
      PrefixByRank(rest, cutoff, lo + 1);
      var m := ApprovedCount(w, cutoff);
      forall i | 0 <= i < |w| ensures w[i].rank <= cutoff <==> i < m {
        if i > 0 {
          assert rest[i - 1].rank <= cutoff <==> i - 1 < m - 1;
        }
      }
    }
  }

  /** Rank `k` is within the top fraction of `n`, or the best. */
  predicate InTop(k: int, n: nat, topFraction: real) {
    k <= 1 || (k - 1) as real < n as real * topFraction
  }

  lemma InTopIff(k: int, n: nat, topFraction: real)
    ensures k <= Cutoff(n, topFraction) <==> InTop(k, n, topFraction)
  {
    var r := Cutoff(n, topFraction);
    if k <= r {
      assert (k - 1) as real <= (r - 1) as real;
    }
  }

  /** After any run, evictions with stale ranks included, what is approved is a prefix of the
      window of at most max(1, ceil(n * topFraction)) entries. */
  lemma ApprovedIsTopPrefix(events: seq<Event>, opts: Options)
    ensures var w := Run([], events, opts);
            var m := ApprovedCount(w, Cutoff(|w|, opts.topFraction));
            && InTop(m, |w|, opts.topFraction)
            && (forall i, j | 0 <= i < j < |w| :: w[i].qualityScore >= w[j].qualityScore)
            && Sorted(w, Key) && DistinctIds(w) && |w| <= opts.windowSize
            && forall i | 0 <= i < |w| :: Approved(w, w[i].id, opts.topFraction) <==> i < m
  {
    RunKeeps([], events, opts);
    var w := Run([], events, opts);
    PrefixByRank(w, Cutoff(|w|, opts.topFraction), 1);
    InTopIff(ApprovedCount(w, Cutoff(|w|, opts.topFraction)), |w|, opts.topFraction);
    forall i | 0 <= i < |w| ensures FindId(w, w[i].id) == Some(i) {
      FindDistinct(w, i);
    }
    forall i, j | 0 <= i < j < |w| ensures w[i].qualityScore >= w[j].qualityScore {
      assert Key(w[i]) <= Key(w[j]);
    }
  }

  /** Ranks are exactly the positions, as an accepted insert leaves them. */
  ghost predicate Fresh(w: seq<Opportunity>) {
    DistinctIds(w) && forall i | 0 <= i < |w| :: w[i].rank == i + 1
  }

  lemma InsertLeavesFresh(w: seq<Opportunity>, opp: Opportunity, now: int, opts: Options)
    requires Inv(w, opts) && opp.qualityScore >= opts.minQualityScore
    ensures Fresh(UpsertOn(w, opp, now, opts))
  {
    UpsertShape(w, opp, now, opts);
  }

  /** Right after an accepted insert exactly the top fraction is approved, and always the best one. */
  lemma FreshlyApproved(w: seq<Opportunity>, i: nat, topFraction: real)
    requires Fresh(w) && i < |w|
    ensures Approved(w, w[i].id, topFraction) <==> i == 0 || i as real < |w| as real * topFraction
  {
    FindDistinct(w, i);
    InTopIff(i + 1, |w|, topFraction);
  }

  // ------------------------------------------------------------------ the best of everything

  function Unranked(o: Opportunity): Opportunity {
    o.(rank := 0)
  }

  function Strip(w: seq<Opportunity>): (r: seq<Opportunity>)
    ensures |r| == |w| && forall i | 0 <= i < |w| :: r[i] == Unranked(w[i])
  {
    seq(|w|, i requires 0 <= i < |w| => Unranked(w[i]))
  }

  /** The inserts that meet the minimum quality, in order of arrival. */
  function Qualifying(xs: seq<Opportunity>, opts: Options): seq<Opportunity> {
    if xs == [] then []
    else Qualifying(xs[..|xs| - 1], opts)
         + if xs[|xs| - 1].qualityScore < opts.minQualityScore then [] else [Unranked(xs[|xs| - 1])]
  }

  /** Upserts of a list of opportunities at the given times. */
  function UpsertAll(xs: seq<Opportunity>, at: nat -> int, opts: Options): seq<Opportunity> {
    if xs == [] then []
    else UpsertOn(UpsertAll(xs[..|xs| - 1], at, opts), xs[|xs| - 1], at(|xs| - 1), opts)
  }

  lemma {:induction false} StripInsert(w: seq<Opportunity>, x: Opportunity)
    ensures Strip(Insert(w, x, Key)) == Insert(Strip(w), Unranked(x), Key)
  {
    if w != [] && Key(w[|w| - 1]) > Key(x) {
      StripInsert(w[..|w| - 1], x);
      assert Strip(w)[..|w| - 1] == Strip(w[..|w| - 1]);
    }
  }

  lemma {:induction false} LiveKeepsAll(w: seq<Opportunity>, now: int)
    requires forall o <- w :: !Expired(o, now)
    ensures Live(w, now) == w
  {
    if w != [] {
      LiveKeepsAll(w[1..], now);
    }
  }

  lemma {:induction false} QualifyingMembers(xs: seq<Opportunity>, opts: Options)
    ensures forall o <- Qualifying(xs, opts) :: exists i :: 0 <= i < |xs| && o == Unranked(xs[i])
  {
    if xs != [] {
      QualifyingMembers(xs[..|xs| - 1], opts);
    }
  }

  lemma TakeOfSortMembers(q: seq<Opportunity>, k: nat)
    ensures forall o <- Take(Sort(q, Key), k) :: o in q
  {
    SortSorts(q, Key);
    forall o | o in Take(Sort(q, Key), k) ensures o in q {
      assert o in Sort(q, Key);
      assert o in multiset(q);
    }
  }

  /** Over inserts of distinct ids that do not expire, the window is the `windowSize` best of all
      qualifying inserts, ties in order of arrival. */
  lemma {:induction false} WindowIsTopK(xs: seq<Opportunity>, at: nat -> int, opts: Options)
    requires DistinctIds(xs)
    requires forall i, j: nat | 0 <= i < |xs| && j < |xs| :: !Expired(xs[i], at(j))
    ensures Inv(UpsertAll(xs, at, opts), opts)
    ensures Strip(UpsertAll(xs, at, opts)) == Take(Sort(Qualifying(xs, opts), Key), opts.windowSize)
  {
    if xs != [] {
      var n := |xs| - 1;
      var front, x := xs[..n], xs[n];
      WindowIsTopK(front, at, opts);
      var w, q := UpsertAll(front, at, opts), Qualifying(front, opts);
      UpsertShape(w, x, at(n), opts);
      QualifyingMembers(front, opts);
      TakeOfSortMembers(q, opts.windowSize);
      forall i | 0 <= i < |w| ensures w[i].id != x.id && !Expired(w[i], at(n)) {
        assert Strip(w)[i] in Take(Sort(q, Key), opts.windowSize);
      }
      LiveKeepsAll(w, at(n));
      if x.qualityScore >= opts.minQualityScore {
        assert Placed(w, x) == w + [x];
        AcceptedInsert(w, x, q, opts);
        assert (q + [Unranked(x)])[..|q|] == q;
        assert Qualifying(xs, opts) == q + [Unranked(x)];
      } else {
        assert Qualifying(xs, opts) == q;
      }
    }
  }

  lemma AcceptedInsert(w: seq<Opportunity>, x: Opportunity, q: seq<Opportunity>, opts: Options)
    requires Sorted(w, Key)
    requires Strip(w) == Take(Sort(q, Key), opts.windowSize)
    ensures Strip(Renumbered(Take(Sort(w + [x], Key), opts.windowSize))) ==
            Take(Insert(Sort(q, Key), Unranked(x), Key), opts.windowSize)
  {
    var k := opts.windowSize;
    SortOfSorted(w, Key);
    assert (w + [x])[..|w|] == w;
    var inserted := Insert(w, x, Key);
    assert Sort(w + [x], Key) == inserted;
    StripInsert(w, x);
    SortSorts(q, Key);
    TakeInsert(Sort(q, Key), Unranked(x), Key, k);
    assert Strip(Renumbered(Take(inserted, k))) == Take(Strip(inserted), k);
  }

  /** What "best" means: the qualifying inserts split into those kept and those left out, nothing
      left out beats anything kept, and the window is full if it can be. */
  lemma TopKBeatsRest(q: seq<Opportunity>, k: nat)
    ensures var best := Take(Sort(q, Key), k);
            var left := Sort(q, Key)[|best|..];
            && |best| == (if |q| <= k then |q| else k)
            && multiset(q) == multiset(best) + multiset(left)
            && forall i, j | 0 <= i < |best| && 0 <= j < |left| :: best[i].qualityScore >= left[j].qualityScore
  {
    var s := Sort(q, Key);
    var best := Take(s, k);
    var left := s[|best|..];
    SortSorts(q, Key);
    assert s == best + left;
    forall i, j | 0 <= i < |best| && 0 <= j < |left| ensures best[i].qualityScore >= left[j].qualityScore {
      assert Key(s[i]) <= Key(s[|best| + j]);
    }
  }
}
