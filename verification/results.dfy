/** Per-position results as both the admin analytics tab and the voter's
    announced-results view compute them: the position's candidates sorted by
    vote count, highest first (a stable sort), the vote total with 1 standing
    in for 0, a rounded percentage per candidate and the first entry as the
    winner. */
module Results {
  import opened Types

  /** `c.voteCount || 0`. */
  function Votes(c: Candidate): nat {
    if c.voteCount.Some? then c.voteCount.value else 0
  }

  /** `results.filter(c => c.positionId === posId)`. */
  function ForPosition(cs: seq<Candidate>, posId: string): (r: seq<Candidate>)
    ensures forall c :: c in r <==> c in cs && c.positionId == posId
  {
    Filter(cs, (c: Candidate) => c.positionId == posId)
  }

  predicate NonIncreasing(s: seq<Candidate>) {
    forall i, j :: 0 <= i < j < |s| ==> Votes(s[i]) >= Votes(s[j])
  }

  /** Places `x`, which came before every element of `s` in the input, in
      front of the first element with no more votes than it. */
  function Insert(x: Candidate, s: seq<Candidate>): (r: seq<Candidate>)
    ensures multiset(r) == multiset(s) + multiset{x}
    ensures |r| == |s| + 1
  {
    if s == [] || Votes(s[0]) <= Votes(x) then [x] + s
    else
      assert s == [s[0]] + s[1..];
      [s[0]] + Insert(x, s[1..])
  }

  lemma {:induction false} InsertSorted(x: Candidate, s: seq<Candidate>)
    requires NonIncreasing(s)
    ensures NonIncreasing(Insert(x, s))
    decreases |s|
  {
    if !(s == [] || Votes(s[0]) <= Votes(x)) {
      var rest := Insert(x, s[1..]);
      InsertSorted(x, s[1..]);
      forall c | c in s[1..] ensures Votes(c) <= Votes(s[0]) {
        var k :| 0 <= k < |s[1..]| && s[1..][k] == c;
        assert s[k + 1] == c;
      }
      InsertBounded(x, s[1..], Votes(s[0]));
      assert forall j :: 0 <= j < |rest| ==> rest[j] in rest;
    }
  }

  /** Inserting keeps every vote count under a common bound. */
  lemma InsertBounded(x: Candidate, s: seq<Candidate>, b: nat)
    requires Votes(x) <= b && forall c :: c in s ==> Votes(c) <= b
    ensures forall c :: c in Insert(x, s) ==> Votes(c) <= b
  {
    forall c | c in Insert(x, s) ensures Votes(c) <= b {
      assert c in multiset(Insert(x, s));
    }
  }

  /** `.sort((a, b) => (b.voteCount || 0) - (a.voteCount || 0))`: a stable
      sort, highest vote count first. */
  function Ranked(s: seq<Candidate>): (r: seq<Candidate>)
    ensures multiset(r) == multiset(s)
    ensures NonIncreasing(r)
  {
    if s == [] then []
    else
      assert s == [s[0]] + s[1..];
      InsertSorted(s[0], Ranked(s[1..]));
      Insert(s[0], Ranked(s[1..]))
  }

  /** The candidates of `s` with exactly `k` votes, in order. */
  function Tier(s: seq<Candidate>, k: nat): seq<Candidate> {
    Filter(s, (c: Candidate) => Votes(c) == k)
  }

  lemma {:induction false} InsertKeepsTiers(x: Candidate, s: seq<Candidate>, k: nat)
    ensures Tier(Insert(x, s), k) == Tier([x] + s, k)
    decreases |s|
  {
    if !(s == [] || Votes(s[0]) <= Votes(x)) {
      var t := s[1..];
      assert s == [s[0]] + t;
      assert Insert(x, s) == [s[0]] + Insert(x, t);
      InsertKeepsTiers(x, t, k);
      TierCons(s[0], Insert(x, t), k);
      TierCons(x, t, k);
      TierCons(x, s, k);
      TierCons(s[0], t, k);
      var f := Tier(t, k);
      if Votes(s[0]) == k {
        assert Tier(Insert(x, s), k) == [s[0]] + f;
      } else if Votes(x) == k {
        assert Tier(Insert(x, s), k) == [x] + f;
      }
    }
  }

  lemma TierCons(y: Candidate, u: seq<Candidate>, k: nat)
    ensures Tier([y] + u, k) == (if Votes(y) == k then [y] else []) + Tier(u, k)
  {
    var keep := (c: Candidate) => Votes(c) == k;
    FilterAppend([y], u, keep);
    FilterSingleton(y, keep);
  }

  /** The sort is stable: candidates with equal votes keep their input order. */
  lemma {:induction false} RankedKeepsTiers(s: seq<Candidate>, k: nat)
    ensures Tier(Ranked(s), k) == Tier(s, k)
  {
    if s != [] {
      assert s == [s[0]] + s[1..];
      InsertKeepsTiers(s[0], Ranked(s[1..]), k);
      RankedKeepsTiers(s[1..], k);
      TierCons(s[0], Ranked(s[1..]), k);
      TierCons(s[0], s[1..], k);
    }
  }

  /** The first element of a tier is the first element of `s` with that
      many votes. */
  lemma {:induction false} TierHead(s: seq<Candidate>, k: nat)
    requires Tier(s, k) != []
    ensures exists i ::
              0 <= i < |s| && s[i] == Tier(s, k)[0] && forall j :: 0 <= j < i ==> Votes(s[j]) != k
  {
    var keep := (c: Candidate) => Votes(c) == k;
    assert s == [s[0]] + s[1..];
    FilterAppend([s[0]], s[1..], keep);
    FilterSingleton(s[0], keep);
    if Votes(s[0]) != k {
      TierHead(s[1..], k);
      var i :| 0 <= i < |s[1..]| && s[1..][i] == Tier(s[1..], k)[0] &&
        forall j :: 0 <= j < i ==> Votes(s[1..][j]) != k;
      assert s[i + 1] == Tier(s, k)[0];
      forall j | 0 <= j < i + 1 ensures Votes(s[j]) != k {
        if j > 0 {
          assert s[j] == s[1..][j - 1];
        }
      }
    } else {
      assert s[0] == Tier(s, k)[0];
    }
  }

  /** Per-position ranking as both result views compute it. */
  function PositionResults(cs: seq<Candidate>, posId: string): (r: seq<Candidate>)
    ensures forall c :: multiset(r)[c] == if c.positionId == posId then multiset(cs)[c] else 0
    ensures NonIncreasing(r)
  {
    FilterCount(cs, (c: Candidate) => c.positionId == posId);
    Ranked(ForPosition(cs, posId))
  }

  /** `pResults[0]?.id`. */
  function WinnerId(ranked: seq<Candidate>): Option<string> {
    if ranked == [] then None else Some(ranked[0].id)
  }

  /** The winner has the most votes, and among candidates tied for the most
      it is the one listed first. */
  lemma {:induction false} WinnerIsFirstTopScorer(s: seq<Candidate>)
    requires s != []
    ensures var w := Ranked(s)[0];
      && w in s
      && (forall c :: c in s ==> Votes(c) <= Votes(w))
      && exists i :: 0 <= i < |s| && s[i] == w && forall j :: 0 <= j < i ==> Votes(s[j]) < Votes(w)
  {
    var r := Ranked(s);
    var w := r[0];
    assert w in multiset(r);
    RankedHeadIsMax(s);
    assert r == [w] + r[1..];
    TierCons(w, r[1..], Votes(w));
    RankedKeepsTiers(s, Votes(w));
    TierHead(s, Votes(w));
    var i :| 0 <= i < |s| && s[i] == w && forall j :: 0 <= j < i ==> Votes(s[j]) != Votes(w);
    forall j | 0 <= j < i ensures Votes(s[j]) < Votes(w) {
      assert s[j] in s;
    }
  }

  /** No candidate has more votes than the first of the ranking. */
  lemma RankedHeadIsMax(s: seq<Candidate>)
    requires s != []
    ensures forall c :: c in s ==> Votes(c) <= Votes(Ranked(s)[0])
  {
    var r := Ranked(s);
    forall c | c in s ensures Votes(c) <= Votes(r[0]) {
      assert c in multiset(s);
      var k :| 0 <= k < |r| && r[k] == c;
    }
  }

  // ---------------------------------------------------------------------------
  // Totals and percentages
  // ---------------------------------------------------------------------------

  /** `reduce((s, c) => s + (c.voteCount || 0), 0)`. */
  function Sum(s: seq<Candidate>): nat {
    if s == [] then 0 else Votes(s[0]) + Sum(s[1..])
  }

  lemma {:induction false} SumInsert(x: Candidate, s: seq<Candidate>)
    ensures Sum(Insert(x, s)) == Votes(x) + Sum(s)
    decreases |s|
  {
    if !(s == [] || Votes(s[0]) <= Votes(x)) {
      SumInsert(x, s[1..]);
    } else {
      assert ([x] + s)[1..] == s;
    }
  }

  /** Ranking does not change the total. */
  lemma {:induction false} SumRanked(s: seq<Candidate>)
    ensures Sum(Ranked(s)) == Sum(s)
  {
    if s != [] {
      SumRanked(s[1..]);
      SumInsert(s[0], Ranked(s[1..]));
    }
  }

  lemma {:induction false} VotesAtMostSum(s: seq<Candidate>, c: Candidate)
    requires c in s
    ensures Votes(c) <= Sum(s)
  {
    if s[0] != c {
      VotesAtMostSum(s[1..], c);
    }
  }

  /** `total || 1`. */
  function Denominator(total: nat): (d: nat)
    ensures d >= 1
    ensures total > 0 ==> d == total
  {
    if total == 0 then 1 else total
  }

  /** `Math.round((v / t) * 100)` in exact arithmetic: the integer nearest to
      100v/t, halves rounded up. */
  function Percent(v: nat, t: nat): (r: nat)
    requires t > 0
    ensures 2 * t * r <= 200 * v + t < 2 * t * r + 2 * t
    ensures v <= t ==> r <= 100
  {
    var q := (200 * v + t) / (2 * t);
    QuotientBounds(200 * v + t, 2 * t);
    assert v <= t ==> q <= 100 by {
      if v <= t {
        assert (2 * t) * q < (2 * t) * 101;
        FactorLess(2 * t, q, 101);
      }
    }
    q
  }

  lemma QuotientBounds(n: nat, d: nat)
    requires d > 0
    ensures d * (n / d) <= n < d * (n / d) + d
  {
    assert n == (n / d) * d + n % d;
  }

  lemma FactorLess(d: nat, a: nat, b: nat)
    requires d > 0 && d * a < d * b
    ensures a < b
  {
    var k: int := b - a;
    assert d * k == d * b - d * a;
  }

  /** One bar of a results card. */
  datatype Bar = Bar(candidate: Candidate, percent: nat, winner: bool)

  /** The bars of one position's card. `highlight` says whether the page marks
      the winner at all. */
  function Bars(cs: seq<Candidate>, posId: string, highlight: bool): (r: seq<Bar>)
    ensures |r| == |PositionResults(cs, posId)|
    ensures forall i :: 0 <= i < |r| ==> r[i].candidate == PositionResults(cs, posId)[i]
    ensures forall i :: 0 <= i < |r| ==> r[i].percent <= 100
    ensures forall i :: 0 <= i < |r| && r[i].winner ==>
      highlight && r[i].candidate.id == r[0].candidate.id
    ensures highlight && r != [] ==> r[0].winner
  {
    BarsOf(PositionResults(cs, posId), highlight)
  }

  /** The bars of an already ranked list, the first entry being the winner. */
  function BarsOf(ranked: seq<Candidate>, highlight: bool): (r: seq<Bar>)
    ensures |r| == |ranked|
    ensures forall i :: 0 <= i < |r| ==> r[i].candidate == ranked[i] && r[i].percent <= 100
    ensures forall i :: 0 <= i < |r| && r[i].winner ==>
      highlight && r[i].candidate.id == r[0].candidate.id
    ensures highlight && r != [] ==> r[0].winner
  {
    var total := Denominator(Sum(ranked));
    BarsInRange(ranked);
    seq(|ranked|, i requires 0 <= i < |ranked| => BarOf(ranked, i, total, highlight))
  }

  function BarOf(ranked: seq<Candidate>, i: nat, total: nat, highlight: bool): (b: Bar)
    requires i < |ranked| && 0 < total && Votes(ranked[i]) <= total
    ensures b.candidate == ranked[i] && b.percent <= 100
    ensures b.winner <==> highlight && ranked[i].id == ranked[0].id
  {
    Bar(ranked[i], Percent(Votes(ranked[i]), total), highlight && Some(ranked[i].id) == WinnerId(ranked))
  }

  lemma BarsInRange(ranked: seq<Candidate>)
    ensures forall i :: 0 <= i < |ranked| ==> Votes(ranked[i]) <= Denominator(Sum(ranked))
  {
    forall i | 0 <= i < |ranked| ensures Votes(ranked[i]) <= Denominator(Sum(ranked)) {
      VotesAtMostSum(ranked, ranked[i]);
    }
  }

  /** The percentages use the position's whole vote total, whatever order
      the candidates arrived in. */
  lemma BarsUsePositionTotal(cs: seq<Candidate>, posId: string, highlight: bool)
    ensures var r := Bars(cs, posId, highlight);
      forall i :: 0 <= i < |r| ==>
        r[i].percent == Percent(Votes(r[i].candidate), Denominator(Sum(ForPosition(cs, posId))))
  {
    SumRanked(ForPosition(cs, posId));
  }

  /** The admin tab marks the winner only once voting is over. */
  predicate AdminHighlights(status: ElectionStatus) {
    status == COMPLETED || status == ANNOUNCED
  }
}
