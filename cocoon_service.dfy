/** The engagement analytics engine of services/cocoonService.ts: from the
    read history and the favorites it derives one report (radar scores per
    category, blind spots, a balance score, a diversity tier, a recommended
    category, and a weighted ranking of the user's top topics). */
module CocoonService {
  import opened Types
  import opened Seqs
  import Constants
  import JsObject

  /** The six radar categories, in display order. */
  const AllCategories: seq<string> := ["Policy", "Tech", "Economy", "Society", "International", "Science"]

  const FullMark: nat := 100

  function Min(a: int, b: int): int { if a <= b then a else b }

  function Max(a: int, b: int): int { if a >= b then a else b }

  // ---------------------------------------------------------------------
  // Category counts

  /** `t` is a read of category `c`. */
  predicate IsReadOf(t: Topic, c: string)
  {
    HasCategory(t) && Category(t) == c
  }

  /** The number of reads of category `c` in the history `h`. */
  function CountIn(h: seq<Topic>, c: string): (n: nat)
    ensures n <= |h|
  {
    if h == [] then 0 else CountIn(h[..|h| - 1], c) + (if IsReadOf(h[|h| - 1], c) then 1 else 0)
  }

  lemma {:induction false} CountAppend(a: seq<Topic>, b: seq<Topic>, c: string)
    ensures CountIn(a + b, c) == CountIn(a, c) + CountIn(b, c)
    decreases |b|
  {
    if b == [] {
      assert a + b == a;
    } else {
      assert (a + b)[..|a + b| - 1] == a + b[..|b| - 1];
      CountAppend(a, b[..|b| - 1], c);
    }
  }

  /** Removing one read lowers the count of its category by one and leaves
      the other counts alone. */
  lemma CountRemove(b: seq<Topic>, i: nat, c: string)
    requires i < |b|
    ensures CountIn(b, c) == CountIn(b[..i] + b[i + 1..], c) + (if IsReadOf(b[i], c) then 1 else 0)
  {
    assert b == b[..i] + ([b[i]] + b[i + 1..]);
    CountAppend(b[..i], [b[i]] + b[i + 1..], c);
    CountAppend([b[i]], b[i + 1..], c);
    CountAppend(b[..i], b[i + 1..], c);
    assert [b[i]][..0] == [];
  }

  /** The count of a category depends only on the multiset of reads. */
  lemma {:induction false} CountPermutation(a: seq<Topic>, b: seq<Topic>, c: string)
    requires multiset(a) == multiset(b)
    ensures CountIn(a, c) == CountIn(b, c)
    decreases |a|
  {
    if a == [] {
      assert |b| == |multiset(b)| == 0;
    } else {
      var x := a[|a| - 1];
      var a' := a[..|a| - 1];
      assert a == a' + [x];
      assert x in multiset(b);
      var i :| 0 <= i < |b| && b[i] == x;
      var b' := b[..i] + b[i + 1..];
      assert multiset(a') == multiset(b') by {
        MultisetRemove(a, |a| - 1);
        MultisetRemove(b, i);
        assert a[..|a| - 1] + a[|a|..] == a';
      }
      CountPermutation(a', b', c);
      CountRemove(b, i, c);
    }
  }

  /** The reads no radar category receives: records without a category or
      with a category outside the six (for instance 'Culture'). */
  function UncountedIn(h: seq<Topic>): (n: nat)
    ensures n <= |h|
  {
    if h == [] then 0
    else UncountedIn(h[..|h| - 1]) + (if HasCategory(h[|h| - 1]) && Category(h[|h| - 1]) in AllCategories then 0 else 1)
  }

  /** Every read lands in at most one category: the six counts and the
      uncounted reads add up to the total number of reads. */
  lemma {:induction false} ReadsAreSplit(h: seq<Topic>)
    ensures CountIn(h, "Policy") + CountIn(h, "Tech") + CountIn(h, "Economy") + CountIn(h, "Society")
          + CountIn(h, "International") + CountIn(h, "Science") + UncountedIn(h) == |h|
  {
    if h != [] {
      ReadsAreSplit(h[..|h| - 1]);
    }
  }

  /** The `counts` dictionary, filled by one pass over the history. */
  method CountCategories(h: seq<Topic>) returns (counts: map<string, nat>)
    ensures forall c :: c in counts <==> c in AllCategories
    ensures forall c :: c in AllCategories ==> counts[c] == CountIn(h, c)
  {
    counts := map c | c in AllCategories :: 0;
    var i := 0;
    while i < |h|
      invariant 0 <= i <= |h|
      invariant forall c :: c in counts <==> c in AllCategories
      invariant forall c :: c in AllCategories ==> counts[c] == CountIn(h[..i], c)
    {
      var t := h[i];
      if HasCategory(t) && Category(t) in counts {
        counts := counts[Category(t) := counts[Category(t)] + 1];
      }
      assert h[..i + 1][..i] == h[..i];
      i := i + 1;
    }
    assert h[..|h|] == h;
  }

  // ---------------------------------------------------------------------
  // Radar scores and blind spots

  datatype CategoryScore = CategoryScore(subject: string, score: nat, fullMark: nat)

  /** The radar score of a category read `count` times: a first read is worth
      40, each further read 20 more, saturating at 100 from four reads on. */
  function ScoreOf(count: nat): (r: nat)
    ensures r == 0 || r == 40 || r == 60 || r == 80 || r == 100
    ensures r == 0 <==> count == 0
    ensures count == 1 ==> r == 40
    ensures count >= 4 ==> r == 100
  {
    if count > 0 then Min(100, 20 + count * 20) else 0
  }

  /** The score never decreases with more reads and grows strictly until it
      saturates. */
  lemma ScoreMonotone(a: nat, b: nat)
    requires a <= b
    ensures ScoreOf(a) <= ScoreOf(b)
    ensures 0 < b <= 4 && a < b ==> ScoreOf(a) < ScoreOf(b)
  {
  }

  function RadarFromCounts(counts: map<string, nat>): seq<CategoryScore>
    requires forall c :: c in AllCategories ==> c in counts
  {
    seq(6, i requires 0 <= i < 6 => CategoryScore(AllCategories[i], ScoreOf(counts[AllCategories[i]]), FullMark))
  }

  /** The radar data of a history, one entry per category. */
  function RadarData(h: seq<Topic>): seq<CategoryScore>
  {
    seq(6, i requires 0 <= i < 6 => CategoryScore(AllCategories[i], ScoreOf(CountIn(h, AllCategories[i])), FullMark))
  }

  function Subjects(radar: seq<CategoryScore>): (r: seq<string>)
    ensures |r| == |radar| && forall i :: 0 <= i < |radar| ==> r[i] == radar[i].subject
  {
    if radar == [] then [] else [radar[0].subject] + Subjects(radar[1..])
  }

  /** `radarData.filter(d => d.score === 0).map(d => d.subject)`. */
  function BlindSpotsOf(radar: seq<CategoryScore>): (r: seq<string>)
    ensures |r| <= |radar|
  {
    if radar == [] then []
    else
      var rest := BlindSpotsOf(radar[1..]);
      if radar[0].score == 0 then [radar[0].subject] + rest else rest
  }

  /** A subject is a blind spot exactly when some radar entry for it scores 0. */
  lemma {:induction false} BlindSpotsMembers(radar: seq<CategoryScore>)
    ensures forall x :: x in BlindSpotsOf(radar) <==>
      exists i :: 0 <= i < |radar| && radar[i].score == 0 && radar[i].subject == x
  {
    if radar != [] {
      BlindSpotsMembers(radar[1..]);
      assert forall i :: 0 <= i < |radar| - 1 ==> radar[1..][i] == radar[i + 1];
    }
  }

  /** The blind spots are listed in the radar's order. */
  lemma {:induction false} BlindSpotsInOrder(radar: seq<CategoryScore>)
    ensures IsSubseq(BlindSpotsOf(radar), Subjects(radar))
  {
    if radar != [] {
      BlindSpotsInOrder(radar[1..]);
      assert Subjects(radar)[1..] == Subjects(radar[1..]);
      if radar[0].score != 0 {
        SubseqOfTail(BlindSpotsOf(radar), Subjects(radar));
      }
    }
  }

  function BlindSpots(h: seq<Topic>): seq<string>
  {
    BlindSpotsOf(RadarData(h))
  }

  /** The blind spots are exactly the categories nobody read, listed in the
      categories' display order. */
  lemma BlindSpotsExact(h: seq<Topic>)
    ensures forall c :: c in BlindSpots(h) <==> c in AllCategories && CountIn(h, c) == 0
    ensures IsSubseq(BlindSpots(h), AllCategories)
  {
    var radar := RadarData(h);
    assert Subjects(radar) == AllCategories;
    BlindSpotsInOrder(radar);
    BlindSpotsMembers(radar);
    forall c | c in AllCategories && CountIn(h, c) == 0 ensures c in BlindSpots(h) {
      var i :| 0 <= i < 6 && AllCategories[i] == c;
      assert radar[i].score == 0 && radar[i].subject == c;
    }
  }

  // ---------------------------------------------------------------------
  // Balance ("cocoon") score

  function Scores(radar: seq<CategoryScore>): (r: seq<int>)
    ensures |r| == |radar| && forall i :: 0 <= i < |radar| ==> r[i] == radar[i].score
  {
    if radar == [] then [] else [radar[0].score as int] + Scores(radar[1..])
  }

  function Sum(s: seq<int>): int
  {
    if s == [] then 0 else s[0] + Sum(s[1..])
  }

  /** The arithmetic mean, as the source computes it (over the reals). */
  function Mean(s: seq<int>): real
    requires |s| > 0
  {
    Sum(s) as real / |s| as real
  }

  function SquaredDeviations(s: seq<int>, m: real): real
  {
    if s == [] then 0.0 else (s[0] as real - m) * (s[0] as real - m) + SquaredDeviations(s[1..], m)
  }

  /** The population variance (divided by N, not N - 1). */
  function Variance(s: seq<int>): real
    requires |s| > 0
  {
    SquaredDeviations(s, Mean(s)) / |s| as real
  }

  /** (j + 1/2)^2: the squared deviation up to which `100 - j` is the rounded
      balance. */
  function HalfSquare(j: nat): real
  {
    (j as real + 0.5) * (j as real + 0.5)
  }

  /** The least k >= lo with (k + 1/2)^2 >= v, capped at 100. For the
      variance v, 100 - k is Math.round(100 - sqrt(v)) clamped at 0 (see
      BalanceMatchesFormula). */
  function RoundedDeviation(v: real, lo: nat): (k: nat)
    requires lo <= 100
    ensures lo <= k <= 100
    ensures k < 100 ==> HalfSquare(k) >= v
    ensures forall j: nat :: lo <= j < k ==> HalfSquare(j) < v
    decreases 100 - lo
  {
    if lo == 100 || HalfSquare(lo) >= v then lo else RoundedDeviation(v, lo + 1)
  }

  /** The balance score of a history: Math.max(0, Math.round(100 - stdDev)),
      computed exactly over the reals. */
  function BalanceScore(h: seq<Topic>): (r: nat)
    ensures r <= 100
  {
    100 - RoundedDeviation(Variance(Scores(RadarData(h))), 0)
  }

  /** JavaScript's Math.round: halves round up. */
  function JsRound(x: real): int
  {
    (x + 0.5).Floor
  }

  lemma SquareOrder(x: real, y: real)
    requires 0.0 <= x && 0.0 <= y
    ensures x * x <= y * y ==> x <= y
    ensures x * x < y * y ==> x < y
  {
    if x > y {
      var d := x - y;
      assert x * x == y * y + 2.0 * y * d + d * d;
      assert y * d >= 0.0;
      assert d * d > 0.0;
    }
  }

  lemma SquareMonotone(x: real, y: real)
    requires 0.0 <= x <= y
    ensures x * x <= y * y
  {
    assert x * x <= x * y <= y * y;
  }

  lemma HalfSquareMonotone(j: nat, k: nat)
    ensures j <= k ==> HalfSquare(j) <= HalfSquare(k)
  {
    if j <= k {
      SquareMonotone(j as real + 0.5, k as real + 0.5);
    }
  }

  /** sd lies within half a unit of j exactly when (j - 1/2)^2 < sd^2 <= (j + 1/2)^2. */
  lemma HalfBounds(j: nat, sd: real)
    requires sd >= 0.0
    ensures HalfSquare(j) >= sd * sd ==> sd <= j as real + 0.5
    ensures j > 0 && HalfSquare(j - 1) < sd * sd ==> j as real - 0.5 < sd
  {
    SquareOrder(sd, j as real + 0.5);
    if j > 0 {
      SquareOrder(j as real - 0.5, sd);
    }
  }

  lemma FloorIs(x: real, n: int)
    requires n as real <= x < n as real + 1.0
    ensures x.Floor == n
  {
  }

  /** With sd the square root of v, 100 - RoundedDeviation(v, 0) is
      Math.max(0, Math.round(100 - sd)). */
  lemma RoundingIsExact(v: real, sd: real)
    requires sd >= 0.0 && sd * sd == v
    ensures 100 - RoundedDeviation(v, 0) == Max(0, JsRound(100.0 - sd))
  {
    var k := RoundedDeviation(v, 0);
    if k < 100 {
      HalfBounds(k, sd);
      if k > 0 {
        assert HalfSquare(k - 1) < v;
      }
      FloorIs(100.0 - sd + 0.5, 100 - k);
    } else {
      assert HalfSquare(99) < v;
      HalfBounds(100, sd);
      assert 100.0 - sd + 0.5 < 1.0;
    }
  }

  /** For the true standard deviation `sd` of the six scores, BalanceScore is
      exactly the source's Math.max(0, Math.round(100 - sd)). */
  lemma BalanceMatchesFormula(h: seq<Topic>, sd: real)
    requires sd >= 0.0 && sd * sd == Variance(Scores(RadarData(h)))
    ensures BalanceScore(h) == Max(0, JsRound(100.0 - sd))
  {
    RoundingIsExact(Variance(Scores(RadarData(h))), sd);
  }

  lemma {:induction false} NoDeviation(s: seq<int>, m: real)
    requires forall i :: 0 <= i < |s| ==> s[i] as real == m
    ensures SquaredDeviations(s, m) == 0.0
  {
    if s != [] {
      NoDeviation(s[1..], m);
    }
  }

  lemma {:induction false} SumOfEqual(s: seq<int>, a: int)
    requires forall i :: 0 <= i < |s| ==> s[i] == a
    ensures Sum(s) == |s| * a
  {
    if s != [] {
      SumOfEqual(s[1..], a);
    }
  }

  /** A perfectly even read pattern, the empty history included, scores 100. */
  lemma EvenScoresBalance(h: seq<Topic>)
    requires forall i :: 0 <= i < 6 ==> RadarData(h)[i].score == RadarData(h)[0].score
    ensures BalanceScore(h) == 100
  {
    var s := Scores(RadarData(h));
    var a := s[0];
    SumOfEqual(s, a);
    assert Mean(s) == a as real;
    NoDeviation(s, a as real);
    assert Variance(s) == 0.0;
  }

  /** Radar data, blind spots and balance score ignore the order of reads. */
  lemma ReportIgnoresOrder(h1: seq<Topic>, h2: seq<Topic>)
    requires multiset(h1) == multiset(h2)
    ensures RadarData(h1) == RadarData(h2)
    ensures BlindSpots(h1) == BlindSpots(h2)
    ensures BalanceScore(h1) == BalanceScore(h2)
    ensures |h1| == |h2|
  {
    forall c | c in AllCategories ensures CountIn(h1, c) == CountIn(h2, c) {
      CountPermutation(h1, h2, c);
    }
    assert |h1| == |multiset(h1)| == |h2|;
  }

  // ---------------------------------------------------------------------
  // Diversity tier and recommendation

  datatype DiversityLevel = EchoChamber | FilterBubble | Explorer | BridgeBuilder

  /** The tier, by first matching rule. */
  function Tier(score: int, totalReads: nat): (d: DiversityLevel)
    ensures d == BridgeBuilder <==> score > 80 && totalReads > 5
    ensures d == Explorer <==> score > 50 && !(score > 80 && totalReads > 5)
    ensures d == FilterBubble <==> 30 < score <= 50
    ensures d == EchoChamber <==> score <= 30
  {
    if score > 80 && totalReads > 5 then BridgeBuilder
    else if score > 50 then Explorer
    else if score > 30 then FilterBubble
    else EchoChamber
  }

  /** Position of a tier, lowest (Echo Chamber) first. */
  function Rank(d: DiversityLevel): nat
  {
    match d
    case EchoChamber => 0
    case FilterBubble => 1
    case Explorer => 2
    case BridgeBuilder => 3
  }

  /** A higher score or more reads never lowers the tier. */
  lemma TierMonotone(s1: int, r1: nat, s2: int, r2: nat)
    requires s1 <= s2 && r1 <= r2
    ensures Rank(Tier(s1, r1)) <= Rank(Tier(s2, r2))
  {
  }

  /** `Math.floor(roll * n)` for a roll drawn from [0, 1). */
  function PickIndex(roll: real, n: nat): (i: nat)
    requires 0.0 <= roll < 1.0 && n > 0
    ensures i < n
  {
    assert roll * n as real < n as real;
    (roll * n as real).Floor
  }

  /** The recommended category: a blind spot picked by the roll. */
  function Recommend(blindSpots: seq<string>, roll: real): (r: Option<string>)
    requires 0.0 <= roll < 1.0
    ensures r.Some? <==> |blindSpots| > 0
    ensures r.Some? ==> r.value in blindSpots
  {
    if |blindSpots| > 0 then Some(blindSpots[PickIndex(roll, |blindSpots|)]) else None
  }

  /** Every blind spot is recommended for some roll. */
  lemma RecommendReachesEvery(blindSpots: seq<string>, i: nat)
    requires i < |blindSpots|
    ensures var roll := i as real / |blindSpots| as real;
      0.0 <= roll < 1.0 && Recommend(blindSpots, roll) == Some(blindSpots[i])
  {
    var n := |blindSpots| as real;
    var roll := i as real / n;
    assert roll * n == i as real;
  }

  // ---------------------------------------------------------------------
  // Trend ranking

  /** The number of entries of `s` with identity `id`. */
  function CountId(s: seq<Topic>, id: string): nat
  {
    if s == [] then 0 else CountId(s[..|s| - 1], id) + (if s[|s| - 1].id == id then 1 else 0)
  }

  /** An identity is counted exactly when it occurs. */
  lemma {:induction false} CountIdPresence(s: seq<Topic>, id: string)
    ensures CountId(s, id) > 0 <==> id in IdSet(s)
  {
    if s != [] {
      CountIdPresence(s[..|s| - 1], id);
      assert IdSet(s) == IdSet(s[..|s| - 1]) + {s[|s| - 1].id};
    }
  }

  /** In a list with unique identities an identity is counted at most once. */
  lemma {:induction false} CountIdUnique(s: seq<Topic>, id: string)
    requires UniqueIds(s)
    ensures CountId(s, id) == if id in IdSet(s) then 1 else 0
  {
    if s != [] {
      var init := s[..|s| - 1];
      assert UniqueIds(init) by {
        forall i, j | 0 <= i < j < |init| ensures init[i].id != init[j].id {
          assert init[i] == s[i] && init[j] == s[j];
        }
      }
      CountIdUnique(init, id);
      assert IdSet(s) == IdSet(init) + {s[|s| - 1].id};
      forall k | 0 <= k < |init| ensures init[k].id != s[|s| - 1].id {
        assert init[k] == s[k];
      }
    }
  }

  /** With unique favorites, a favorite adds exactly three to its
      identity's weight. */
  lemma FavoriteWeighsThree(h: seq<Topic>, f: seq<Topic>, id: string)
    requires UniqueIds(f)
    ensures Weight(h, f, id) == CountId(h, id) + (if id in IdSet(f) then 3 else 0)
  {
    CountIdUnique(f, id);
  }

  /** The weight of an identity: one per view, three per favorite. */
  function Weight(h: seq<Topic>, f: seq<Topic>, id: string): nat
  {
    CountId(h, id) + 3 * CountId(f, id)
  }

  /** The position of the first entry with identity `id`. */
  function FirstIndex(s: seq<Topic>, id: string): (k: nat)
    requires id in IdSet(s)
    ensures k < |s| && s[k].id == id
    ensures forall j :: 0 <= j < k ==> s[j].id != id
  {
    var init := s[..|s| - 1];
    assert IdSet(s) == IdSet(init) + {s[|s| - 1].id};
    if id in IdSet(init) then FirstIndex(init, id) else |s| - 1
  }

  /** The record whose title and category represent `id`: its first
      occurrence. */
  function FirstWith(s: seq<Topic>, id: string): Topic
    requires id in IdSet(s)
  {
    s[FirstIndex(s, id)]
  }

  /** The identities of `s`, each once, in order of first occurrence. */
  function DistinctIds(s: seq<Topic>): (r: seq<string>)
    ensures forall i, j :: 0 <= i < j < |r| ==> r[i] != r[j]
    ensures forall x :: x in r <==> x in IdSet(s)
  {
    if s == [] then []
    else
      var init := DistinctIds(s[..|s| - 1]);
      assert IdSet(s) == IdSet(s[..|s| - 1]) + {s[|s| - 1].id};
      if s[|s| - 1].id in init then init else init + [s[|s| - 1].id]
  }

  lemma {:induction false} DistinctLength(r: seq<string>)
    requires forall i, j :: 0 <= i < j < |r| ==> r[i] != r[j]
    ensures |set x | x in r| == |r|
  {
    if r != [] {
      var init := r[..|r| - 1];
      DistinctLength(init);
      assert (set x | x in r) == (set x | x in init) + {r[|r| - 1]};
    }
  }

  datatype Scored = Scored(id: string, topic: Topic, score: nat)

  /** `Object.values(topicScores)`: one weighted entry per distinct identity
      of history then favorites, in the object's property order. */
  function ScoredTopics(h: seq<Topic>, f: seq<Topic>): (r: seq<Scored>)
  {
    var ids := JsObject.OwnKeys(DistinctIds(h + f));
    PermutationMembers(DistinctIds(h + f), ids);
    Entries(h, f, ids)
  }

  /** The weighted entries of the identities `ids`, in that order. */
  function Entries(h: seq<Topic>, f: seq<Topic>, ids: seq<string>): (r: seq<Scored>)
    requires forall id :: id in ids ==> id in IdSet(h + f)
  {
    seq(|ids|, i requires 0 <= i < |ids| => Scored(ids[i], FirstWith(h + f, ids[i]), Weight(h, f, ids[i])))
  }

  predicate NonIncreasing(s: seq<Scored>)
  {
    forall i, j :: 0 <= i < j < |s| ==> s[i].score >= s[j].score
  }

  /** Stable insertion of `x` into a list sorted by descending score. */
  function InsertDesc(x: Scored, s: seq<Scored>): (r: seq<Scored>)
    ensures |r| == |s| + 1
    ensures r[0] == x || (s != [] && r[0] == s[0])
    ensures multiset(r) == multiset(s) + multiset{x}
  {
    if s == [] then [x]
    else if s[0].score <= x.score then [x] + s
    else
      assert s == [s[0]] + s[1..];
      [s[0]] + InsertDesc(x, s[1..])
  }

  /** Insertion keeps an upper bound that the entry and the list respect. */
  lemma {:induction false} InsertDescBelow(x: Scored, s: seq<Scored>, v: nat)
    requires x.score <= v && forall i :: 0 <= i < |s| ==> s[i].score <= v
    ensures forall i :: 0 <= i < |InsertDesc(x, s)| ==> InsertDesc(x, s)[i].score <= v
  {
    if s != [] && s[0].score > x.score {
      InsertDescBelow(x, s[1..], v);
    }
  }

  lemma {:induction false} InsertDescSorted(x: Scored, s: seq<Scored>)
    requires NonIncreasing(s)
    ensures NonIncreasing(InsertDesc(x, s))
  {
    if s != [] && s[0].score > x.score {
      InsertDescSorted(x, s[1..]);
      InsertDescBelow(x, s[1..], s[0].score);
    }
  }

  /** `sort((a, b) => b.score - a.score)`. */
  function SortDesc(s: seq<Scored>): (r: seq<Scored>)
    ensures multiset(r) == multiset(s)
    ensures NonIncreasing(r)
  {
    if s == [] then []
    else
      assert s == [s[0]] + s[1..];
      InsertDescSorted(s[0], SortDesc(s[1..]));
      InsertDesc(s[0], SortDesc(s[1..]))
  }

  /** Inserting `x` keeps the order among the entries of any one score: `x`
      goes after none of the entries that score as it does. */
  lemma {:induction false} InsertDescStable(x: Scored, s: seq<Scored>, p: Scored -> bool, v: nat)
    requires forall e :: p(e) <==> e.score == v
    ensures Filter(InsertDesc(x, s), p) == (if p(x) then [x] else []) + Filter(s, p)
  {
    if s == [] {
    } else if s[0].score <= x.score {
      assert ([x] + s)[1..] == s;
    } else {
      var r := [s[0]] + InsertDesc(x, s[1..]);
      assert r[1..] == InsertDesc(x, s[1..]);
      InsertDescStable(x, s[1..], p, v);
      assert !(p(x) && p(s[0]));
    }
  }

  /** The sort is stable: for each score, the entries with that score keep
      their order. */
  lemma {:induction false} SortDescStable(s: seq<Scored>, p: Scored -> bool, v: nat)
    requires forall e :: p(e) <==> e.score == v
    ensures Filter(SortDesc(s), p) == Filter(s, p)
  {
    if s != [] {
      SortDescStable(s[1..], p, v);
      InsertDescStable(s[0], SortDesc(s[1..]), p, v);
    }
  }

  /** The three best-weighted entries. */
  function Top3(h: seq<Topic>, f: seq<Topic>): seq<Scored>
  {
    var r := SortDesc(ScoredTopics(h, f));
    r[..Min(3, |r|)]
  }

  /** Appending one record adds its identity. */
  lemma IdSnoc(s: seq<Topic>, t: Topic)
    ensures IdSet(s + [t]) == IdSet(s) + {t.id}
  {
    IdSetAppend(s, [t]);
    assert IdSet([t]) == {t.id} by {
      assert [t][0] == t;
    }
  }

  /** Appending one record puts a new identity last in the distinct order. */
  lemma DistinctSnoc(s: seq<Topic>, t: Topic)
    ensures DistinctIds(s + [t]) == if t.id in IdSet(s) then DistinctIds(s) else DistinctIds(s) + [t.id]
  {
    assert (s + [t])[..|s|] == s;
  }

  /** Appending one record keeps the first occurrence of a known identity. */
  lemma FirstSnoc(s: seq<Topic>, t: Topic, id: string)
    requires id in IdSet(s)
    ensures id in IdSet(s + [t]) && FirstWith(s + [t], id) == FirstWith(s, id)
  {
    assert (s + [t])[..|s|] == s;
    IdSnoc(s, t);
  }

  /** The first record with a new identity is that record. */
  lemma FirstSnocNew(s: seq<Topic>, t: Topic)
    requires t.id !in IdSet(s)
    ensures t.id in IdSet(s + [t]) && FirstWith(s + [t], t.id) == t
  {
    assert (s + [t])[..|s|] == s;
    IdSnoc(s, t);
  }

  /** Appending one record counts once more for its own identity only. */
  lemma CountSnoc(s: seq<Topic>, t: Topic, id: string)
    ensures CountId(s + [t], id) == CountId(s, id) + (if t.id == id then 1 else 0)
  {
    assert (s + [t])[..|s|] == s;
  }

  /** `e` is the entry the ranking must hold for its identity: an identity
      of history or favorites, with its true weight and first occurrence. */
  predicate TrueEntry(h: seq<Topic>, f: seq<Topic>, e: Scored)
  {
    e.id in IdSet(h + f) && e == Scored(e.id, FirstWith(h + f, e.id), Weight(h, f, e.id))
  }

  /** Before sorting: one true entry per identity, none repeated. */
  lemma ScoredTopicsFacts(h: seq<Topic>, f: seq<Topic>)
    ensures NoDup(ScoredTopics(h, f))
    ensures |ScoredTopics(h, f)| == |IdSet(h + f)|
    ensures forall e :: e in ScoredTopics(h, f) ==> TrueEntry(h, f, e)
    ensures forall id :: id in IdSet(h + f) ==> exists e :: e in ScoredTopics(h, f) && e.id == id
  {
    ScoredNoDup(h, f);
    ScoredCount(h, f);
    ScoredTrue(h, f);
    ScoredCovers(h, f);
  }

  lemma ScoredNoDup(h: seq<Topic>, f: seq<Topic>)
    ensures NoDup(ScoredTopics(h, f))
  {
    var ids := JsObject.OwnKeys(DistinctIds(h + f));
    var sc := ScoredTopics(h, f);
    NoDupPermutation(DistinctIds(h + f), ids);
    forall i, j | 0 <= i < j < |sc| ensures sc[i] != sc[j] {
      assert sc[i].id == ids[i] && sc[j].id == ids[j];
    }
  }

  lemma ScoredCount(h: seq<Topic>, f: seq<Topic>)
    ensures |ScoredTopics(h, f)| == |IdSet(h + f)|
  {
    var ids := JsObject.OwnKeys(DistinctIds(h + f));
    NoDupPermutation(DistinctIds(h + f), ids);
    PermutationMembers(DistinctIds(h + f), ids);
    DistinctLength(ids);
    assert (set x | x in ids) == IdSet(h + f);
  }

  lemma ScoredTrue(h: seq<Topic>, f: seq<Topic>)
    ensures forall e :: e in ScoredTopics(h, f) ==> TrueEntry(h, f, e)
  {
    var ids := JsObject.OwnKeys(DistinctIds(h + f));
    PermutationMembers(DistinctIds(h + f), ids);
  }

  lemma ScoredCovers(h: seq<Topic>, f: seq<Topic>)
    ensures forall id :: id in IdSet(h + f) ==> exists e :: e in ScoredTopics(h, f) && e.id == id
  {
    var ids := JsObject.OwnKeys(DistinctIds(h + f));
    var sc := ScoredTopics(h, f);
    PermutationMembers(DistinctIds(h + f), ids);
    forall id | id in IdSet(h + f) ensures exists e :: e in sc && e.id == id {
      var k :| 0 <= k < |ids| && ids[k] == id;
      assert sc[k] in sc;
    }
  }

  /** Sorting keeps exactly those entries. */
  lemma RankedEntries(h: seq<Topic>, f: seq<Topic>)
    ensures |SortDesc(ScoredTopics(h, f))| == |IdSet(h + f)|
    ensures forall e :: e in SortDesc(ScoredTopics(h, f)) ==> TrueEntry(h, f, e)
    ensures forall i, j :: 0 <= i < j < |SortDesc(ScoredTopics(h, f))| ==>
      SortDesc(ScoredTopics(h, f))[i].id != SortDesc(ScoredTopics(h, f))[j].id
    ensures forall id :: id in IdSet(h + f) ==>
      exists m :: 0 <= m < |SortDesc(ScoredTopics(h, f))| && SortDesc(ScoredTopics(h, f))[m].id == id
  {
    var sc := ScoredTopics(h, f);
    var r := SortDesc(sc);
    ScoredTopicsFacts(h, f);
    PermutationMembers(sc, r);
    NoDupPermutation(sc, r);
    forall i, j | 0 <= i < j < |r| ensures r[i].id != r[j].id {
      assert r[i] in r && r[j] in r;
    }
    forall id | id in IdSet(h + f) ensures exists m :: 0 <= m < |r| && r[m].id == id {
      var e :| e in sc && e.id == id;
      assert e in r;
    }
  }

  /** The ranking keeps min(3, #distinct ids) entries, best weight first,
      each being a distinct identity with its true weight and its first
      occurrence. */
  lemma Top3Facts(h: seq<Topic>, f: seq<Topic>)
    ensures |Top3(h, f)| == Min(3, |IdSet(h + f)|)
    ensures NonIncreasing(Top3(h, f))
    ensures forall i, j :: 0 <= i < j < |Top3(h, f)| ==> Top3(h, f)[i].id != Top3(h, f)[j].id
    ensures forall i :: 0 <= i < |Top3(h, f)| ==> TrueEntry(h, f, Top3(h, f)[i])
  {
    var r := SortDesc(ScoredTopics(h, f));
    var t := Top3(h, f);
    RankedEntries(h, f);
    forall i | 0 <= i < |t| ensures t[i] == r[i] && TrueEntry(h, f, t[i]) {
      assert r[i] in r;
    }
  }

  /** An element of a prefix is the element at the same place. */
  lemma PrefixAt(r: seq<Scored>, n: nat, m: nat)
    ensures m < n <= |r| ==> r[..n][m] == r[m]
  {
  }

  /** Every identity the ranking leaves out weighs no more than the last one
      it keeps, and it is left out only when three are kept. */
  lemma Top3Omitted(h: seq<Topic>, f: seq<Topic>, id: string)
    requires id in IdSet(h + f)
    requires forall i :: 0 <= i < |Top3(h, f)| ==> Top3(h, f)[i].id != id
    ensures |Top3(h, f)| == 3 && Weight(h, f, id) <= Top3(h, f)[2].score
  {
    var r := SortDesc(ScoredTopics(h, f));
    var t := Top3(h, f);
    assert t == r[..Min(3, |r|)];
    assert exists m :: 0 <= m < |r| && r[m].id == id by {
      RankedEntries(h, f);
    }
    var m :| 0 <= m < |r| && r[m].id == id;
    assert TrueEntry(h, f, r[m]) by {
      RankedEntries(h, f);
      assert r[m] in r;
    }
    PrefixAt(r, Min(3, |r|), m);
    assert m >= |t|;
    assert t[2] == r[2];
  }

  /** The displayed projection of a ranked entry. */
  datatype TopTopic = TopTopic(title: Option<string>, score: nat, category: Option<string>)

  /** `.map(t => ({ title: t.topic.title, score: t.score, category: t.topic.category }))`. */
  function Project(t: seq<Scored>): (r: seq<TopTopic>)
    ensures |r| == |t|
    ensures forall i :: 0 <= i < |t| ==> r[i] == TopTopic(TitleField(t[i].topic), t[i].score, CategoryField(t[i].topic))
  {
    seq(|t|, i requires 0 <= i < |t| => TopTopic(TitleField(t[i].topic), t[i].score, CategoryField(t[i].topic)))
  }

  /** The displayed top topics: as many as there are distinct identities, up
      to three, with non-increasing weights, each showing the title and
      category of its identity's first record and views + 3 × favorites. */
  function UserTopTopics(h: seq<Topic>, f: seq<Topic>): (r: seq<TopTopic>)
    ensures |r| == Min(3, |IdSet(h + f)|)
    ensures forall i, j :: 0 <= i < j < |r| ==> r[i].score >= r[j].score
    ensures forall i :: 0 <= i < |r| ==>
      (exists id :: id in IdSet(h + f) &&
        r[i] == TopTopic(TitleField(FirstWith(h + f, id)), Weight(h, f, id), CategoryField(FirstWith(h + f, id))))
  {
    Top3Facts(h, f);
    var t := Top3(h, f);
    var r := Project(t);
    assert forall i :: 0 <= i < |r| ==> TrueEntry(h, f, t[i]) && r[i] == TopTopic(TitleField(FirstWith(h + f, t[i].id)),
      Weight(h, f, t[i].id), CategoryField(FirstWith(h + f, t[i].id)));
    r
  }

  /** With exactly two identities, the heavier one ranks first. */
  lemma RankTwo(h: seq<Topic>, f: seq<Topic>, x: string, y: string)
    requires x != y && IdSet(h + f) == {x, y} && Weight(h, f, x) > Weight(h, f, y)
    ensures var t := Top3(h, f); |t| == 2 && t[0].id == x && t[1].id == y
  {
    assert |{x, y}| == 2 by {
      assert {x, y} == {x} + {y} && y !in {x};
    }
    var t := Top3(h, f);
    assert |t| == 2 && TrueEntry(h, f, t[0]) && TrueEntry(h, f, t[1])
      && t[0].id != t[1].id && t[0].score >= t[1].score by {
      Top3Facts(h, f);
    }
    assert t[0].id in {x, y} && t[1].id in {x, y};
  }

  /** The counts of the two-record example below. */
  lemma ExampleCounts(a: Topic, b: Topic)
    requires a.id != b.id
    ensures CountId([a, a], a.id) == 2 && CountId([a, b], a.id) == 1
    ensures CountId([a, a], b.id) == 0 && CountId([a, b], b.id) == 1
  {
    assert [a, a][..1] == [a] && [a, b][..1] == [a] && [a][..0] == [];
    assert CountId([a], a.id) == 1 && CountId([a], b.id) == 0;
  }

  /** Viewed twice and favorited once weighs 5 and ranks above a record that
      is only favorited, which weighs 3. */
  lemma WeightExample(a: Topic, b: Topic)
    requires a.id != b.id
    ensures Weight([a, a], [a, b], a.id) == 5
    ensures Weight([a, a], [a, b], b.id) == 3
    ensures var t := Top3([a, a], [a, b]); |t| == 2 && t[0].id == a.id && t[1].id == b.id
  {
    var s := [a, a] + [a, b];
    ExampleCounts(a, b);
    assert IdSet(s) == {a.id, b.id} by {
      assert s == [a, a, a, b];
      assert s[0].id == a.id && s[3].id == b.id;
    }
    RankTwo([a, a], [a, b], a.id, b.id);
  }

  // ---------------------------------------------------------------------
  // Summaries and the report

  const NotEnoughHistory: string := "You haven't built enough reading history yet."
  const FocusedPrefix: string := "You are heavily focused on the \""
  const CenteredPrefix: string := "Your attention is centered on \""
  const FocusedMiddle: string := "\" event in the "
  const FocusedEnd: string := " sector."
  const CenteredMiddle: string := "\" and related "
  const CenteredEnd: string := " discussions, with strong interest in high-impact policy shifts."
  const GlobalSummary: string := "This month's global discourse was dominated by AI Safety Governance and Digital Sovereignty, marking a shift from economic indicators to regulatory frameworks."

  /** A text field as a template literal prints it: an absent one prints
      as `undefined`. */
  function Printed(c: Option<string>): (r: string)
    ensures c.Some? ==> r == c.value
    ensures c.None? ==> r == "undefined"
  {
    match c
    case Some(s) => s
    case None => "undefined"
  }

  /** A text starting with `p` is not the fallback message when `p` differs
      from it at position `k`. */
  lemma NotFallback(p: string, rest: string, k: nat)
    requires k < |p| && k < |NotEnoughHistory| && p[k] != NotEnoughHistory[k]
    ensures p <= p + rest && p + rest != NotEnoughHistory
  {
    assert (p + rest)[k] == p[k];
  }

  /** A template `p` + `a` + `m` + `b` + `e` starts with everything up to
      `b` and ends with `e`. */
  lemma TemplateShape(p: string, a: string, m: string, b: string, e: string)
    ensures p + a + m + b <= p + (a + m + b + e)
    ensures |e| <= |p + (a + m + b + e)| && (p + (a + m + b + e))[|p + (a + m + b + e)| - |e|..] == e
  {
    assert p + (a + m + b + e) == (p + a + m + b) + e;
  }

  /** The user focus summary: one of three templates by the number of top
      topics (none, one, two or more). */
  function FocusSummary(top: seq<TopTopic>): (r: string)
    ensures |top| == 0 <==> r == NotEnoughHistory
    ensures |top| == 1 ==> FocusedPrefix <= r
    ensures |top| >= 2 ==> CenteredPrefix <= r
    ensures |top| == 1 ==> FocusedPrefix + Printed(top[0].title) + FocusedMiddle + Printed(top[0].category) <= r
    ensures |top| >= 2 ==> CenteredPrefix + Printed(top[0].title) + CenteredMiddle + Printed(top[0].category) <= r
    ensures |top| == 1 ==> |FocusedEnd| <= |r| && r[|r| - |FocusedEnd|..] == FocusedEnd
    ensures |top| >= 2 ==> |CenteredEnd| <= |r| && r[|r| - |CenteredEnd|..] == CenteredEnd
  {
    if |top| == 0 then NotEnoughHistory
    else
      var title := Printed(top[0].title);
      var cat := Printed(top[0].category);
      if |top| == 1 then
        var rest := title + FocusedMiddle + cat + FocusedEnd;
        NotFallback(FocusedPrefix, rest, 4);
        TemplateShape(FocusedPrefix, title, FocusedMiddle, cat, FocusedEnd);
        FocusedPrefix + rest
      else
        var rest := title + CenteredMiddle + cat + CenteredEnd;
        NotFallback(CenteredPrefix, rest, 3);
        TemplateShape(CenteredPrefix, title, CenteredMiddle, cat, CenteredEnd);
        CenteredPrefix + rest
  }

  datatype Theme = Theme(title: Option<string>, category: Option<string>)

  /** The first three catalog records, projected to title and category. */
  function Themes(catalog: seq<Topic>): (r: seq<Theme>)
    ensures |r| == Min(3, |catalog|)
    ensures forall i :: 0 <= i < |r| ==> r[i] == Theme(TitleField(catalog[i]), CategoryField(catalog[i]))
  {
    var n := Min(3, |catalog|);
    seq(n, i requires 0 <= i < n => Theme(TitleField(catalog[i]), CategoryField(catalog[i])))
  }

  datatype TrendInsight = TrendInsight(
    globalThemes: seq<Theme>,
    userTopTopics: seq<TopTopic>,
    userFocusSummary: string,
    globalSummary: string)

  datatype Report = Report(
    radarData: seq<CategoryScore>,
    totalReads: nat,
    cocoonScore: nat,
    blindSpots: seq<string>,
    diversityLevel: DiversityLevel,
    recommendedTopic: Option<string>,
    trendInsights: TrendInsight)

  /** The `topicScores` dictionary and its key order after the views `hp`
      and the favorites `fp`: one entry per identity, with its weight so far
      and its first occurrence. */
  predicate Tabulated(hp: seq<Topic>, fp: seq<Topic>, scores: map<string, Scored>, order: seq<string>)
  {
    && order == DistinctIds(hp + fp)
    && scores.Keys == IdSet(hp + fp)
    && forall id :: id in scores ==> scores[id] == Scored(id, FirstWith(hp + fp, id), Weight(hp, fp, id))
  }

  lemma IdSetAppend(a: seq<Topic>, b: seq<Topic>)
    ensures IdSet(a + b) == IdSet(a) + IdSet(b)
  {
    forall x | x in IdSet(a + b) ensures x in IdSet(a) + IdSet(b) {
      var i :| 0 <= i < |a + b| && (a + b)[i].id == x;
      if i < |a| {
        assert a[i] == (a + b)[i];
      } else {
        assert b[i - |a|] == (a + b)[i];
      }
    }
    forall x | x in IdSet(a) ensures x in IdSet(a + b) {
      var i :| 0 <= i < |a| && a[i].id == x;
      assert (a + b)[i] == a[i];
    }
    forall x | x in IdSet(b) ensures x in IdSet(a + b) {
      var i :| 0 <= i < |b| && b[i].id == x;
      assert (a + b)[|a| + i] == b[i];
    }
  }

  /** An identity absent from the combined list has no views and no
      favorites. */
  lemma Unseen(h: seq<Topic>, f: seq<Topic>, id: string)
    requires id !in IdSet(h + f)
    ensures CountId(h, id) == 0 && CountId(f, id) == 0
  {
    IdSetAppend(h, f);
    CountIdPresence(h, id);
    CountIdPresence(f, id);
  }

  /** The dictionary and its key order after the first loop has read the
      views `hp`: one point per view. */
  predicate ViewsTabulated(hp: seq<Topic>, scores: map<string, Scored>, order: seq<string>)
  {
    && order == DistinctIds(hp)
    && scores.Keys == IdSet(hp)
    && forall id :: id in scores ==> scores[id] == Scored(id, FirstWith(hp, id), CountId(hp, id))
  }

  /** After the views, the dictionary is the table of the views and no
      favorites. */
  lemma ViewsAreTabulated(h: seq<Topic>, scores: map<string, Scored>, order: seq<string>)
    requires ViewsTabulated(h, scores, order)
    ensures Tabulated(h, [], scores, order)
  {
    assert h + [] == h;
  }

  /** A view of a tabulated identity adds one point to its entry. */
  lemma ViewBump(hp: seq<Topic>, t: Topic, scores: map<string, Scored>, order: seq<string>)
    requires ViewsTabulated(hp, scores, order) && t.id in scores
    ensures ViewsTabulated(hp + [t], scores[t.id := scores[t.id].(score := scores[t.id].score + 1)], order)
  {
    var s := hp + [t];
    var scores' := scores[t.id := scores[t.id].(score := scores[t.id].score + 1)];
    assert t.id in IdSet(hp);
    assert order == DistinctIds(s) by {
      DistinctSnoc(hp, t);
    }
    assert scores'.Keys == IdSet(s) by {
      IdSnoc(hp, t);
      assert scores'.Keys == scores.Keys;
    }
    forall id | id in scores' ensures scores'[id] == Scored(id, FirstWith(s, id), CountId(s, id)) {
      FirstSnoc(hp, t, id);
      CountSnoc(hp, t, id);
    }
  }

  /** A first view enters its identity with one point. */
  lemma ViewEnter(hp: seq<Topic>, t: Topic, scores: map<string, Scored>, order: seq<string>)
    requires ViewsTabulated(hp, scores, order) && t.id !in scores
    ensures ViewsTabulated(hp + [t], scores[t.id := Scored(t.id, t, 1)], order + [t.id])
  {
    var s := hp + [t];
    var scores' := scores[t.id := Scored(t.id, t, 1)];
    IdSnoc(hp, t);
    DistinctSnoc(hp, t);
    forall id | id in scores' ensures scores'[id] == Scored(id, FirstWith(s, id), CountId(s, id)) {
      CountSnoc(hp, t, id);
      if id == t.id {
        CountIdPresence(hp, id);
        FirstSnocNew(hp, t);
      } else {
        FirstSnoc(hp, t, id);
      }
    }
  }

  /** A favorite leaves the entries of the other identities as they are. */
  lemma KeptEntry(h: seq<Topic>, fp: seq<Topic>, t: Topic, id: string, e: Scored)
    requires id != t.id && id in IdSet(h + fp) && e == Scored(id, FirstWith(h + fp, id), Weight(h, fp, id))
    ensures id in IdSet(h + (fp + [t]))
    ensures e == Scored(id, FirstWith(h + (fp + [t]), id), Weight(h, fp + [t], id))
  {
    assert h + (fp + [t]) == (h + fp) + [t];
    FirstSnoc(h + fp, t, id);
    CountSnoc(fp, t, id);
  }

  /** A favorite of a known identity adds three points to its entry. */
  lemma BumpedEntry(h: seq<Topic>, fp: seq<Topic>, t: Topic, e: Scored)
    requires t.id in IdSet(h + fp) && e == Scored(t.id, FirstWith(h + fp, t.id), Weight(h, fp, t.id))
    ensures t.id in IdSet(h + (fp + [t]))
    ensures e.(score := e.score + 3) == Scored(t.id, FirstWith(h + (fp + [t]), t.id), Weight(h, fp + [t], t.id))
  {
    assert h + (fp + [t]) == (h + fp) + [t];
    FirstSnoc(h + fp, t, t.id);
    CountSnoc(fp, t, t.id);
  }

  /** A favorite of a tabulated identity adds three points to its entry. */
  lemma FavoriteBump(h: seq<Topic>, fp: seq<Topic>, t: Topic, scores: map<string, Scored>, order: seq<string>)
    requires Tabulated(h, fp, scores, order) && t.id in scores
    ensures Tabulated(h, fp + [t], scores[t.id := scores[t.id].(score := scores[t.id].score + 3)], order)
  {
    var scores' := scores[t.id := scores[t.id].(score := scores[t.id].score + 3)];
    var s := h + (fp + [t]);
    assert s == (h + fp) + [t];
    assert t.id in IdSet(h + fp);
    assert order == DistinctIds(s) by {
      DistinctSnoc(h + fp, t);
    }
    assert scores'.Keys == IdSet(s) by {
      IdSnoc(h + fp, t);
      assert scores'.Keys == scores.Keys;
    }
    forall id | id in scores'
      ensures scores'[id] == Scored(id, FirstWith(s, id), Weight(h, fp + [t], id))
    {
      if id == t.id {
        BumpedEntry(h, fp, t, scores[id]);
      } else {
        KeptEntry(h, fp, t, id, scores[id]);
      }
    }
  }

  /** The entry of an identity first seen as a favorite: its record and
      three points. */
  lemma NewEntry(h: seq<Topic>, fp: seq<Topic>, t: Topic)
    requires t.id !in IdSet(h + fp)
    ensures t.id in IdSet(h + (fp + [t]))
    ensures Scored(t.id, t, 3) == Scored(t.id, FirstWith(h + (fp + [t]), t.id), Weight(h, fp + [t], t.id))
  {
    assert h + (fp + [t]) == (h + fp) + [t];
    Unseen(h, fp, t.id);
    FirstSnocNew(h + fp, t);
    CountSnoc(fp, t, t.id);
  }

  /** A favorite of an identity not seen before enters it with three points
      (it has no views). */
  lemma FavoriteEnter(h: seq<Topic>, fp: seq<Topic>, t: Topic, scores: map<string, Scored>, order: seq<string>)
    requires Tabulated(h, fp, scores, order) && t.id !in scores
    ensures Tabulated(h, fp + [t], scores[t.id := Scored(t.id, t, 3)], order + [t.id])
  {
    var scores' := scores[t.id := Scored(t.id, t, 3)];
    var s := h + (fp + [t]);
    assert order + [t.id] == DistinctIds(s) && scores'.Keys == IdSet(s) by {
      assert s == (h + fp) + [t];
      IdSnoc(h + fp, t);
      DistinctSnoc(h + fp, t);
    }
    forall id | id in scores'
      ensures scores'[id] == Scored(id, FirstWith(s, id), Weight(h, fp + [t], id))
    {
      if id == t.id {
        NewEntry(h, fp, t);
      } else {
        KeptEntry(h, fp, t, id, scores[id]);
      }
    }
  }

  /** One pass of the first loop: the view `h[i]` scores one point. */
  method AddView(h: seq<Topic>, i: nat, scores: map<string, Scored>, order: seq<string>)
    returns (scores': map<string, Scored>, order': seq<string>)
    requires i < |h| && ViewsTabulated(h[..i], scores, order)
    ensures ViewsTabulated(h[..i + 1], scores', order')
  {
    var t := h[i];
    assert h[..i + 1] == h[..i] + [t];
    if t.id in scores {
      scores' := scores[t.id := scores[t.id].(score := scores[t.id].score + 1)];
      order' := order;
      ViewBump(h[..i], t, scores, order);
    } else {
      scores' := scores[t.id := Scored(t.id, t, 1)];
      order' := order + [t.id];
      ViewEnter(h[..i], t, scores, order);
    }
  }

  /** One pass of the second loop: the favorite `f[j]` scores three points. */
  method AddFavorite(h: seq<Topic>, f: seq<Topic>, j: nat, scores: map<string, Scored>, order: seq<string>)
    returns (scores': map<string, Scored>, order': seq<string>)
    requires j < |f| && Tabulated(h, f[..j], scores, order)
    ensures Tabulated(h, f[..j + 1], scores', order')
  {
    var t := f[j];
    assert f[..j + 1] == f[..j] + [t];
    if t.id in scores {
      scores' := scores[t.id := scores[t.id].(score := scores[t.id].score + 3)];
      order' := order;
      FavoriteBump(h, f[..j], t, scores, order);
    } else {
      scores' := scores[t.id := Scored(t.id, t, 3)];
      order' := order + [t.id];
      FavoriteEnter(h, f[..j], t, scores, order);
    }
  }

  /** The first loop: one point per view. */
  method CountViews(h: seq<Topic>) returns (scores: map<string, Scored>, order: seq<string>)
    ensures ViewsTabulated(h, scores, order)
  {
    scores, order := map[], [];
    var i := 0;
    while i < |h|
      invariant 0 <= i <= |h|
      invariant ViewsTabulated(h[..i], scores, order)
    {
      scores, order := AddView(h, i, scores, order);
      i := i + 1;
    }
    assert h[..|h|] == h;
  }

  /** The second loop: three points per favorite, on top of the views. */
  method ScoreTopics(h: seq<Topic>, f: seq<Topic>) returns (scores: map<string, Scored>, order: seq<string>)
    ensures Tabulated(h, f, scores, order)
  {
    scores, order := CountViews(h);
    ViewsAreTabulated(h, scores, order);
    assert f[..0] == [];
    var j := 0;
    while j < |f|
      invariant 0 <= j <= |f|
      invariant Tabulated(h, f[..j], scores, order)
    {
      scores, order := AddFavorite(h, f, j, scores, order);
      j := j + 1;
    }
    assert f[..|f|] == f;
  }

  /** `Object.values` of the dictionary ScoreTopics fills is the list
      ScoredTopics describes. */
  lemma ValuesAreScored(h: seq<Topic>, f: seq<Topic>, topicScores: map<string, Scored>, order: seq<string>)
    requires Tabulated(h, f, topicScores, order)
    ensures forall id :: id in order ==> id in topicScores
    ensures JsObject.Values(topicScores, order) == ScoredTopics(h, f)
  {
    var v := JsObject.Values(topicScores, order);
    var sc := ScoredTopics(h, f);
    var keys := JsObject.OwnKeys(order);
    forall i | 0 <= i < |v| ensures v[i] == sc[i] {
      assert keys[i] in topicScores;
    }
  }

  /** The user's top topics: the scores dictionary, its values in property
      order, sorted by weight, the first three, projected for display. */
  method RankTopTopics(h: seq<Topic>, f: seq<Topic>) returns (userTopTopics: seq<TopTopic>)
    ensures userTopTopics == UserTopTopics(h, f)
  {
    var topicScores, order := ScoreTopics(h, f);
    ValuesAreScored(h, f, topicScores, order);
    var ranked := SortDesc(JsObject.Values(topicScores, order));
    var top := ranked[..Min(3, |ranked|)];
    userTopTopics := Project(top);
  }

  /** `generateCocoonReport(clickedTopics, favorites)`, with `roll` the value
      Math.random() returned for the recommendation. */
  method GenerateCocoonReport(h: seq<Topic>, f: seq<Topic>, roll: real) returns (r: Report)
    requires 0.0 <= roll < 1.0
    ensures r.totalReads == |h|
    ensures r.radarData == RadarData(h)
    ensures r.blindSpots == BlindSpots(h)
    ensures r.cocoonScore == BalanceScore(h)
    ensures r.diversityLevel == Tier(BalanceScore(h), |h|)
    ensures r.recommendedTopic == Recommend(BlindSpots(h), roll)
    ensures r.trendInsights.globalThemes == Themes(Constants.MockTopicsHead)
    ensures r.trendInsights.userTopTopics == UserTopTopics(h, f)
    ensures r.trendInsights.userFocusSummary == FocusSummary(UserTopTopics(h, f))
    ensures r.trendInsights.globalSummary == GlobalSummary
  {
    var counts := CountCategories(h);
    var radarData := RadarFromCounts(counts);
    assert radarData == RadarData(h);
    var blindSpots := BlindSpotsOf(radarData);
    var scores := Scores(radarData);
    var cocoonScore := 100 - RoundedDeviation(Variance(scores), 0);
    var diversityLevel := Tier(cocoonScore, |h|);
    var recommendedTopic := Recommend(blindSpots, roll);

    var userTopTopics := RankTopTopics(h, f);
    var trend := TrendInsight(Themes(Constants.MockTopicsHead), userTopTopics, FocusSummary(userTopTopics), GlobalSummary);
    r := Report(radarData, |h|, cocoonScore, blindSpots, diversityLevel, recommendedTopic, trend);
  }

  // ---------------------------------------------------------------------
  // Edge cases and scenarios

  /** The empty history: every category is a blind spot, the balance score is
      100 and, since the read gate of the top tier fails, the tier is
      Explorer; with no favorites either, there are no top topics. */
  lemma EmptyHistory(roll: real)
    requires 0.0 <= roll < 1.0
    ensures forall i :: 0 <= i < 6 ==> RadarData([])[i].score == 0
    ensures BlindSpots([]) == AllCategories
    ensures BalanceScore([]) == 100
    ensures Tier(BalanceScore([]), 0) == Explorer
    ensures Recommend(BlindSpots([]), roll).Some?
  {
    EvenScoresBalance([]);
    var radar := RadarData([]);
    AllBlind(radar);
    assert Subjects(radar) == AllCategories;
  }

  /** With neither reads nor favorites there are no top topics, and the focus
      summary is the fallback message. */
  lemma NothingToRank()
    ensures UserTopTopics([], []) == [] && FocusSummary(UserTopTopics([], [])) == NotEnoughHistory
  {
    Top3Facts([], []);
  }

  /** The counts of two Tech reads and one Policy read. */
  lemma TechTechPolicyCounts(t1: Topic, t2: Topic, p: Topic)
    requires IsReadOf(t1, "Tech") && IsReadOf(t2, "Tech") && IsReadOf(p, "Policy")
    ensures forall c :: c in AllCategories ==>
      CountIn([t1, t2, p], c) == if c == "Tech" then 2 else if c == "Policy" then 1 else 0
  {
    var h1 := [t1];
    var h2 := [t1, t2];
    var h := [t1, t2, p];
    assert h1[..0] == [] && h2[..1] == h1 && h[..2] == h2;
    forall c | c in AllCategories
      ensures CountIn(h, c) == if c == "Tech" then 2 else if c == "Policy" then 1 else 0
    {
      assert CountIn(h1, c) == CountIn([], c) + (if IsReadOf(t1, c) then 1 else 0);
      assert CountIn(h2, c) == CountIn(h1, c) + (if IsReadOf(t2, c) then 1 else 0);
      assert CountIn(h, c) == CountIn(h2, c) + (if IsReadOf(p, c) then 1 else 0);
    }
  }

  /** The radar scores of two Tech reads and one Policy read. */
  lemma TechTechPolicyScores(t1: Topic, t2: Topic, p: Topic)
    requires IsReadOf(t1, "Tech") && IsReadOf(t2, "Tech") && IsReadOf(p, "Policy")
    ensures Scores(RadarData([t1, t2, p])) == [40, 60, 0, 0, 0, 0]
  {
    TechTechPolicyCounts(t1, t2, p);
    var s := Scores(RadarData([t1, t2, p]));
    forall i | 0 <= i < 6 ensures s[i] == [40, 60, 0, 0, 0, 0][i] {
      assert AllCategories[i] in AllCategories;
    }
  }

  /** Scores 40, 60, 0, 0, 0, 0 have mean 50/3 and variance 5300/9. */
  lemma VarianceOfExample()
    ensures Variance([40, 60, 0, 0, 0, 0]) == 5300.0 / 9.0
  {
    var s: seq<int> := [40, 60, 0, 0, 0, 0];
    assert s[1..] == [60, 0, 0, 0, 0] && s[2..] == [0, 0, 0, 0] && s[3..] == [0, 0, 0];
    assert s[4..] == [0, 0] && s[5..] == [0] && s[6..] == [];
    assert Sum(s) == 100;
    var m := Mean(s);
    assert m == 50.0 / 3.0;
    assert SquaredDeviations(s, m) == 31800.0 / 9.0;
  }

  /** 23.5^2 < 5300/9 <= 24.5^2, so the balance is 100 - 24. */
  lemma DeviationOfExample()
    ensures RoundedDeviation(5300.0 / 9.0, 0) == 24
  {
    var v := 5300.0 / 9.0;
    var k := RoundedDeviation(v, 0);
    HalfSquareMonotone(k, 23);
    assert HalfSquare(23) == 552.25 < v;
    assert HalfSquare(24) == 600.25 >= v;
  }

  /** When no category scores, every category is a blind spot. */
  lemma {:induction false} AllBlind(radar: seq<CategoryScore>)
    requires forall i :: 0 <= i < |radar| ==> radar[i].score == 0
    ensures BlindSpotsOf(radar) == Subjects(radar)
  {
    if radar != [] {
      AllBlind(radar[1..]);
      assert Subjects(radar) == [radar[0].subject] + Subjects(radar[1..]);
    }
  }

  /** When the first two radar entries score and the rest do not, the blind
      spots are the subjects of the rest. */
  lemma BlindSpotsAfterTwo(radar: seq<CategoryScore>)
    requires |radar| >= 2 && radar[0].score != 0 && radar[1].score != 0
    requires forall i :: 2 <= i < |radar| ==> radar[i].score == 0
    ensures BlindSpotsOf(radar) == Subjects(radar)[2..]
  {
    var rest := radar[2..];
    assert radar[1..][1..] == rest;
    assert forall i :: 0 <= i < |rest| ==> rest[i] == radar[i + 2];
    AllBlind(rest);
    assert Subjects(radar)[1..] == Subjects(radar[1..]);
    assert Subjects(radar[1..])[1..] == Subjects(rest);
  }

  /** Two Tech reads and one Policy read: scores 60 and 40, four blind spots,
      variance 5300/9, balance Math.round(100 - 24.27...) = 76, tier Explorer. */
  lemma TechTechPolicy(t1: Topic, t2: Topic, p: Topic)
    requires IsReadOf(t1, "Tech") && IsReadOf(t2, "Tech") && IsReadOf(p, "Policy")
    ensures var h := [t1, t2, p];
      && RadarData(h)[0].score == 40 && RadarData(h)[1].score == 60
      && (forall i :: 2 <= i < 6 ==> RadarData(h)[i].score == 0)
      && BlindSpots(h) == AllCategories[2..]
      && BalanceScore(h) == 76
      && Tier(BalanceScore(h), |h|) == Explorer
  {
    var h := [t1, t2, p];
    TechTechPolicyScores(t1, t2, p);
    VarianceOfExample();
    DeviationOfExample();
    var radar := RadarData(h);
    var sc := Scores(radar);
    assert forall i :: 0 <= i < 6 ==> radar[i].score == sc[i];
    BlindSpotsAfterTwo(radar);
    assert Subjects(radar) == AllCategories;
  }
}
