/** The golden retrieval evaluation: ranking chunks for a query and measuring the rankings. */
module Retrieval {

  import opened CumulativeGain

  datatype Status = Active | Archived

  /** What ranking looks at besides the text, which only enters the score. */
  datatype Chunk = Chunk(id: Id, level: int, status: Status, current: int, indexed: int)

  datatype Caller = Caller(disabled: bool, clearance: int)

  datatype Query = Query(text: string, caller: Caller, relevant: seq<Id>, grades: Grades)

  datatype Ranked = Ranked(chunk: Chunk, score: real)

  /** One mode over one corpus: `score` is its scoring and `place` the position of an id in the locale's order. */
  datatype Setting = Setting(scale: Scale, score: (Query, Chunk) -> real, place: Id -> int, chunks: seq<Chunk>)

  // ---------------------------------------------------------------- chunk ids

  datatype Document = Document(id: string, sections: seq<string>)

  function ChunkId(document: string, section: string): Id { document + "#" + section }

  function DocumentIds(d: Document): (r: seq<Id>)
    ensures |r| == |d.sections|
  {
    seq(|d.sections|, i requires 0 <= i < |d.sections| => ChunkId(d.id, d.sections[i]))
  }

  function CorpusIds(ds: seq<Document>): seq<Id> {
    if ds == [] then [] else DocumentIds(ds[0]) + CorpusIds(ds[1..])
  }

  lemma HashComesLater(d: string, s: string, i: nat)
    requires '#' !in d && i < |ChunkId(d, s)| && ChunkId(d, s)[i] == '#'
    ensures |d| <= i
  {
  }

  lemma ChunkIdInjective(d1: string, s1: string, d2: string, s2: string)
    requires '#' !in d1 && '#' !in d2
    ensures ChunkId(d1, s1) == ChunkId(d2, s2) <==> d1 == d2 && s1 == s2
  {
    var x, y := ChunkId(d1, s1), ChunkId(d2, s2);
    if x == y {
      assert x[|d1|] == '#' && y[|d2|] == '#';
      HashComesLater(d1, s1, |d2|);
      HashComesLater(d2, s2, |d1|);
      assert x[..|d1|] == d1 && y[..|d2|] == d2;
      assert x[|d1| + 1..] == s1 && y[|d2| + 1..] == s2;
    }
  }

  lemma {:induction false} CorpusIdFrom(ds: seq<Document>, id: Id) returns (i: nat, k: nat)
    requires id in CorpusIds(ds)
    ensures i < |ds| && k < |ds[i].sections| && id == ChunkId(ds[i].id, ds[i].sections[k])
  {
    if id in DocumentIds(ds[0]) {
      i := 0;
      k :| 0 <= k < |ds[0].sections| && DocumentIds(ds[0])[k] == id;
    } else {
      var j;
      j, k := CorpusIdFrom(ds[1..], id);
      i := j + 1;
    }
  }

  ghost predicate WellNamed(ds: seq<Document>) {
    && (forall i | 0 <= i < |ds| :: '#' !in ds[i].id && Distinct(ds[i].sections))
    && forall i, j | 0 <= i < j < |ds| :: ds[i].id != ds[j].id
  }

  lemma DocumentIdsDistinct(d: Document)
    requires '#' !in d.id && Distinct(d.sections)
    ensures Distinct(DocumentIds(d))
  {
    forall i, j | 0 <= i < j < |d.sections|
      ensures DocumentIds(d)[i] != DocumentIds(d)[j]
    {
      ChunkIdInjective(d.id, d.sections[i], d.id, d.sections[j]);
    }
  }

  lemma Joined(xs: seq<Id>, ys: seq<Id>)
    requires Distinct(xs) && Distinct(ys) && forall x | x in xs :: x !in ys
    ensures Distinct(xs + ys)
  {
    var all := xs + ys;
    forall i, j | 0 <= i < j < |all|
      ensures all[i] != all[j]
    {
      if i < |xs| <= j {
        assert all[i] in xs && all[j] in ys;
      }
    }
  }

  /** Unique document ids without '#' and unique sections in each give every chunk its own id. */
  lemma {:induction false} CorpusIdsDistinct(ds: seq<Document>)
    requires WellNamed(ds)
    ensures Distinct(CorpusIds(ds))
  {
    if ds != [] {
      CorpusIdsDistinct(ds[1..]);
      DocumentIdsDistinct(ds[0]);
      forall x | x in DocumentIds(ds[0])
        ensures x !in CorpusIds(ds[1..])
      {
        if x in CorpusIds(ds[1..]) {
          var k :| 0 <= k < |ds[0].sections| && DocumentIds(ds[0])[k] == x;
          var i, m := CorpusIdFrom(ds[1..], x);
          ChunkIdInjective(ds[0].id, ds[0].sections[k], ds[i + 1].id, ds[i + 1].sections[m]);
        }
      }
      Joined(DocumentIds(ds[0]), CorpusIds(ds[1..]));
    }
  }

  // ---------------------------------------------------------------- ranking

  predicate Eligible(caller: Caller, c: Chunk) {
    c.status == Active && c.current == c.indexed && caller.clearance >= c.level
  }

  const THRESHOLD := 0.05

  predicate Kept(s: Setting, q: Query, c: Chunk) {
    Eligible(q.caller, c) && s.score(q, c) >= THRESHOLD
  }

  function Scored(s: Setting, q: Query, chunks: seq<Chunk>): seq<Ranked> {
    if chunks == [] then []
    else
      var n := |chunks| - 1;
      var rest := Scored(s, q, chunks[..n]);
      if Kept(s, q, chunks[n]) then rest + [Ranked(chunks[n], s.score(q, chunks[n]))] else rest
  }

  /** Higher scores first, ties in the order of the ids. */
  predicate Before(s: Setting, l: Ranked, r: Ranked) {
    l.score > r.score || (l.score == r.score && s.place(l.chunk.id) <= s.place(r.chunk.id))
  }

  function InsertRanked(s: Setting, rs: seq<Ranked>, x: Ranked): seq<Ranked> {
    if rs == [] then [x]
    else
      var n := |rs| - 1;
      if Before(s, rs[n], x) then rs + [x] else InsertRanked(s, rs[..n], x) + [rs[n]]
  }

  function SortRanked(s: Setting, rs: seq<Ranked>): seq<Ranked> {
    if rs == [] then [] else InsertRanked(s, SortRanked(s, rs[..|rs| - 1]), rs[|rs| - 1])
  }

  function RankChunks(s: Setting, q: Query): seq<Ranked> {
    if q.caller.disabled then [] else SortRanked(s, Scored(s, q, s.chunks))
  }

  ghost predicate InOrder(s: Setting, rs: seq<Ranked>) {
    forall i, j | 0 <= i < j < |rs| :: Before(s, rs[i], rs[j])
  }

  lemma LastApart(rs: seq<Ranked>, n: nat)
    requires |rs| == n + 1
    ensures multiset(rs) == multiset(rs[..n]) + multiset{rs[n]}
  {
    assert rs == rs[..n] + [rs[n]];
  }

  lemma {:induction false} InsertKeeps(s: Setting, rs: seq<Ranked>, x: Ranked)
    ensures multiset(InsertRanked(s, rs, x)) == multiset(rs) + multiset{x}
  {
    if rs != [] && !Before(s, rs[|rs| - 1], x) {
      InsertKeeps(s, rs[..|rs| - 1], x);
      LastApart(rs, |rs| - 1);
    }
  }

  lemma {:induction false} InsertOrders(s: Setting, rs: seq<Ranked>, x: Ranked)
    requires InOrder(s, rs)
    ensures InOrder(s, InsertRanked(s, rs, x))
  {
    if rs != [] {
      var n := |rs| - 1;
      if !Before(s, rs[n], x) {
        InsertOrders(s, rs[..n], x);
        InsertKeeps(s, rs[..n], x);
        var head := InsertRanked(s, rs[..n], x);
        forall i | 0 <= i < |head|
          ensures Before(s, head[i], rs[n])
        {
          assert head[i] in multiset(head);
          assert head[i] == x || head[i] in rs[..n];
        }
      }
    }
  }

  lemma {:induction false} SortKeeps(s: Setting, rs: seq<Ranked>)
    ensures multiset(SortRanked(s, rs)) == multiset(rs)
  {
    if rs != [] {
      var n := |rs| - 1;
      LastApart(rs, n);
      InsertKeeps(s, SortRanked(s, rs[..n]), rs[n]);
      SortKeeps(s, rs[..n]);
    }
  }

  lemma {:induction false} SortOrders(s: Setting, rs: seq<Ranked>)
    ensures InOrder(s, SortRanked(s, rs))
  {
    if rs != [] {
      SortOrders(s, rs[..|rs| - 1]);
      InsertOrders(s, SortRanked(s, rs[..|rs| - 1]), rs[|rs| - 1]);
    }
  }

  lemma {:induction false} ScoredExact(s: Setting, q: Query, chunks: seq<Chunk>, r: Ranked)
    ensures r in Scored(s, q, chunks) <==> r.chunk in chunks && Kept(s, q, r.chunk) && r.score == s.score(q, r.chunk)
  {
    if chunks != [] {
      var n := |chunks| - 1;
      ScoredExact(s, q, chunks[..n], r);
      assert chunks == chunks[..n] + [chunks[n]];
    }
  }

  function Ids(rs: seq<Ranked>): (r: seq<Id>)
    ensures |r| == |rs|
  {
    seq(|rs|, i requires 0 <= i < |rs| => rs[i].chunk.id)
  }

  ghost predicate Unrepeated(chunks: seq<Chunk>) {
    forall i, j | 0 <= i < j < |chunks| :: chunks[i].id != chunks[j].id
  }

  lemma {:induction false} ScoredDistinct(s: Setting, q: Query, chunks: seq<Chunk>)
    requires Unrepeated(chunks)
    ensures Distinct(Ids(Scored(s, q, chunks)))
  {
    if chunks != [] {
      var n := |chunks| - 1;
      var rest := Scored(s, q, chunks[..n]);
      ScoredDistinct(s, q, chunks[..n]);
      forall i | 0 <= i < |rest|
        ensures rest[i].chunk.id != chunks[n].id
      {
        ScoredExact(s, q, chunks[..n], rest[i]);
      }
      if Kept(s, q, chunks[n]) {
        assert Ids(Scored(s, q, chunks)) == Ids(rest) + [chunks[n].id];
      }
    }
  }

  lemma IdsAppend(rs: seq<Ranked>, x: Ranked)
    ensures Ids(rs + [x]) == Ids(rs) + [x.chunk.id]
    ensures Distinct(Ids(rs + [x])) <==> Distinct(Ids(rs)) && x.chunk.id !in Ids(rs)
  {
    var ids := Ids(rs) + [x.chunk.id];
    assert Ids(rs + [x]) == ids;
    if Distinct(ids) {
      assert forall i | 0 <= i < |rs| :: Ids(rs)[i] == ids[i] && ids[i] != ids[|rs|];
    }
  }

  /** Inserting a chunk with a new id leaves no id repeated. */
  lemma {:induction false} InsertDistinct(s: Setting, rs: seq<Ranked>, x: Ranked)
    requires Distinct(Ids(rs)) && x.chunk.id !in Ids(rs)
    ensures Distinct(Ids(InsertRanked(s, rs, x)))
    ensures forall id :: id in Ids(InsertRanked(s, rs, x)) <==> id in Ids(rs) || id == x.chunk.id
  {
    if rs == [] || Before(s, rs[|rs| - 1], x) {
      assert InsertRanked(s, rs, x) == rs + [x];
      IdsAppend(rs, x);
    } else {
      var n := |rs| - 1;
      assert rs == rs[..n] + [rs[n]];
      IdsAppend(rs[..n], rs[n]);
      InsertDistinct(s, rs[..n], x);
      IdsAppend(InsertRanked(s, rs[..n], x), rs[n]);
    }
  }

  lemma {:induction false} SortDistinct(s: Setting, rs: seq<Ranked>)
    requires Distinct(Ids(rs))
    ensures Distinct(Ids(SortRanked(s, rs)))
    ensures forall id :: id in Ids(SortRanked(s, rs)) <==> id in Ids(rs)
  {
    if rs != [] {
      var n := |rs| - 1;
      assert rs == rs[..n] + [rs[n]];
      IdsAppend(rs[..n], rs[n]);
      SortDistinct(s, rs[..n]);
      InsertDistinct(s, SortRanked(s, rs[..n]), rs[n]);
    }
  }

  /** A ranking holds exactly the chunks the caller may see that score enough, best first. */
  lemma RankingExact(s: Setting, q: Query)
    ensures var rs := RankChunks(s, q);
      forall i, j | 0 <= i < j < |rs| ::
        || rs[i].score > rs[j].score
        || (rs[i].score == rs[j].score && s.place(rs[i].chunk.id) <= s.place(rs[j].chunk.id))
    ensures forall r :: r in RankChunks(s, q) <==>
      && !q.caller.disabled && r.chunk in s.chunks && r.score == s.score(q, r.chunk) && r.score >= 0.05
      && r.chunk.status == Active && r.chunk.indexed == r.chunk.current && q.caller.clearance >= r.chunk.level
    ensures Unrepeated(s.chunks) ==> Distinct(Ids(RankChunks(s, q)))
  {
    var rs := Scored(s, q, s.chunks);
    SortOrders(s, rs);
    SortKeeps(s, rs);
    forall r
      ensures r in SortRanked(s, rs) <==> r.chunk in s.chunks && Kept(s, q, r.chunk) && r.score == s.score(q, r.chunk)
    {
      assert r in SortRanked(s, rs) <==> r in multiset(SortRanked(s, rs));
      assert r in rs <==> r in multiset(rs);
      ScoredExact(s, q, s.chunks, r);
    }
    if Unrepeated(s.chunks) {
      ScoredDistinct(s, q, s.chunks);
      SortDistinct(s, rs);
    }
  }

  // ---------------------------------------------------------------- measures of one query

  function Top(s: Setting, q: Query, n: nat): seq<Id> { Cut(Ids(Cut(RankChunks(s, q), 10)), n) }

  function Relevant(ids: seq<Id>, relevant: seq<Id>): nat {
    if ids == [] then 0
    else Relevant(ids[..|ids| - 1], relevant) + if ids[|ids| - 1] in relevant then 1 else 0
  }

  /** `findIndex`: the first place of a relevant id, or the length. */
  function FirstRelevant(ids: seq<Id>, relevant: seq<Id>): (i: nat)
    ensures i <= |ids| && (forall j | 0 <= j < i :: ids[j] !in relevant)
    ensures i < |ids| ==> ids[i] in relevant
  {
    if ids == [] || ids[0] in relevant then 0 else 1 + FirstRelevant(ids[1..], relevant)
  }

  function ReciprocalRank(ids: seq<Id>, relevant: seq<Id>): real {
    var i := FirstRelevant(ids, relevant);
    if i == |ids| || i >= 10 then 0.0 else 1.0 / (i + 1) as real
  }

  datatype Measure = HitAt5 | RecallAt10 | PrecisionAt5 | MrrAt10 | NdcgAt10

  function Value(s: Setting, m: Measure, q: Query): real
    requires q.relevant != []
  {
    match m
    case HitAt5 => if Relevant(Top(s, q, 5), q.relevant) > 0 then 1.0 else 0.0
    case RecallAt10 => Relevant(Top(s, q, 10), q.relevant) as real / |q.relevant| as real
    case PrecisionAt5 => Relevant(Top(s, q, 5), q.relevant) as real / 5.0
    case MrrAt10 => ReciprocalRank(Top(s, q, 10), q.relevant)
    case NdcgAt10 => Ndcg(s.scale, Top(s, q, 10), q.grades, 10)
  }

  /** A query someone can answer counts in every measure. */
  function Total(s: Setting, m: Measure, qs: seq<Query>): real {
    if qs == [] then 0.0
    else
      var q := qs[|qs| - 1];
      Total(s, m, qs[..|qs| - 1]) + if q.relevant == [] then 0.0 else Value(s, m, q)
  }

  function Answerables(qs: seq<Query>): nat {
    if qs == [] then 0 else Answerables(qs[..|qs| - 1]) + if qs[|qs| - 1].relevant == [] then 0 else 1
  }

  function Unanswerables(qs: seq<Query>): nat {
    if qs == [] then 0 else Unanswerables(qs[..|qs| - 1]) + if qs[|qs| - 1].relevant == [] then 1 else 0
  }

  function Unanswered(s: Setting, qs: seq<Query>): nat {
    if qs == [] then 0
    else
      var q := qs[|qs| - 1];
      Unanswered(s, qs[..|qs| - 1]) + if q.relevant == [] && RankChunks(s, q) != [] then 1 else 0
  }

  function Max1(n: nat): (r: nat)
    ensures r >= 1 && r >= n
  {
    if n < 1 then 1 else n
  }

  ghost predicate WellPosed(s: Setting, q: Query) {
    Proper(s.scale) && Unrepeated(s.chunks) && WellGraded(q.grades)
  }

  // ---------------------------------------------------------------- what each measure says

  /** The places among the first n that show a relevant id. */
  ghost function Hits(ids: seq<Id>, relevant: seq<Id>, n: nat): set<nat> {
    set i: nat | i < n && i < |ids| && ids[i] in relevant
  }

  lemma {:induction false} RelevantCounts(ids: seq<Id>, relevant: seq<Id>)
    ensures Relevant(ids, relevant) == |Hits(ids, relevant, |ids|)|
  {
    if ids == [] {
      assert Hits(ids, relevant, 0) == {};
    } else {
      var n := |ids| - 1;
      RelevantCounts(ids[..n], relevant);
      var fewer := Hits(ids[..n], relevant, n);
      assert Hits(ids, relevant, n + 1) == if ids[n] in relevant then fewer + {n} else fewer;
    }
  }

  lemma TopCounts(s: Setting, q: Query, n: nat)
    requires n <= 10
    ensures Relevant(Top(s, q, n), q.relevant) == |Hits(Ids(RankChunks(s, q)), q.relevant, n)|
    ensures |Top(s, q, n)| == if |RankChunks(s, q)| < n then |RankChunks(s, q)| else n
    ensures forall i | 0 <= i < |Top(s, q, n)| :: Top(s, q, n)[i] == Ids(RankChunks(s, q))[i]
  {
    var top, ids := Top(s, q, n), Ids(RankChunks(s, q));
    RelevantCounts(top, q.relevant);
    assert Hits(top, q.relevant, |top|) == Hits(ids, q.relevant, n);
  }

  lemma Times(part: real, whole: real)
    requires whole > 0.0
    ensures part / whole * whole == part
  {
  }

  /** Each measure of an answerable query, by the places of its ranking: a hit is a relevant id among
      the first five; recall and precision count the relevant ids among the first ten and five; the
      reciprocal rank is that of the first relevant place, if that is among the first ten. */
  lemma MeasuresMean(s: Setting, q: Query, first: nat)
    requires q.relevant != []
    ensures var ids := Ids(RankChunks(s, q));
      && Value(s, HitAt5, q) == (if exists i | 0 <= i < 5 && i < |ids| :: ids[i] in q.relevant then 1.0 else 0.0)
      && Value(s, RecallAt10, q) * |q.relevant| as real == |Hits(ids, q.relevant, 10)| as real
      && Value(s, PrecisionAt5, q) * 5.0 == |Hits(ids, q.relevant, 5)| as real
      && (Value(s, MrrAt10, q) == 0.0 <==> forall i | 0 <= i < 10 && i < |ids| :: ids[i] !in q.relevant)
      && (first < 10 && first < |ids| && ids[first] in q.relevant
          && (forall i | 0 <= i < first :: ids[i] !in q.relevant) ==>
            Value(s, MrrAt10, q) * (first + 1) as real == 1.0)
  {
    hide RankChunks, Top, Relevant, Hits, ReciprocalRank, Ndcg;
    var ids := Ids(RankChunks(s, q));
    TopCounts(s, q, 5);
    TopCounts(s, q, 10);
    SomeHit(ids, q.relevant);
    Times(Relevant(Top(s, q, 10), q.relevant) as real, |q.relevant| as real);
    Times(Relevant(Top(s, q, 5), q.relevant) as real, 5.0);
    RankMeans(ids, Top(s, q, 10), q.relevant, first);
  }

  /** The gain is measured on the ranking's first ten places. */
  lemma NdcgValue(s: Setting, q: Query)
    requires q.relevant != []
    ensures Value(s, NdcgAt10, q) == Ndcg(s.scale, Ids(RankChunks(s, q)), q.grades, 10)
  {
    TopCounts(s, q, 10);
    hide RankChunks, Top, Dcg, Ideal;
    assert Cut(Top(s, q, 10), 10) == Cut(Ids(RankChunks(s, q)), 10);
  }

  lemma SomeHit(ids: seq<Id>, relevant: seq<Id>)
    ensures |Hits(ids, relevant, 5)| > 0 <==> exists i | 0 <= i < 5 && i < |ids| :: ids[i] in relevant
  {
    var five := Hits(ids, relevant, 5);
    if i :| 0 <= i < 5 && i < |ids| && ids[i] in relevant {
      assert i in five;
    } else {
      assert five == {};
    }
  }

  lemma RankMeans(ids: seq<Id>, top: seq<Id>, relevant: seq<Id>, first: nat)
    requires |top| == (if |ids| < 10 then |ids| else 10) && forall i | 0 <= i < |top| :: top[i] == ids[i]
    ensures ReciprocalRank(top, relevant) == 0.0 <==> forall i | 0 <= i < 10 && i < |ids| :: ids[i] !in relevant
    ensures first < 10 && first < |ids| && ids[first] in relevant && (forall i | 0 <= i < first :: ids[i] !in relevant)
      ==> ReciprocalRank(top, relevant) * (first + 1) as real == 1.0
  {
    var i := FirstRelevant(top, relevant);
    if i < |top| {
      assert ids[i] in relevant && 1.0 / (i + 1) as real * (i + 1) as real == 1.0;
    } else {
      assert forall j | 0 <= j < 10 && j < |ids| :: ids[j] == top[j];
    }
  }

  /** The sums over queries: each answerable one counts with its own value, and once. */
  lemma {:induction false} TotalAdds(s: Setting, m: Measure, qs: seq<Query>, more: seq<Query>)
    ensures Total(s, m, qs + more) == Total(s, m, qs) + Total(s, m, more)
  {
    hide Value;
    if more == [] {
      assert qs + more == qs;
    } else {
      var n := |more| - 1;
      assert (qs + more)[..|qs| + n] == qs + more[..n];
      TotalAdds(s, m, qs, more[..n]);
    }
  }

  lemma TotalOne(s: Setting, m: Measure, q: Query)
    ensures Total(s, m, [q]) == if q.relevant == [] then 0.0 else Value(s, m, q)
  {
    assert [q][..0] == [];
  }

  ghost function Answerable(qs: seq<Query>): set<nat> { set i: nat | i < |qs| && qs[i].relevant != [] }

  ghost function NotAnswerable(qs: seq<Query>): set<nat> { set i: nat | i < |qs| && qs[i].relevant == [] }

  ghost function WronglyAnswered(s: Setting, qs: seq<Query>): set<nat> {
    set i: nat | i < |qs| && qs[i].relevant == [] && |RankChunks(s, qs[i])| > 0
  }

  lemma {:induction false} AnswerableCounted(qs: seq<Query>)
    ensures Answerables(qs) == |Answerable(qs)|
  {
    if qs == [] {
      assert Answerable(qs) == {};
    } else {
      var n := |qs| - 1;
      AnswerableCounted(qs[..n]);
      var fewer := Answerable(qs[..n]);
      assert Answerable(qs) == if qs[n].relevant != [] then fewer + {n} else fewer;
    }
  }

  lemma {:induction false} NotAnswerableCounted(qs: seq<Query>)
    ensures Unanswerables(qs) == |NotAnswerable(qs)|
  {
    if qs == [] {
      assert NotAnswerable(qs) == {};
    } else {
      var n := |qs| - 1;
      NotAnswerableCounted(qs[..n]);
      var fewer := NotAnswerable(qs[..n]);
      assert NotAnswerable(qs) == if qs[n].relevant == [] then fewer + {n} else fewer;
    }
  }

  lemma {:induction false} WronglyAnsweredCounted(s: Setting, qs: seq<Query>)
    ensures Unanswered(s, qs) == |WronglyAnswered(s, qs)|
  {
    hide RankChunks;
    if qs == [] {
      assert WronglyAnswered(s, qs) == {};
    } else {
      var n := |qs| - 1;
      WronglyAnsweredCounted(s, qs[..n]);
      var fewer := WronglyAnswered(s, qs[..n]);
      assert WronglyAnswered(s, qs) ==
             if qs[n].relevant == [] && |RankChunks(s, qs[n])| > 0 then fewer + {n} else fewer;
    }
  }

  // ---------------------------------------------------------------- bounds

  ghost function Common(ids: seq<Id>, relevant: seq<Id>): set<Id> { set id | id in ids && id in relevant }

  lemma CommonGrows(ids: seq<Id>, last: Id, relevant: seq<Id>)
    ensures Common(ids + [last], relevant) == Common(ids, relevant) + if last in relevant then {last} else {}
  {
  }

  lemma {:induction false} RelevantBounded(ids: seq<Id>, relevant: seq<Id>)
    requires Distinct(ids)
    ensures Relevant(ids, relevant) <= |ids| && Relevant(ids, relevant) == |Common(ids, relevant)|
    ensures Relevant(ids, relevant) <= |relevant|
  {
    if ids != [] {
      var n := |ids| - 1;
      RelevantBounded(ids[..n], relevant);
      assert ids == ids[..n] + [ids[n]];
      CommonGrows(ids[..n], ids[n], relevant);
      assert ids[n] !in Common(ids[..n], relevant);
    }
    SetOfList(Common(ids, relevant), relevant);
  }

  lemma {:induction false} SetOfList(xs: set<Id>, list: seq<Id>)
    requires forall x | x in xs :: x in list
    ensures |xs| <= |list|
  {
    if list == [] {
      assert xs == {};
    } else {
      SetOfList(xs - {list[0]}, list[1..]);
    }
  }

  lemma TopDistinct(s: Setting, q: Query, n: nat)
    requires Unrepeated(s.chunks)
    ensures Distinct(Top(s, q, n)) && |Top(s, q, n)| <= n
  {
    RankingExact(s, q);
    var ids, cut := Ids(RankChunks(s, q)), Ids(Cut(RankChunks(s, q), 10));
    assert forall i | 0 <= i < |cut| :: cut[i] == ids[i];
  }

  lemma Share(part: nat, whole: nat)
    requires part <= whole && whole > 0
    ensures 0.0 <= part as real / whole as real <= 1.0
  {
    Quotient(part as real, whole as real);
  }

  lemma ValueBounded(s: Setting, m: Measure, q: Query)
    requires WellPosed(s, q) && q.relevant != []
    ensures 0.0 <= Value(s, m, q) <= 1.0
  {
    TopDistinct(s, q, 5);
    TopDistinct(s, q, 10);
    match m
    case HitAt5 =>
    case RecallAt10 =>
      RelevantBounded(Top(s, q, 10), q.relevant);
      Share(Relevant(Top(s, q, 10), q.relevant), |q.relevant|);
    case PrecisionAt5 =>
      RelevantBounded(Top(s, q, 5), q.relevant);
      Share(Relevant(Top(s, q, 5), q.relevant), 5);
    case MrrAt10 =>
      Share(1, FirstRelevant(Top(s, q, 10), q.relevant) + 1);
    case NdcgAt10 =>
      NdcgBounded(s.scale, Top(s, q, 10), q.grades, 10);
  }

  lemma {:induction false} TotalBounded(s: Setting, m: Measure, qs: seq<Query>)
    requires forall i | 0 <= i < |qs| :: WellPosed(s, qs[i])
    ensures 0.0 <= Total(s, m, qs) <= Answerables(qs) as real
  {
    if qs != [] {
      var q := qs[|qs| - 1];
      TotalBounded(s, m, qs[..|qs| - 1]);
      if q.relevant != [] {
        ValueBounded(s, m, q);
      }
    }
  }

  /** Every averaged measure of a mode lies between 0 and 1. */
  lemma AverageBounded(s: Setting, m: Measure, qs: seq<Query>)
    requires forall i | 0 <= i < |qs| :: WellPosed(s, qs[i])
    ensures 0.0 <= Total(s, m, qs) / Max1(Answerables(qs)) as real <= 1.0
  {
    TotalBounded(s, m, qs);
    Quotient(Total(s, m, qs), Max1(Answerables(qs)) as real);
  }

  // ---------------------------------------------------------------- the evaluation of a mode

  datatype Metrics = Metrics(
    queries: nat, answerable: nat, hitRateAt5: real, recallAt10: real, precisionAt5: real, mrrAt10: real,
    ndcgAt10: real, noAnswerFalsePositiveRate: real,
    permissionLeaks: int, archivedLeaks: int, staleLeaks: int, disabledLeaks: int)

  ghost function Average(s: Setting, m: Measure, qs: seq<Query>): real {
    Total(s, m, qs) / Max1(Answerables(qs)) as real
  }

  /** An average times the number of answerable queries is their total; 0 if there are none. */
  lemma AverageMeans(s: Setting, m: Measure, qs: seq<Query>)
    ensures Average(s, m, qs) * |Answerable(qs)| as real == Total(s, m, qs)
    ensures Answerable(qs) == {} ==> Average(s, m, qs) == 0.0
  {
    hide Total, Answerables, Max1;
    AnswerableCounted(qs);
    NoneTotal(s, m, qs);
    MeanOf(Total(s, m, qs), Answerables(qs));
  }

  lemma MeanOf(total: real, n: nat)
    requires n == 0 ==> total == 0.0
    ensures n == 0 ==> total / Max1(n) as real == 0.0
    ensures total / Max1(n) as real * n as real == total
  {
    Times(total, Max1(n) as real);
  }

  lemma {:induction false} NoneTotal(s: Setting, m: Measure, qs: seq<Query>)
    ensures Answerables(qs) == 0 ==> Total(s, m, qs) == 0.0
  {
    hide Value;
    if qs != [] {
      NoneTotal(s, m, qs[..|qs| - 1]);
    }
  }

  /** Nothing a ranking returns is hidden from its caller. */
  lemma NothingLeaks(s: Setting, q: Query, i: nat)
    requires i < |Cut(RankChunks(s, q), 10)|
    ensures var c := Cut(RankChunks(s, q), 10)[i].chunk;
      q.caller.clearance >= c.level && c.status == Active && c.indexed == c.current && !q.caller.disabled
  {
    RankingExact(s, q);
    assert Cut(RankChunks(s, q), 10)[i] in RankChunks(s, q);
  }

  method CountLeaks(s: Setting, q: Query, ranked: seq<Ranked>)
    returns (permission: int, archived: int, stale: int, disabled: int)
    requires ranked == Cut(RankChunks(s, q), 10)
    ensures permission == 0 && archived == 0 && stale == 0 && disabled == 0
  {
    permission, archived, stale, disabled := 0, 0, 0, 0;
    var i := 0;
    while i < |ranked|
      invariant 0 <= i <= |ranked|
      invariant permission == 0 && archived == 0 && stale == 0 && disabled == 0
    {
      var c := ranked[i].chunk;
      NothingLeaks(s, q, i);
      if q.caller.clearance < c.level {
        permission := permission + 1;
      }
      if c.status == Archived {
        archived := archived + 1;
      }
      if c.indexed != c.current {
        stale := stale + 1;
      }
      if q.caller.disabled {
        disabled := disabled + 1;
      }
      i := i + 1;
    }
  }

  /** What the evaluation adds up over its queries. */
  datatype Sums = Sums(hits: real, recall: real, precision: real, mrr: real, ndcg: real,
    answerable: int, noAnswer: int, falsePositives: int)

  ghost function SumsOf(s: Setting, qs: seq<Query>): Sums {
    Sums(Total(s, HitAt5, qs), Total(s, RecallAt10, qs), Total(s, PrecisionAt5, qs), Total(s, MrrAt10, qs),
      Total(s, NdcgAt10, qs), Answerables(qs), Unanswerables(qs), Unanswered(s, qs))
  }

  ghost function Plus(s: Setting, x: Sums, q: Query): Sums {
    if q.relevant == [] then
      x.(noAnswer := x.noAnswer + 1, falsePositives := x.falsePositives + if RankChunks(s, q) != [] then 1 else 0)
    else
      x.(hits := x.hits + Value(s, HitAt5, q), recall := x.recall + Value(s, RecallAt10, q),
         precision := x.precision + Value(s, PrecisionAt5, q), mrr := x.mrr + Value(s, MrrAt10, q),
         ndcg := x.ndcg + Value(s, NdcgAt10, q), answerable := x.answerable + 1)
  }

  lemma SumsStep(s: Setting, qs: seq<Query>, n: nat)
    requires n < |qs|
    ensures SumsOf(s, qs[..n + 1]) == Plus(s, SumsOf(s, qs[..n]), qs[n])
  {
    assert qs[..n + 1][..n] == qs[..n] && qs[..n + 1][n] == qs[n];
  }

  method AddQuery(s: Setting, x: Sums, q: Query, ranked: seq<Ranked>) returns (y: Sums)
    requires ranked == Cut(RankChunks(s, q), 10)
    ensures y == Plus(s, x, q)
  {
    var ids := Ids(ranked);
    assert Top(s, q, 10) == ids;
    if q.relevant == [] {
      y := x.(noAnswer := x.noAnswer + 1, falsePositives := x.falsePositives + if |ranked| > 0 then 1 else 0);
    } else {
      var inTop5, inTop10 := Relevant(Cut(ids, 5), q.relevant), Relevant(ids, q.relevant);
      y := x.(
        hits := x.hits + if inTop5 > 0 then 1.0 else 0.0,
        recall := x.recall + inTop10 as real / |q.relevant| as real,
        precision := x.precision + inTop5 as real / 5.0,
        mrr := x.mrr + ReciprocalRank(ids, q.relevant),
        ndcg := x.ndcg + Ndcg(s.scale, ids, q.grades, 10),
        answerable := x.answerable + 1);
    }
  }

  lemma RateMeans(s: Setting, qs: seq<Query>)
    ensures var rate := Unanswered(s, qs) as real / Max1(Unanswerables(qs)) as real;
      && (NotAnswerable(qs) == {} ==> rate == 0.0)
      && rate * |NotAnswerable(qs)| as real == |WronglyAnswered(s, qs)| as real
  {
    NotAnswerableCounted(qs);
    WronglyAnsweredCounted(s, qs);
    NoneWrong(s, qs);
    hide NotAnswerable, WronglyAnswered, Unanswered, Unanswerables, Max1;
    RateOf(Unanswered(s, qs), Unanswerables(qs));
  }

  lemma NoneWrong(s: Setting, qs: seq<Query>)
    ensures NotAnswerable(qs) == {} <==> |NotAnswerable(qs)| == 0
    ensures NotAnswerable(qs) == {} ==> |WronglyAnswered(s, qs)| == 0
  {
    hide RankChunks;
    if NotAnswerable(qs) == {} {
      assert WronglyAnswered(s, qs) == {};
    }
  }

  lemma RateOf(wrong: nat, none: nat)
    requires none == 0 ==> wrong == 0
    ensures none == 0 ==> wrong as real / Max1(none) as real == 0.0
    ensures wrong as real / Max1(none) as real * none as real == wrong as real
  {
    Times(wrong as real, Max1(none) as real);
  }

  /** `evaluateMode`: the averages over the answerable queries; the leak counts are zero whatever the corpus. */
  method EvaluateMode(s: Setting, queries: seq<Query>) returns (r: Metrics)
    ensures r.queries == |queries| && r.answerable == |Answerable(queries)|
    ensures r.hitRateAt5 == Average(s, HitAt5, queries) && r.recallAt10 == Average(s, RecallAt10, queries)
    ensures r.precisionAt5 == Average(s, PrecisionAt5, queries) && r.mrrAt10 == Average(s, MrrAt10, queries)
    ensures r.ndcgAt10 == Average(s, NdcgAt10, queries)
    ensures NotAnswerable(queries) == {} ==> r.noAnswerFalsePositiveRate == 0.0
    ensures r.noAnswerFalsePositiveRate * |NotAnswerable(queries)| as real == |WronglyAnswered(s, queries)| as real
    ensures r.permissionLeaks == 0 && r.archivedLeaks == 0 && r.staleLeaks == 0 && r.disabledLeaks == 0
  {
    hide RankChunks, Answerable, NotAnswerable, WronglyAnswered, Plus;
    var sums := Sums(0.0, 0.0, 0.0, 0.0, 0.0, 0, 0, 0);
    var permission, archived, stale, disabled := 0, 0, 0, 0;
    var n := 0;
    while n < |queries|
      invariant 0 <= n <= |queries|
      invariant sums == SumsOf(s, queries[..n])
      invariant permission == 0 && archived == 0 && stale == 0 && disabled == 0
    {
      var ranked := Cut(RankChunks(s, queries[n]), 10);
      sums := AddQuery(s, sums, queries[n], ranked);
      SumsStep(s, queries, n);
      var p, a, t, d := CountLeaks(s, queries[n], ranked);
      permission, archived, stale, disabled := permission + p, archived + a, stale + t, disabled + d;
      n := n + 1;
    }
    assert queries[..n] == queries;
    AnswerableCounted(queries);
    RateMeans(s, queries);
    var count := Max1(sums.answerable) as real;
    r := Metrics(|queries|, sums.answerable, sums.hits / count, sums.recall / count, sums.precision / count,
      sums.mrr / count, sums.ndcg / count, sums.falsePositives as real / Max1(sums.noAnswer) as real,
      permission, archived, stale, disabled);
  }
}
