/**
 * The knowledge base the agent learns from: adding entries (also from
 * resolved help requests), listing them by recency, keyword search with a
 * relevance score, the usage counter and the summary statistics.
 */
module KnowledgeService {
  import opened Base
  import opened Text
  import opened Timestamps
  import opened Sorting
  import opened Store
  import opened KnowledgeModel
  import opened HelpRequestModel
  import opened AIService

  /** The error a record constructor raises when a required field is missing. */
  const ValidationError := "Validation error"

  /** The listing order key: `last_used_at or created_at`. */
  function Recency(e: KnowledgeEntry): int {
    e.lastUsedAt.GetOr(e.createdAt)
  }

  function TimesUsed(e: KnowledgeEntry): int {
    e.timesUsed
  }

  // ---------------------------------------------------------------- scoring

  /** How many of `keywords` occur, lowercased, in the lowercased query; duplicates each count. */
  function KeywordHits(keywords: seq<string>, queryLower: string): (n: nat)
    ensures n <= |keywords|
    decreases |keywords|
  {
    if keywords == [] then 0
    else
      var last := keywords[|keywords| - 1];
      KeywordHits(keywords[..|keywords| - 1], queryLower) + (if Contains(queryLower, Lower(last)) then 1 else 0)
  }

  function QuestionPoints(e: KnowledgeEntry, queryLower: string): nat {
    if Contains(Lower(e.question), queryLower) then 3 else 0
  }

  /** The relevance of an entry to a lowercased query. */
  function Score(e: KnowledgeEntry, queryLower: string): nat {
    QuestionPoints(e, queryLower) + KeywordHits(e.keywords, queryLower)
  }

  lemma {:induction false} KeywordHitsPositive(keywords: seq<string>, queryLower: string)
    ensures KeywordHits(keywords, queryLower) > 0 <==>
            exists i :: 0 <= i < |keywords| && Contains(queryLower, Lower(keywords[i]))
    decreases |keywords|
  {
    if keywords != [] {
      var init := keywords[..|keywords| - 1];
      KeywordHitsPositive(init, queryLower);
      if exists i :: 0 <= i < |init| && Contains(queryLower, Lower(init[i])) {
        var i :| 0 <= i < |init| && Contains(queryLower, Lower(init[i]));
        assert keywords[i] == init[i];
      }
      if exists i :: 0 <= i < |keywords| && Contains(queryLower, Lower(keywords[i])) {
        var i :| 0 <= i < |keywords| && Contains(queryLower, Lower(keywords[i]));
        if i < |init| {
          assert init[i] == keywords[i];
        }
      }
    }
  }

  /** An entry is relevant exactly when the query occurs in its question or one of its keywords occurs in the query. */
  lemma ScorePositiveIff(e: KnowledgeEntry, queryLower: string)
    ensures Score(e, queryLower) > 0 <==>
            Contains(Lower(e.question), queryLower) ||
            exists i :: 0 <= i < |e.keywords| && Contains(queryLower, Lower(e.keywords[i]))
    ensures Score(e, queryLower) <= 3 + |e.keywords|
  {
    KeywordHitsPositive(e.keywords, queryLower);
  }

  /** The empty query occurs in every question, so it finds every entry. */
  lemma EmptyQueryMatchesAll(e: KnowledgeEntry)
    ensures Score(e, Lower("")) >= 3
  {
    assert Lower("") == "";
    assert "" <= Lower(e.question);
  }

  /** One iteration of the search loop: the question test, then one point per matching keyword. */
  method ScoreEntry(e: KnowledgeEntry, queryLower: string) returns (score: int)
    ensures score == Score(e, queryLower)
  {
    score := 0;
    if Contains(Lower(e.question), queryLower) {
      score := score + 3;
    }
    for j := 0 to |e.keywords|
      invariant score == QuestionPoints(e, queryLower) + KeywordHits(e.keywords[..j], queryLower)
    {
      assert e.keywords[..j + 1][..j] == e.keywords[..j];
      if Contains(queryLower, Lower(e.keywords[j])) {
        score := score + 1;
      }
    }
    assert e.keywords[..|e.keywords|] == e.keywords;
  }

  type ScoredEntry = (int, KnowledgeEntry)

  function ScoreOf(p: ScoredEntry): int {
    p.0
  }

  /** The `(score, entry)` pairs of the relevant entries, in listing order. */
  function Scored(all: seq<KnowledgeEntry>, queryLower: string): seq<ScoredEntry>
    decreases |all|
  {
    if all == [] then []
    else
      var last := all[|all| - 1];
      Scored(all[..|all| - 1], queryLower) + (if Score(last, queryLower) > 0 then [(Score(last, queryLower), last)] else [])
  }

  function Seconds(ps: seq<ScoredEntry>): (es: seq<KnowledgeEntry>)
    ensures |es| == |ps| && forall i :: 0 <= i < |ps| ==> es[i] == ps[i].1
  {
    seq(|ps|, i requires 0 <= i < |ps| => ps[i].1)
  }

  /** What `search_knowledge` returns for a listing: relevant entries by descending score, ties in listing order, cut at `limit`. */
  function Ranked(all: seq<KnowledgeEntry>, query: string, limit: int): seq<KnowledgeEntry> {
    Seconds(SliceTo(SortDesc(Scored(all, Lower(query)), ScoreOf), limit))
  }

  /** The scoring loop and the ranking of `search_knowledge`, over the listing it obtained. */
  method RankEntries(all: seq<KnowledgeEntry>, query: string, limit: int) returns (results: seq<KnowledgeEntry>)
    ensures results == Ranked(all, query, limit)
  {
    var queryLower := Lower(query);
    var scored: seq<ScoredEntry> := [];
    for i := 0 to |all|
      invariant scored == Scored(all[..i], queryLower)
    {
      assert all[..i + 1][..i] == all[..i];
      var score := ScoreEntry(all[i], queryLower);
      if score > 0 {
        scored := scored + [(score, all[i])];
      }
    }
    assert all[..|all|] == all;
    var ranked := SortDesc(scored, ScoreOf);
    results := Seconds(SliceTo(ranked, limit));
  }

  lemma {:induction false} ScoredMembers(all: seq<KnowledgeEntry>, queryLower: string)
    ensures forall p :: p in Scored(all, queryLower) ==> p.0 == Score(p.1, queryLower) && p.0 > 0 && p.1 in all
    ensures forall e :: e in all && Score(e, queryLower) > 0 ==> (Score(e, queryLower), e) in Scored(all, queryLower)
    ensures |Scored(all, queryLower)| <= |all|
    decreases |all|
  {
    if all != [] {
      var init := all[..|all| - 1];
      ScoredMembers(init, queryLower);
      assert all == init + [all[|all| - 1]];
    }
  }

  lemma SortedMembers(ps: seq<ScoredEntry>)
    ensures forall p :: p in SortDesc(ps, ScoreOf) ==> p in ps
  {
    forall p | p in SortDesc(ps, ScoreOf)
      ensures p in ps
    {
      assert p in multiset(SortDesc(ps, ScoreOf));
    }
  }

  /** Search returns only relevant entries of the listing, at most `limit` of them. */
  lemma RankedSound(all: seq<KnowledgeEntry>, query: string, limit: int)
    ensures forall e :: e in Ranked(all, query, limit) ==> e in all && Score(e, Lower(query)) > 0
    ensures limit >= 0 ==> |Ranked(all, query, limit)| <= limit
  {
    var ql := Lower(query);
    var ranked := SortDesc(Scored(all, ql), ScoreOf);
    ScoredMembers(all, ql);
    SortedMembers(Scored(all, ql));
    var cut := SliceTo(ranked, limit);
    forall e | e in Ranked(all, query, limit)
      ensures e in all && Score(e, ql) > 0
    {
      var i :| 0 <= i < |cut| && e == cut[i].1;
      assert cut[i] in ranked;
    }
  }

  /** Search results come in non-increasing order of score. */
  lemma RankedOrdered(all: seq<KnowledgeEntry>, query: string, limit: int)
    ensures var r := Ranked(all, query, limit);
            forall i, j :: 0 <= i < j < |r| ==> Score(r[j], Lower(query)) <= Score(r[i], Lower(query))
  {
    var ql := Lower(query);
    var ranked := SortDesc(Scored(all, ql), ScoreOf);
    ScoredMembers(all, ql);
    SortedMembers(Scored(all, ql));
    SortDescSorted(Scored(all, ql), ScoreOf);
    var cut := SliceTo(ranked, limit);
    forall i, j | 0 <= i < j < |cut|
      ensures Score(cut[j].1, ql) <= Score(cut[i].1, ql)
    {
      assert cut[i] == ranked[i] && cut[j] == ranked[j];
      assert cut[i] in Scored(all, ql) && cut[j] in Scored(all, ql);
    }
  }

  /** When `limit` is at least the listing's length, every relevant entry is found. */
  lemma RankedComplete(all: seq<KnowledgeEntry>, query: string, limit: int)
    requires limit >= |all|
    ensures forall e :: e in all && Score(e, Lower(query)) > 0 ==> e in Ranked(all, query, limit)
  {
    var ql := Lower(query);
    var scored := Scored(all, ql);
    var ranked := SortDesc(scored, ScoreOf);
    ScoredMembers(all, ql);
    assert Ranked(all, query, limit) == Seconds(ranked) by {
      assert |ranked| == |scored| by {
        assert |multiset(ranked)| == |multiset(scored)|;
      }
      assert SliceTo(ranked, limit) == ranked;
    }
    forall e | e in all && Score(e, ql) > 0
      ensures e in Seconds(ranked)
    {
      var p := (Score(e, ql), e);
      assert p in multiset(ranked) by {
        assert p in multiset(scored);
      }
      var i :| 0 <= i < |ranked| && ranked[i] == p;
      assert Seconds(ranked)[i] == e;
    }
  }

  /** A pair past the cut of a sorted list scores no higher than any pair inside it. */
  lemma PastCutScoresLower(ranked: seq<ScoredEntry>, cut: seq<ScoredEntry>, p: ScoredEntry, f: KnowledgeEntry)
      returns (q: ScoredEntry)
    requires SortedDesc(ranked, ScoreOf) && cut <= ranked
    requires p in ranked && p.1 !in Seconds(cut) && f in Seconds(cut)
    ensures q in ranked && q.1 == f && p.0 <= q.0
  {
    var i :| 0 <= i < |ranked| && ranked[i] == p;
    var j :| 0 <= j < |cut| && Seconds(cut)[j] == f;
    q := cut[j];
    assert q == ranked[j];
    assert i >= |cut|;
    assert ScoreOf(ranked[i]) <= ScoreOf(ranked[j]);
  }

  /**
   * The cut keeps the best: for any `limit >= 0` the results are the first
   * `limit` relevant entries by score, so every relevant entry left out scores
   * no higher than any entry returned.
   */
  lemma RankedKeepsBest(all: seq<KnowledgeEntry>, query: string, limit: int)
    requires limit >= 0
    ensures |Ranked(all, query, limit)| == Min(limit, |Scored(all, Lower(query))|)
    ensures forall e, f ::
              e in all && Score(e, Lower(query)) > 0 && e !in Ranked(all, query, limit) && f in Ranked(all, query, limit)
              ==> Score(e, Lower(query)) <= Score(f, Lower(query))
  {
    var ql := Lower(query);
    var scored := Scored(all, ql);
    var ranked := SortDesc(scored, ScoreOf);
    var cut := SliceTo(ranked, limit);
    assert |ranked| == |scored| by {
      assert |multiset(ranked)| == |multiset(scored)|;
    }
    SortDescSorted(scored, ScoreOf);
    forall e, f | e in all && Score(e, ql) > 0 && e !in Seconds(cut) && f in Seconds(cut)
      ensures Score(e, ql) <= Score(f, ql)
    {
      var p := (Score(e, ql), e);
      assert p in ranked by {
        ScoredMembers(all, ql);
        assert p in multiset(scored);
      }
      var q := PastCutScoresLower(ranked, cut, p, f);
      assert q.0 == Score(f, ql) by {
        ScoredMembers(all, ql);
        SortedMembers(scored);
      }
    }
  }

  /** The score against one lowercased query, as a sort key. */
  function ScoreFor(queryLower: string): KnowledgeEntry -> int {
    e => Score(e, queryLower)
  }

  /** The entries of `s` that score `v`, in order. */
  function WithScore(s: seq<KnowledgeEntry>, queryLower: string, v: int): seq<KnowledgeEntry> {
    WithKey(s, ScoreFor(queryLower), v)
  }

  lemma SecondsAppend(a: seq<ScoredEntry>, b: seq<ScoredEntry>)
    ensures Seconds(a + b) == Seconds(a) + Seconds(b)
  {
  }

  /** When every pair carries its entry's key, filtering the pairs by score commutes with dropping the scores. */
  lemma {:induction false} SecondsWithKey(ps: seq<ScoredEntry>, key: KnowledgeEntry -> int, v: int)
    requires forall p :: p in ps ==> p.0 == key(p.1)
    ensures Seconds(WithKey(ps, ScoreOf, v)) == WithKey(Seconds(ps), key, v)
    decreases |ps|
  {
    if ps != [] {
      var p := ps[0];
      var rest := ps[1..];
      assert p in ps;
      SecondsWithKey(rest, key, v);
      assert WithKey(ps, ScoreOf, v) == Own(p, ScoreOf, v) + WithKey(rest, ScoreOf, v) by {
        assert ps == [p] + rest;
        WithKeyCons(p, rest, ScoreOf, v);
      }
      assert WithKey(Seconds(ps), key, v) == Own(p.1, key, v) + WithKey(Seconds(rest), key, v) by {
        assert Seconds(ps) == [p.1] + Seconds(rest);
        WithKeyCons(p.1, Seconds(rest), key, v);
      }
      calc {
        Seconds(WithKey(ps, ScoreOf, v));
        Seconds(Own(p, ScoreOf, v) + WithKey(rest, ScoreOf, v));
        { SecondsAppend(Own(p, ScoreOf, v), WithKey(rest, ScoreOf, v)); }
        Seconds(Own(p, ScoreOf, v)) + Seconds(WithKey(rest, ScoreOf, v));
        { assert Seconds(Own(p, ScoreOf, v)) == Own(p.1, key, v); }
        Own(p.1, key, v) + WithKey(Seconds(rest), key, v);
      }
    }
  }

  /** The contribution of the listing's last entry, before and after scoring. */
  lemma LastWithKey(last: KnowledgeEntry, queryLower: string, v: int)
    requires v > 0
    ensures var tail: seq<ScoredEntry> := if Score(last, queryLower) > 0 then [(Score(last, queryLower), last)] else [];
            Seconds(WithKey(tail, ScoreOf, v)) == WithScore([last], queryLower, v)
  {
    WithKeyCons(last, [], ScoreFor(queryLower), v);
    assert [last] + [] == [last];
    var n := Score(last, queryLower);
    if n > 0 {
      WithKeyCons((n, last), [], ScoreOf, v);
      assert [(n, last)] + [] == [(n, last)];
    }
  }

  /** Among the relevant entries, those of one positive score are the listing's entries of that score. */
  lemma {:induction false} ScoredWithKey(all: seq<KnowledgeEntry>, queryLower: string, v: int)
    requires v > 0
    ensures Seconds(WithKey(Scored(all, queryLower), ScoreOf, v)) == WithScore(all, queryLower, v)
    decreases |all|
  {
    if all != [] {
      var init := all[..|all| - 1];
      var last := all[|all| - 1];
      var tail: seq<ScoredEntry> := if Score(last, queryLower) > 0 then [(Score(last, queryLower), last)] else [];
      var pre := WithKey(Scored(init, queryLower), ScoreOf, v);
      assert WithKey(Scored(all, queryLower), ScoreOf, v) == pre + WithKey(tail, ScoreOf, v) by {
        assert Scored(all, queryLower) == Scored(init, queryLower) + tail;
        WithKeyAppend(Scored(init, queryLower), tail, ScoreOf, v);
      }
      assert WithScore(all, queryLower, v) == WithScore(init, queryLower, v) + WithScore([last], queryLower, v) by {
        assert all == init + [last];
        WithKeyAppend(init, [last], ScoreFor(queryLower), v);
      }
      calc {
        Seconds(WithKey(Scored(all, queryLower), ScoreOf, v));
        Seconds(pre + WithKey(tail, ScoreOf, v));
        { SecondsAppend(pre, WithKey(tail, ScoreOf, v)); }
        Seconds(pre) + Seconds(WithKey(tail, ScoreOf, v));
        { ScoredWithKey(init, queryLower, v); LastWithKey(last, queryLower, v); }
        WithScore(init, queryLower, v) + WithScore([last], queryLower, v);
      }
    }
  }

  lemma SecondsPrefix(a: seq<ScoredEntry>, b: seq<ScoredEntry>)
    requires a <= b
    ensures Seconds(a) <= Seconds(b)
  {
  }

  /**
   * Ties keep the listing order: for each score, the results with that score
   * are the first entries of that score in the listing, in listing order.
   */
  lemma RankedTiesKeepOrder(all: seq<KnowledgeEntry>, query: string, limit: int, v: int)
    requires v > 0
    ensures WithScore(Ranked(all, query, limit), Lower(query), v) <= WithScore(all, Lower(query), v)
  {
    var ql := Lower(query);
    var scored := Scored(all, ql);
    var ranked := SortDesc(scored, ScoreOf);
    var cut := SliceTo(ranked, limit);
    ScoredMembers(all, ql);
    SortedMembers(scored);
    forall p | p in ranked
      ensures p.0 == ScoreFor(ql)(p.1)
    {
      assert p in scored;
    }
    SecondsWithKey(cut, ScoreFor(ql), v);
    SecondsWithKey(ranked, ScoreFor(ql), v);
    WithKeyPrefix(cut, ranked, ScoreOf, v);
    SortDescStable(scored, ScoreOf, v);
    ScoredWithKey(all, ql, v);
    SecondsPrefix(WithKey(cut, ScoreOf, v), WithKey(ranked, ScoreOf, v));
  }

  // ---------------------------------------------------------------- summary

  const Uncategorized := "uncategorized"

  /** `entry.category or "uncategorized"`. */
  function CategoryLabel(e: KnowledgeEntry): string {
    if e.category.Some? && e.category.value != "" then e.category.value else Uncategorized
  }

  /** `m[c] = m.get(c, 0) + 1`. */
  function Bumped(m: map<string, int>, c: string): map<string, int> {
    m[c := (if c in m then m[c] else 0) + 1]
  }

  /** The `categories` dict after the loop has seen `s`. */
  function Histogram(s: seq<KnowledgeEntry>): map<string, int>
    decreases |s|
  {
    if s == [] then map[] else Bumped(Histogram(s[..|s| - 1]), CategoryLabel(s[|s| - 1]))
  }

  /** One more entry seen by the loop: its category's count goes up by one. */
  lemma HistogramStep(s: seq<KnowledgeEntry>, i: nat)
    requires i < |s|
    ensures Histogram(s[..i + 1]) == Bumped(Histogram(s[..i]), CategoryLabel(s[i]))
  {
    assert s[..i + 1][..i] == s[..i];
  }

  /** The counting loop of `get_knowledge_summary`. */
  method CountCategories(all: seq<KnowledgeEntry>) returns (categories: map<string, int>)
    ensures categories == Histogram(all)
  {
    categories := map[];
    for i := 0 to |all|
      invariant categories == Histogram(all[..i])
    {
      HistogramStep(all, i);
      var cat := CategoryLabel(all[i]);
      categories := categories[cat := (if cat in categories then categories[cat] else 0) + 1];
    }
    assert all[..|all|] == all;
  }

  /** How many entries of `s` fall under category `c`. */
  function CountLabel(s: seq<KnowledgeEntry>, c: string): nat
    decreases |s|
  {
    if s == [] then 0
    else CountLabel(s[..|s| - 1], c) + (if CategoryLabel(s[|s| - 1]) == c then 1 else 0)
  }

  /** `sum(e.times_used for e in entries)`. */
  function TotalUsage(s: seq<KnowledgeEntry>): int
    decreases |s|
  {
    if s == [] then 0 else TotalUsage(s[..|s| - 1]) + s[|s| - 1].timesUsed
  }

  /** The histogram holds exactly the categories that occur, each with its number of entries. */
  lemma {:induction false} HistogramCounts(s: seq<KnowledgeEntry>)
    ensures forall c :: c in Histogram(s) <==> CountLabel(s, c) > 0
    ensures forall c :: c in Histogram(s) ==> Histogram(s)[c] == CountLabel(s, c)
    decreases |s|
  {
    if s != [] {
      HistogramCounts(s[..|s| - 1]);
    }
  }

  /** The sum of the values of a map of counts. */
  ghost function MapSum(m: map<string, int>): int
    decreases |m|
  {
    if m == map[] then 0
    else
      var k :| k in m;
      m[k] + MapSum(m - {k})
  }

  /** The sum does not depend on which key is taken first. */
  lemma {:induction false} MapSumPick(m: map<string, int>, k: string)
    requires k in m
    ensures MapSum(m) == m[k] + MapSum(m - {k})
    decreases |m|
  {
    var k' :| k' in m && MapSum(m) == m[k'] + MapSum(m - {k'});
    if k' != k {
      MapSumPick(m - {k'}, k);
      MapSumPick(m - {k}, k');
      assert m - {k'} - {k} == m - {k} - {k'};
    }
  }

  /** Adding one to a category's count, or opening it at one, adds one to the sum. */
  lemma MapSumBump(m: map<string, int>, c: string)
    ensures MapSum(m[c := (if c in m then m[c] else 0) + 1]) == MapSum(m) + 1
  {
    var m' := m[c := (if c in m then m[c] else 0) + 1];
    MapSumPick(m', c);
    if c in m {
      MapSumPick(m, c);
      assert m' - {c} == m - {c};
    } else {
      assert m' - {c} == m;
    }
  }

  /** The category counts add up to the number of entries. */
  lemma {:induction false} HistogramTotal(s: seq<KnowledgeEntry>)
    ensures MapSum(Histogram(s)) == |s|
    decreases |s|
  {
    if s != [] {
      HistogramTotal(s[..|s| - 1]);
      MapSumBump(Histogram(s[..|s| - 1]), CategoryLabel(s[|s| - 1]));
    }
  }

  /** At most this many entries are reported as most used. */
  const MostUsedLimit := 5

  /** `get_knowledge_summary`'s dict. */
  datatype Summary = Summary(totalEntries: int, totalUsage: int, categories: map<string, int>, mostUsed: seq<KnowledgeEntry>)

  /** The summary of a listing. */
  function Summarize(all: seq<KnowledgeEntry>): Summary {
    Summary(|all|, TotalUsage(all), Histogram(all), SliceTo(SortDesc(all, TimesUsed), MostUsedLimit))
  }

  /** The summary's figures: counts that add up, and at most five entries of the listing, most used first. */
  lemma SummaryFacts(all: seq<KnowledgeEntry>)
    ensures var s := Summarize(all);
            && s.totalEntries == |all|
            && MapSum(s.categories) == s.totalEntries
            && |s.mostUsed| <= MostUsedLimit
            && |s.mostUsed| == Min(MostUsedLimit, |all|)
            && multiset(s.mostUsed) <= multiset(all)
            && SortedDesc(s.mostUsed, TimesUsed)
            && (forall e :: e in s.mostUsed ==> e in all)
            && (forall e :: e in all && e !in s.mostUsed ==> forall f :: f in s.mostUsed ==> e.timesUsed <= f.timesUsed)
  {
    var top := SliceTo(SortDesc(all, TimesUsed), MostUsedLimit);
    HistogramTotal(all);
    SortedPrefixSize(all, TimesUsed, MostUsedLimit);
    SortedPrefixBest(all, TimesUsed, MostUsedLimit);
    forall e, f | e in all && e !in top && f in top
      ensures e.timesUsed <= f.timesUsed
    {
      assert TimesUsed(e) <= TimesUsed(f);
    }
  }

  // ---------------------------------------------------------------- service

  class KnowledgeService {
    /** The `knowledge_base` collection, by entry id. */
    var entries: map<string, KnowledgeEntry>

    /** Each entry is stored under its own id. */
    predicate Valid()
      reads this
    {
      forall id :: id in entries ==> entries[id].entryId == id
    }

    constructor()
      ensures entries == map[] && Valid()
    {
      entries := map[];
    }

    /**
     * `add_entry`: the supplied keywords, or else those extracted from
     * question and answer; then one store write. A failed write raises and
     * leaves the store as it was.
     */
    method AddEntry(data: KnowledgeCreate, entryId: string, now: Timestamp, complete: Completion, stored: bool)
      returns (r: Result<KnowledgeEntry>)
      requires Valid()
      modifies this
      ensures Valid()
      ensures var keywords := if data.keywords != [] then data.keywords
                              else ExtractKeywords(data.question + " " + data.answer, complete);
              var e := NewEntry(entryId, data.question, data.answer, data.category, keywords, data.sourceRequestId, now);
              if stored then r == Ok(e) && entries == old(entries)[entryId := e]
              else r == Raised(DatabaseError) && entries == old(entries)
    {
      var keywords;
      if data.keywords == [] {
        keywords := ExtractKeywords(data.question + " " + data.answer, complete);
      } else {
        keywords := data.keywords;
      }
      var e := NewEntry(entryId, data.question, data.answer, data.category, keywords, data.sourceRequestId, now);
      if !stored {
        return Raised(DatabaseError);
      }
      entries := entries[entryId := e];
      return Ok(e);
    }

    /**
     * `add_from_help_request`: the request's question and supervisor answer,
     * linked back to the request. A request without an answer fails
     * validation before anything is written.
     */
    method AddFromHelpRequest(request: HelpRequest, entryId: string, now: Timestamp, complete: Completion, stored: bool)
      returns (r: Result<KnowledgeEntry>)
      requires Valid()
      modifies this
      ensures Valid()
      ensures request.supervisorAnswer.None? ==> r == Raised(ValidationError) && entries == old(entries)
      ensures r.Ok? ==> && r.value.question == request.question
                        && Some(r.value.answer) == request.supervisorAnswer
                        && r.value.sourceRequestId == Some(request.requestId)
                        && r.value.category.None?
                        && entries == old(entries)[entryId := r.value]
      ensures request.supervisorAnswer.Some? ==>
                if stored then r == Ok(LearnedEntry(request, entryId, now, complete)) && entries == old(entries)[entryId := r.value]
                else r == Raised(DatabaseError) && entries == old(entries)
    {
      if request.supervisorAnswer.None? {
        return Raised(ValidationError);
      }
      var data := KnowledgeCreate(request.question, request.supervisorAnswer.value, None, [], Some(request.requestId));
      r := AddEntry(data, entryId, now, complete, stored);
    }

    /**
     * `get_all_knowledge`: every stored entry once, most recently used (or
     * created) first. `order` is the order the store listed them in, which
     * decides among equal timestamps.
     */
    method GetAllKnowledge() returns (all: seq<KnowledgeEntry>, ghost order: seq<string>)
      requires Valid()
      ensures IsOrdering(entries, order)
      ensures all == SortDesc(Values(entries, order), Recency)
      ensures SortedDesc(all, Recency)
      ensures multiset(all) == multiset(Values(entries, order)) && |all| == |entries|
    {
      var ks := Enumerate(entries);
      order := ks;
      var listing := Values(entries, ks);
      all := SortDesc(listing, Recency);
      SortDescSorted(listing, Recency);
      assert |all| == |multiset(all)| == |multiset(listing)| == |listing|;
    }

    /** `search_knowledge`: the ranking of the recency listing. */
    method SearchKnowledge(query: string, limit: int) returns (results: seq<KnowledgeEntry>, ghost order: seq<string>)
      requires Valid()
      ensures IsOrdering(entries, order)
      ensures results == Ranked(SortDesc(Values(entries, order), Recency), query, limit)
    {
      var all;
      all, order := GetAllKnowledge();
      results := RankEntries(all, query, limit);
    }

    /** `get_entry`. */
    function GetEntry(entryId: string): (e: Option<KnowledgeEntry>)
      reads this
      requires Valid()
      ensures e.Some? <==> entryId in entries
      ensures e.Some? ==> e.value == entries[entryId] && e.value.entryId == entryId
    {
      if entryId in entries then Some(entries[entryId]) else None
    }

    /**
     * `increment_usage`: an unknown id is `False` with nothing written;
     * otherwise one more use, stamped `now`, and the write's outcome.
     */
    method IncrementUsage(entryId: string, now: Timestamp, written: bool) returns (ok: bool)
      requires Valid()
      modifies this
      ensures Valid()
      ensures entryId !in old(entries) ==> !ok && entries == old(entries)
      ensures entryId in old(entries) ==>
                && ok == written
                && entries == if written then old(entries)[entryId := Used(old(entries)[entryId], now)] else old(entries)
    {
      var e := GetEntry(entryId);
      if e.None? {
        return false;
      }
      if written {
        entries := entries[entryId := Used(e.value, now)];
      }
      return written;
    }

    /** `get_knowledge_summary` over the recency listing. */
    method GetKnowledgeSummary() returns (summary: Summary, ghost order: seq<string>)
      requires Valid()
      ensures IsOrdering(entries, order)
      ensures summary == Summarize(SortDesc(Values(entries, order), Recency))
      ensures summary.totalEntries == |entries|
    {
      var all;
      all, order := GetAllKnowledge();
      var categories := CountCategories(all);
      summary := Summary(|all|, TotalUsage(all), categories, SliceTo(SortDesc(all, TimesUsed), MostUsedLimit));
    }
  }

  /** The entry `add_from_help_request` makes of an answered request. */
  function LearnedEntry(request: HelpRequest, entryId: string, now: Timestamp, complete: Completion): KnowledgeEntry
    requires request.supervisorAnswer.Some?
  {
    var answer := request.supervisorAnswer.value;
    NewEntry(entryId, request.question, answer, None, ExtractKeywords(request.question + " " + answer, complete),
             Some(request.requestId), now)
  }

  /** The fields `increment_usage` writes: one more use, last used and updated now. */
  function Used(e: KnowledgeEntry, now: Timestamp): (u: KnowledgeEntry)
    ensures u.timesUsed == e.timesUsed + 1 && u.lastUsedAt == Some(now) && u.updatedAt == now
    ensures u.(timesUsed := e.timesUsed, lastUsedAt := e.lastUsedAt, updatedAt := e.updatedAt) == e
  {
    e.(timesUsed := e.timesUsed + 1, lastUsedAt := Some(now), updatedAt := now)
  }
}
