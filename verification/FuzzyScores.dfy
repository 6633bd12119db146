/** How a match is scored: place by place, whatever the scan that finds the places keeps track of. Lower
    is better. */
module FuzzyScores {
  import opened FuzzyMatching

  /** The places increase within the text. */
  predicate ArePlaces(text: string, places: seq<nat>) {
    && (forall k :: 0 <= k < |places| ==> places[k] < |text|)
    && (forall j, k :: 0 <= j < k < |places| ==> places[j] < places[k])
  }

  predicate IsNeighbour(places: seq<nat>, k: nat)
    requires k < |places|
  {
    if k == 0 then places[0] == 0 else places[k] == places[k - 1] + 1
  }

  /** How many neighbours in a row end at this place. */
  function RunAt(places: seq<nat>, k: nat): (run: nat)
    requires k < |places|
    ensures run <= k + 1
    ensures run > 0 <==> IsNeighbour(places, k)
    ensures forall m :: 0 <= k - run < m <= k ==> IsNeighbour(places, m)
    ensures run <= k ==> !IsNeighbour(places, k - run)
  {
    if !IsNeighbour(places, k) then 0 else if k == 0 then 1 else RunAt(places, k - 1) + 1
  }

  /** What is skipped between this place and the one before. */
  function GapAt(places: seq<nat>, k: nat): int
    requires k < |places|
  {
    if k == 0 then 0
    else
      var here: int, before: int := places[k], places[k - 1];
      here - before - 1
  }

  /** What one place adds: runs and word boundaries are rewarded, gaps and late places are not. */
  function TermAt(text: string, places: seq<nat>, k: nat): real
    requires ArePlaces(text, places) && k < |places|
  {
    0.1 * places[k] as real + 2.0 * GapAt(places, k) as real - 5.0 * RunAt(places, k) as real
    - if IsBoundary(text, places[k]) then 10.0 else 0.0
  }

  function SumTo(text: string, places: seq<nat>, n: nat): real
    requires ArePlaces(text, places) && n <= |places|
  {
    if n == 0 then 0.0 else SumTo(text, places, n - 1) + TermAt(text, places, n - 1)
  }

  lemma SumNext(text: string, places: seq<nat>, n: nat)
    requires ArePlaces(text, places) && 0 < n <= |places|
    ensures SumTo(text, places, n) == SumTo(text, places, n - 1) + TermAt(text, places, n - 1)
  {
  }

  /** The score of a match is the sum over its places. */
  lemma {:induction false} ScoreIsSum(text: string, places: seq<nat>, n: nat)
    requires ArePlaces(text, places) && n <= |places|
    ensures ScoreOf(text, places[..n]).0 == SumTo(text, places, n)
    ensures n > 0 ==> ScoreOf(text, places[..n]).1 == RunAt(places, n - 1)
  {
    if n > 0 {
      ScoreIsSum(text, places, n - 1);
      var front := places[..n - 1];
      assert places[..n][..n - 1] == front;
      ScoreNext(text, front, places[n - 1]);
      assert places[..n] == front + [places[n - 1]];
    }
  }

  /** The places of a query in itself. */
  function Everywhere(n: nat): (r: seq<nat>)
    ensures |r| == n && forall k :: 0 <= k < n ==> r[k] == k
  {
    seq(n, k requires 0 <= k < n => k)
  }

  lemma EverywhereEmbeds(query: string)
    ensures Leftmost(query, query, Everywhere(|query|))
  {
    forall other, k | Embeds(query, query, other) && 0 <= k < |query|
      ensures k <= other[k]
    {
      PlacesGrow(query, query, other, k);
    }
  }

  /** At each of its places a match in a text scores no better than the query does in itself. */
  lemma TermIsNoBetter(query: string, text: string, places: seq<nat>, k: nat)
    requires Embeds(query, text, places) && k < |query|
    ensures TermAt(query, Everywhere(|query|), k) <= TermAt(text, places, k)
  {
    PlacesGrow(query, text, places, k);
    ExactRun(|query|, k);
    if k > 0 && IsNeighbour(places, k) {
      assert text[places[k] - 1] == query[k - 1];
    }
  }

  lemma {:induction false} ExactRun(n: nat, k: nat)
    requires k < n
    ensures RunAt(Everywhere(n), k) == k + 1 && GapAt(Everywhere(n), k) == 0
  {
    if k > 0 {
      ExactRun(n, k - 1);
    }
  }

  lemma {:induction false} SumIsNoBetter(query: string, text: string, places: seq<nat>, n: nat)
    requires Embeds(query, text, places) && n <= |query|
    ensures SumTo(query, Everywhere(|query|), n) <= SumTo(text, places, n)
  {
    if n > 0 {
      SumIsNoBetter(query, text, places, n - 1);
      TermIsNoBetter(query, text, places, n - 1);
      SumNext(query, Everywhere(|query|), n);
      SumNext(text, places, n);
    }
  }

  lemma WholeScore(text: string, places: seq<nat>)
    requires ArePlaces(text, places)
    ensures ScoreOf(text, places).0 == SumTo(text, places, |places|)
  {
    ScoreIsSum(text, places, |places|);
    assert places[..|places|] == places;
  }

  lemma MatchScore(form: string, text: string, places: seq<nat>)
    requires form != [] && Embeds(form, text, places)
    ensures FinalScore(form, text, places) ==
            if form == text then SumTo(text, places, |places|) - 100.0 else SumTo(text, places, |places|)
  {
    WholeScore(text, places);
    FinalScoreOf(form, text, places);
  }

  lemma ExactScore(query: string, exact: real)
    requires query != [] && FormScores(query, query, exact)
    ensures exact == SumTo(query, Everywhere(|query|), |query|) - 100.0
  {
    var places :| Leftmost(query, query, places) && exact == FinalScore(query, query, places);
    EverywhereEmbeds(query);
    LeftmostIsUnique(query, query, places, Everywhere(|query|));
    MatchScore(query, query, places);
  }

  /** An exact match is the best: any other text that a query matches scores worse by at least 100. */
  lemma ExactMatchIsBest(query: string, text: string, exact: real, other: real)
    requires query != [] && text != query
    requires FormScores(query, query, exact) && FormScores(query, text, other)
    ensures exact + 100.0 <= other
  {
    var places :| Leftmost(query, text, places) && other == FinalScore(query, text, places);
    ExactScore(query, exact);
    MatchScore(query, text, places);
    SumIsNoBetter(query, text, places, |query|);
  }

  /** A query that matches only with its letters and digits swapped scores 5 worse than the swapped query
      itself. */
  lemma SwappedScoresWorse(lower: string -> string, query: string, text: string, score: real)
    requires !IsSubsequence(lower(query), lower(text)) && Matches(lower, query, text)
    ensures Scores(lower, query, text, score) <==> FormScores(Swapped(lower(query)).value, lower(text), score - 5.0)
  {
  }
}
