/** Fuzzy matching: one greedy scan of the text decides whether the query's characters appear in it in
    order, and scores the places where they do. */
module FuzzyMatching {
  import opened Wrappers
  import opened Whitespace

  datatype FuzzyMatch = FuzzyMatch(matches: bool, score: real)

  // ---- Subsequences ----

  /** `places` are the places of the query's characters in the text, in order. */
  predicate Embeds(query: string, text: string, places: seq<nat>) {
    && |places| == |query|
    && (forall k :: 0 <= k < |places| ==> places[k] < |text| && text[places[k]] == query[k])
    && (forall j, k :: 0 <= j < k < |places| ==> places[j] < places[k])
  }

  ghost predicate IsSubsequence(query: string, text: string) {
    exists places :: Embeds(query, text, places)
  }

  /** The first places possible: in any other embedding each character stands there or later. */
  ghost predicate Leftmost(query: string, text: string, places: seq<nat>) {
    && Embeds(query, text, places)
    && forall other :: Embeds(query, text, other) ==> forall k :: 0 <= k < |places| ==> places[k] <= other[k]
  }

  /** The first `n` characters do not fit into the first `i` of the text. */
  ghost predicate NoFit(query: string, text: string, n: nat, i: nat)
    requires 0 < n <= |query|
  {
    forall places :: Embeds(query[..n], text, places) ==> i <= places[n - 1]
  }

  lemma EmbedsPrefix(query: string, text: string, places: seq<nat>, n: nat)
    requires Embeds(query, text, places) && n <= |query|
    ensures Embeds(query[..n], text, places[..n])
  {
  }

  /** The greedy scan has read `i` characters: each place found is the first one possible, and the
      next character of the query has not been passed. */
  ghost predicate Scanned(query: string, text: string, places: seq<nat>, i: nat) {
    && i <= |text| && |places| <= |query|
    && Embeds(query[..|places|], text, places) && (places != [] ==> places[|places| - 1] < i)
    && (|places| < |query| ==> NoFit(query, text, |places| + 1, i))
    && (forall k :: 0 <= k < |places| ==> NoFit(query, text, k + 1, places[k]))
  }

  lemma ScanStarts(query: string, text: string)
    ensures Scanned(query, text, [], 0)
  {
  }

  lemma ScanFinds(query: string, text: string, places: seq<nat>, i: nat)
    requires Scanned(query, text, places, i) && |places| < |query| && i < |text| && text[i] == query[|places|]
    ensures Scanned(query, text, places + [i], i + 1)
  {
    var n := |places|;
    if n + 1 < |query| {
      var longer := query[..n + 2];
      forall other | Embeds(longer, text, other)
        ensures i + 1 <= other[n + 1]
      {
        EmbedsPrefix(longer, text, other, n + 1);
        assert longer[..n + 1] == query[..n + 1];
        assert other[..n + 1][n] == other[n];
      }
    }
  }

  lemma ScanPasses(query: string, text: string, places: seq<nat>, i: nat)
    requires Scanned(query, text, places, i) && |places| < |query| && i < |text| && text[i] != query[|places|]
    ensures Scanned(query, text, places, i + 1)
  {
    var n := |places|;
    forall other | Embeds(query[..n + 1], text, other)
      ensures i + 1 <= other[n]
    {
      assert text[other[n]] == query[n];
    }
  }

  lemma ScanEnds(query: string, text: string, places: seq<nat>, i: nat)
    requires Scanned(query, text, places, i)
    ensures |places| == |query| ==> Leftmost(query, text, places)
    ensures |places| < |query| && i == |text| ==> !IsSubsequence(query, text)
  {
    if |places| == |query| {
      assert query[..|places|] == query;
      EarliestIsLeftmost(query, text, places);
    } else if i == |text| {
      NeverFits(query, text, |places|);
    }
  }

  lemma NeverFits(query: string, text: string, n: nat)
    requires n < |query| && NoFit(query, text, n + 1, |text|)
    ensures !IsSubsequence(query, text)
  {
    forall places
      ensures !Embeds(query, text, places)
    {
      if Embeds(query, text, places) {
        EmbedsPrefix(query, text, places, n + 1);
      }
    }
  }

  lemma EarliestIsLeftmost(query: string, text: string, places: seq<nat>)
    requires Embeds(query, text, places)
    requires forall k :: 0 <= k < |query| ==> NoFit(query, text, k + 1, places[k])
    ensures Leftmost(query, text, places)
  {
    forall other, k | Embeds(query, text, other) && 0 <= k < |places|
      ensures places[k] <= other[k]
    {
      EmbedsPrefix(query, text, other, k + 1);
      assert NoFit(query, text, k + 1, places[k]);
      assert other[..k + 1][k] == other[k];
    }
  }

  lemma {:induction false} PlacesGrow(query: string, text: string, places: seq<nat>, k: nat)
    requires Embeds(query, text, places) && k < |places|
    ensures k <= places[k]
  {
    if k > 0 {
      PlacesGrow(query, text, places, k - 1);
    }
  }

  lemma TooLong(query: string, text: string)
    requires |query| > |text|
    ensures !IsSubsequence(query, text)
  {
    forall places
      ensures !Embeds(query, text, places)
    {
      if Embeds(query, text, places) {
        PlacesGrow(query, text, places, |query| - 1);
      }
    }
  }

  // ---- Scores ----

  predicate IsMark(c: char) {
    c == '-' || c == '_' || c == '.' || c == '/' || c == ':'
  }

  predicate IsBoundary(text: string, i: nat)
    requires i <= |text|
  {
    i == 0 || IsSpace(text[i - 1]) || IsMark(text[i - 1])
  }

  /** The score once a character is found at `i`, the one before it at `last`, and the length of the
      run of neighbours it ends. */
  function Placed(text: string, last: int, i: nat, score: real, run: int): (real, int)
    requires i < |text| && -1 <= last < i
  {
    var run' := if last == i - 1 then run + 1 else 0;
    var gap := if last < 0 || last == i - 1 then 0 else (i - last - 1) * 2;
    var boundary := if IsBoundary(text, i) then 10.0 else 0.0;
    (score - (run' * 5) as real + gap as real - boundary + i as real * 0.1, run')
  }

  /** The score of a match in these places, and the length of the run it ends with. */
  function ScoreOf(text: string, places: seq<nat>): (real, int)
    requires forall k :: 0 <= k < |places| ==> places[k] < |text|
    requires forall j, k :: 0 <= j < k < |places| ==> places[j] < places[k]
  {
    if places == [] then (0.0, 0)
    else
      var n := |places| - 1;
      var (score, run) := ScoreOf(text, places[..n]);
      Placed(text, if n == 0 then -1 else places[n - 1], places[n], score, run)
  }

  /** A query that is the whole text scores best. */
  function FinalScore(form: string, text: string, places: seq<nat>): real
    requires Embeds(form, text, places)
  {
    ScoreOf(text, places).0 - if form != [] && form == text then 100.0 else 0.0
  }

  lemma ScoreNext(text: string, places: seq<nat>, i: nat)
    requires forall k :: 0 <= k < |places| ==> places[k] < i < |text|
    requires forall j, k :: 0 <= j < k < |places| ==> places[j] < places[k]
    requires i < |text|
    ensures var (score, run) := ScoreOf(text, places);
            ScoreOf(text, places + [i]) ==
            Placed(text, if places == [] then -1 else places[|places| - 1], i, score, run)
  {
    assert (places + [i])[..|places|] == places;
  }

  method Place(text: string, last: int, i: nat, score: real, run: int) returns (score': real, run': int)
    requires i < |text| && -1 <= last < i
    ensures (score', run') == Placed(text, last, i, score, run)
  {
    score', run' := score, run;
    if last == i - 1 {
      run' := run' + 1;
      score' := score' - (run' * 5) as real;
    } else {
      run' := 0;
      if last >= 0 {
        score' := score' + ((i - last - 1) * 2) as real;
      }
    }
    if IsBoundary(text, i) {
      score' := score' - 10.0;
    }
    score' := score' + i as real * 0.1;
  }

  /** The greedy scan, up to the end of the text or of the query. */
  method Scan(query: string, text: string) returns (queryIndex: nat, score: real, ghost places: seq<nat>)
    ensures queryIndex == |places| <= |query|
    ensures queryIndex == |query| ==> Leftmost(query, text, places) && score == ScoreOf(text, places).0
    ensures queryIndex == |query| <==> IsSubsequence(query, text)
  {
    queryIndex, score, places := 0, 0.0, [];
    var lastMatchIndex, consecutiveMatches := -1, 0;
    var i := 0;
    ScanStarts(query, text);
    while i < |text| && queryIndex < |query|
      invariant Scanned(query, text, places, i) && queryIndex == |places|
      invariant lastMatchIndex == if places == [] then -1 else places[|places| - 1]
      invariant (score, consecutiveMatches) == ScoreOf(text, places)
    {
      if text[i] == query[queryIndex] {
        ScanFinds(query, text, places, i);
        ScoreNext(text, places, i);
        score, consecutiveMatches := Place(text, lastMatchIndex, i, score, consecutiveMatches);
        places := places + [i];
        lastMatchIndex, queryIndex := i, queryIndex + 1;
      } else {
        ScanPasses(query, text, places, i);
      }
      i := i + 1;
    }
    ScanEnds(query, text, places, i);
  }

  lemma EmptyMatches(query: string, text: string, places: seq<nat>)
    requires query == [] && places == []
    ensures Leftmost(query, text, places) && IsSubsequence(query, text) && FinalScore(query, text, places) == 0.0
  {
    assert Embeds(query, text, places);
  }

  /** A query matches exactly when it is a subsequence of the text; the leftmost places are scored,
      and a query that is the whole text scores best. */
  method MatchQuery(query: string, text: string) returns (r: FuzzyMatch, ghost places: seq<nat>)
    ensures r.matches <==> IsSubsequence(query, text)
    ensures !r.matches ==> r.score == 0.0
    ensures r.matches ==> Leftmost(query, text, places) && r.score == FinalScore(query, text, places)
  {
    places := [];
    if |query| == 0 {
      EmptyMatches(query, text, places);
      return FuzzyMatch(true, 0.0), places;
    }
    if |query| > |text| {
      TooLong(query, text);
      return FuzzyMatch(false, 0.0), places;
    }
    r, places := MatchPlaces(query, text);
  }

  method MatchPlaces(query: string, text: string) returns (r: FuzzyMatch, ghost places: seq<nat>)
    requires query != []
    ensures r.matches <==> IsSubsequence(query, text)
    ensures !r.matches ==> r.score == 0.0
    ensures r.matches ==> Leftmost(query, text, places) && r.score == FinalScore(query, text, places)
  {
    var queryIndex, score;
    queryIndex, score, places := Scan(query, text);
    if queryIndex < |query| {
      return FuzzyMatch(false, 0.0), places;
    }
    FinalScoreOf(query, text, places);
    if query == text {
      score := score - 100.0;
    }
    r := FuzzyMatch(true, score);
  }

  lemma FinalScoreOf(query: string, text: string, places: seq<nat>)
    requires query != [] && Embeds(query, text, places)
    ensures FinalScore(query, text, places) ==
            if query == text then ScoreOf(text, places).0 - 100.0 else ScoreOf(text, places).0
  {
  }

  // ---- Swapped letters and digits ----

  predicate AllLetters(s: string) {
    |s| > 0 && forall i :: 0 <= i < |s| ==> 'a' <= s[i] <= 'z'
  }

  predicate AllDigits(s: string) {
    |s| > 0 && forall i :: 0 <= i < |s| ==> '0' <= s[i] <= '9'
  }

  /** The query is letters then digits, or digits then letters, cut at `k`. */
  predicate CutsAt(query: string, k: nat) {
    k <= |query| &&
    ((AllLetters(query[..k]) && AllDigits(query[k..])) || (AllDigits(query[..k]) && AllLetters(query[k..])))
  }

  /** How far the kind of the first character reaches. */
  function FirstRun(query: string): (k: nat)
    ensures k <= |query|
    ensures query != [] && 'a' <= query[0] <= 'z' ==> AllLetters(query[..k])
    ensures query != [] && '0' <= query[0] <= '9' ==> AllDigits(query[..k])
    ensures query != [] && 'a' <= query[0] <= 'z' && k < |query| ==> !('a' <= query[k] <= 'z')
    ensures query != [] && '0' <= query[0] <= '9' && k < |query| ==> !('0' <= query[k] <= '9')
  {
    RunFrom(query, 0)
  }

  function RunFrom(query: string, k: nat): (n: nat)
    requires k <= |query|
    requires k > 0 ==> forall i :: 0 <= i < k ==> SameKind(query[0], query[i])
    ensures n <= |query| && forall i :: 0 <= i < n ==> SameKind(query[0], query[i])
    ensures n < |query| ==> !SameKind(query[0], query[n])
    ensures |query| > 0 && (('a' <= query[0] <= 'z') || ('0' <= query[0] <= '9')) ==> n > 0
    decreases |query| - k
  {
    if k < |query| && SameKind(query[0], query[k]) then RunFrom(query, k + 1) else k
  }

  predicate SameKind(a: char, b: char) {
    ('a' <= a <= 'z' && 'a' <= b <= 'z') || ('0' <= a <= '9' && '0' <= b <= '9')
  }

  lemma CutIsFirstRun(query: string, k: nat)
    requires CutsAt(query, k)
    ensures k == FirstRun(query)
  {
    assert forall i :: 0 <= i < k ==> query[..k][i] == query[i];
    assert query[k..][0] == query[k];
    var n := FirstRun(query);
    assert forall i :: 0 <= i < n ==> query[..n][i] == query[i];
  }

  lemma CutsAreFirstRun(query: string)
    ensures forall k: nat :: CutsAt(query, k) ==> k == FirstRun(query)
  {
    forall k: nat | CutsAt(query, k) ensures k == FirstRun(query) {
      CutIsFirstRun(query, k);
    }
  }

  /** The query with its letters and digits swapped, when it has that form. */
  function Swapped(query: string): (s: Option<string>)
    ensures s.Some? <==> exists k: nat :: CutsAt(query, k)
    ensures forall k: nat :: CutsAt(query, k) ==> s == Some(query[k..] + query[..k])
  {
    var k := FirstRun(query);
    CutsAreFirstRun(query);
    if CutsAt(query, k) then Some(query[k..] + query[..k]) else None
  }

  ghost predicate Matches(lower: string -> string, query: string, text: string) {
    || IsSubsequence(lower(query), lower(text))
    || (Swapped(lower(query)).Some? && IsSubsequence(Swapped(lower(query)).value, lower(text)))
  }

  /** The score of a match of this form of the query in its leftmost places. */
  ghost predicate FormScores(form: string, text: string, score: real) {
    exists places :: Leftmost(form, text, places) && score == FinalScore(form, text, places)
  }

  /** The query as it is goes first; the swapped form scores a little worse. */
  ghost predicate Scores(lower: string -> string, query: string, text: string, score: real)
    requires Matches(lower, query, text)
  {
    if IsSubsequence(lower(query), lower(text)) then FormScores(lower(query), lower(text), score)
    else FormScores(Swapped(lower(query)).value, lower(text), score - 5.0)
  }

  lemma LeftmostIsUnique(query: string, text: string, a: seq<nat>, b: seq<nat>)
    requires Leftmost(query, text, a) && Leftmost(query, text, b)
    ensures a == b
  {
    assert forall k :: 0 <= k < |a| ==> a[k] <= b[k] && b[k] <= a[k];
  }

  /** A match has exactly one score. */
  lemma ScoreIsUnique(lower: string -> string, query: string, text: string, a: real, b: real)
    requires Matches(lower, query, text) && Scores(lower, query, text, a) && Scores(lower, query, text, b)
    ensures a == b
  {
    var plain := IsSubsequence(lower(query), lower(text));
    var form := if plain then lower(query) else Swapped(lower(query)).value;
    FormScoreIsUnique(form, lower(text), if plain then a else a - 5.0, if plain then b else b - 5.0);
  }

  lemma FormScoreIsUnique(form: string, text: string, a: real, b: real)
    requires FormScores(form, text, a) && FormScores(form, text, b)
    ensures a == b
  {
    var p :| Leftmost(form, text, p) && a == FinalScore(form, text, p);
    var q :| Leftmost(form, text, q) && b == FinalScore(form, text, q);
    LeftmostIsUnique(form, text, p, q);
    assert p == q;
  }

  /** Matching is complete: it succeeds exactly when the lower-cased query, or its swapped form, is a
      subsequence of the lower-cased text. */
  method Match(lower: string -> string, query: string, text: string) returns (r: FuzzyMatch)
    ensures r.matches <==> Matches(lower, query, text)
    ensures !r.matches ==> r.score == 0.0
    ensures r.matches ==> Scores(lower, query, text, r.score)
  {
    var queryLower, textLower := lower(query), lower(text);
    ghost var places;
    var primaryMatch;
    primaryMatch, places := MatchQuery(queryLower, textLower);
    if primaryMatch.matches {
      return primaryMatch;
    }
    var swappedQuery := Swapped(queryLower);
    if swappedQuery.None? {
      return primaryMatch;
    }
    var swappedMatch;
    swappedMatch, places := MatchQuery(swappedQuery.value, textLower);
    if !swappedMatch.matches {
      return primaryMatch;
    }
    r := FuzzyMatch(true, swappedMatch.score + 5.0);
  }
}
