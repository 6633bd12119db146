/** Filtering a list by a query of several tokens, best matches first. */
module FuzzyFilter {
  import opened Whitespace
  import opened FuzzyMatching

  // ---- Tokens ----

  predicate IsSeparator(c: char) {
    IsSpace(c) || c == '/'
  }

  /** The text cut at every separator. */
  function Pieces(s: string): (r: seq<string>)
    ensures |r| > 0
  {
    if s == [] then [[]]
    else
      var n := |s| - 1;
      var front := Pieces(s[..n]);
      if IsSeparator(s[n]) then front + [[]]
      else front[..|front| - 1] + [front[|front| - 1] + [s[n]]]
  }

  function NonEmpty(pieces: seq<string>): seq<string> {
    if pieces == [] then []
    else
      var n := |pieces| - 1;
      NonEmpty(pieces[..n]) + if pieces[n] == [] then [] else [pieces[n]]
  }

  function Tokens(query: string): seq<string> {
    NonEmpty(Pieces(query))
  }

  function Joined(pieces: seq<string>): string {
    if pieces == [] then [] else Joined(pieces[..|pieces| - 1]) + pieces[|pieces| - 1]
  }

  function WithoutSeparators(s: string): string {
    if s == [] then []
    else WithoutSeparators(s[..|s| - 1]) + if IsSeparator(s[|s| - 1]) then [] else [s[|s| - 1]]
  }

  predicate IsToken(s: string) {
    s != [] && forall i :: 0 <= i < |s| ==> !IsSeparator(s[i])
  }

  lemma Regroup(a: string, b: string, c: string)
    ensures a + (b + c) == (a + b) + c
  {
  }

  lemma {:induction false} PiecesJoin(s: string)
    ensures Joined(Pieces(s)) == WithoutSeparators(s)
    ensures forall k :: 0 <= k < |Pieces(s)| ==> Pieces(s)[k] == [] || IsToken(Pieces(s)[k])
  {
    if s != [] {
      var n := |s| - 1;
      PiecesJoin(s[..n]);
      var front, all := Pieces(s[..n]), Pieces(s);
      if IsSeparator(s[n]) {
        assert all == front + [[]] && all[..|all| - 1] == front;
      } else {
        var open := front[|front| - 1];
        assert all == front[..|front| - 1] + [open + [s[n]]];
        assert all[..|all| - 1] == front[..|front| - 1];
        Regroup(Joined(front[..|front| - 1]), open, [s[n]]);
      }
    }
  }

  lemma {:induction false} NonEmptyJoin(pieces: seq<string>)
    requires forall k :: 0 <= k < |pieces| ==> pieces[k] == [] || IsToken(pieces[k])
    ensures Joined(NonEmpty(pieces)) == Joined(pieces)
    ensures forall k :: 0 <= k < |NonEmpty(pieces)| ==> IsToken(NonEmpty(pieces)[k])
  {
    if pieces != [] {
      var n := |pieces| - 1;
      NonEmptyJoin(pieces[..n]);
      var all := NonEmpty(pieces);
      if pieces[n] != [] {
        assert all[..|all| - 1] == NonEmpty(pieces[..n]);
      } else {
        assert all == NonEmpty(pieces[..n]);
        assert Joined(pieces) == Joined(pieces[..n]);
      }
    }
  }

  /** The tokens are free of separators, not empty, and together all the rest of the query. */
  lemma TokensAreTheQuery(query: string)
    ensures Joined(Tokens(query)) == WithoutSeparators(query)
    ensures forall k :: 0 <= k < |Tokens(query)| ==> IsToken(Tokens(query)[k])
  {
    PiecesJoin(query);
    NonEmptyJoin(Pieces(query));
  }

  lemma {:induction false} PiecesCut(a: string, c: char, b: string)
    requires IsSeparator(c)
    ensures Pieces(a + [c] + b) == Pieces(a) + Pieces(b)
    decreases |b|
  {
    if b == [] {
      PiecesNext(a, c);
      assert a + [c] + [] == a + [c];
    } else {
      var n := |b| - 1;
      PiecesCut(a, c, b[..n]);
      PiecesNext(a + [c] + b[..n], b[n]);
      PiecesNext(b[..n], b[n]);
      LastOf(a + [c], b);
      ExtendLast(Pieces(a), Pieces(b[..n]), b[n]);
    }
  }

  lemma LastOf(a: string, b: string)
    requires b != []
    ensures var n := |b| - 1;
            a + b == (a + b[..n]) + [b[n]] && b == b[..n] + [b[n]]
  {
  }

  function NextPieces(front: seq<string>, c: char): seq<string>
    requires front != []
  {
    if IsSeparator(c) then front + [[]] else front[..|front| - 1] + [front[|front| - 1] + [c]]
  }

  lemma PiecesNext(s: string, c: char)
    ensures Pieces(s + [c]) == NextPieces(Pieces(s), c)
  {
    assert (s + [c])[..|s|] == s;
  }

  lemma ExtendLast(a: seq<string>, b: seq<string>, c: char)
    requires b != []
    ensures NextPieces(a + b, c) == a + NextPieces(b, c)
  {
  }

  lemma {:induction false} NonEmptyAppend(a: seq<string>, b: seq<string>)
    ensures NonEmpty(a + b) == NonEmpty(a) + NonEmpty(b)
    decreases |b|
  {
    if b == [] {
      assert a + b == a;
    } else {
      assert (a + b)[..|a + b| - 1] == a + b[..|b| - 1];
      NonEmptyAppend(a, b[..|b| - 1]);
    }
  }

  /** A separator cuts the query in two. */
  lemma TokensCut(a: string, c: char, b: string)
    requires IsSeparator(c)
    ensures Tokens(a + [c] + b) == Tokens(a) + Tokens(b)
  {
    PiecesCut(a, c, b);
    NonEmptyAppend(Pieces(a), Pieces(b));
  }

  predicate NoSeparator(s: string) {
    forall i :: 0 <= i < |s| ==> !IsSeparator(s[i])
  }

  /** Text without separators is not cut, and nothing is made of no text. */
  lemma {:induction false} TokensWhole(s: string)
    requires NoSeparator(s)
    ensures Pieces(s) == [s] && Tokens(s) == if s == [] then [] else [s]
  {
    if s != [] {
      var n := |s| - 1;
      TokensWhole(s[..n]);
      assert s == s[..n] + [s[n]];
    }
    assert [s][..0] == [] && NonEmpty([s]) == NonEmpty([]) + if s == [] then [] else [s];
  }

  /** These laws leave no choice: the tokens are all the maximal stretches without separators. */
  ghost predicate CutsQueries(cut: string -> seq<string>) {
    && (forall s :: NoSeparator(s) ==> cut(s) == if s == [] then [] else [s])
    && (forall a, c, b :: IsSeparator(c) ==> CutsAtSeparator(cut, a, c, b))
  }

  predicate CutsAtSeparator(cut: string -> seq<string>, a: string, c: char, b: string) {
    cut(a + [c] + b) == cut(a) + cut(b)
  }

  lemma {:induction false} TokensAreUnique(cut: string -> seq<string>, s: string)
    requires CutsQueries(cut)
    ensures cut(s) == Tokens(s)
    decreases |s|
  {
    if i :| 0 <= i < |s| && IsSeparator(s[i]) {
      var a, b := s[..i], s[i + 1..];
      TokensAreUnique(cut, a);
      TokensAreUnique(cut, b);
      TokensCut(a, s[i], b);
      assert s == a + [s[i]] + b && CutsAtSeparator(cut, a, s[i], b);
    } else {
      TokensWhole(s);
    }
  }

  lemma {:induction false} TrimStartKeepsTokens(s: string)
    ensures Tokens(TrimStart(s)) == Tokens(s)
  {
    if s != [] && IsSpace(s[0]) {
      TrimStartKeepsTokens(s[1..]);
      TokensCut([], s[0], s[1..]);
      TokensWhole([]);
      assert s == [] + [s[0]] + s[1..];
    }
  }

  lemma {:induction false} TrimEndKeepsTokens(s: string)
    ensures Tokens(TrimEnd(s)) == Tokens(s)
  {
    if s != [] && IsSpace(s[|s| - 1]) {
      var n := |s| - 1;
      TrimEndKeepsTokens(s[..n]);
      TokensCut(s[..n], s[n], []);
      TokensWhole([]);
      assert s == s[..n] + [s[n]] + [];
    }
  }

  /** White space around the query makes no difference. */
  lemma TrimKeepsTokens(query: string)
    ensures Tokens(Trim(query)) == Tokens(query)
  {
    TrimStartKeepsTokens(query);
    TrimEndKeepsTokens(TrimStart(query));
  }

  // ---- Totals ----

  ghost predicate AllMatch(lower: string -> string, tokens: seq<string>, text: string) {
    forall k :: 0 <= k < |tokens| ==> Matches(lower, tokens[k], text)
  }

  function Sum(scores: seq<real>): real {
    if scores == [] then 0.0 else Sum(scores[..|scores| - 1]) + scores[|scores| - 1]
  }

  ghost predicate EachScores(lower: string -> string, tokens: seq<string>, text: string, scores: seq<real>) {
    && |scores| == |tokens|
    && forall k :: 0 <= k < |tokens| ==>
         Matches(lower, tokens[k], text) && Scores(lower, tokens[k], text, scores[k])
  }

  /** The scores of all tokens add up to this total. */
  ghost predicate Totals(lower: string -> string, tokens: seq<string>, text: string, total: real) {
    exists scores :: EachScores(lower, tokens, text, scores) && Sum(scores) == total
  }

  /** A text that every token matches has exactly one total. */
  lemma TotalIsUnique(lower: string -> string, tokens: seq<string>, text: string, a: real, b: real)
    requires Totals(lower, tokens, text, a) && Totals(lower, tokens, text, b)
    ensures a == b
  {
    var s :| EachScores(lower, tokens, text, s) && Sum(s) == a;
    var t :| EachScores(lower, tokens, text, t) && Sum(t) == b;
    forall k | 0 <= k < |tokens| ensures s[k] == t[k] {
      ScoreIsUnique(lower, tokens[k], text, s[k], t[k]);
    }
    assert s == t;
  }

  lemma {:induction false} SumAppend(a: seq<real>, b: seq<real>)
    ensures Sum(a + b) == Sum(a) + Sum(b)
    decreases |b|
  {
    if b == [] {
      assert a + b == a;
    } else {
      assert (a + b)[..|a + b| - 1] == a + b[..|b| - 1];
      SumAppend(a, b[..|b| - 1]);
    }
  }

  /** The total of one token is its score, and totals of tokens add up. */
  lemma TotalsAdd(lower: string -> string, a: seq<string>, b: seq<string>, text: string, total: real, more: real)
    requires Totals(lower, a, text, total) && Totals(lower, b, text, more)
    ensures Totals(lower, a + b, text, total + more)
  {
    var s :| EachScores(lower, a, text, s) && Sum(s) == total;
    var t :| EachScores(lower, b, text, t) && Sum(t) == more;
    SumAppend(s, t);
    assert EachScores(lower, a + b, text, s + t);
  }

  lemma TotalOfOne(lower: string -> string, token: string, text: string, score: real)
    requires Matches(lower, token, text) && Scores(lower, token, text, score)
    ensures Totals(lower, [token], text, score)
  {
    assert EachScores(lower, [token], text, [score]);
    assert Sum([score]) == Sum([]) + score;
  }

  lemma OneMoreScores(lower: string -> string, tokens: seq<string>, text: string, scores: seq<real>, i: nat, score: real)
    requires i < |tokens| && EachScores(lower, tokens[..i], text, scores)
    requires Matches(lower, tokens[i], text) && Scores(lower, tokens[i], text, score)
    ensures EachScores(lower, tokens[..i + 1], text, scores + [score]) && Sum(scores + [score]) == Sum(scores) + score
  {
    assert (scores + [score])[..i] == scores;
    var next := tokens[..i + 1];
    forall k | 0 <= k < i + 1
      ensures Matches(lower, next[k], text) && Scores(lower, next[k], text, (scores + [score])[k])
    {
      assert k < i ==> next[k] == tokens[..i][k];
    }
  }

  /** Match every token against one text. */
  method MatchTokens(lower: string -> string, tokens: seq<string>, text: string) returns (allMatch: bool, total: real)
    ensures allMatch <==> AllMatch(lower, tokens, text)
    ensures allMatch ==> Totals(lower, tokens, text, total)
  {
    total := 0.0;
    ghost var scores: seq<real> := [];
    for i := 0 to |tokens|
      invariant EachScores(lower, tokens[..i], text, scores) && Sum(scores) == total
    {
      var r := Match(lower, tokens[i], text);
      if !r.matches {
        return false, 0.0;
      }
      OneMoreScores(lower, tokens, text, scores, i, r.score);
      scores := scores + [r.score];
      total := total + r.score;
    }
    assert tokens[..|tokens|] == tokens;
    allMatch := true;
  }

  // ---- Ranking ----

  datatype Ranked<T> = Ranked(item: T, total: real)

  /** The items every token matches, in the order of the list. */
  ghost function Matching<T>(lower: string -> string, tokens: seq<string>, getText: T -> string, items: seq<T>): seq<T> {
    if items == [] then []
    else
      var n := |items| - 1;
      Matching(lower, tokens, getText, items[..n]) +
      if AllMatch(lower, tokens, getText(items[n])) then [items[n]] else []
  }

  function Items<T>(ranked: seq<Ranked<T>>): (r: seq<T>)
    ensures |r| == |ranked| && forall i :: 0 <= i < |r| ==> r[i] == ranked[i].item
  {
    seq(|ranked|, i requires 0 <= i < |ranked| => ranked[i].item)
  }

  lemma MatchingNext<T>(lower: string -> string, tokens: seq<string>, getText: T -> string, items: seq<T>, i: nat)
    requires i < |items|
    ensures Matching(lower, tokens, getText, items[..i + 1]) ==
            Matching(lower, tokens, getText, items[..i]) +
            if AllMatch(lower, tokens, getText(items[i])) then [items[i]] else []
  {
    assert items[..i + 1][..i] == items[..i];
  }

  lemma ItemsNext<T>(ranked: seq<Ranked<T>>, x: Ranked<T>)
    ensures Items(ranked + [x]) == Items(ranked) + [x.item]
  {
  }

  ghost predicate TotalsHold<T>(lower: string -> string, tokens: seq<string>, getText: T -> string, ranked: seq<Ranked<T>>) {
    forall i :: 0 <= i < |ranked| ==> Totals(lower, tokens, getText(ranked[i].item), ranked[i].total)
  }

  predicate Sorted<T>(ranked: seq<Ranked<T>>) {
    forall i, j :: 0 <= i < j < |ranked| ==> ranked[i].total <= ranked[j].total
  }

  /** The entries with this total, in order. */
  function OfTotal<T>(ranked: seq<Ranked<T>>, total: real): seq<Ranked<T>> {
    if ranked == [] then []
    else
      var n := |ranked| - 1;
      OfTotal(ranked[..n], total) + if ranked[n].total == total then [ranked[n]] else []
  }

  /** The same entries, those with equal totals in the same order. */
  ghost predicate Rearranged<T(!new)>(a: seq<Ranked<T>>, b: seq<Ranked<T>>) {
    multiset(a) == multiset(b) && forall total :: OfTotal(a, total) == OfTotal(b, total)
  }

  lemma {:induction false} OfTotalAppend<T>(a: seq<Ranked<T>>, b: seq<Ranked<T>>, total: real)
    ensures OfTotal(a + b, total) == OfTotal(a, total) + OfTotal(b, total)
    decreases |b|
  {
    if b == [] {
      assert a + b == a;
    } else {
      var n := |b| - 1;
      assert (a + b)[..|a + b| - 1] == a + b[..n];
      OfTotalAppend(a, b[..n], total);
    }
  }

  lemma {:induction false} NoneOfTotal<T>(a: seq<Ranked<T>>, total: real)
    requires forall i :: 0 <= i < |a| ==> a[i].total != total
    ensures OfTotal(a, total) == []
  {
    if a != [] {
      NoneOfTotal(a[..|a| - 1], total);
    }
  }

  /** Where an entry goes: after every entry that is not worse. */
  method Insert<T(!new)>(sorted: seq<Ranked<T>>, x: Ranked<T>) returns (r: seq<Ranked<T>>)
    requires Sorted(sorted)
    ensures Sorted(r) && Rearranged(r, sorted + [x])
  {
    var n: nat := |sorted|;
    while n > 0 && x.total < sorted[n - 1].total
      invariant n <= |sorted| && forall i :: n <= i < |sorted| ==> x.total < sorted[i].total
    {
      n := n - 1;
    }
    r := sorted[..n] + [x] + sorted[n..];
    InsertRearranges(sorted, x, n);
  }

  lemma InsertRearranges<T(!new)>(sorted: seq<Ranked<T>>, x: Ranked<T>, n: nat)
    requires n <= |sorted| && forall i :: n <= i < |sorted| ==> x.total < sorted[i].total
    ensures Rearranged(sorted[..n] + [x] + sorted[n..], sorted + [x])
  {
    var a, b := sorted[..n], sorted[n..];
    assert sorted == a + b;
    forall total
      ensures OfTotal(a + [x] + b, total) == OfTotal(a + b + [x], total)
    {
      InsertKeepsOrder(a, x, b, total);
    }
  }

  lemma InsertKeepsOrder<T>(a: seq<Ranked<T>>, x: Ranked<T>, b: seq<Ranked<T>>, total: real)
    requires forall i :: 0 <= i < |b| ==> x.total < b[i].total
    ensures OfTotal(a + [x] + b, total) == OfTotal(a + b + [x], total)
  {
    OfTotalAppend(a + [x], b, total);
    OfTotalAppend(a, [x], total);
    OfTotalAppend(a + b, [x], total);
    OfTotalAppend(a, b, total);
    if x.total == total {
      NoneOfTotal(b, total);
    } else {
      NoneOfTotal([x], total);
    }
  }

  /** A stable sort by total. */
  method SortByTotal<T(!new)>(found: seq<Ranked<T>>) returns (r: seq<Ranked<T>>)
    ensures Sorted(r) && Rearranged(r, found)
  {
    r := [];
    for i := 0 to |found|
      invariant Sorted(r) && Rearranged(r, found[..i])
    {
      var before := r;
      r := Insert(r, found[i]);
      assert found[..i + 1] == found[..i] + [found[i]];
      RearrangedAppend(before, found[..i], found[i]);
    }
    assert found[..|found|] == found;
  }

  lemma RearrangedAppend<T(!new)>(a: seq<Ranked<T>>, b: seq<Ranked<T>>, x: Ranked<T>)
    requires Rearranged(a, b)
    ensures Rearranged(a + [x], b + [x])
  {
    forall total
      ensures OfTotal(a + [x], total) == OfTotal(b + [x], total)
    {
      OfTotalAppend(a, [x], total);
      OfTotalAppend(b, [x], total);
    }
  }

  /** With no token in the query every item is kept; otherwise exactly the items that every token
      matches are kept, sorted by their totals, those with equal totals in the order of the list. */
  method Filter<T(!new)>(lower: string -> string, items: seq<T>, query: string, getText: T -> string)
    returns (r: seq<T>, ghost found: seq<Ranked<T>>, ghost ranked: seq<Ranked<T>>)
    ensures Tokens(query) == [] ==> r == items
    ensures Tokens(query) != [] ==>
              && Items(found) == Matching(lower, Tokens(query), getText, items)
              && TotalsHold(lower, Tokens(query), getText, found)
              && r == Items(ranked) && Sorted(ranked) && Rearranged(ranked, found)
  {
    found, ranked := [], [];
    var trimmed := Trim(query);
    TrimKeepsTokens(query);
    if |trimmed| == 0 {
      TokensWhole([]);
      return items, found, ranked;
    }
    var tokens := Tokens(trimmed);
    if |tokens| == 0 {
      return items, found, ranked;
    }
    var results: seq<Ranked<T>> := [];
    for i := 0 to |items|
      invariant Items(results) == Matching(lower, tokens, getText, items[..i])
      invariant TotalsHold(lower, tokens, getText, results)
    {
      var allMatch, total := MatchTokens(lower, tokens, getText(items[i]));
      MatchingNext(lower, tokens, getText, items, i);
      if allMatch {
        ItemsNext(results, Ranked(items[i], total));
        results := results + [Ranked(items[i], total)];
      }
    }
    assert items[..|items|] == items;
    found := results;
    var sorted := SortByTotal(results);
    ranked := sorted;
    r := Items(sorted);
  }
}
