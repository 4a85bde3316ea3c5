/** Fuzzy matching and ranking: packages/tui/src/fuzzy.ts. Scores are counted in tenths, so they are whole numbers. */
module FuzzyMatching {
  /** The characters of a query found in order, at these places of a text. */
  predicate Embeds(query: string, text: string, at: seq<nat>) {
    && |at| == |query|
    && (forall k | 0 <= k < |at| :: at[k] < |text| && text[at[k]] == query[k])
    && forall j, k | 0 <= j < k < |at| :: at[j] < at[k]
  }

  ghost predicate IsSubsequence(query: string, text: string) {
    exists at :: Embeds(query, text, at)
  }

  /** Where the greedy scan has found the first characters of the query, having read n characters of the text. */
  function Found(query: string, text: string, n: nat): (at: seq<nat>)
    requires n <= |text|
    ensures |at| <= |query|
  {
    if n == 0 then []
    else
      var before := Found(query, text, n - 1);
      if |before| < |query| && text[n - 1] == query[|before|] then before + [n - 1] else before
  }

  function Greedy(query: string, text: string): (at: seq<nat>)
    ensures |at| <= |query| && forall k | 0 <= k < |at| :: at[k] < |text|
  {
    FoundMatches(query, text, |text|);
    Found(query, text, |text|)
  }

  lemma {:induction false} FoundMatches(query: string, text: string, n: nat)
    requires n <= |text|
    ensures var at := Found(query, text, n);
            && (forall k | 0 <= k < |at| :: at[k] < n && text[at[k]] == query[k])
            && (forall j, k | 0 <= j < k < |at| :: at[j] < at[k])
  {
    if n > 0 { FoundMatches(query, text, n - 1); }
  }

  lemma {:induction false} FoundNext(query: string, text: string, n: nat)
    requires n < |text|
    ensures var before := Found(query, text, n);
            Found(query, text, n + 1)
              == if |before| < |query| && text[n] == query[|before|] then before + [n] else before
  {
  }

  lemma {:induction false} FoundGrows(query: string, text: string, m: nat, n: nat)
    requires m <= n <= |text|
    ensures Found(query, text, m) <= Found(query, text, n)
    decreases n
  {
    if m < n {
      FoundGrows(query, text, m, n - 1);
      FoundNext(query, text, n - 1);
    }
  }

  lemma {:induction false} FindsNext(query: string, text: string, m: nat, n: nat, k: nat)
    requires m <= n < |text| && k < |query| && k <= |Found(query, text, m)| && text[n] == query[k]
    ensures k < |Found(query, text, n + 1)|
  {
    FoundGrows(query, text, m, n);
    FoundNext(query, text, n);
  }

  /** Whatever embedding there is, the scan has found as many characters by then. */
  lemma {:induction false} GreedyKeepsUp(query: string, text: string, at: seq<nat>, k: nat)
    requires Embeds(query, text, at) && k < |query|
    ensures k < |Found(query, text, at[k] + 1)|
  {
    var n := at[k];
    assert n < |text| && text[n] == query[k];
    if k == 0 {
      FindsNext(query, text, 0, n, 0);
    } else {
      var m := at[k - 1];
      assert m < n;
      GreedyKeepsUp(query, text, at, k - 1);
      FindsNext(query, text, m + 1, n, k);
    }
  }

  lemma {:induction false} FoundIsBefore(query: string, text: string, n: nat, k: nat)
    requires n <= |text| && k < |Found(query, text, n)|
    ensures Found(query, text, n)[k] < n
  {
    FoundMatches(query, text, n);
  }

  /** Whatever embedding there is, the scan finds each character at least as early. */
  lemma {:induction false} GreedyIsFirst(query: string, text: string, at: seq<nat>, k: nat)
    requires Embeds(query, text, at) && k < |query|
    ensures k < |Greedy(query, text)| && Greedy(query, text)[k] <= at[k]
  {
    var n := at[k] + 1;
    GreedyKeepsUp(query, text, at, k);
    FoundGrows(query, text, n, |text|);
    FoundIsBefore(query, text, n, k);
  }

  /** The scan is complete: it finds the whole query if and only if that is a subsequence of the text. */
  lemma {:induction false} GreedyIsComplete(query: string, text: string)
    ensures |Greedy(query, text)| == |query| <==> IsSubsequence(query, text)
    ensures |Greedy(query, text)| == |query| ==> Embeds(query, text, Greedy(query, text))
  {
    if IsSubsequence(query, text) {
      var at :| Embeds(query, text, at);
      if query != "" { GreedyIsFirst(query, text, at, |query| - 1); }
    }
    if |Greedy(query, text)| == |query| {
      FoundMatches(query, text, |text|);
      assert Embeds(query, text, Greedy(query, text));
    }
  }

  lemma {:induction false} SubsequencesAreShorter(query: string, text: string)
    requires IsSubsequence(query, text)
    ensures |query| <= |text|
  {
    var at :| Embeds(query, text, at);
    Spread(at, |at|);
  }

  lemma {:induction false} Spread(at: seq<nat>, k: nat)
    requires k <= |at| && forall i, j | 0 <= i < j < |at| :: at[i] < at[j]
    ensures k > 0 ==> k - 1 <= at[k - 1]
  {
    if k > 1 { Spread(at, k - 1); assert at[k - 2] < at[k - 1]; }
  }

  // ----- scores

  predicate IsBoundary(c: char) {
    c == ' ' || '\t' <= c <= '\r' || c == '-' || c == '_' || c == '.' || c == '/' || c == ':'
    || c == '\U{a0}' || c == '\U{1680}' || '\U{2000}' <= c <= '\U{200a}' || c == '\U{2028}' || c == '\U{2029}'
    || c == '\U{202f}' || c == '\U{205f}' || c == '\U{3000}' || c == '\U{feff}'
  }

  /** How many matches in a row end with the k-th; a match at the very start counts as one. */
  function Streak(at: seq<nat>, k: nat): nat
    requires k < |at|
  {
    if at[k] == (if k == 0 then 0 else at[k - 1] + 1) then 1 + if k == 0 then 0 else Streak(at, k - 1) else 0
  }

  /**
   * What the k-th match adds: a bonus for a streak or a penalty for a gap, a bonus at a word's start, a little for
   * lateness.
   */
  function MatchScore(text: string, at: seq<nat>, k: nat): int
    requires k < |at| && at[k] <= |text|
  {
    var gap: int := at[k] as int - if k > 0 then at[k - 1] + 1 else at[k];
    (if Streak(at, k) > 0 then -50 * Streak(at, k) else 20 * gap)
    + (if at[k] == 0 || IsBoundary(text[at[k] - 1]) then -100 else 0)
    + at[k]
  }

  function Score(text: string, at: seq<nat>, n: nat): int
    requires n <= |at| && forall k | 0 <= k < n :: at[k] < |text|
  {
    if n == 0 then 0 else Score(text, at, n - 1) + MatchScore(text, at, n - 1)
  }

  /** The score is in tenths. */
  datatype FuzzyMatch = FuzzyMatch(matches: bool, score: int)

  /** What matching one query gives: the greedy places and their score, less 100 points for the whole text. */
  function QueryMatch(query: string, text: string): FuzzyMatch {
    var at := Greedy(query, text);
    if query == "" then FuzzyMatch(true, 0)
    else if |at| < |query| then FuzzyMatch(false, 0)
    else FuzzyMatch(true, Score(text, at, |at|) - if query == text then 1000 else 0)
  }

  lemma {:induction false} StreakPrefix(at: seq<nat>, more: seq<nat>, k: nat)
    requires k < |at| && at <= more
    ensures Streak(more, k) == Streak(at, k)
  {
    if k > 0 { StreakPrefix(at, more, k - 1); }
  }

  lemma {:induction false} ScorePrefix(text: string, at: seq<nat>, more: seq<nat>, n: nat)
    requires n <= |at| && at <= more && forall k | 0 <= k < |more| :: more[k] < |text|
    ensures Score(text, more, n) == Score(text, at, n)
  {
    if n > 0 {
      ScorePrefix(text, at, more, n - 1);
      StreakPrefix(at, more, n - 1);
    }
  }

  /** Where the loop stands after some matches. */
  function LastMatch(at: seq<nat>): int { if at == [] then -1 else at[|at| - 1] }

  function LastStreak(at: seq<nat>): nat { if at == [] then 0 else Streak(at, |at| - 1) }

  lemma {:induction false} NextMatch(text: string, at: seq<nat>, i: nat)
    requires i < |text| && forall k | 0 <= k < |at| :: at[k] < i
    ensures var more, last := at + [i], LastMatch(at);
            && LastStreak(more) == (if last == i - 1 then LastStreak(at) + 1 else 0)
            && Score(text, more, |more|)
               == Score(text, at, |at|)
                  + (if last == i - 1 then -50 * (LastStreak(at) + 1) else if last >= 0 then 20 * (i - last - 1) else 0)
                  + (if i == 0 || IsBoundary(text[i - 1]) then -100 else 0) + i
  {
    var more := at + [i];
    ScorePrefix(text, at, more, |at|);
    if at != [] { StreakPrefix(at, more, |at| - 1); }
  }

  lemma {:induction false} TooLong(query: string, text: string)
    requires |query| > |text|
    ensures |Greedy(query, text)| < |query|
  {
    GreedyIsComplete(query, text);
    if IsSubsequence(query, text) { SubsequencesAreShorter(query, text); }
  }

  lemma {:induction false} MatchIsSubsequence(query: string, text: string)
    ensures QueryMatch(query, text).matches <==> IsSubsequence(query, text)
  {
    GreedyIsComplete(query, text);
  }

  /** matchQuery, as the loop computes it. */
  method MatchQuery(query: string, text: string) returns (m: FuzzyMatch)
    ensures m == QueryMatch(query, text)
    ensures m.matches <==> IsSubsequence(query, text)
  {
    MatchIsSubsequence(query, text);
    if |query| == 0 { return FuzzyMatch(true, 0); }
    if |query| > |text| {
      TooLong(query, text);
      return FuzzyMatch(false, 0);
    }
    var at, score := Scan(query, text);
    if |at| < |query| { return FuzzyMatch(false, 0); }
    if query == text {
      score := score - 1000;
    }
    return FuzzyMatch(true, score);
  }

  /** One match: what the loop keeps of the places before, and the score with this one. */
  method AddMatch(text: string, i: nat, lastMatchIndex: int, consecutiveMatches: nat, score: int, ghost at: seq<nat>)
    returns (consecutive: nat, newScore: int)
    requires i < |text| && forall k | 0 <= k < |at| :: at[k] < i
    requires lastMatchIndex == LastMatch(at) && consecutiveMatches == LastStreak(at) && score == Score(text, at, |at|)
    ensures consecutive == LastStreak(at + [i]) && newScore == Score(text, at + [i], |at + [i]|)
  {
    NextMatch(text, at, i);
    newScore := score;
    if lastMatchIndex == i - 1 {
      consecutive := consecutiveMatches + 1;
      newScore := newScore - consecutive * 50;
    } else {
      consecutive := 0;
      if lastMatchIndex >= 0 {
        newScore := newScore + (i - lastMatchIndex - 1) * 20;
      }
    }
    if i == 0 || IsBoundary(text[i - 1]) {
      newScore := newScore - 100;
    }
    newScore := newScore + i;
  }

  /** The loop of matchQuery; of the places only the number and the last are kept there. */
  method Scan(query: string, text: string) returns (at: seq<nat>, score: int)
    requires query != ""
    ensures at == Greedy(query, text) && score == Score(text, at, |at|)
  {
    var lastMatchIndex, consecutiveMatches, i := -1, 0, 0;
    at, score := [], 0;
    while i < |text| && |at| < |query|
      invariant 0 <= i <= |text| && at == Found(query, text, i) && (forall k | 0 <= k < |at| :: at[k] < i)
      invariant score == Score(text, at, |at|) && lastMatchIndex == LastMatch(at)
                && consecutiveMatches == LastStreak(at)
    {
      FoundNext(query, text, i);
      if text[i] == query[|at|] {
        consecutiveMatches, score := AddMatch(text, i, lastMatchIndex, consecutiveMatches, score, at);
        lastMatchIndex := i;
        at := at + [i];
      }
      i := i + 1;
    }
    Rest(query, text, i);
  }

  /** Once the whole query is found the rest of the text does not matter. */
  lemma {:induction false} Rest(query: string, text: string, i: nat)
    requires i <= |text| && (i == |text| || |Found(query, text, i)| == |query|)
    ensures Greedy(query, text) == Found(query, text, i)
  {
    FoundGrows(query, text, i, |text|);
  }

  // ----- queries of letters and digits

  predicate IsLetter(c: char) { 'a' <= c <= 'z' }

  predicate IsDigit(c: char) { '0' <= c <= '9' }

  /** Where the run of letters, or of digits, at the start of a query ends. */
  function RunEnd(query: string, letters: bool, i: nat): (end: nat)
    requires i <= |query|
    ensures i <= end <= |query|
    ensures forall k | i <= k < end :: if letters then IsLetter(query[k]) else IsDigit(query[k])
    ensures end < |query| ==> !(if letters then IsLetter(query[end]) else IsDigit(query[end]))
    decreases |query| - i
  {
    if i < |query| && (if letters then IsLetter(query[i]) else IsDigit(query[i])) then RunEnd(query, letters, i + 1)
    else i
  }

  /** A run of one kind and then, to the end, a run of the other; both not empty. */
  predicate TwoRuns(query: string, letters: bool) {
    var end := RunEnd(query, letters, 0);
    0 < end < |query| && RunEnd(query, !letters, end) == |query|
  }

  /** `abc12` for `12abc` and the other way round; empty for everything else. */
  function Swapped(query: string): string {
    if TwoRuns(query, true) then query[RunEnd(query, true, 0)..] + query[..RunEnd(query, true, 0)]
    else if TwoRuns(query, false) then query[RunEnd(query, false, 0)..] + query[..RunEnd(query, false, 0)]
    else ""
  }

  lemma {:induction false} RunEndIs(query: string, letters: bool, i: nat, end: nat)
    requires i <= end <= |query|
    requires forall k | i <= k < end :: if letters then IsLetter(query[k]) else IsDigit(query[k])
    requires end < |query| ==> !(if letters then IsLetter(query[end]) else IsDigit(query[end]))
    ensures RunEnd(query, letters, i) == end
    decreases end - i
  {
    if i < end { RunEndIs(query, letters, i + 1, end); }
  }

  lemma {:induction false} SwapParts(a: string, b: string, letters: bool)
    requires a != "" && b != ""
    requires forall k | 0 <= k < |a| :: if letters then IsLetter(a[k]) else IsDigit(a[k])
    requires forall k | 0 <= k < |b| :: if letters then IsDigit(b[k]) else IsLetter(b[k])
    ensures TwoRuns(a + b, letters) && !TwoRuns(a + b, !letters) && Swapped(a + b) == b + a
  {
    RunEndIs(a + b, letters, 0, |a|);
    RunEndIs(a + b, !letters, |a|, |a + b|);
    RunEndIs(a + b, !letters, 0, 0);
    assert (a + b)[..|a|] == a && (a + b)[|a|..] == b;
  }

  /** Swapping twice gives the query back. */
  lemma {:induction false} SwapTwice(query: string)
    requires Swapped(query) != ""
    ensures Swapped(Swapped(query)) == query
  {
    var letters := TwoRuns(query, true);
    var end := RunEnd(query, letters, 0);
    var a, b := query[..end], query[end..];
    assert query == a + b;
    SwapParts(b, a, !letters);
  }

  // ----- fuzzyMatch

  function Match(query: string, text: string): FuzzyMatch {
    var primary, swapped := QueryMatch(query, text), Swapped(query);
    if primary.matches || swapped == "" || !QueryMatch(swapped, text).matches then primary
    else FuzzyMatch(true, QueryMatch(swapped, text).score + 50)
  }

  /** fuzzyMatch, for a query and a text in lower case. */
  method Fuzzy(query: string, text: string) returns (m: FuzzyMatch)
    ensures m == Match(query, text)
    ensures m.matches <==> IsSubsequence(query, text) || (Swapped(query) != "" && IsSubsequence(Swapped(query), text))
  {
    var primaryMatch := MatchQuery(query, text);
    if primaryMatch.matches { return primaryMatch; }
    var swappedQuery := Swapped(query);
    if swappedQuery == "" { return primaryMatch; }
    var swappedMatch := MatchQuery(swappedQuery, text);
    if !swappedMatch.matches { return primaryMatch; }
    return FuzzyMatch(true, swappedMatch.score + 50);
  }

  // ----- fuzzyFilter

  predicate IsSeparator(c: char) {
    c == '/' || (IsBoundary(c) && c != '-' && c != '_' && c != '.' && c != ':')
  }

  /** The query cut at white space and slashes, empty pieces left out. */
  function Tokens(query: string, token: string): seq<string> {
    if query == "" then if token == "" then [] else [token]
    else if IsSeparator(query[0]) then (if token == "" then [] else [token]) + Tokens(query[1..], "")
    else Tokens(query[1..], token + [query[0]])
  }

  predicate AllMatch(tokens: seq<string>, n: nat, text: string)
    requires n <= |tokens|
  {
    forall t | 0 <= t < n :: Match(tokens[t], text).matches
  }

  function TotalScore(tokens: seq<string>, n: nat, text: string): int
    requires n <= |tokens|
  {
    if n == 0 then 0 else TotalScore(tokens, n - 1, text) + Match(tokens[n - 1], text).score
  }

  datatype Result<T> = Result(item: T, totalScore: int)

  /** The items that all tokens match, in order, with their scores. */
  function Results<T>(items: seq<T>, tokens: seq<string>, getText: T -> string): seq<Result<T>> {
    if items == [] then []
    else
      var last := items[|items| - 1];
      Results(items[..|items| - 1], tokens, getText)
      + if AllMatch(tokens, |tokens|, getText(last)) then [Result(last, TotalScore(tokens, |tokens|, getText(last)))]
        else []
  }

  /** Puts a result behind all that are at least as good. */
  function Insert<T>(sorted: seq<Result<T>>, r: Result<T>): seq<Result<T>> {
    if sorted != [] && r.totalScore < sorted[|sorted| - 1].totalScore
    then Insert(sorted[..|sorted| - 1], r) + [sorted[|sorted| - 1]]
    else sorted + [r]
  }

  /** Sorting by score, as JavaScript's sort does it: results with the same score stay in order. */
  function Sorted<T>(results: seq<Result<T>>): seq<Result<T>> {
    if results == [] then [] else Insert(Sorted(results[..|results| - 1]), results[|results| - 1])
  }

  predicate IsSorted<T>(results: seq<Result<T>>) {
    forall i, j | 0 <= i < j < |results| :: results[i].totalScore <= results[j].totalScore
  }

  /** The results with one score, in order. */
  function Scoring<T>(results: seq<Result<T>>, score: int): seq<Result<T>> {
    if results == [] then []
    else
      Scoring(results[..|results| - 1], score)
        + if results[|results| - 1].totalScore == score then [results[|results| - 1]] else []
  }

  lemma {:induction false} ScoringNext<T>(results: seq<Result<T>>, r: Result<T>, score: int)
    ensures Scoring(results + [r], score) == Scoring(results, score) + if r.totalScore == score then [r] else []
  {
    assert (results + [r])[..|results|] == results;
  }

  lemma {:induction false} InsertSorts<T>(sorted: seq<Result<T>>, r: Result<T>)
    requires IsSorted(sorted)
    ensures IsSorted(Insert(sorted, r))
    ensures forall i | 0 <= i < |Insert(sorted, r)| :: Insert(sorted, r)[i] == r || Insert(sorted, r)[i] in sorted
  {
    if sorted != [] && r.totalScore < sorted[|sorted| - 1].totalScore {
      InsertSorts(sorted[..|sorted| - 1], r);
    }
  }

  /** Inserting changes the order of no two results with the same score, and adds the new one last among its equals. */
  lemma {:induction false} InsertIsStable<T>(sorted: seq<Result<T>>, r: Result<T>, score: int)
    requires IsSorted(sorted)
    ensures Scoring(Insert(sorted, r), score) == Scoring(sorted, score) + if r.totalScore == score then [r] else []
  {
    if sorted != [] && r.totalScore < sorted[|sorted| - 1].totalScore {
      var init, last := sorted[..|sorted| - 1], sorted[|sorted| - 1];
      InsertIsStable(init, r, score);
      ScoringNext(Insert(init, r), last, score);
      assert init + [last] == sorted;
      if r.totalScore == score {
        assert Scoring(init, score) + [] == Scoring(init, score);
      }
    } else {
      ScoringNext(sorted, r, score);
    }
  }

  /** Sorting gives ascending scores and keeps, score by score, exactly the results there were, in their order. */
  lemma {:induction false} SortedIsStable<T>(results: seq<Result<T>>, score: int)
    ensures IsSorted(Sorted(results)) && Scoring(Sorted(results), score) == Scoring(results, score)
  {
    if results != [] {
      var init, last := results[..|results| - 1], results[|results| - 1];
      SortedIsStable(init, score);
      InsertSorts(Sorted(init), last);
      InsertIsStable(Sorted(init), last, score);
    }
  }

  function Items<T>(results: seq<Result<T>>): seq<T> {
    seq(|results|, i requires 0 <= i < |results| => results[i].item)
  }

  function Trim(query: string): string
    decreases |query|
  {
    if query != "" && IsSeparator(query[0]) && query[0] != '/' then Trim(query[1..])
    else if query != "" && IsSeparator(query[|query| - 1]) && query[|query| - 1] != '/' then Trim(query[..|query| - 1])
    else query
  }

  function LowerAll(tokens: seq<string>, toLowerCase: string -> string): (r: seq<string>)
    ensures |r| == |tokens| && forall t | 0 <= t < |tokens| :: r[t] == toLowerCase(tokens[t])
  {
    seq(|tokens|, t requires 0 <= t < |tokens| => toLowerCase(tokens[t]))
  }

  lemma {:induction false} OneMoreToken(tokens: seq<string>, t: nat, text: string, m: FuzzyMatch)
    requires t < |tokens| && AllMatch(tokens, t, text) && m == Match(tokens[t], text)
    ensures AllMatch(tokens, t + 1, text) <==> m.matches
    ensures TotalScore(tokens, t + 1, text) == TotalScore(tokens, t, text) + m.score
  {
  }

  lemma {:induction false} OneFails(tokens: seq<string>, t: nat, text: string)
    requires t < |tokens| && !AllMatch(tokens, t + 1, text)
    ensures !AllMatch(tokens, |tokens|, text)
  {
  }

  /** One token against a text, for its result alone. */
  method MatchToken(token: string, text: string) returns (m: FuzzyMatch)
    ensures m == Match(token, text)
  {
    m := Fuzzy(token, text);
  }

  /** The inner loop: whether all tokens match a text, and the sum of their scores. */
  method MatchTokens(tokens: seq<string>, text: string) returns (allMatch: bool, totalScore: int)
    ensures allMatch == AllMatch(tokens, |tokens|, text)
    ensures allMatch ==> totalScore == TotalScore(tokens, |tokens|, text)
  {
    var t := 0;
    allMatch, totalScore := true, 0;
    while t < |tokens|
      invariant 0 <= t <= |tokens| && AllMatch(tokens, t, text) && totalScore == TotalScore(tokens, t, text)
    {
      var m := MatchToken(tokens[t], text);
      OneMoreToken(tokens, t, text, m);
      if !m.matches {
        OneFails(tokens, t, text);
        return false, 0;
      }
      totalScore := totalScore + m.score;
      t := t + 1;
    }
  }

  method Rate<T>(items: seq<T>, tokens: seq<string>, getText: T -> string) returns (results: seq<Result<T>>)
    ensures results == Results(items, tokens, getText)
  {
    var k := 0;
    results := [];
    while k < |items|
      invariant 0 <= k <= |items| && results == Results(items[..k], tokens, getText)
    {
      var allMatch, totalScore := MatchTokens(tokens, getText(items[k]));
      assert items[..k + 1][..k] == items[..k];
      if allMatch {
        results := results + [Result(items[k], totalScore)];
      }
      k := k + 1;
    }
    assert items[..k] == items;
  }

  /** An item's text as fuzzyMatch sees it. */
  function LowerText<T>(getText: T -> string, toLowerCase: string -> string): T -> string {
    item => toLowerCase(getText(item))
  }

  /**
   * fuzzyFilter: the items all tokens match regardless of case, best first; everything if there is no token.
   * `toLowerCase` is what fuzzyMatch applies to both its arguments.
   */
  method Filter<T>(items: seq<T>, query: string, getText: T -> string, toLowerCase: string -> string)
    returns (found: seq<T>)
    ensures Tokens(Trim(query), "") == [] ==> found == items
    ensures Tokens(Trim(query), "") != [] ==>
              found
                == Items(Sorted(Results(items, LowerAll(Tokens(Trim(query), ""), toLowerCase),
                                        LowerText(getText, toLowerCase))))
  {
    var trimmed := Trim(query);
    if trimmed == "" { return items; }
    var tokens := Tokens(trimmed, "");
    if |tokens| == 0 { return items; }
    var results := Rate(items, LowerAll(tokens, toLowerCase), LowerText(getText, toLowerCase));
    return Items(Sorted(results));
  }
}
