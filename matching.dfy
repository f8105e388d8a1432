/** The fuzzy stage both resolvers share: every table name is scored against
    the user's text, names scoring at least the threshold become candidates,
    and the candidates are stably sorted by score with the best one returned. */
module Matching {
  import opened Strings
  import opened Ranking
  import opened Common

  /** difflib.SequenceMatcher(None, a, b).ratio(): any score in [0, 1].
      Nothing else about it is assumed, not even symmetry. */
  type Ratio = f: (string, string) -> real | forall a, b :: 0.0 <= f(a, b) <= 1.0
    witness (a: string, b: string) => 0.0

  /** similarity(a, b): the ratio of the two lower-cased texts. */
  function Similarity(ratio: Ratio, a: string, b: string): (r: real)
    ensures 0.0 <= r <= 1.0
  {
    ratio(Lower(a), Lower(b))
  }

  /** `max(word_similarities) if word_similarities else 0`. */
  function MaxWordSimilarity(ratio: Ratio, words: seq<string>, name: string): (r: real)
    ensures 0.0 <= r <= 1.0
  {
    if words == [] then 0.0
    else if |words| == 1 then Similarity(ratio, words[0], name)
    else
      var rest := MaxWordSimilarity(ratio, words[1..], name);
      var first := Similarity(ratio, words[0], name);
      if first >= rest then first else rest
  }

  /** The word score is the largest score of any word, and 0 for no words. */
  lemma {:induction false} MaxWordSimilarityIsMax(ratio: Ratio, words: seq<string>, name: string)
    ensures words == [] ==> MaxWordSimilarity(ratio, words, name) == 0.0
    ensures forall k :: 0 <= k < |words| ==> Similarity(ratio, words[k], name) <= MaxWordSimilarity(ratio, words, name)
    ensures words != [] ==>
      exists k :: 0 <= k < |words| && MaxWordSimilarity(ratio, words, name) == Similarity(ratio, words[k], name)
  {
    if |words| == 1 {
      assert MaxWordSimilarity(ratio, words, name) == Similarity(ratio, words[0], name);
    } else if |words| > 1 {
      MaxWordSimilarityIsMax(ratio, words[1..], name);
      assert forall k :: 1 <= k < |words| ==> words[k] == words[1..][k - 1];
      var rest := MaxWordSimilarity(ratio, words[1..], name);
      var k :| 0 <= k < |words[1..]| && rest == Similarity(ratio, words[1..][k], name);
      assert rest == Similarity(ratio, words[k + 1], name);
      if Similarity(ratio, words[0], name) >= rest {
        assert MaxWordSimilarity(ratio, words, name) == Similarity(ratio, words[0], name);
      } else {
        assert MaxWordSimilarity(ratio, words, name) == Similarity(ratio, words[k + 1], name);
      }
    }
  }

  /** best_similarity: the larger of the whole-text score and the best
      single-word score. */
  function Score(ratio: Ratio, text: string, name: string): (r: real)
    ensures 0.0 <= r <= 1.0
  {
    var full := Similarity(ratio, text, name);
    var word := MaxWordSimilarity(ratio, Split(text), name);
    if full >= word then full else word
  }

  /** The score is the best of the whole text and each of its words. */
  lemma ScoreIsMax(ratio: Ratio, text: string, name: string)
    ensures Similarity(ratio, text, name) <= Score(ratio, text, name)
    ensures forall k :: 0 <= k < |Split(text)| ==> Similarity(ratio, Split(text)[k], name) <= Score(ratio, text, name)
    ensures Score(ratio, text, name) == Similarity(ratio, text, name)
      || exists k :: 0 <= k < |Split(text)| && Score(ratio, text, name) == Similarity(ratio, Split(text)[k], name)
  {
    MaxWordSimilarityIsMax(ratio, Split(text), name);
  }

  /** Scoring against a name or its lower-case form is the same. */
  lemma ScoreLower(ratio: Ratio, text: string, name: string)
    ensures Score(ratio, text, Lower(name)) == Score(ratio, text, name)
  {
    LowerIdempotent(name);
    var words := Split(text);
    MaxWordSimilarityLower(ratio, words, name);
  }

  lemma {:induction false} MaxWordSimilarityLower(ratio: Ratio, words: seq<string>, name: string)
    ensures MaxWordSimilarity(ratio, words, Lower(name)) == MaxWordSimilarity(ratio, words, name)
  {
    LowerIdempotent(name);
    if |words| > 1 {
      MaxWordSimilarityLower(ratio, words[1..], name);
    }
  }

  /** A table row: a name as users may write it and the district it stands for. */
  type Row = (string, District)

  /** A resolved location: location_info's district, confidence and the
      table name that matched (absent where the source leaves it out). */
  datatype LocationInfo = LocationInfo(district: District, confidence: real, matchedText: Option<string>)

  /** The score of every table row against the user's text. */
  function ScoreOf(ratio: Ratio, text: string): Row -> real
  {
    (row: Row) => Score(ratio, text, row.0)
  }

  /** The candidate the fuzzy loop appends for one table row. */
  function Candidate(score: Row -> real, row: Row): LocationInfo
  {
    LocationInfo(row.1, score(row), Some(row.0))
  }

  /** best_matches after the fuzzy loop: the rows scoring at least the
      threshold, in table order. */
  function Candidates(table: seq<Row>, score: Row -> real, threshold: real): (ms: seq<LocationInfo>)
    ensures |ms| <= |table|
    ensures forall k :: 0 <= k < |ms| ==> ms[k].confidence >= threshold
  {
    if table == [] then []
    else
      (if score(table[0]) >= threshold then [Candidate(score, table[0])] else [])
      + Candidates(table[1..], score, threshold)
  }

  /** Appending one row to the table appends at most its candidate: this is
      how the loop builds the list. */
  lemma {:induction false} CandidatesSnoc(table: seq<Row>, row: Row, score: Row -> real, threshold: real)
    ensures Candidates(table + [row], score, threshold)
      == Candidates(table, score, threshold)
         + (if score(row) >= threshold then [Candidate(score, row)] else [])
  {
    if table != [] {
      assert (table + [row])[1..] == table[1..] + [row];
      CandidatesSnoc(table[1..], row, score, threshold);
    } else {
      assert ([] + [row])[1..] == [];
    }
  }

  function Confidence(m: LocationInfo): real {
    m.confidence
  }

  /** The fuzzy stage's answer: `best_matches.sort(key=confidence, reverse=True)`
      then the front item, or None when no row reaches the threshold. */
  function FuzzyBest(table: seq<Row>, score: Row -> real, threshold: real): (r: Option<LocationInfo>)
    ensures r.Some? ==> r.value.confidence >= threshold
  {
    var ms := Candidates(table, score, threshold);
    if ms == [] then None
    else
      var sorted := SortDescending(ms, Confidence);
      SortDescendingHead(ms, Confidence);
      Some(sorted[0])
  }

  /** Row i wins the fuzzy stage: it reaches the threshold, no row scores
      higher, and every earlier row scores strictly lower. */
  ghost predicate WinsAt(table: seq<Row>, score: Row -> real, threshold: real, i: int) {
    && 0 <= i < |table|
    && score(table[i]) >= threshold
    && (forall j :: 0 <= j < |table| ==> score(table[j]) <= score(table[i]))
    && (forall j :: 0 <= j < i ==> score(table[j]) < score(table[i]))
  }

  /** The fuzzy stage finds nothing exactly when every row scores below the threshold. */
  lemma {:induction false} CandidatesEmptyIff(table: seq<Row>, score: Row -> real, threshold: real)
    ensures Candidates(table, score, threshold) == []
      <==> forall j :: 0 <= j < |table| ==> score(table[j]) < threshold
  {
    if table != [] {
      CandidatesEmptyIff(table[1..], score, threshold);
      assert forall j :: 1 <= j < |table| ==> table[j] == table[1..][j - 1];
    }
  }

  /** The first candidate with the largest score is the candidate of the
      winning row. */
  lemma {:induction false} CandidatesFirstMax(table: seq<Row>, score: Row -> real, threshold: real)
    returns (i: int)
    requires Candidates(table, score, threshold) != []
    ensures WinsAt(table, score, threshold, i)
    ensures Candidates(table, score, threshold)[FirstMaxIndex(Candidates(table, score, threshold), Confidence)]
      == Candidate(score, table[i])
  {
    var ms := Candidates(table, score, threshold);
    var rest := Candidates(table[1..], score, threshold);
    var s0 := score(table[0]);
    if s0 >= threshold && rest == [] {
      CandidatesEmptyIff(table[1..], score, threshold);
      WinsAtAlone(table, score, threshold);
      assert ms == [Candidate(score, table[0])];
      i := 0;
    } else {
      var i' := CandidatesFirstMax(table[1..], score, threshold);
      WinsAtCons(table, score, threshold, i');
      var k := FirstMaxIndex(rest, Confidence);
      assert rest[k] == Candidate(score, table[i' + 1]);
      if s0 >= threshold {
        var c0 := Candidate(score, table[0]);
        assert ms == [c0] + rest;
        FirstMaxCons(c0, rest);
        if s0 >= score(table[i' + 1]) {
          i := 0;
        } else {
          assert ms[k + 1] == rest[k];
          i := i' + 1;
        }
      } else {
        assert ms == rest;
        i := i' + 1;
      }
    }
  }

  /** A head row that alone reaches the threshold wins. */
  lemma WinsAtAlone(table: seq<Row>, score: Row -> real, threshold: real)
    requires table != [] && score(table[0]) >= threshold
    requires forall j :: 0 <= j < |table[1..]| ==> score(table[1..][j]) < threshold
    ensures WinsAt(table, score, threshold, 0)
  {
    assert forall j :: 1 <= j < |table| ==> table[j] == table[1..][j - 1];
  }

  /** How the winner of the tail relates to the winner of the whole table. */
  lemma WinsAtCons(table: seq<Row>, score: Row -> real, threshold: real, i': int)
    requires table != [] && WinsAt(table[1..], score, threshold, i')
    ensures score(table[0]) < score(table[i' + 1]) ==> WinsAt(table, score, threshold, i' + 1)
    ensures score(table[0]) >= score(table[i' + 1]) && score(table[0]) >= threshold
      ==> WinsAt(table, score, threshold, 0)
  {
    assert forall j :: 1 <= j < |table| ==> table[j] == table[1..][j - 1];
  }

  /** FirstMaxIndex of a list with one more item in front. */
  lemma FirstMaxCons(c: LocationInfo, rest: seq<LocationInfo>)
    requires rest != []
    ensures FirstMaxIndex([c] + rest, Confidence)
      == if c.confidence >= rest[FirstMaxIndex(rest, Confidence)].confidence then 0
         else FirstMaxIndex(rest, Confidence) + 1
  {
    assert ([c] + rest)[1..] == rest;
  }

  /** What the fuzzy stage returns: None exactly when no row reaches the
      threshold; otherwise the candidate of the first row with the highest
      score, so ties go to the row listed first. */
  lemma FuzzyBestSpec(table: seq<Row>, score: Row -> real, threshold: real)
    ensures FuzzyBest(table, score, threshold).None?
      <==> forall j :: 0 <= j < |table| ==> score(table[j]) < threshold
    ensures FuzzyBest(table, score, threshold).Some? ==>
      exists i :: WinsAt(table, score, threshold, i)
        && FuzzyBest(table, score, threshold).value == Candidate(score, table[i])
  {
    CandidatesEmptyIff(table, score, threshold);
    var ms := Candidates(table, score, threshold);
    if ms != [] {
      var i := CandidatesFirstMax(table, score, threshold);
      SortDescendingHead(ms, Confidence);
    }
  }

  /** The index of the first row a left-to-right scan stops at, as a `for`
      loop that returns on its first hit does. */
  function FirstHit<T>(rows: seq<T>, hit: T -> bool): (r: Option<nat>)
    ensures r.Some? ==> r.value < |rows| && hit(rows[r.value])
    ensures r.Some? ==> forall j :: 0 <= j < r.value ==> !hit(rows[j])
    ensures r.None? <==> forall j :: 0 <= j < |rows| ==> !hit(rows[j])
  {
    if rows == [] then None
    else if hit(rows[0]) then Some(0)
    else
      assert forall j :: 1 <= j < |rows| ==> rows[j] == rows[1..][j - 1];
      match FirstHit(rows[1..], hit)
      case None => None
      case Some(k) => Some(k + 1)
  }

  /** `key == text`: the row is the dictionary entry for the text. */
  function KeyIs(text: string): Row -> bool
  {
    (row: Row) => row.0 == text
  }

  /** `key in text`: the row's name occurs in the text. */
  function KeyIn(text: string): Row -> bool
  {
    (row: Row) => Contains(text, row.0)
  }
}
