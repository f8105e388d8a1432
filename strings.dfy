/** Python's str operations used by the router: lower(), strip(), split(),
    the substring test `part in text`, and str(int) for non-negative numbers.
    Letters are folded ASCII-only and whitespace is the ASCII whitespace set. */
module Strings {

  /** The ASCII characters Python's str.isspace() accepts:
      tab, line feed, vertical tab, form feed, carriage return,
      the four separators 0x1C-0x1F, and space. */
  predicate IsSpace(c: char) {
    (9 <= c as int <= 13) || (28 <= c as int <= 32)
  }

  function LowerChar(c: char): char {
    if 'A' <= c <= 'Z' then (c as int + 32) as char else c
  }

  predicate HasNoUpper(s: string) {
    forall i :: 0 <= i < |s| ==> !('A' <= s[i] <= 'Z')
  }

  /** str.lower(), ASCII letters only: every character is folded on its own. */
  function Lower(s: string): (r: string)
    ensures |r| == |s|
  {
    seq(|s|, i requires 0 <= i < |s| => LowerChar(s[i]))
  }

  /** Every character is folded on its own, and no capital is left. */
  lemma LowerChars(s: string)
    ensures forall i :: 0 <= i < |s| ==> Lower(s)[i] == LowerChar(s[i])
    ensures HasNoUpper(Lower(s))
  {
  }

  lemma LowerIdempotent(s: string)
    ensures Lower(Lower(s)) == Lower(s)
  {
  }

  /** Text with no ASCII capital is its own lower-case form. */
  lemma LowerOfLowerCase(s: string)
    requires HasNoUpper(s)
    ensures Lower(s) == s
  {
  }

  /** Lower-casing distributes over concatenation. */
  lemma LowerConcat(a: string, b: string)
    ensures Lower(a + b) == Lower(a) + Lower(b)
  {
  }

  /** str.lstrip(): drop leading whitespace. */
  function TrimStart(s: string): (r: string)
    ensures |r| <= |s|
  {
    if |s| > 0 && IsSpace(s[0]) then TrimStart(s[1..]) else s
  }

  /** str.rstrip(): drop trailing whitespace. */
  function TrimEnd(s: string): (r: string)
    ensures |r| <= |s|
  {
    if |s| > 0 && IsSpace(s[|s| - 1]) then TrimEnd(s[..|s| - 1]) else s
  }

  /** lstrip() keeps a suffix that does not start with whitespace, and
      everything it dropped is whitespace. */
  lemma {:induction false} TrimStartSpec(s: string)
    ensures TrimStart(s) == s[|s| - |TrimStart(s)|..]
    ensures TrimStart(s) == [] || !IsSpace(TrimStart(s)[0])
    ensures forall k :: 0 <= k < |s| - |TrimStart(s)| ==> IsSpace(s[k])
    decreases |s|
  {
    if |s| > 0 && IsSpace(s[0]) {
      var t := s[1..];
      TrimStartSpec(t);
      assert s[|s| - |TrimStart(t)|..] == t[|t| - |TrimStart(t)|..];
      forall k | 1 <= k < |s| - |TrimStart(s)|
        ensures IsSpace(s[k])
      {
        assert s[k] == t[k - 1];
      }
    }
  }

  /** rstrip() keeps a prefix that does not end with whitespace, and
      everything it dropped is whitespace. */
  lemma {:induction false} TrimEndSpec(s: string)
    ensures TrimEnd(s) == s[..|TrimEnd(s)|]
    ensures TrimEnd(s) == [] || !IsSpace(TrimEnd(s)[|TrimEnd(s)| - 1])
    ensures forall k :: |TrimEnd(s)| <= k < |s| ==> IsSpace(s[k])
    decreases |s|
  {
    if |s| > 0 && IsSpace(s[|s| - 1]) {
      var t := s[..|s| - 1];
      TrimEndSpec(t);
      assert s[..|TrimEnd(t)|] == t[..|TrimEnd(t)|];
      forall k | |TrimEnd(s)| <= k < |s| - 1
        ensures IsSpace(s[k])
      {
        assert s[k] == t[k];
      }
    }
  }

  lemma TrimStartNoop(s: string)
    requires s == [] || !IsSpace(s[0])
    ensures TrimStart(s) == s
  {
  }

  lemma TrimEndNoop(s: string)
    requires s == [] || !IsSpace(s[|s| - 1])
    ensures TrimEnd(s) == s
  {
  }

  /** str.strip(): the longest slice s[i..j] that neither starts nor ends
      with whitespace, everything cut away on both sides being whitespace. */
  function Strip(s: string): (r: string)
    ensures |r| <= |s|
  {
    TrimEnd(TrimStart(s))
  }

  /** The stripped text neither starts nor ends with whitespace, and it is
      empty exactly when the text is all whitespace. */
  lemma StripSpec(s: string)
    ensures Strip(s) == [] || (!IsSpace(Strip(s)[0]) && !IsSpace(Strip(s)[|Strip(s)| - 1]))
    ensures Strip(s) == [] <==> forall k :: 0 <= k < |s| ==> IsSpace(s[k])
  {
    var t := TrimStart(s);
    var r := TrimEnd(t);
    TrimStartSpec(s);
    TrimEndSpec(t);
    if r != [] {
      assert r[0] == t[0];
    }
    if r == [] {
      assert t == [];
    }
  }

  /** Stripping twice is stripping once. */
  lemma StripIdempotent(s: string)
    ensures Strip(Strip(s)) == Strip(s)
  {
    StripSpec(s);
    TrimStartNoop(Strip(s));
    TrimEndNoop(Strip(s));
  }

  /** Lower-casing never turns a character into whitespace or back, so the
      order of lower() and strip() does not matter. */
  lemma {:induction false} StripLowerCommute(s: string)
    ensures Strip(Lower(s)) == Lower(Strip(s))
  {
    TrimStartLower(s);
    TrimEndLower(TrimStart(s));
  }

  lemma {:induction false} TrimStartLower(s: string)
    ensures TrimStart(Lower(s)) == Lower(TrimStart(s))
    decreases |s|
  {
    if |s| > 0 && IsSpace(s[0]) {
      assert Lower(s)[1..] == Lower(s[1..]);
      TrimStartLower(s[1..]);
    }
  }

  lemma {:induction false} TrimEndLower(s: string)
    ensures TrimEnd(Lower(s)) == Lower(TrimEnd(s))
    decreases |s|
  {
    if |s| > 0 && IsSpace(s[|s| - 1]) {
      assert Lower(s)[..|s| - 1] == Lower(s[..|s| - 1]);
      TrimEndLower(s[..|s| - 1]);
    }
  }

  /** `text.lower().strip()`, the form both resolvers match against. */
  function LowerStrip(s: string): (r: string)
    ensures |r| <= |s|
  {
    Strip(Lower(s))
  }

  /** The cleaned text has no capitals, and it is empty exactly when the
      text is all whitespace. */
  lemma LowerStripSpec(s: string)
    ensures HasNoUpper(LowerStrip(s))
    ensures LowerStrip(s) == [] <==> forall k :: 0 <= k < |s| ==> IsSpace(s[k])
  {
    StripLowerCommute(s);
    LowerChars(Strip(s));
    StripSpec(s);
    LowerChars(s);
    StripSpec(Lower(s));
  }

  /** Cleaning cleaned text changes nothing. */
  lemma LowerStripIdempotent(s: string)
    ensures LowerStrip(LowerStrip(s)) == LowerStrip(s)
  {
    var r := LowerStrip(s);
    LowerStripSpec(s);
    LowerOfLowerCase(r);
    assert Lower(r) == r;
    StripIdempotent(Lower(s));
  }

  /** Length of the run of non-whitespace characters that starts s. */
  function WordLength(s: string): (n: nat)
    ensures n <= |s|
    ensures forall k :: 0 <= k < n ==> !IsSpace(s[k])
    ensures n == |s| || IsSpace(s[n])
  {
    if |s| == 0 || IsSpace(s[0]) then 0 else 1 + WordLength(s[1..])
  }

  predicate IsWord(w: string) {
    w != [] && forall k :: 0 <= k < |w| ==> !IsSpace(w[k])
  }

  /** str.split() with no argument: the maximal runs of non-whitespace, in order. */
  function Split(s: string): (words: seq<string>)
    ensures forall k :: 0 <= k < |words| ==> IsWord(words[k])
    decreases |s|
  {
    if s == [] then []
    else if IsSpace(s[0]) then Split(s[1..])
    else
      var n := WordLength(s);
      [s[..n]] + Split(s[n..])
  }

  /** A single word splits into itself. */
  lemma SplitWord(w: string)
    requires IsWord(w)
    ensures Split(w) == [w]
  {
    assert WordLength(w) == |w|;
    assert w[|w|..] == [];
    assert w[..|w|] == w;
  }

  /** `" ".join(words)`: the words with one space between neighbours. */
  function Join(words: seq<string>): string
  {
    if words == [] then ""
    else if |words| == 1 then words[0]
    else words[0] + " " + Join(words[1..])
  }

  /** A word followed by white space or nothing is one whole word. */
  lemma {:induction false} WordLengthOfWord(w: string, rest: string)
    requires IsWord(w)
    requires rest == [] || IsSpace(rest[0])
    ensures WordLength(w + rest) == |w|
  {
    if |w| > 1 {
      assert (w + rest)[1..] == w[1..] + rest;
      WordLengthOfWord(w[1..], rest);
    } else {
      assert (w + rest)[1..] == rest;
    }
  }

  /** Splitting words joined by single spaces gives back the words, so Split
      finds every word of its input, in order. */
  lemma {:induction false} SplitJoin(words: seq<string>)
    requires forall k :: 0 <= k < |words| ==> IsWord(words[k])
    ensures Split(Join(words)) == words
  {
    if |words| == 1 {
      SplitWord(words[0]);
    } else if |words| > 1 {
      var w := words[0];
      var tail := " " + Join(words[1..]);
      var s := w + tail;
      assert Join(words) == s;
      WordLengthOfWord(w, tail);
      assert s[0] == w[0];
      assert s[..|w|] == w;
      assert s[|w|..] == tail;
      assert Split(s) == [w] + Split(tail);
      assert tail[1..] == Join(words[1..]);
      assert Split(tail) == Split(Join(words[1..]));
      SplitJoin(words[1..]);
      assert words == [w] + words[1..];
    }
  }

  /** Python's `part in text` on strings, scanning start positions left to right. */
  function Contains(text: string, part: string): bool
    decreases |text|
  {
    part <= text || (|text| > 0 && Contains(text[1..], part))
  }

  /** The substring test holds exactly when `part` occurs at some position. */
  ghost predicate OccursAt(text: string, part: string, i: int) {
    0 <= i && i + |part| <= |text| && text[i..i + |part|] == part
  }

  lemma {:induction false} ContainsIff(text: string, part: string)
    ensures Contains(text, part) <==> exists i :: OccursAt(text, part, i)
    decreases |text|
  {
    if part <= text {
      assert OccursAt(text, part, 0);
    } else if |text| > 0 {
      ContainsIff(text[1..], part);
      if Contains(text[1..], part) {
        var i :| OccursAt(text[1..], part, i);
        assert text[i + 1..i + 1 + |part|] == text[1..][i..i + |part|];
        assert OccursAt(text, part, i + 1);
      }
      if exists i :: OccursAt(text, part, i) {
        var i :| OccursAt(text, part, i);
        assert i != 0;
        assert text[1..][i - 1..i - 1 + |part|] == text[i..i + |part|];
        assert OccursAt(text[1..], part, i - 1);
      }
    }
  }

  lemma ContainsAt(text: string, part: string, i: int)
    requires OccursAt(text, part, i)
    ensures Contains(text, part)
  {
    ContainsIff(text, part);
  }

  lemma ContainsSelf(s: string)
    ensures Contains(s, s)
  {
    assert s <= s;
  }

  lemma ContainsEmpty(s: string)
    ensures Contains(s, "")
  {
    assert [] <= s;
  }

  /** Each piece of a concatenation occurs in it. */
  lemma ContainsInConcat(a: string, b: string, c: string)
    ensures Contains(a + b + c, b)
  {
    assert (a + b + c)[|a|..|a| + |b|] == b;
    ContainsAt(a + b + c, b, |a|);
  }

  /** A substring of a substring is a substring. */
  lemma ContainsTransitive(a: string, b: string, c: string)
    requires Contains(a, b) && Contains(b, c)
    ensures Contains(a, c)
  {
    ContainsIff(a, b);
    ContainsIff(b, c);
    var i :| OccursAt(a, b, i);
    var j :| OccursAt(b, c, j);
    forall k | 0 <= k < |c| ensures a[i + j + k] == c[k] {
      assert c[k] == b[j + k];
      assert b[j + k] == a[i + j + k];
    }
    assert a[i + j..i + j + |c|] == c;
    ContainsAt(a, c, i + j);
  }

  /** A part longer than the text cannot occur in it. */
  lemma ContainsShorter(text: string, part: string)
    requires Contains(text, part)
    ensures |part| <= |text|
  {
    ContainsIff(text, part);
  }

  /** Every character of an occurring part is a character of the text. */
  lemma {:induction false} ContainsChars(text: string, part: string)
    requires Contains(text, part)
    ensures forall k :: 0 <= k < |part| ==> part[k] in text
    decreases |text|
  {
    if part <= text {
      assert forall k :: 0 <= k < |part| ==> part[k] == text[k];
    } else {
      ContainsChars(text[1..], part);
      assert forall x :: x in text[1..] ==> x in text;
    }
  }

  /** A character of the part that is missing from the text rules the part out. */
  lemma NotContainsByChar(text: string, part: string, c: char)
    requires c in part && c !in text
    ensures !Contains(text, part)
  {
    if Contains(text, part) {
      ContainsChars(text, part);
    }
  }

  /** `any(keyword in text for keyword in keywords)`, first keyword first. */
  function AnyIn(keywords: seq<string>, text: string): bool
  {
    if keywords == [] then false
    else Contains(text, keywords[0]) || AnyIn(keywords[1..], text)
  }

  lemma {:induction false} AnyInIff(keywords: seq<string>, text: string)
    ensures AnyIn(keywords, text) <==> exists k :: 0 <= k < |keywords| && Contains(text, keywords[k])
  {
    if keywords != [] {
      AnyInIff(keywords[1..], text);
      if exists k :: 0 <= k < |keywords| && Contains(text, keywords[k]) {
        var k :| 0 <= k < |keywords| && Contains(text, keywords[k]);
        if k > 0 {
          assert keywords[1..][k - 1] == keywords[k];
        }
      }
    }
  }

  /** One keyword that occurs is enough. */
  lemma AnyInWitness(keywords: seq<string>, text: string, k: int)
    requires 0 <= k < |keywords| && Contains(text, keywords[k])
    ensures AnyIn(keywords, text)
  {
    AnyInIff(keywords, text);
  }

  /** The text with every occurrence of c removed, as `s.replace(c, '')` does. */
  function RemoveChar(s: string, c: char): (r: string)
    ensures forall k :: 0 <= k < |r| ==> r[k] != c
    ensures |r| <= |s|
    ensures multiset(r) == multiset(s)[c := 0]
  {
    if s == [] then []
    else
      assert s == [s[0]] + s[1..];
      (if s[0] == c then [] else [s[0]]) + RemoveChar(s[1..], c)
  }

  /** Removal works character by character, so the kept characters stay in
      their order: removing from a concatenation removes from each part. */
  lemma {:induction false} RemoveCharConcat(a: string, b: string, c: char)
    ensures RemoveChar(a + b, c) == RemoveChar(a, c) + RemoveChar(b, c)
  {
    if a == [] {
      assert a + b == b;
    } else {
      var h: string := if a[0] == c then [] else [a[0]];
      assert (a + b)[0] == a[0];
      assert (a + b)[1..] == a[1..] + b;
      calc {
        RemoveChar(a + b, c);
        h + RemoveChar(a[1..] + b, c);
        { RemoveCharConcat(a[1..], b, c); }
        h + (RemoveChar(a[1..], c) + RemoveChar(b, c));
        RemoveChar(a, c) + RemoveChar(b, c);
      }
    }
  }

  /** A text without c is left unchanged. */
  lemma {:induction false} RemoveCharAbsent(s: string, c: char)
    requires c !in s
    ensures RemoveChar(s, c) == s
  {
    if s != [] {
      assert c !in s[1..];
      RemoveCharAbsent(s[1..], c);
    }
  }

  function DigitChar(d: nat): char
    requires d < 10
  {
    "0123456789"[d]
  }

  /** str(n) for a non-negative int: decimal, no leading zeros. */
  function NatToString(n: nat): (r: string)
    ensures r != []
    ensures forall k :: 0 <= k < |r| ==> '0' <= r[k] <= '9'
    ensures |r| > 1 ==> r[0] != '0'
  {
    if n < 10 then [DigitChar(n)] else NatToString(n / 10) + [DigitChar(n % 10)]
  }

  /** The value of a string of decimal digits. */
  function DigitsValue(s: string): nat
    requires forall k :: 0 <= k < |s| ==> '0' <= s[k] <= '9'
  {
    if s == [] then 0 else 10 * DigitsValue(s[..|s| - 1]) + (s[|s| - 1] as int - '0' as int)
  }

  /** Reading back the decimal text of n gives n: distinct counts print differently. */
  lemma {:induction false} NatToStringRoundTrip(n: nat)
    ensures DigitsValue(NatToString(n)) == n
  {
    if n >= 10 {
      var r := NatToString(n);
      NatToStringRoundTrip(n / 10);
      assert r[..|r| - 1] == NatToString(n / 10);
    }
  }

  lemma NatToStringInjective(m: nat, n: nat)
    requires NatToString(m) == NatToString(n)
    ensures m == n
  {
    NatToStringRoundTrip(m);
    NatToStringRoundTrip(n);
  }
}
