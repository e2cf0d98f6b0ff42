/** The string operations the pages use: `toLowerCase`, `includes`, number
    to string and back, and `split(sep).pop()`. */
module Text {

  /** `toLowerCase` on one character, over the ASCII letters. */
  function LowerChar(c: char): (d: char)
    ensures 'A' <= c <= 'Z' ==> 'a' <= d <= 'z' && d as int - c as int == 32
    ensures !('A' <= c <= 'Z') ==> d == c
  {
    if 'A' <= c <= 'Z' then (c as int + 32) as char else c
  }

  /** `s.toLowerCase()`, character by character: the result has no ASCII
      capital left, and every other character stays where it was. */
  function Lower(s: string): (r: string)
    ensures |r| == |s|
    ensures forall i :: 0 <= i < |r| ==> !('A' <= r[i] <= 'Z')
    ensures forall i :: 0 <= i < |s| && !('A' <= s[i] <= 'Z') ==> r[i] == s[i]
    ensures forall i :: 0 <= i < |s| && 'A' <= s[i] <= 'Z' ==> r[i] as int == s[i] as int + 32
  {
    seq(|s|, i requires 0 <= i < |s| => LowerChar(s[i]))
  }

  /** Lower-casing twice is lower-casing once. */
  lemma LowerIdempotent(s: string)
    ensures Lower(Lower(s)) == Lower(s)
  {
  }

  /** `needle` occurs in `hay` starting at position `i`. */
  predicate OccursAt(hay: string, needle: string, i: nat)
  {
    i + |needle| <= |hay| && hay[i..i + |needle|] == needle
  }

  /** `hay.includes(needle)`, by trying each start position in turn. */
  function Contains(hay: string, needle: string): bool
    decreases |hay|
  {
    if |needle| > |hay| then false
    else hay[..|needle|] == needle || (|hay| > 0 && Contains(hay[1..], needle))
  }

  /** `includes` holds exactly when the needle occurs at some position. */
  lemma {:induction false} ContainsIff(hay: string, needle: string)
    ensures Contains(hay, needle) <==> exists i: nat :: OccursAt(hay, needle, i)
    decreases |hay|
  {
    if |needle| > |hay| {
      forall i: nat ensures !OccursAt(hay, needle, i) { }
    } else if hay[..|needle|] == needle {
      assert OccursAt(hay, needle, 0);
    } else {
      var tail := hay[1..];
      ContainsIff(tail, needle);
      if Contains(tail, needle) {
        var i: nat :| OccursAt(tail, needle, i);
        assert hay[i + 1..i + 1 + |needle|] == tail[i..i + |needle|];
        assert OccursAt(hay, needle, i + 1);
      } else {
        forall i: nat ensures !OccursAt(hay, needle, i)
        {
          if i == 0 {
            assert hay[0..|needle|] == hay[..|needle|];
          } else if i + |needle| <= |hay| {
            assert hay[i..i + |needle|] == tail[i - 1..i - 1 + |needle|];
            assert !OccursAt(tail, needle, i - 1);
          }
        }
      }
    }
  }

  /** Every string includes the empty string. */
  lemma ContainsEmpty(hay: string)
    ensures Contains(hay, "")
  {
    assert hay[..0] == "";
  }

  /** The case-insensitive search of the pages:
      `name.toLowerCase().includes(term.toLowerCase())`. */
  function MatchesTerm(name: string, term: string): bool
  {
    Contains(Lower(name), Lower(term))
  }

  /** The search ignores the case of the name and of the term. */
  lemma MatchesTermIgnoresCase(name: string, term: string)
    ensures MatchesTerm(name, term) == MatchesTerm(Lower(name), Lower(term))
  {
    LowerIdempotent(name);
    LowerIdempotent(term);
  }

  /** `a` and `b` spell the same text up to the case of ASCII letters: at
      each position the characters are equal, or one is the other's capital. */
  predicate SameUpToCase(a: string, b: string)
  {
    && |a| == |b|
    && forall i :: 0 <= i < |a| ==>
         || a[i] == b[i]
         || ('A' <= a[i] <= 'Z' && b[i] as int == a[i] as int + 32)
         || ('A' <= b[i] <= 'Z' && a[i] as int == b[i] as int + 32)
  }

  /** Case variants of a text lower-case to the same text. */
  lemma CaseVariantsLowerAlike(a: string, b: string)
    requires SameUpToCase(a, b)
    ensures Lower(a) == Lower(b)
  {
  }

  /** Changing the case of letters in the name or in the term does not
      change whether the name matches. */
  lemma MatchesTermUpToCase(name: string, name': string, term: string, term': string)
    requires SameUpToCase(name, name') && SameUpToCase(term, term')
    ensures MatchesTerm(name, term) == MatchesTerm(name', term')
  {
    CaseVariantsLowerAlike(name, name');
    CaseVariantsLowerAlike(term, term');
  }

  /** An empty term matches every name. */
  lemma MatchesEmptyTerm(name: string)
    ensures MatchesTerm(name, "")
  {
    ContainsEmpty(Lower(name));
  }

  /** A name matches a term when the lower-cased term occurs in the
      lower-cased name at position `at`. */
  lemma MatchesAt(name: string, term: string, at: nat)
    requires at + |term| <= |name|
    requires Lower(name)[at..at + |term|] == Lower(term)
    ensures MatchesTerm(name, term)
  {
    ContainsIff(Lower(name), Lower(term));
    assert OccursAt(Lower(name), Lower(term), at);
  }

  // ---- decimal digits ----

  predicate IsDigit(c: char) { '0' <= c <= '9' }

  predicate AllDigits(s: string) { forall i :: 0 <= i < |s| ==> IsDigit(s[i]) }

  function DigitChar(d: nat): (c: char)
    requires d < 10
    ensures IsDigit(c) && c as int - '0' as int == d
  {
    ('0' as int + d) as char
  }

  /** The decimal text of a natural number, as JavaScript prints it: no
      leading zeros, and "0" for zero. */
  function NatToString(n: nat): (s: string)
    ensures |s| >= 1 && AllDigits(s)
    ensures n >= 10 <==> |s| >= 2
    ensures s[0] == '0' ==> n == 0
  {
    if n < 10 then [DigitChar(n)] else NatToString(n / 10) + [DigitChar(n % 10)]
  }

  /** The decimal text of an integer: a minus sign before negative ones. */
  function IntToString(n: int): (s: string)
    ensures |s| >= 1
    ensures n < 0 <==> s[0] == '-'
  {
    if n < 0 then "-" + NatToString(-n) else NatToString(n)
  }

  /** The value of a string of decimal digits, read left to right. */
  function DigitsValue(s: string): nat
    requires AllDigits(s)
  {
    if s == [] then 0
    else DigitsValue(s[..|s| - 1]) * 10 + (s[|s| - 1] as int - '0' as int)
  }

  /** Reading back the printed digits of `n` gives `n`. */
  lemma {:induction false} NatToStringRoundTrip(n: nat)
    ensures DigitsValue(NatToString(n)) == n
  {
    if n >= 10 {
      NatToStringRoundTrip(n / 10);
      var s := NatToString(n);
      assert s[..|s| - 1] == NatToString(n / 10);
    }
  }

  /** What `Number(text)` gives for the strings this model covers: the
      empty string is 0 and an optionally signed run of digits is that
      integer; anything else (fractions, exponents, NaN, whitespace) is
      outside the model. */
  datatype JsNumber = Int(value: int) | OutsideModel

  function ToNumber(s: string): (r: JsNumber)
    ensures s == "" ==> r == Int(0)
    ensures AllDigits(s) ==> r.Int? && r.value >= 0
  {
    if s == "" then Int(0)
    else if AllDigits(s) then Int(DigitsValue(s))
    else if |s| >= 2 && s[0] == '-' && AllDigits(s[1..]) then Int(-(DigitsValue(s[1..]) as int))
    else if |s| >= 2 && s[0] == '+' && AllDigits(s[1..]) then Int(DigitsValue(s[1..]))
    else OutsideModel
  }

  /** `Number(n.toString())` gives `n` back. */
  lemma IntToStringRoundTrip(n: int)
    ensures ToNumber(IntToString(n)) == Int(n)
  {
    if n < 0 {
      var s := IntToString(n);
      assert s[1..] == NatToString(-n);
      assert !IsDigit(s[0]);
      NatToStringRoundTrip(-n);
    } else {
      NatToStringRoundTrip(n);
    }
  }

  // ---- split and pop ----

  /** `s.split(sep)`, built by reading `s` from its end. */
  function SplitOn(s: string, sep: char): (parts: seq<string>)
    ensures |parts| >= 1
    ensures forall k :: 0 <= k < |parts| ==> sep !in parts[k]
    decreases |s|
  {
    if s == [] then [""]
    else
      var init := SplitOn(s[..|s| - 1], sep);
      var c := s[|s| - 1];
      if c == sep then init + [""]
      else init[..|init| - 1] + [init[|init| - 1] + [c]]
  }

  /** `parts.join(sep)`. */
  function JoinWith(parts: seq<string>, sep: char): string
    requires |parts| >= 1
  {
    if |parts| == 1 then parts[0]
    else JoinWith(parts[..|parts| - 1], sep) + [sep] + parts[|parts| - 1]
  }

  lemma {:induction false} JoinWithAppendToLast(parts: seq<string>, sep: char, c: char)
    requires |parts| >= 1
    ensures JoinWith(parts[..|parts| - 1] + [parts[|parts| - 1] + [c]], sep)
            == JoinWith(parts, sep) + [c]
  {
    var last := parts[|parts| - 1];
    var q := parts[..|parts| - 1] + [last + [c]];
    if |parts| > 1 {
      assert q[..|q| - 1] == parts[..|parts| - 1];
    }
  }

  /** Joining the pieces of a split with the same separator rebuilds the
      string. */
  lemma {:induction false} SplitJoinRoundTrip(s: string, sep: char)
    ensures JoinWith(SplitOn(s, sep), sep) == s
    decreases |s|
  {
    if s != [] {
      var init := SplitOn(s[..|s| - 1], sep);
      SplitJoinRoundTrip(s[..|s| - 1], sep);
      var c := s[|s| - 1];
      if c == sep {
        var parts := init + [""];
        assert parts[..|parts| - 1] == init;
      } else {
        JoinWithAppendToLast(init, sep, c);
      }
      assert s[..|s| - 1] + [c] == s;
    }
  }

  /** `name.split(".").pop()`: the text after the last dot, or the whole
      name when it holds no dot. */
  function FileExtension(name: string): string
  {
    var parts := SplitOn(name, '.');
    parts[|parts| - 1]
  }

  /** The extension is a dot-free suffix of the name; it is the whole name
      when there is no dot, and otherwise a dot stands right before it. */
  lemma {:induction false} FileExtensionSpec(name: string)
    ensures var ext := FileExtension(name);
      && '.' !in ext
      && |ext| <= |name| && name[|name| - |ext|..] == ext
      && ('.' !in name ==> ext == name)
      && ('.' in name ==> |ext| < |name| && name[|name| - |ext| - 1] == '.')
    decreases |name|
  {
    if name != [] {
      var init := name[..|name| - 1];
      var c := name[|name| - 1];
      FileExtensionSpec(init);
      assert name == init + [c];
      if c != '.' {
        assert '.' in name <==> '.' in init;
      }
    }
  }

  /** Whatever stands before the last dot, the extension is what follows it. */
  lemma {:induction false} FileExtensionAfterDot(front: string, ext: string)
    requires '.' !in ext
    ensures FileExtension(front + "." + ext) == ext
    decreases |ext|
  {
    var s := front + "." + ext;
    if ext != [] {
      var e := ext[..|ext| - 1];
      FileExtensionAfterDot(front, e);
      assert s[..|s| - 1] == front + "." + e;
    } else {
      assert s[..|s| - 1] == front;
    }
  }
}
