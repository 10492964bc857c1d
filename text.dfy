/** The string operations of Python that the modelled code relies on, restricted
    to ASCII: `str.lower`, `str.upper`, `str.strip`, `in` on strings,
    `str.startswith`, slicing, `str.split` on one separator, `str.join`,
    `str.replace` on one character, `str.title` and rendering a count in
    decimal. */
module Text {

  /** Concatenation regroups freely. */
  lemma AppendAssoc<T>(a: seq<T>, b: seq<T>, c: seq<T>)
    ensures a + b + c == a + (b + c)
  {
  }

  // ---------------------------------------------------------------------
  // Case
  // ---------------------------------------------------------------------

  predicate IsUpperAscii(c: char) { 'A' <= c <= 'Z' }
  predicate IsLowerAscii(c: char) { 'a' <= c <= 'z' }
  predicate IsLetterAscii(c: char) { IsUpperAscii(c) || IsLowerAscii(c) }

  function LowerChar(c: char): (r: char)
    ensures !IsUpperAscii(r)
    ensures !IsUpperAscii(c) ==> r == c
  {
    if IsUpperAscii(c) then (c as int + 32) as char else c
  }

  function UpperChar(c: char): (r: char)
    ensures !IsLowerAscii(r)
    ensures !IsLowerAscii(c) ==> r == c
  {
    if IsLowerAscii(c) then (c as int - 32) as char else c
  }

  /** `s.lower()` on ASCII letters. */
  function Lower(s: string): (r: string)
    ensures |r| == |s|
    ensures forall i :: 0 <= i < |s| ==> r[i] == LowerChar(s[i])
  {
    if s == [] then [] else [LowerChar(s[0])] + Lower(s[1..])
  }

  /** `s.upper()` on ASCII letters. */
  function Upper(s: string): (r: string)
    ensures |r| == |s|
    ensures forall i :: 0 <= i < |s| ==> r[i] == UpperChar(s[i])
  {
    if s == [] then [] else [UpperChar(s[0])] + Upper(s[1..])
  }

  /** `s.title()`: a letter that follows a letter is lower-cased, any other
      letter is upper-cased. */
  function Title(s: string): (r: string)
    ensures |r| == |s|
    ensures forall i :: 0 <= i < |s| ==>
              r[i] == if 0 < i && IsLetterAscii(s[i - 1]) then LowerChar(s[i]) else UpperChar(s[i])
  {
    TitleAfter(s, false)
  }

  /** Title-casing of `s` when the character before it was a letter or not. */
  function TitleAfter(s: string, afterLetter: bool): (r: string)
    ensures |r| == |s|
    ensures forall i :: 0 <= i < |s| ==> (IsLetterAscii(s[i]) <==> IsLetterAscii(r[i]))
    ensures forall i :: 0 <= i < |s| ==>
              r[i] == if (if i == 0 then afterLetter else IsLetterAscii(s[i - 1])) then LowerChar(s[i])
                      else UpperChar(s[i])
  {
    if s == [] then []
    else
      var c := if afterLetter then LowerChar(s[0]) else UpperChar(s[0]);
      [c] + TitleAfter(s[1..], IsLetterAscii(s[0]))
  }

  /** `s.replace(a, b)` for single characters. */
  function ReplaceChar(s: string, a: char, b: char): (r: string)
    ensures |r| == |s|
    ensures forall i :: 0 <= i < |s| ==> r[i] == (if s[i] == a then b else s[i])
  {
    if s == [] then [] else [if s[0] == a then b else s[0]] + ReplaceChar(s[1..], a, b)
  }

  // ---------------------------------------------------------------------
  // Whitespace
  // ---------------------------------------------------------------------

  /** The ASCII characters for which Python's `str.isspace` holds. */
  predicate IsSpace(c: char) {
    c == ' ' || 9 <= c as int <= 13 || 28 <= c as int <= 31
  }

  function TrimStart(s: string): (r: string)
    ensures |r| <= |s| && r == s[|s| - |r|..]
    ensures r != [] ==> !IsSpace(r[0])
  {
    if s != [] && IsSpace(s[0]) then TrimStart(s[1..]) else s
  }

  /** A leading white-space character does not survive stripping. */
  lemma {:induction false} TrimStartSpace(c: char, s: string)
    requires IsSpace(c)
    ensures TrimStart([c] + s) == TrimStart(s)
  {
    assert ([c] + s)[1..] == s;
  }

  /** A character that is not white space survives stripping. */
  lemma {:induction false} TrimStartKeeps(s: string, c: char)
    requires c in s && !IsSpace(c)
    ensures c in TrimStart(s)
  {
    if IsSpace(s[0]) {
      assert s == [s[0]] + s[1..];
      TrimStartKeeps(s[1..], c);
    }
  }

  /** A string that neither starts nor ends with white space is already
      stripped. */
  lemma {:induction false} StripUnchanged(s: string)
    requires s != [] && !IsSpace(s[0]) && !IsSpace(s[|s| - 1])
    ensures Strip(s) == s
  {
    assert TrimStart(s) == s;
  }

  function TrimEnd(s: string): (r: string)
    ensures |r| <= |s| && r == s[..|r|]
    ensures r != [] ==> !IsSpace(r[|r| - 1])
  {
    if s != [] && IsSpace(s[|s| - 1]) then TrimEnd(s[..|s| - 1]) else s
  }

  lemma {:induction false} TrimEndKeeps(s: string, c: char)
    requires c in s && !IsSpace(c)
    ensures c in TrimEnd(s)
  {
    if IsSpace(s[|s| - 1]) {
      assert s == s[..|s| - 1] + [s[|s| - 1]];
      TrimEndKeeps(s[..|s| - 1], c);
    }
  }

  lemma {:induction false} StripKeeps(s: string, c: char)
    requires c in s && !IsSpace(c)
    ensures c in Strip(s)
  {
    TrimStartKeeps(s, c);
    TrimEndKeeps(TrimStart(s), c);
  }

  /** Stripping the start of `s + [c]` reaches `c` only when `s` is all
      white space. */
  lemma {:induction false} TrimStartSnoc(s: string, c: char)
    requires IsSpace(c)
    ensures TrimStart(s) == [] ==> TrimStart(s + [c]) == []
    ensures TrimStart(s) != [] ==> TrimStart(s + [c]) == TrimStart(s) + [c]
  {
    if s == [] {
      assert [c][1..] == [];
    } else if IsSpace(s[0]) {
      TrimStartSnoc(s[1..], c);
      assert (s + [c])[1..] == s[1..] + [c];
      assert TrimStart(s + [c]) == TrimStart(s[1..] + [c]);
      assert TrimStart(s) == TrimStart(s[1..]);
    } else {
      assert (s + [c])[0] == s[0];
    }
  }

  /** A trailing white-space character does not survive stripping the end. */
  lemma {:induction false} TrimEndSpace(s: string, c: char)
    requires IsSpace(c)
    ensures TrimEnd(s + [c]) == TrimEnd(s)
  {
    assert (s + [c])[..|s|] == s;
  }

  /** A trailing white-space character does not survive stripping. */
  lemma {:induction false} StripSpaceEnd(s: string, c: char)
    requires IsSpace(c)
    ensures Strip(s + [c]) == Strip(s)
  {
    TrimStartSnoc(s, c);
    if TrimStart(s) != [] {
      TrimEndSpace(TrimStart(s), c);
    }
  }

  /** Stripping ignores white space added on both sides. */
  lemma {:induction false} StripPadded(s: string, c: char)
    requires IsSpace(c)
    ensures Strip([c] + s + [c]) == Strip(s)
  {
    assert [c] + s + [c] == [c] + (s + [c]);
    TrimStartSpace(c, s + [c]);
    StripSpaceEnd(s, c);
  }

  /** Trailing text never strips into a prefix that ends in a non-space. */
  lemma {:induction false} TrimEndKeepsPrefix(a: string, b: string)
    requires a != [] && !IsSpace(a[|a| - 1])
    ensures TrimEnd(a + b) == a + TrimEnd(b)
  {
    if b != [] && IsSpace(b[|b| - 1]) {
      TrimEndKeepsPrefix(a, b[..|b| - 1]);
      assert (a + b)[..|a + b| - 1] == a + b[..|b| - 1];
    }
  }

  /** Text after a prefix that neither starts nor ends with white space is
      stripped only at its end. */
  lemma {:induction false} StripAfterPrefix(a: string, b: string)
    requires a != [] && !IsSpace(a[0]) && !IsSpace(a[|a| - 1])
    ensures Strip(a + b) == a + TrimEnd(b)
    ensures StartsWith(Strip(a + b), a)
  {
    assert (a + b)[0] == a[0];
    assert TrimStart(a + b) == a + b;
    TrimEndKeepsPrefix(a, b);
    assert (a + TrimEnd(b))[..|a|] == a;
  }

  /** Stripping keeps a string free of upper-case letters. */
  lemma {:induction false} StripKeepsNoUpper(s: string)
    requires forall k :: 0 <= k < |s| ==> !IsUpperAscii(s[k])
    ensures forall k :: 0 <= k < |Strip(s)| ==> !IsUpperAscii(Strip(s)[k])
  {
    var t := TrimStart(s);
    var r := TrimEnd(t);
    forall k | 0 <= k < |r| ensures !IsUpperAscii(r[k]) {
      assert r[k] == t[k] == s[|s| - |t| + k];
    }
  }

  /** `s.strip()`. */
  function Strip(s: string): (r: string)
    ensures |r| <= |s|
    ensures r != [] ==> !IsSpace(r[0]) && !IsSpace(r[|r| - 1])
  {
    TrimEnd(TrimStart(s))
  }

  // ---------------------------------------------------------------------
  // Prefixes, slices, substrings
  // ---------------------------------------------------------------------

  /** `s.startswith(p)`. */
  predicate StartsWith(s: string, p: string) {
    |p| <= |s| && s[..|p|] == p
  }

  /** The slice `s[n:]`, which is empty when `n` is past the end. */
  function Drop(s: string, n: nat): (r: string)
    ensures |r| == if n <= |s| then |s| - n else 0
  {
    if n <= |s| then s[n..] else []
  }

  /** Dropping past a prefix drops into the rest. */
  lemma {:induction false} DropConcat(a: string, b: string, n: nat)
    requires |a| <= n
    ensures Drop(a + b, n) == Drop(b, n - |a|)
  {
    if n <= |a + b| {
      assert (a + b)[n..] == b[n - |a|..];
    }
  }

  /** The slice `s[:n]`. */
  function Take<T>(s: seq<T>, n: nat): (r: seq<T>)
    ensures |r| == if n <= |s| then n else |s|
    ensures r == s[..|r|]
  {
    if n <= |s| then s[..n] else s
  }

  /** `sub in s` for strings: `sub` occurs in `s` at some position. */
  predicate Contains(s: string, sub: string) {
    StartsWith(s, sub) || (s != [] && Contains(s[1..], sub))
  }

  lemma {:induction false} ContainsAt(s: string, sub: string, i: nat)
    requires i + |sub| <= |s| && s[i..i + |sub|] == sub
    ensures Contains(s, sub)
  {
    if i > 0 {
      assert s[1..][i - 1..i - 1 + |sub|] == sub;
      ContainsAt(s[1..], sub, i - 1);
    }
  }

  lemma {:induction false} ContainsWitness(s: string, sub: string) returns (i: nat)
    requires Contains(s, sub)
    ensures i + |sub| <= |s| && s[i..i + |sub|] == sub
  {
    if StartsWith(s, sub) {
      i := 0;
    } else {
      var j := ContainsWitness(s[1..], sub);
      i := j + 1;
      assert s[i..i + |sub|] == s[1..][j..j + |sub|];
    }
  }

  /** A substring of a part of a concatenation is a substring of the whole. */
  lemma {:induction false} ContainsInConcat(a: string, b: string, sub: string)
    ensures Contains(a, sub) ==> Contains(a + b, sub)
    ensures Contains(b, sub) ==> Contains(a + b, sub)
  {
    if Contains(a, sub) {
      var i := ContainsWitness(a, sub);
      assert (a + b)[i..i + |sub|] == a[i..i + |sub|];
      ContainsAt(a + b, sub, i);
    }
    if Contains(b, sub) {
      var i := ContainsWitness(b, sub);
      assert (a + b)[|a| + i..|a| + i + |sub|] == b[i..i + |sub|];
      ContainsAt(a + b, sub, |a| + i);
    }
  }

  /** Containment is transitive. */
  lemma {:induction false} ContainsTrans(a: string, b: string, c: string)
    requires Contains(a, b) && Contains(b, c)
    ensures Contains(a, c)
  {
    var i := ContainsWitness(a, b);
    var j := ContainsWitness(b, c);
    assert a[i..i + |b|] == b;
    forall k | 0 <= k < |c| ensures a[i + j + k] == c[k] {
      assert a[i..i + |b|][j + k] == b[j + k];
      assert b[j..j + |c|][k] == c[k];
    }
    assert a[i + j..i + j + |c|] == c;
    ContainsAt(a, c, i + j);
  }

  /** The stripped string is a substring of the original. */
  lemma {:induction false} StripContained(s: string)
    ensures Contains(s, Strip(s))
  {
    var t := TrimStart(s);
    var r := TrimEnd(t);
    var i := |s| - |t|;
    assert r == s[i..i + |r|];
    ContainsAt(s, r, i);
  }

  /** Every character of a substring occurs in the string. */
  lemma {:induction false} ContainedChars(s: string, sub: string)
    requires Contains(s, sub)
    ensures forall c :: c in sub ==> c in s
  {
    var i := ContainsWitness(s, sub);
    forall k | 0 <= k < |sub| ensures sub[k] in s {
      assert s[i..i + |sub|][k] == s[i + k];
    }
  }

  /** A string without upper-case letters is its own lower-case form. */
  lemma {:induction false} LowerOfLower(s: string)
    requires forall i :: 0 <= i < |s| ==> !IsUpperAscii(s[i])
    ensures Lower(s) == s
  {
  }

  // ---------------------------------------------------------------------
  // Splitting and joining on one character
  // ---------------------------------------------------------------------

  /** `s.split(sep)`: the pieces between the separators, never an empty list
      (the empty string splits into one empty piece). */
  function Split(s: string, sep: char): (r: seq<string>)
    ensures |r| >= 1
    ensures forall k :: 0 <= k < |r| ==> sep !in r[k]
  {
    if s == [] then [[]]
    else if s[0] == sep then [[]] + Split(s[1..], sep)
    else
      var rest := Split(s[1..], sep);
      [[s[0]] + rest[0]] + rest[1..]
  }

  /** `sep.join(parts)`. */
  function Join(parts: seq<string>, sep: char): string
    requires |parts| >= 1
  {
    if |parts| == 1 then parts[0] else parts[0] + [sep] + Join(parts[1..], sep)
  }

  /** Joining the pieces again gives back the string that was split. */
  lemma {:induction false} JoinSplit(s: string, sep: char)
    ensures Join(Split(s, sep), sep) == s
  {
    if s == [] {
    } else if s[0] == sep {
      JoinSplit(s[1..], sep);
    } else {
      var rest := Split(s[1..], sep);
      JoinSplit(s[1..], sep);
      if |rest| == 1 {
        assert Split(s, sep) == [[s[0]] + rest[0]];
      } else {
        assert Split(s, sep) == [[s[0]] + rest[0]] + rest[1..];
        assert Join(rest, sep) == rest[0] + [sep] + Join(rest[1..], sep);
      }
    }
  }

  /** The number of pieces is one more than the number of separators. */
  lemma {:induction false} SplitCount(s: string, sep: char)
    ensures |Split(s, sep)| == multiset(s)[sep] + 1
  {
    if s != [] {
      SplitCount(s[1..], sep);
      assert s == [s[0]] + s[1..];
      assert multiset(s) == multiset{s[0]} + multiset(s[1..]);
    }
  }

  /** A string without the separator is one piece. */
  lemma {:induction false} SplitFree(s: string, sep: char)
    requires sep !in s
    ensures Split(s, sep) == [s]
  {
    if s != [] {
      assert s == [s[0]] + s[1..];
      SplitFree(s[1..], sep);
    }
  }

  /** Text without the separator in front of a string joins its first piece. */
  lemma {:induction false} SplitPrepend(c: string, b: string, sep: char)
    requires sep !in c
    ensures Split(c + b, sep) == [c + Split(b, sep)[0]] + Split(b, sep)[1..]
  {
    if c == [] {
      var parts := Split(b, sep);
      assert c + b == b && c + parts[0] == parts[0];
      assert parts == [parts[0]] + parts[1..];
    } else {
      assert c == [c[0]] + c[1..];
      assert (c + b)[0] == c[0] && (c + b)[1..] == c[1..] + b;
      SplitPrepend(c[1..], b, sep);
      assert [c[0]] + (c[1..] + Split(b, sep)[0]) == c + Split(b, sep)[0];
    }
  }

  /** A separator after separator-free text ends a piece there. */
  lemma {:induction false} SplitAtSeparator(a: string, b: string, sep: char)
    requires sep !in a
    ensures Split(a + [sep] + b, sep) == [a] + Split(b, sep)
  {
    assert a + [sep] + b == a + ([sep] + b);
    assert ([sep] + b)[1..] == b;
    SplitPrepend(a, [sep] + b, sep);
    assert a + [] == a;
  }

  /** `[p.strip() for p in parts]`. */
  function StripAll(parts: seq<string>): (r: seq<string>)
    ensures |r| == |parts|
    ensures forall k :: 0 <= k < |parts| ==> r[k] == Strip(parts[k])
  {
    if parts == [] then [] else [Strip(parts[0])] + StripAll(parts[1..])
  }

  /** `s.replace(c, "")`. */
  function RemoveChar(s: string, c: char): (r: string)
    ensures forall x :: x in r <==> x in s && x != c
  {
    if s == [] then []
    else
      assert forall x :: x in s <==> x == s[0] || x in s[1..];
      (if s[0] == c then [] else [s[0]]) + RemoveChar(s[1..], c)
  }

  /** `s.isdigit()` on ASCII: at least one character, and only decimal digits. */
  predicate IsDigits(s: string) {
    s != [] && forall i :: 0 <= i < |s| ==> '0' <= s[i] <= '9'
  }

  predicate HasLetter(s: string) {
    exists i :: 0 <= i < |s| && IsLetterAscii(s[i])
  }

  /** A letter anywhere in a concatenation is a letter of the whole. */
  lemma {:induction false} HasLetterIn(a: string, b: string, c: string)
    requires HasLetter(b)
    ensures HasLetter(a + b + c)
  {
    var i :| 0 <= i < |b| && IsLetterAscii(b[i]);
    assert (a + b + c)[|a| + i] == b[i];
  }

  // ---------------------------------------------------------------------
  // Decimal rendering
  // ---------------------------------------------------------------------

  function DigitChar(d: nat): (c: char)
    requires d < 10
    ensures '0' <= c <= '9'
  {
    ('0' as int + d) as char
  }

  /** `str(n)` for a natural number. */
  function NatToString(n: nat): (r: string)
    ensures |r| >= 1
    ensures forall k :: 0 <= k < |r| ==> '0' <= r[k] <= '9'
  {
    if n < 10 then [DigitChar(n)] else NatToString(n / 10) + [DigitChar(n % 10)]
  }

  // ---------------------------------------------------------------------
  // Joining with a string separator
  // ---------------------------------------------------------------------

  /** `sep.join(parts)` for a separator of any length; no parts give "". */
  function JoinWith(parts: seq<string>, sep: string): string {
    if parts == [] then ""
    else if |parts| == 1 then parts[0]
    else parts[0] + sep + JoinWith(parts[1..], sep)
  }

  lemma {:induction false} ContainsSelf(s: string)
    ensures Contains(s, s)
  {
    assert s[0..|s|] == s;
    ContainsAt(s, s, 0);
  }

  /** Every part occurs in the joined string. */
  lemma {:induction false} JoinWithContains(parts: seq<string>, sep: string, k: nat)
    requires k < |parts|
    ensures Contains(JoinWith(parts, sep), parts[k])
  {
    if |parts| == 1 {
      ContainsSelf(parts[0]);
    } else if k == 0 {
      ContainsSelf(parts[0]);
      ContainsInConcat(parts[0], sep, parts[0]);
      ContainsInConcat(parts[0] + sep, JoinWith(parts[1..], sep), parts[0]);
    } else {
      JoinWithContains(parts[1..], sep, k - 1);
      ContainsInConcat(parts[0] + sep, JoinWith(parts[1..], sep), parts[k]);
    }
  }

  /** Lower-casing commutes with concatenation. */
  lemma {:induction false} LowerConcat(a: string, b: string)
    ensures Lower(a + b) == Lower(a) + Lower(b)
  {
  }
}
