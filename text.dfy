/**
 * The string operations the demo shell relies on: String::compare (the registry
 * order), trimming of leading digits and whitespace, first occurrence of a
 * character, and substring containment.
 */
module Text {

  /** A character of the set "0123456789" stripped from the start of a row label. */
  predicate IsDigit(c: char) { '0' <= c <= '9' }

  /** ASCII whitespace: space, tab, line feed, vertical tab, form feed, carriage return. */
  predicate IsWhitespace(c: char) { c == ' ' || ('\t' <= c <= '\r') }

  /**
   * Three-way comparison by character code; a proper prefix sorts first.
   * Only the sign matters to the sorter, so the result is -1, 0 or 1.
   */
  function Compare(a: string, b: string): (r: int)
    ensures -1 <= r <= 1
    ensures r == 0 <==> a == b
  {
    if a == [] then (if b == [] then 0 else -1)
    else if b == [] then 1
    else if a[0] < b[0] then -1
    else if a[0] > b[0] then 1
    else Compare(a[1..], b[1..])
  }

  lemma {:induction false} CompareAntisymmetric(a: string, b: string)
    ensures Compare(a, b) == -Compare(b, a)
  {
    if a != [] && b != [] && a[0] == b[0] {
      CompareAntisymmetric(a[1..], b[1..]);
    }
  }

  lemma {:induction false} CompareTransitive(a: string, b: string, c: string)
    requires Compare(a, b) <= 0 && Compare(b, c) <= 0
    ensures Compare(a, c) <= 0
  {
    if a != [] && b != [] && c != [] && a[0] == b[0] && b[0] == c[0] {
      CompareTransitive(a[1..], b[1..], c[1..]);
    }
  }

  lemma CompareStrictTransitive(a: string, b: string, c: string)
    requires Compare(a, b) < 0 && Compare(b, c) <= 0
    ensures Compare(a, c) < 0
  {
    CompareTransitive(a, b, c);
    if a == c {
      CompareAntisymmetric(a, b);
    }
  }

  /** The longest suffix of s that does not start with a character satisfying p. */
  function DropWhile(s: string, p: char -> bool): (r: string)
    ensures |r| <= |s| && r == s[|s| - |r|..]
    ensures r == [] || !p(r[0])
  {
    if s != [] && p(s[0]) then DropWhile(s[1..], p) else s
  }

  /** Every character DropWhile removes satisfies p. */
  lemma {:induction false} DropWhileDropsOnly(s: string, p: char -> bool)
    ensures forall i :: 0 <= i < |s| - |DropWhile(s, p)| ==> p(s[i])
  {
    if s != [] && p(s[0]) {
      var t := s[1..];
      DropWhileDropsOnly(t, p);
      forall i | 1 <= i < |s| - |DropWhile(s, p)|
        ensures p(s[i])
      {
        assert s[i] == t[i - 1];
      }
    }
  }

  /** DropWhile stops at the first character that fails p. */
  lemma {:induction false} DropWhileStopsAt(s: string, p: char -> bool, j: int)
    requires 0 <= j <= |s| && (forall i :: 0 <= i < j ==> p(s[i])) && (j == |s| || !p(s[j]))
    ensures DropWhile(s, p) == s[j..]
  {
    if j > 0 {
      assert p(s[0]);
      var t := s[1..];
      assert forall i :: 0 <= i < j - 1 ==> t[i] == s[i + 1];
      DropWhileStopsAt(t, p, j - 1);
      assert t[j - 1..] == s[j..];
    }
  }

  /** String::trimCharactersAtStart ("0123456789"): a suffix that does not start with a digit. */
  function StripLeadingDigits(s: string): (r: string)
    ensures |r| <= |s| && r == s[|s| - |r|..]
    ensures r == [] || !IsDigit(r[0])
  {
    DropWhile(s, IsDigit)
  }

  /** String::trimStart: a suffix that does not start with whitespace. */
  function TrimStart(s: string): (r: string)
    ensures |r| <= |s| && r == s[|s| - |r|..]
    ensures r == [] || !IsWhitespace(r[0])
  {
    DropWhile(s, IsWhitespace)
  }

  /** String::trimEnd: the longest prefix of s that does not end in whitespace. */
  function TrimEnd(s: string): (r: string)
    ensures |r| <= |s| && r == s[..|r|]
    ensures r == [] || !IsWhitespace(r[|r| - 1])
  {
    if s != [] && IsWhitespace(s[|s| - 1]) then TrimEnd(s[..|s| - 1]) else s
  }

  /** Every character TrimEnd removes is whitespace. */
  lemma {:induction false} TrimEndDropsOnly(s: string)
    ensures forall i :: |TrimEnd(s)| <= i < |s| ==> IsWhitespace(s[i])
  {
    if s != [] && IsWhitespace(s[|s| - 1]) {
      var t := s[..|s| - 1];
      TrimEndDropsOnly(t);
      forall i | |TrimEnd(s)| <= i < |s| - 1
        ensures IsWhitespace(s[i])
      {
        assert s[i] == t[i];
      }
    }
  }

  /** String::trim: whitespace removed from both ends. */
  function Trim(s: string): (r: string)
    ensures |r| <= |s|
    ensures r == [] || (!IsWhitespace(r[0]) && !IsWhitespace(r[|r| - 1]))
  {
    var t := TrimStart(s);
    var r := TrimEnd(t);
    assert r == [] || r[0] == t[0];
    r
  }

  /** A string that neither starts nor ends with whitespace is its own trim. */
  lemma TrimOfTrimmed(s: string)
    requires s == [] || (!IsWhitespace(s[0]) && !IsWhitespace(s[|s| - 1]))
    ensures Trim(s) == s
  {
  }

  /** Leading whitespace before a text without whitespace at its ends is trimmed away. */
  lemma TrimOfPadded(space: string, t: string)
    requires forall i :: 0 <= i < |space| ==> IsWhitespace(space[i])
    requires t == [] || (!IsWhitespace(t[0]) && !IsWhitespace(t[|t| - 1]))
    ensures Trim(space + t) == t
  {
    DropWhileStopsAt(space + t, IsWhitespace, |space|);
    assert (space + t)[|space|..] == t;
    TrimOfTrimmed(t);
  }

  /**
   * Every text is its leading whitespace, then its trimmed form, then its
   * trailing whitespace.
   */
  lemma TrimSplits(s: string)
    ensures var i := |s| - |TrimStart(s)|;
            var j := i + |Trim(s)|;
            j <= |s| && Trim(s) == s[i..j]
            && (forall k :: 0 <= k < i ==> IsWhitespace(s[k]))
            && (forall k :: j <= k < |s| ==> IsWhitespace(s[k]))
  {
    var t := TrimStart(s);
    var i := |s| - |t|;
    var r := TrimEnd(t);
    assert t == s[i..] && Trim(s) == r && r == t[..|r|];
    assert r == s[i..i + |r|];
    assert forall k :: 0 <= k < i ==> IsWhitespace(s[k]) by {
      DropWhileDropsOnly(s, IsWhitespace);
    }
    assert forall k :: i + |r| <= k < |s| ==> IsWhitespace(s[k]) by {
      TrimEndDropsOnly(t);
      forall k | i + |r| <= k < |s|
        ensures IsWhitespace(s[k])
      {
        assert s[k] == t[k - i];
      }
    }
  }

  /** Trimming a second time changes nothing. */
  lemma TrimIdempotent(s: string)
    ensures Trim(Trim(s)) == Trim(s)
  {
    TrimOfTrimmed(Trim(s));
  }

  /**
   * The first position of x in s, or -1: String::indexOfChar on the
   * characters of a string and StringArray::indexOf on a list of strings.
   */
  function IndexOf<T(==)>(s: seq<T>, x: T): (i: int)
    ensures -1 <= i < |s|
    ensures i == -1 <==> x !in s
    ensures 0 <= i ==> s[i] == x && x !in s[..i]
  {
    if s == [] then -1
    else if s[0] == x then 0
    else
      var j := IndexOf(s[1..], x);
      if j < 0 then -1 else j + 1
  }

  /** The first occurrence is the position of x that has no x before it. */
  lemma IndexOfIs<T>(s: seq<T>, x: T, i: int)
    requires 0 <= i < |s| && s[i] == x && x !in s[..i]
    ensures IndexOf(s, x) == i
  {
  }

  /** sub occurs in s starting at position i. */
  predicate OccursAt(s: string, sub: string, i: int)
  {
    0 <= i && i + |sub| <= |s| && s[i..i + |sub|] == sub
  }

  /** String::contains. */
  function Contains(s: string, sub: string): (b: bool)
    ensures b <==> exists i :: OccursAt(s, sub, i)
  {
    if |s| < |sub| then false
    else if s[..|sub|] == sub then
      assert OccursAt(s, sub, 0);
      true
    else
      var rest := Contains(s[1..], sub);
      ShiftOccurrence(s, sub);
      rest
  }

  /** Occurrences in s past position 0 are exactly the occurrences in s[1..], shifted by one. */
  lemma ShiftOccurrence(s: string, sub: string)
    requires s != [] && !OccursAt(s, sub, 0)
    ensures (exists i :: OccursAt(s, sub, i)) <==> (exists i :: OccursAt(s[1..], sub, i))
  {
    if i :| OccursAt(s, sub, i) {
      assert OccursAt(s[1..], sub, i - 1);
    }
    if i :| OccursAt(s[1..], sub, i) {
      assert s[i + 1..i + 1 + |sub|] == s[1..][i..i + |sub|];
      assert OccursAt(s, sub, i + 1);
    }
  }

  /** Appending is associative. */
  lemma AppendAssoc(a: string, b: string, c: string)
    ensures a + b + c == a + (b + c)
  {
  }

  /** A string is its first k characters followed by the rest. */
  lemma TakeDrop(t: string, k: int)
    requires 0 <= k <= |t|
    ensures t[..k] + t[k..] == t
  {
  }

  /** A property of the first m - k characters of s[k..] holds of s[k..m]. */
  lemma AllFromOffset(s: string, k: int, m: int, p: char -> bool)
    requires 0 <= k <= m <= |s|
    requires forall i :: 0 <= i < m - k ==> p(s[k..][i])
    ensures forall i :: k <= i < m ==> p(s[i])
  {
    forall i | k <= i < m
      ensures p(s[i])
    {
      assert s[i] == s[k..][i - k];
    }
  }
}
