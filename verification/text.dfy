/**
 * The three string operations of Python's `str` that the clients rely on:
 * `strip()` (on form fields), `lower()` (on the role) and `' '.join(...)`
 * (on the scope list), together with the space-delimited reading of a scope
 * string that section 3.3 of RFC 6749 prescribes to the authorization server.
 */
module Text {

  /**
   * Python's `str.isspace` for one character: the code points that
   * `strip()` with no argument removes.
   */
  predicate IsSpace(c: char) {
    var n := c as int;
    (9 <= n <= 13) || (28 <= n <= 32) || n == 0x85 || n == 0xA0 || n == 0x1680
    || (0x2000 <= n <= 0x200A) || n == 0x2028 || n == 0x2029 || n == 0x202F
    || n == 0x205F || n == 0x3000
  }

  predicate AllSpace(s: string) {
    forall i :: 0 <= i < |s| ==> IsSpace(s[i])
  }

  /** `s.lstrip()`: the suffix of `s` left once its leading whitespace is gone. */
  function TrimStart(s: string): (r: string)
    ensures |r| <= |s| && r == s[|s| - |r|..]
    ensures AllSpace(s[..|s| - |r|])
    ensures r != [] ==> !IsSpace(r[0])
    decreases |s|
  {
    if s != [] && IsSpace(s[0]) then TrimStart(s[1..]) else s
  }

  /** `s.rstrip()`: the prefix of `s` left once its trailing whitespace is gone. */
  function TrimEnd(s: string): (r: string)
    ensures |r| <= |s| && r == s[..|r|]
    ensures AllSpace(s[|r|..])
    ensures r != [] ==> !IsSpace(r[|r| - 1])
    decreases |s|
  {
    if s != [] && IsSpace(s[|s| - 1]) then
      var r := TrimEnd(s[..|s| - 1]);
      assert s[|r|..] == s[..|s| - 1][|r|..] + [s[|s| - 1]];
      r
    else s
  }

  /** `r` is `s[k..k + |r|]` for some `k`, with only whitespace before and after it. */
  predicate TrimmedSliceOf(s: string, r: string) {
    exists k :: 0 <= k <= |s| - |r| && r == s[k..k + |r|] && AllSpace(s[..k]) && AllSpace(s[k + |r|..])
  }

  /**
   * `s.strip()`: a slice of `s` with whitespace only on either side of it,
   * itself neither starting nor ending with whitespace.
   */
  function Strip(s: string): (r: string)
    ensures TrimmedSliceOf(s, r)
    ensures r != [] ==> !IsSpace(r[0]) && !IsSpace(r[|r| - 1])
  {
    StripIsTrimmedSlice(s);
    TrimEnd(TrimStart(s))
  }

  lemma StripIsTrimmedSlice(s: string)
    ensures TrimmedSliceOf(s, TrimEnd(TrimStart(s)))
  {
    var t := TrimStart(s);
    var r := TrimEnd(t);
    var k := |s| - |t|;
    assert s[k..k + |r|] == r;
    assert s[k + |r|..] == t[|r|..];
  }

  /** `strip()` leaves nothing exactly when the string is whitespace only (or empty). */
  lemma StripEmptyIffBlank(s: string)
    ensures Strip(s) == [] <==> AllSpace(s)
  {
  }

  /** `strip()` leaves a string alone that neither starts nor ends with whitespace. */
  lemma StripUnchanged(s: string)
    requires s != [] && !IsSpace(s[0]) && !IsSpace(s[|s| - 1])
    ensures Strip(s) == s
  {
  }

  /** Python's `lower()` on one character, for the ASCII letters. */
  function LowerChar(c: char): char {
    if 'A' <= c <= 'Z' then (c as int + 32) as char else c
  }

  /** `s.lower()`, character by character. */
  function Lower(s: string): (r: string)
    ensures |r| == |s|
    ensures forall i :: 0 <= i < |s| ==> r[i] == LowerChar(s[i])
  {
    seq(|s|, i requires 0 <= i < |s| => LowerChar(s[i]))
  }

  /** Lower-casing neither creates nor removes a space character. */
  lemma LowerKeepsSpaces(s: string)
    ensures ' ' in Lower(s) <==> ' ' in s
  {
  }

  lemma LowerAroundSpace(a: string, b: string)
    ensures Lower(a + " " + b) == Lower(a) + " " + Lower(b)
  {
  }

  /** `' '.join(parts)`: starts with the first part and ends with the last. */
  function Join(parts: seq<string>): (r: string)
    ensures parts == [] ==> r == ""
    ensures parts != [] ==> |parts[0]| <= |r| && r[..|parts[0]|] == parts[0]
    ensures parts != [] ==> |parts[|parts| - 1]| <= |r| && r[|r| - |parts[|parts| - 1]|..] == parts[|parts| - 1]
    decreases |parts|
  {
    if parts == [] then ""
    else if |parts| == 1 then parts[0]
    else parts[0] + " " + Join(parts[1..])
  }

  /** Joining `a + " " + b` as the last part is joining `a` and `b` as two parts. */
  lemma {:induction false} JoinLastWords(parts: seq<string>, a: string, b: string)
    ensures Join(parts + [a + " " + b]) == Join(parts + [a, b])
    decreases |parts|
  {
    var left, right := parts + [a + " " + b], parts + [a, b];
    if parts != [] {
      assert left[0] == right[0] == parts[0];
      assert left[1..] == parts[1..] + [a + " " + b];
      assert right[1..] == parts[1..] + [a, b];
      JoinLastWords(parts[1..], a, b);
      assert Join(left) == parts[0] + " " + Join(left[1..]);
      assert Join(right) == parts[0] + " " + Join(right[1..]);
    } else {
      assert right[1..] == [b];
      assert Join([b]) == b;
    }
  }

  /**
   * `s.split(' ')`: the pieces between single space characters; two adjacent
   * spaces give an empty piece, and there is always at least one piece.
   */
  function Split(s: string): (r: seq<string>)
    ensures |r| >= 1
    decreases |s|
  {
    if s == [] then [""]
    else
      var rest := Split(s[1..]);
      if s[0] == ' ' then [""] + rest else [[s[0]] + rest[0]] + rest[1..]
  }

  predicate NoSpaceIn(parts: seq<string>) {
    forall i :: 0 <= i < |parts| ==> ' ' !in parts[i]
  }

  lemma {:induction false} SplitWord(p: string)
    requires ' ' !in p
    ensures Split(p) == [p]
    decreases |p|
  {
    if p != [] {
      SplitWord(p[1..]);
      assert [p[0]] + p[1..] == p;
    }
  }

  lemma {:induction false} SplitWordThen(p: string, q: string)
    requires ' ' !in p
    ensures Split(p + " " + q) == [p] + Split(q)
    decreases |p|
  {
    var s := p + " " + q;
    if p == [] {
      assert s[0] == ' ' && s[1..] == q;
    } else {
      assert s[0] == p[0] && s[1..] == p[1..] + " " + q;
      SplitWordThen(p[1..], q);
      assert [p[0]] + p[1..] == p;
    }
  }

  /**
   * Joining non-empty lists of space-free words with single spaces and
   * splitting the result on spaces gives back exactly the words.
   */
  lemma {:induction false} SplitJoin(parts: seq<string>)
    requires |parts| >= 1 && NoSpaceIn(parts)
    ensures Split(Join(parts)) == parts
    decreases |parts|
  {
    assert ' ' !in parts[0];
    if |parts| == 1 {
      SplitWord(parts[0]);
    } else {
      SplitWordThen(parts[0], Join(parts[1..]));
      assert NoSpaceIn(parts[1..]) by {
        forall i | 0 <= i < |parts[1..]| ensures ' ' !in parts[1..][i] {
          assert parts[1..][i] == parts[i + 1];
        }
      }
      SplitJoin(parts[1..]);
      assert [parts[0]] + parts[1..] == parts;
    }
  }

  lemma NoSpaceInAppend(parts: seq<string>, word: string)
    requires NoSpaceIn(parts) && ' ' !in word
    ensures NoSpaceIn(parts + [word])
  {
  }

  /**
   * A last part `a b` of a space-joined list is read back, on spaces, as the
   * two parts `a` and `b`.
   */
  lemma SplitJoinLastTwo(parts: seq<string>, a: string, b: string)
    requires NoSpaceIn(parts) && ' ' !in a && ' ' !in b
    ensures Split(Join(parts + [a + " " + b])) == parts + [a, b]
  {
    JoinLastWords(parts, a, b);
    NoSpaceInAppend(parts, a);
    NoSpaceInAppend(parts + [a], b);
    assert parts + [a] + [b] == parts + [a, b];
    SplitJoin(parts + [a, b]);
  }
}
