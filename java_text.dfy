/** The few java.lang.String and hutool StrUtil operations the services rely on.
    A Java String is a sequence of characters; a Java reference that may be
    null is an Option, and an exception that escapes a method is a Completion. */
module JavaText {

  datatype Option<+T> = None | Some(value: T)

  /** A Java String reference: None is null. */
  type JString = Option<string>

  /** How a Java call ends: normally with a value, or with an uncaught exception. */
  datatype Completion<+T> = Returns(value: T) | Throws

  /** How Java's string concatenation renders a reference: null becomes "null". */
  function Render(x: JString): (r: string)
    ensures x.Some? ==> r == x.value
    ensures x.None? ==> r == "null"
  {
    if x.Some? then x.value else "null"
  }

  /** String concatenation `s + x` in Java. */
  function Concat(s: string, x: JString): (r: string)
    ensures x.Some? ==> r == s + x.value
    ensures x.None? ==> r == s + "null"
  {
    s + Render(x)
  }

  /** Concatenation cannot tell null from the text "null": `s + x` and `s + y`
      are equal exactly when x and y are equal, or one is null and the other "null". */
  lemma ConcatConflatesNull(s: string, x: JString, y: JString)
    ensures Concat(s, x) == Concat(s, y) <==>
      x == y || (x == None && y == Some("null")) || (x == Some("null") && y == None)
  {
    if Concat(s, x) == Concat(s, y) {
      assert Render(x) == Concat(s, x)[|s|..];
      assert Render(y) == Concat(s, y)[|s|..];
    }
  }

  /* ---------- UTF-16: how Java counts a String ---------- */

  /** A UTF-16 code unit, a Java `char`. */
  newtype CodeUnit = x: int | 0 <= x < 0x1_0000

  /** The characters Java stores in one code unit: those of the Basic Multilingual Plane. */
  predicate InBmp(c: char)
  {
    (c as int) < 0x1_0000
  }

  predicate AllBmp(s: string)
  {
    forall k :: 0 <= k < |s| ==> InBmp(s[k])
  }

  /** The code units of one character: the character itself, or a surrogate
      pair for a character above U+FFFF. */
  function Encode(c: char): (r: seq<CodeUnit>)
    ensures |r| == if InBmp(c) then 1 else 2
    ensures !InBmp(c) ==> 0xD800 <= r[0] < 0xDC00 && 0xDC00 <= r[1] < 0xE000
  {
    if InBmp(c) then [c as int as CodeUnit]
    else
      var v := c as int - 0x1_0000;
      [(0xD800 + v / 0x400) as CodeUnit, (0xDC00 + v % 0x400) as CodeUnit]
  }

  /** The code units a Java String holds for a text. */
  function Utf16(s: string): seq<CodeUnit>
    decreases |s|
  {
    if s == [] then [] else Encode(s[0]) + Utf16(s[1..])
  }

  /** `s.length()`: the number of code units. */
  function JLength(s: string): nat
  {
    |Utf16(s)|
  }

  /** The index Java reports for character index `k` of `s`: the number of code
      units before it. Java's -1 for "not found" stays -1. */
  function JIndex(s: string, k: int): int
  {
    if 0 <= k <= |s| then JLength(s[..k]) else k
  }

  lemma {:induction false} Utf16Append(a: string, b: string)
    ensures Utf16(a + b) == Utf16(a) + Utf16(b)
    decreases |a|
  {
    if a == [] {
      assert a + b == b;
    } else {
      assert (a + b)[0] == a[0] && (a + b)[1..] == a[1..] + b;
      Utf16Append(a[1..], b);
    }
  }

  /** A text of the Basic Multilingual Plane is its own UTF-16 form. */
  lemma {:induction false} BmpUtf16(s: string)
    requires AllBmp(s)
    ensures |Utf16(s)| == |s| && forall k :: 0 <= k < |s| ==> Utf16(s)[k] == s[k] as int as CodeUnit
    decreases |s|
  {
    if s != [] {
      assert AllBmp(s[1..]) by {
        forall k | 0 <= k < |s[1..]|
          ensures InBmp(s[1..][k])
        {
          assert s[1..][k] == s[k + 1];
        }
      }
      BmpUtf16(s[1..]);
      forall k | 0 <= k < |s|
        ensures Utf16(s)[k] == s[k] as int as CodeUnit
      {
        if k > 0 {
          assert Utf16(s)[k] == Utf16(s[1..])[k - 1];
          assert s[1..][k - 1] == s[k];
        }
      }
    }
  }

  /** From one character index to the next, Java's index grows by that character's width. */
  lemma JIndexStep(s: string, k: nat)
    requires k < |s|
    ensures JIndex(s, k + 1) == JIndex(s, k) + |Encode(s[k])|
  {
    assert s[..k + 1] == s[..k] + [s[k]];
    Utf16Append(s[..k], [s[k]]);
    assert [s[k]][1..] == [];
  }

  /** Java's index counts at least one code unit per character. */
  lemma {:induction false} JIndexGrows(s: string, j: nat, k: nat)
    requires j <= k <= |s|
    ensures JIndex(s, j) + (k - j) <= JIndex(s, k)
    decreases k - j
  {
    if j < k {
      JIndexGrows(s, j, k - 1);
      JIndexStep(s, k - 1);
    }
  }

  /** Over characters of the Basic Multilingual Plane, Java's index moves one by one. */
  lemma {:induction false} JIndexOverBmp(s: string, j: nat, k: nat)
    requires j <= k <= |s| && AllBmp(s[j..k])
    ensures JIndex(s, k) == JIndex(s, j) + (k - j)
    decreases k - j
  {
    if j < k {
      var front, all := s[j..k - 1], s[j..k];
      assert AllBmp(front) by {
        forall m | 0 <= m < |front|
          ensures InBmp(front[m])
        {
          assert front[m] == all[m];
        }
      }
      JIndexOverBmp(s, j, k - 1);
      JIndexStep(s, k - 1);
      assert s[k - 1] == all[k - 1 - j];
    }
  }

  predicate OccursAt(s: string, pat: string, i: int)
  {
    0 <= i && i + |pat| <= |s| && s[i..i + |pat|] == pat
  }

  /** `s.indexOf(pat, from)`: the first occurrence at or after `from`, or -1. */
  function IndexFrom(s: string, pat: string, from: nat): int
    decreases |s| - from
  {
    if from + |pat| > |s| then -1
    else if s[from..from + |pat|] == pat then from
    else IndexFrom(s, pat, from + 1)
  }

  lemma {:induction false} IndexFromIsFirst(s: string, pat: string, from: nat)
    ensures var r := IndexFrom(s, pat, from);
      && (r == -1 || (from <= r && OccursAt(s, pat, r)))
      && (r == -1 ==> forall j :: from <= j ==> !OccursAt(s, pat, j))
      && (r != -1 ==> forall j :: from <= j < r ==> !OccursAt(s, pat, j))
    decreases |s| - from
  {
    if from + |pat| <= |s| && s[from..from + |pat|] != pat {
      IndexFromIsFirst(s, pat, from + 1);
      var r := IndexFrom(s, pat, from);
      assert r == IndexFrom(s, pat, from + 1);
      assert !OccursAt(s, pat, from);
    }
  }

  /** `s.indexOf(pat)` */
  function IndexOf(s: string, pat: string): int
  {
    IndexFrom(s, pat, 0)
  }

  /** `indexOf` finds the first occurrence, and -1 exactly when there is none. */
  lemma IndexOfIsFirst(s: string, pat: string)
    ensures var r := IndexOf(s, pat);
      && (r == -1 || OccursAt(s, pat, r))
      && (r == -1 <==> forall j :: !OccursAt(s, pat, j))
      && (r != -1 ==> forall j :: j < r ==> !OccursAt(s, pat, j))
  {
    IndexFromIsFirst(s, pat, 0);
  }

  /** `s.lastIndexOf(pat, upTo)`: the last occurrence starting at or before `upTo`, or -1. */
  function LastIndexUpTo(s: string, pat: string, upTo: int): int
    decreases upTo + 1
  {
    if upTo < 0 then -1
    else if OccursAt(s, pat, upTo) then upTo
    else LastIndexUpTo(s, pat, upTo - 1)
  }

  lemma {:induction false} LastIndexUpToIsLast(s: string, pat: string, upTo: int)
    ensures var r := LastIndexUpTo(s, pat, upTo);
      && (r == -1 || (r <= upTo && OccursAt(s, pat, r)))
      && (r == -1 ==> forall j :: j <= upTo ==> !OccursAt(s, pat, j))
      && (r != -1 ==> forall j :: r < j <= upTo ==> !OccursAt(s, pat, j))
    decreases upTo + 1
  {
    if upTo >= 0 && !OccursAt(s, pat, upTo) {
      LastIndexUpToIsLast(s, pat, upTo - 1);
      var r := LastIndexUpTo(s, pat, upTo);
      assert r == LastIndexUpTo(s, pat, upTo - 1);
      forall j | r < j <= upTo
        ensures !OccursAt(s, pat, j)
      {
        if j < upTo {
          assert r < j <= upTo - 1;
        }
      }
    }
  }

  /** `s.lastIndexOf(pat)` */
  function LastIndexOf(s: string, pat: string): int
  {
    LastIndexUpTo(s, pat, |s|)
  }

  /** `lastIndexOf` finds the last occurrence, and -1 exactly when there is none. */
  lemma LastIndexOfIsLast(s: string, pat: string)
    ensures var r := LastIndexOf(s, pat);
      && (r == -1 || OccursAt(s, pat, r))
      && (r == -1 <==> forall j :: !OccursAt(s, pat, j))
      && (r != -1 ==> forall j :: r < j ==> !OccursAt(s, pat, j))
  {
    LastIndexUpToIsLast(s, pat, |s|);
  }

  /** `s.substring(b, e)`: None is the StringIndexOutOfBoundsException Java throws. */
  function Substring<T>(s: seq<T>, b: int, e: int): (r: Option<seq<T>>)
    ensures r.Some? <==> 0 <= b <= e <= |s|
    ensures r.Some? ==> |r.value| == e - b && forall k :: 0 <= k < e - b ==> r.value[k] == s[b + k]
  {
    if 0 <= b <= e <= |s| then Some(s[b..e]) else None
  }

  /** Adjacent substrings join: `s.substring(b, e) + s.substring(e, f)` is
      `s.substring(b, f)`, and that one exists whenever the two parts do. */
  lemma SubstringJoin<T>(s: seq<T>, b: int, e: int, f: int)
    requires Substring(s, b, e).Some? && Substring(s, e, f).Some?
    ensures Substring(s, b, f) == Some(Substring(s, b, e).value + Substring(s, e, f).value)
  {
    assert s[b..e] + s[e..f] == s[b..f];
  }

  predicate StartsWith(s: string, p: string)
  {
    |p| <= |s| && s[..|p|] == p
  }

  predicate EndsWith(s: string, p: string)
  {
    |p| <= |s| && s[|s| - |p|..] == p
  }

  /** `String.trim()` drops leading and trailing characters whose code is at most U+0020. */
  predicate TrimmedAway(c: char)
  {
    c <= ' '
  }

  function TrimStart(s: string): (r: string)
    ensures |r| <= |s| && r == s[|s| - |r|..]
    ensures r == [] || !TrimmedAway(r[0])
    ensures forall k :: 0 <= k < |s| - |r| ==> TrimmedAway(s[k])
  {
    if s != [] && TrimmedAway(s[0]) then TrimStart(s[1..]) else s
  }

  function TrimEnd(s: string): (r: string)
    ensures |r| <= |s| && r == s[..|r|]
    ensures r == [] || !TrimmedAway(r[|r| - 1])
    ensures forall k :: |r| <= k < |s| ==> TrimmedAway(s[k])
  {
    if s != [] && TrimmedAway(s[|s| - 1]) then TrimEnd(s[..|s| - 1]) else s
  }

  function Trim(s: string): string
  {
    TrimEnd(TrimStart(s))
  }

  /** A text that starts with a non-space character and ends with one is its own trim. */
  lemma TrimKeepsBracedText(s: string)
    requires s != [] && !TrimmedAway(s[0]) && !TrimmedAway(s[|s| - 1])
    ensures Trim(s) == s
  {
  }

  /** The characters hutool's `StrUtil.isBlank` skips: Java whitespace and space
      separators, the byte-order mark, U+202A, U+0000, U+3164, U+2800 and U+180E. */
  predicate IsBlankChar(c: char)
  {
    c == ' ' || c == '\t' || c == '\n' || c == '\r' || c == '\U{000B}' || c == '\U{000C}'
    || ('\U{001C}' <= c <= '\U{001F}') || c == '\U{00A0}' || c == '\U{1680}'
    || ('\U{2000}' <= c <= '\U{200A}') || c == '\U{2028}' || c == '\U{2029}'
    || c == '\U{202F}' || c == '\U{205F}' || c == '\U{3000}' || c == '\U{FEFF}'
    || c == '\U{202A}' || c == '\U{0000}' || c == '\U{3164}' || c == '\U{2800}' || c == '\U{180E}'
  }

  /** Every character of `s` is blank. */
  predicate AllBlank(s: string)
    decreases |s|
  {
    s == [] || (IsBlankChar(s[0]) && AllBlank(s[1..]))
  }

  /** `StrUtil.isBlank`: null, empty, or made only of blank characters. */
  predicate IsBlank(x: JString)
  {
    x.None? || AllBlank(x.value)
  }

  /** `AllBlank` is the character-wise reading of `isBlank`. */
  lemma {:induction false} AllBlankMeansEveryChar(s: string)
    ensures AllBlank(s) <==> forall k :: 0 <= k < |s| ==> IsBlankChar(s[k])
    decreases |s|
  {
    if s != [] {
      AllBlankMeansEveryChar(s[1..]);
      assert forall k :: 1 <= k < |s| ==> s[k] == s[1..][k - 1];
    }
  }

  predicate IsNotBlank(x: JString)
  {
    !IsBlank(x)
  }
}
