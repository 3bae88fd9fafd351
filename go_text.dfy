/** The pieces of Go's text packages that t-plot relies on: unicode.IsSpace,
    strings.Fields, strings.Repeat and the first-rune decoding of
    utf8.DecodeRuneInString.

    A Go string is modelled as its sequence of runes (`string` = `seq<char>`),
    so utf8.RuneCountInString(s) is `|s|`. */
module GoText {

  /** unicode.IsSpace: the Latin-1 spaces '\t', '\n', '\v', '\f', '\r', ' ',
      U+0085 and U+00A0, and the other code points with the Unicode
      White_Space property. Among ASCII runes it agrees with the table of
      '\t', '\n', '\v', '\f', '\r' and ' ' that strings.Fields uses on ASCII
      input. */
  predicate IsSpace(c: char): (b: bool)
    ensures c as int < 0x80 ==>
              (b <==> c == '\t' || c == '\n' || c == '\U{000B}' || c == '\U{000C}' || c == '\r' || c == ' ')
  {
    var n := c as int;
    (9 <= n <= 13) || n == 0x20 || n == 0x85 || n == 0xA0 || n == 0x1680
    || (0x2000 <= n <= 0x200A) || n == 0x2028 || n == 0x2029 || n == 0x202F
    || n == 0x205F || n == 0x3000
  }

  /** A field as strings.Fields returns it: non-empty and free of spaces. */
  predicate IsWord(w: string) {
    |w| > 0 && forall k :: 0 <= k < |w| ==> !IsSpace(w[k])
  }

  /** The length of the longest prefix of `s` that holds no space: the index of
      the first space, or `|s|` if there is none. */
  function WordLen(s: string): (n: nat)
    ensures n <= |s|
    ensures forall k :: 0 <= k < n ==> !IsSpace(s[k])
    ensures n < |s| ==> IsSpace(s[n])
  {
    if s == [] || IsSpace(s[0]) then 0 else 1 + WordLen(s[1..])
  }

  /** strings.Fields: the maximal runs of non-space runes of `s`, in order. */
  function Fields(s: string): (fs: seq<string>)
    ensures forall i :: 0 <= i < |fs| ==> IsWord(fs[i])
    decreases |s|
  {
    if s == [] then []
    else if IsSpace(s[0]) then Fields(s[1..])
    else
      var n := WordLen(s);
      [s[..n]] + Fields(s[n..])
  }

  /** A string made only of spaces has no fields. */
  lemma {:induction false} FieldsOfSpaces(s: string)
    requires forall k :: 0 <= k < |s| ==> IsSpace(s[k])
    ensures Fields(s) == []
    decreases |s|
  {
    if s != [] {
      FieldsOfSpaces(s[1..]);
    }
  }

  /** A single word is its own only field. */
  lemma FieldsOfWord(w: string)
    requires IsWord(w)
    ensures Fields(w) == [w]
  {
    assert WordLen(w) == |w|;
    assert w[..|w|] == w;
    assert w[|w|..] == [];
    assert Fields(w) == [w[..|w|]] + Fields(w[|w|..]);
  }

  /** WordLen is the only length with its three properties. */
  lemma WordLenUnique(s: string, n: nat)
    requires n <= |s|
    requires forall k :: 0 <= k < n ==> !IsSpace(s[k])
    requires n < |s| ==> IsSpace(s[n])
    ensures WordLen(s) == n
  {
  }

  /** The first word of `a + [c] + b` lies within `a` when `c` is a space. */
  lemma WordLenBeforeSpace(a: string, c: char, b: string)
    requires IsSpace(c)
    ensures WordLen(a + [c] + b) == WordLen(a)
  {
    var x := a + [c] + b;
    var m := WordLen(a);
    assert forall k :: 0 <= k < m ==> x[k] == a[k];
    assert x[m] == if m < |a| then a[m] else c;
    WordLenUnique(x, m);
  }

  /** A space splits a string into two parts whose fields are simply
      concatenated: no field reaches across a space. */
  lemma {:induction false} FieldsSplit(a: string, c: char, b: string)
    requires IsSpace(c)
    ensures Fields(a + [c] + b) == Fields(a) + Fields(b)
    decreases |a|
  {
    var x := a + [c] + b;
    if a == [] {
      assert x[1..] == b;
    } else if IsSpace(a[0]) {
      assert x[1..] == a[1..] + [c] + b;
      FieldsSplit(a[1..], c, b);
    } else {
      var m := WordLen(a);
      WordLenBeforeSpace(a, c, b);
      assert x[..m] == a[..m];
      assert x[m..] == a[m..] + [c] + b;
      FieldsSplit(a[m..], c, b);
    }
  }

  /** The words of `ws` joined by single spaces, as strings.Join(ws, " ") gives. */
  function JoinWithSpace(ws: seq<string>): string {
    if |ws| == 0 then ""
    else if |ws| == 1 then ws[0]
    else ws[0] + " " + JoinWithSpace(ws[1..])
  }

  /** strings.Fields undoes a join of words with single spaces. */
  lemma {:induction false} FieldsOfJoin(ws: seq<string>)
    requires forall i :: 0 <= i < |ws| ==> IsWord(ws[i])
    ensures Fields(JoinWithSpace(ws)) == ws
  {
    if |ws| == 0 {
    } else if |ws| == 1 {
      FieldsOfWord(ws[0]);
    } else {
      FieldsSplit(ws[0], ' ', JoinWithSpace(ws[1..]));
      FieldsOfWord(ws[0]);
      FieldsOfJoin(ws[1..]);
      assert ws == [ws[0]] + ws[1..];
    }
  }

  /** strings.Repeat of a one-rune string `n` times. */
  function Repeat(c: char, n: nat): (r: string)
    ensures |r| == n
    ensures forall k :: 0 <= k < n ==> r[k] == c
  {
    if n == 0 then [] else [c] + Repeat(c, n - 1)
  }

  /** utf8.RuneError, the rune DecodeRuneInString gives for an empty string. */
  const RuneError: char := '\U{FFFD}'

  /** The rune utf8.DecodeRuneInString decodes from the front of `s`. */
  function FirstRune(s: string): (r: char)
    ensures |s| > 0 ==> r == s[0]
    ensures |s| == 0 ==> r == RuneError
  {
    if |s| == 0 then RuneError else s[0]
  }
}
