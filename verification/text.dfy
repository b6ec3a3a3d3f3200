/** Character-level string helpers: `Array.prototype.join`, splitting on a
    separator (the inverse of join), and `String.prototype.trim`. */
module Text {

  /** `items.join([sep])`: the empty list joins to "". */
  function Join(items: seq<string>, sep: char): string
  {
    if |items| == 0 then ""
    else if |items| == 1 then items[0]
    else items[0] + [sep] + Join(items[1..], sep)
  }

  /** Splits `s` at every occurrence of `sep`; always yields at least one piece. */
  function Split(s: string, sep: char): (pieces: seq<string>)
    ensures |pieces| >= 1
    ensures sep !in s ==> pieces == [s]
  {
    if |s| == 0 then [""]
    else
      var rest := Split(s[1..], sep);
      if s[0] == sep then [""] + rest
      else
        assert sep !in s ==> sep !in s[1..] && [s[0]] + s[1..] == s;
        [[s[0]] + rest[0]] + rest[1..]
  }

  /** Splitting a string whose first separator follows `x` yields `x` first. */
  lemma {:induction false} SplitAfterFirst(x: string, sep: char, y: string)
    requires sep !in x
    ensures Split(x + [sep] + y, sep) == [x] + Split(y, sep)
  {
    if |x| == 0 {
      assert x + [sep] + y == [sep] + y;
      assert ([sep] + y)[1..] == y;
    } else {
      var s := x + [sep] + y;
      assert s[0] == x[0];
      assert s[1..] == x[1..] + [sep] + y;
      SplitAfterFirst(x[1..], sep, y);
      assert [x[0]] + x[1..] == x;
    }
  }

  /** Split undoes Join when no item contains the separator. */
  lemma {:induction false} SplitJoin(items: seq<string>, sep: char)
    requires |items| >= 1
    requires forall i :: 0 <= i < |items| ==> sep !in items[i]
    ensures Split(Join(items, sep), sep) == items
  {
    if |items| > 1 {
      SplitJoin(items[1..], sep);
      SplitAfterFirst(items[0], sep, Join(items[1..], sep));
      assert [items[0]] + items[1..] == items;
    }
  }

  /** The characters `trim` removes: ECMAScript WhiteSpace (tab, vertical tab,
      form feed, the byte-order mark and the Unicode space separators) and
      LineTerminator (line feed, carriage return, U+2028, U+2029). */
  predicate IsSpace(c: char)
  {
    || c == '\t' || c == '\U{B}' || c == '\U{C}' || c == ' ' || c == '\U{A0}' || c == '\U{FEFF}'
    || c == '\U{1680}' || ('\U{2000}' <= c <= '\U{200A}') || c == '\U{202F}' || c == '\U{205F}'
    || c == '\U{3000}' || c == '\n' || c == '\r' || c == '\U{2028}' || c == '\U{2029}'
  }

  predicate AllSpace(s: string)
  {
    forall i :: 0 <= i < |s| ==> IsSpace(s[i])
  }

  function TrimStart(s: string): (r: string)
    ensures |r| <= |s| && r == s[|s| - |r|..]
    ensures AllSpace(s[..|s| - |r|])
    ensures r == [] || !IsSpace(r[0])
  {
    if |s| > 0 && IsSpace(s[0]) then TrimStart(s[1..]) else s
  }

  function TrimEnd(s: string): (r: string)
    ensures |r| <= |s| && r == s[..|r|]
    ensures AllSpace(s[|r|..])
    ensures r == [] || !IsSpace(r[|r| - 1])
  {
    if |s| > 0 && IsSpace(s[|s| - 1]) then TrimEnd(s[..|s| - 1]) else s
  }

  /** `s.trim()`: the slice of `s` between its leading and trailing whitespace. */
  function Trim(s: string): (r: string)
    ensures exists i, j :: 0 <= i <= j <= |s| && r == s[i..j] && AllSpace(s[..i]) && AllSpace(s[j..])
    ensures r == [] || (!IsSpace(r[0]) && !IsSpace(r[|r| - 1]))
  {
    var a := TrimStart(s);
    var b := TrimEnd(a);
    var i := |s| - |a|;
    assert b == s[i..i + |b|];
    assert AllSpace(s[i + |b|..]) by {
      assert s[i + |b|..] == a[|b|..];
    }
    b
  }

  /** A trimmed value is empty exactly when the input is nothing but whitespace. */
  lemma TrimEmptyIff(s: string)
    ensures Trim(s) == "" <==> AllSpace(s)
  {
    var r := Trim(s);
    var i, j :| 0 <= i <= j <= |s| && r == s[i..j] && AllSpace(s[..i]) && AllSpace(s[j..]);
    if r == "" {
      forall k | 0 <= k < |s| ensures IsSpace(s[k]) {
        if k < i { assert s[k] == s[..i][k]; } else { assert s[k] == s[j..][k - j]; }
      }
    } else {
      assert s[i] == r[0];
    }
  }
}
