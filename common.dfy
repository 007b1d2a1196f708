/** Values shared by every part of the model: optional values, results,
    parsed JSON, and the string helpers the JavaScript code relies on
    (trim, toLowerCase, includes, startsWith, endsWith, join). Characters
    are treated as ASCII where the JavaScript semantics is Unicode-wide. */
module Common {

  datatype Option<+T> = None | Some(value: T) {
    function GetOr(default: T): T {
      if Some? then value else default
    }
  }

  datatype Result<+T, +E> = Ok(value: T) | Err(error: E)

  /** A value produced by JSON.parse. Numbers are integers in this model. */
  datatype Json =
    | JNull
    | JBool(b: bool)
    | JNum(n: int)
    | JStr(s: string)
    | JArr(items: seq<Json>)
    | JObj(fields: map<string, Json>)

  // ---------------------------------------------------------------------
  // Sequences

  predicate NoDuplicates<T(==)>(s: seq<T>) {
    forall i, j :: 0 <= i < j < |s| ==> s[i] != s[j]
  }

  lemma NoDuplicatesAppend<T>(s: seq<T>, x: T)
    requires NoDuplicates(s) && x !in s
    ensures NoDuplicates(s + [x])
  {
    forall i, j | 0 <= i < j < |s + [x]|
      ensures (s + [x])[i] != (s + [x])[j]
    {
      if j == |s| {
        assert (s + [x])[i] == s[i];
      }
    }
  }

  // ---------------------------------------------------------------------
  // Strings

  predicate StartsWith(s: string, prefix: string) {
    |prefix| <= |s| && s[..|prefix|] == prefix
  }

  /** Concatenation is associative. */
  lemma AppendAssoc<T>(a: seq<T>, b: seq<T>, c: seq<T>)
    ensures a + b + c == a + (b + c)
  {
  }

  /** Appending keeps a prefix. */
  lemma StartsWithAppend(s: string, prefix: string, t: string)
    requires StartsWith(s, prefix)
    ensures StartsWith(s + t, prefix)
  {
    assert (s + t)[..|prefix|] == s[..|prefix|];
  }

  predicate EndsWith(s: string, suffix: string) {
    |suffix| <= |s| && s[|s| - |suffix|..] == suffix
  }

  /** `part` occurs in `s` at offset `i`. */
  ghost predicate OccursAt(part: string, s: string, i: int) {
    0 <= i && i + |part| <= |s| && s[i..i + |part|] == part
  }

  /** `part` is a contiguous substring of `s`. */
  ghost predicate IsSlice(part: string, s: string) {
    exists i :: OccursAt(part, s, i)
  }

  lemma SliceOfSlice(a: string, b: string, c: string)
    requires IsSlice(a, b) && IsSlice(b, c)
    ensures IsSlice(a, c)
  {
    var i :| OccursAt(a, b, i);
    var j :| OccursAt(b, c, j);
    assert b == c[j..j + |b|];
    forall k | 0 <= k < |a|
      ensures a[k] == c[j + i..j + i + |a|][k]
    {
      assert a[k] == b[i + k] == c[j + i + k];
    }
    assert OccursAt(a, c, j + i);
  }

  /** String.prototype.includes: `part` occurs somewhere in `s`. */
  predicate Includes(s: string, part: string)
    decreases |s|
  {
    StartsWith(s, part) || (|part| < |s| && Includes(s[1..], part))
  }

  /** The white space removed by String.prototype.trim, restricted to ASCII:
      tab, line feed, vertical tab, form feed, carriage return and space. */
  predicate IsSpace(c: char) {
    ('\t' <= c <= '\r') || c == ' '
  }

  function TrimStart(s: string): (r: string)
    ensures |r| <= |s| && r == s[|s| - |r|..]
    ensures r == [] || !IsSpace(r[0])
  {
    if |s| > 0 && IsSpace(s[0]) then TrimStart(s[1..]) else s
  }

  function TrimEnd(s: string): (r: string)
    ensures |r| <= |s| && r == s[..|r|]
    ensures r == [] || !IsSpace(r[|r| - 1])
  {
    if |s| > 0 && IsSpace(s[|s| - 1]) then TrimEnd(s[..|s| - 1]) else s
  }

  /** String.prototype.trim: the longest slice of `s` that neither starts
      nor ends with white space, obtained by dropping white space only. */
  function Trim(s: string): (r: string)
    ensures IsSlice(r, s)
    ensures r == [] || (!IsSpace(r[0]) && !IsSpace(r[|r| - 1]))
  {
    var t := TrimStart(s);
    var r := TrimEnd(t);
    assert OccursAt(r, s, |s| - |t|);
    r
  }

  /** A string is left unchanged by Trim exactly when it has no white space
      at either end. */
  lemma TrimFixedPoint(s: string)
    ensures Trim(s) == s <==> (s == [] || (!IsSpace(s[0]) && !IsSpace(s[|s| - 1])))
  {
    if s == [] {
      assert TrimStart(s) == s;
    } else if !IsSpace(s[0]) && !IsSpace(s[|s| - 1]) {
      assert TrimStart(s) == s;
      assert TrimEnd(s) == s;
    }
  }

  lemma TrimIdempotent(s: string)
    ensures Trim(Trim(s)) == Trim(s)
  {
    TrimFixedPoint(Trim(s));
  }

  /** Trimming white space off both ends of a string that is already
      trimmed gives it back. */
  lemma {:induction false} TrimPadded(ws1: string, p: string, ws2: string)
    requires forall k :: 0 <= k < |ws1| ==> IsSpace(ws1[k])
    requires forall k :: 0 <= k < |ws2| ==> IsSpace(ws2[k])
    requires Trim(p) == p
    ensures Trim(ws1 + p + ws2) == p
  {
    TrimFixedPoint(p);
    var s := ws1 + p + ws2;
    assert s == ws1 + (p + ws2);
    TrimStartPadded(ws1, p + ws2);
    var t := TrimStart(p + ws2);
    assert TrimStart(s) == t;
    if p == [] {
      assert p + ws2 == ws2;
      TrimStartSpaces(ws2);
      assert t == [];
      assert TrimEnd(t) == [];
    } else {
      assert (p + ws2)[0] == p[0];
      assert t == p + ws2;
      TrimEndPadded(p, ws2);
      assert TrimEnd(p) == p;
      assert TrimEnd(t) == p;
    }
  }

  lemma {:induction false} TrimStartPadded(ws: string, s: string)
    requires forall k :: 0 <= k < |ws| ==> IsSpace(ws[k])
    ensures TrimStart(ws + s) == TrimStart(s)
  {
    if ws != [] {
      assert IsSpace((ws + s)[0]) by { assert (ws + s)[0] == ws[0]; }
      assert (ws + s)[1..] == ws[1..] + s;
      TrimStartPadded(ws[1..], s);
      assert TrimStart(ws + s) == TrimStart(ws[1..] + s);
    } else {
      assert ws + s == s;
    }
  }

  lemma {:induction false} TrimStartSpaces(ws: string)
    requires forall k :: 0 <= k < |ws| ==> IsSpace(ws[k])
    ensures TrimStart(ws) == []
  {
    if ws != [] {
      TrimStartSpaces(ws[1..]);
    }
  }

  lemma {:induction false} TrimEndPadded(s: string, ws: string)
    requires forall k :: 0 <= k < |ws| ==> IsSpace(ws[k])
    ensures TrimEnd(s + ws) == TrimEnd(s)
  {
    if ws != [] {
      assert IsSpace((s + ws)[|s + ws| - 1]) by { assert (s + ws)[|s + ws| - 1] == ws[|ws| - 1]; }
      assert (s + ws)[..|s + ws| - 1] == s + ws[..|ws| - 1];
      TrimEndPadded(s, ws[..|ws| - 1]);
      assert TrimEnd(s + ws) == TrimEnd(s + ws[..|ws| - 1]);
    } else {
      assert s + ws == s;
    }
  }

  /** String.prototype.toLowerCase on ASCII letters. */
  function LowerChar(c: char): (r: char)
    ensures ('A' <= c <= 'Z') ==> 'a' <= r <= 'z'
    ensures !('A' <= c <= 'Z') ==> r == c
  {
    if 'A' <= c <= 'Z' then (c as int + 32) as char else c
  }

  function ToLower(s: string): (r: string)
    ensures |r| == |s|
    ensures forall k :: 0 <= k < |s| ==> r[k] == LowerChar(s[k])
  {
    if s == [] then [] else [LowerChar(s[0])] + ToLower(s[1..])
  }

  /** Array.prototype.join. */
  function Join(parts: seq<string>, sep: string): string {
    if |parts| == 0 then ""
    else if |parts| == 1 then parts[0]
    else parts[0] + sep + Join(parts[1..], sep)
  }

  function DigitChar(d: nat): char
    requires d < 10
  {
    "0123456789"[d]
  }

  /** The decimal text of a non-negative integer, as a template literal
      renders it. */
  function NatToString(n: nat): (r: string)
    ensures |r| > 0
    ensures forall k :: 0 <= k < |r| ==> '0' <= r[k] <= '9'
  {
    if n < 10 then [DigitChar(n)] else NatToString(n / 10) + [DigitChar(n % 10)]
  }

  function IntToString(n: int): (r: string)
    ensures |r| > 0
  {
    if n < 0 then "-" + NatToString(-n) else NatToString(n)
  }
}
