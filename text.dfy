/** The few Python string built-ins the chat programs rely on, with their
    Python meaning: `str.split(sep)`, `str.split(sep, 1)`, `sep.join`,
    `str.strip()`, `str.lower()` (as far as keyword matching needs it),
    `int(str)` and `str(int)`. Strings are sequences of Unicode scalar values. */
module Text {

  datatype Option<+T> = None | Some(value: T)

  /** Python truthiness of an optional string: present and non-empty. */
  predicate Truthy(o: Option<string>)
  {
    o.Some? && o.value != ""
  }

  // ---------------------------------------------------------------------------
  // Whitespace and strip

  /** The characters for which Python's `str.isspace()` holds. */
  predicate IsSpace(ch: char)
  {
    var n := ch as int;
    (9 <= n <= 13) || (28 <= n <= 32) || n == 0x85 || n == 0xA0 || n == 0x1680
    || (0x2000 <= n <= 0x200A) || n == 0x2028 || n == 0x2029 || n == 0x202F
    || n == 0x205F || n == 0x3000
  }

  predicate AllSpace(s: string)
  {
    forall k :: 0 <= k < |s| ==> IsSpace(s[k])
  }

  /** `s.lstrip()`: drops the longest whitespace prefix (`TrimLeftCut`). */
  function TrimLeft(s: string): (r: string)
    ensures |r| <= |s| && r == s[|s| - |r|..]
    ensures r == [] || !IsSpace(r[0])
    decreases |s|
  {
    if s != [] && IsSpace(s[0]) then
      var r := TrimLeft(s[1..]);
      assert s[1..][|s| - 1 - |r|..] == s[|s| - |r|..];
      r
    else s
  }

  /** What `lstrip` drops is whitespace. */
  lemma {:induction false} TrimLeftCut(s: string)
    ensures AllSpace(s[..|s| - |TrimLeft(s)|])
    decreases |s|
  {
    if s != [] && IsSpace(s[0]) {
      var r := TrimLeft(s[1..]);
      TrimLeftCut(s[1..]);
      assert s[..|s| - |r|] == [s[0]] + s[1..][..|s| - 1 - |r|];
      AllSpaceConcat([s[0]], s[1..][..|s| - 1 - |r|]);
    }
  }

  /** `s.rstrip()`: drops the longest whitespace suffix (`TrimRightCut`). */
  function TrimRight(s: string): (r: string)
    ensures |r| <= |s| && r == s[..|r|]
    ensures r == [] || !IsSpace(r[|r| - 1])
    decreases |s|
  {
    if s != [] && IsSpace(s[|s| - 1]) then
      var r := TrimRight(s[..|s| - 1]);
      assert s[..|s| - 1][..|r|] == s[..|r|];
      r
    else s
  }

  /** What `rstrip` drops is whitespace. */
  lemma {:induction false} TrimRightCut(s: string)
    ensures AllSpace(s[|TrimRight(s)|..])
    decreases |s|
  {
    if s != [] && IsSpace(s[|s| - 1]) {
      var r := TrimRight(s[..|s| - 1]);
      TrimRightCut(s[..|s| - 1]);
      assert s[|r|..] == s[..|s| - 1][|r|..] + [s[|s| - 1]];
      AllSpaceConcat(s[..|s| - 1][|r|..], [s[|s| - 1]]);
    }
  }

  lemma AllSpaceConcat(a: string, b: string)
    requires AllSpace(a) && AllSpace(b)
    ensures AllSpace(a + b)
  {
    forall k | 0 <= k < |a + b| ensures IsSpace((a + b)[k]) {
      if k >= |a| { assert (a + b)[k] == b[k - |a|]; }
    }
  }

  /** `s.strip()`: whitespace is cut off both ends, so the result neither
      starts nor ends with whitespace (`StripBlank`: it is empty exactly
      when `s` is all whitespace). */
  function Strip(s: string): (r: string)
    ensures |r| <= |s|
    ensures r == [] || (!IsSpace(r[0]) && !IsSpace(r[|r| - 1]))
  {
    TrimRight(TrimLeft(s))
  }

  /** A line strips to nothing exactly when it is all whitespace. */
  lemma StripBlank(s: string)
    ensures Strip(s) == [] <==> AllSpace(s)
  {
    var left := TrimLeft(s);
    var cut := s[..|s| - |left|];
    TrimLeftCut(s);
    TrimRightCut(left);
    assert s == cut + left;
    assert left != [] ==> left[0] == s[|cut|];
    assert left[0..] == left;
    if Strip(s) == [] {
      AllSpaceConcat(cut, left);
    }
  }

  /** A string that neither starts nor ends with whitespace is its own strip. */
  lemma {:induction false} StripKeeps(s: string)
    requires s == [] || (!IsSpace(s[0]) && !IsSpace(s[|s| - 1]))
    ensures Strip(s) == s
  {
    assert TrimLeft(s) == s;
    assert TrimRight(s) == s;
  }

  /** Whitespace on the left is exactly what `lstrip` removes. */
  lemma {:induction false} TrimLeftPadded(pad: string, s: string)
    requires AllSpace(pad) && (s == [] || !IsSpace(s[0]))
    ensures TrimLeft(pad + s) == s
    decreases |pad|
  {
    if pad == [] {
      assert pad + s == s;
    } else {
      assert (pad + s)[1..] == pad[1..] + s;
      TrimLeftPadded(pad[1..], s);
    }
  }

  /** Whitespace on the right is exactly what `rstrip` removes. */
  lemma {:induction false} TrimRightPadded(s: string, pad: string)
    requires AllSpace(pad) && (s == [] || !IsSpace(s[|s| - 1]))
    ensures TrimRight(s + pad) == s
    decreases |pad|
  {
    if pad == [] {
      assert s + pad == s;
    } else {
      assert (s + pad)[..|s + pad| - 1] == s + pad[..|pad| - 1];
      TrimRightPadded(s, pad[..|pad| - 1]);
    }
  }

  /** `strip` removes exactly the whitespace padding around a string that
      neither starts nor ends with whitespace. */
  lemma StripPadded(left: string, s: string, right: string)
    requires AllSpace(left) && AllSpace(right)
    requires s != [] && !IsSpace(s[0]) && !IsSpace(s[|s| - 1])
    ensures Strip(left + s + right) == s
  {
    assert left + s + right == left + (s + right);
    assert (s + right)[0] == s[0];
    TrimLeftPadded(left, s + right);
    TrimRightPadded(s, right);
  }

  // ---------------------------------------------------------------------------
  // Searching

  function IndexOf(s: string, d: char): (i: nat)
    requires d in s
    ensures i < |s| && s[i] == d && d !in s[..i]
    decreases |s|
  {
    if s[0] == d then 0
    else
      var j := IndexOf(s[1..], d);
      assert s[..j + 1] == [s[0]] + s[1..][..j];
      j + 1
  }

  predicate StartsWith(s: string, prefix: string)
  {
    |prefix| <= |s| && s[..|prefix|] == prefix
  }

  /** `sub in s` for strings. */
  predicate Contains(s: string, sub: string)
    decreases |s|
  {
    StartsWith(s, sub) || (s != [] && Contains(s[1..], sub))
  }

  lemma {:induction false} ContainsAt(s: string, sub: string, i: nat)
    requires i + |sub| <= |s| && s[i..i + |sub|] == sub
    ensures Contains(s, sub)
    decreases i
  {
    if i > 0 {
      assert s[1..][i - 1..i - 1 + |sub|] == sub;
      ContainsAt(s[1..], sub, i - 1);
    }
  }

  /** A string contains every piece it is made of. */
  lemma ContainsMiddle(a: string, w: string, b: string)
    ensures Contains(a + w + b, w)
  {
    var s := a + w + b;
    assert s[|a|..|a| + |w|] == w;
    ContainsAt(s, w, |a|);
  }

  // ---------------------------------------------------------------------------
  // split and join

  /** `s.split(d)`: the pieces between occurrences of `d`, always at least one. */
  function Split(s: string, d: char): (parts: seq<string>)
    ensures |parts| >= 1
    decreases |s|
  {
    if s == [] then [[]]
    else
      var rest := Split(s[1..], d);
      if s[0] == d then [[]] + rest
      else [[s[0]] + rest[0]] + rest[1..]
  }

  /** No piece of a split holds the separator. */
  lemma {:induction false} SplitPieces(s: string, d: char)
    ensures forall i :: 0 <= i < |Split(s, d)| ==> d !in Split(s, d)[i]
    decreases |s|
  {
    if s != [] {
      SplitPieces(s[1..], d);
      var rest := Split(s[1..], d);
      if s[0] != d {
        var parts := Split(s, d);
        assert parts[0] == [s[0]] + rest[0];
        assert forall i :: 1 <= i < |parts| ==> parts[i] == rest[i];
      }
    }
  }

  /** `d.join(parts)`. */
  function Join(parts: seq<string>, d: char): string
    decreases |parts|
  {
    if |parts| == 0 then []
    else if |parts| == 1 then parts[0]
    else parts[0] + [d] + Join(parts[1..], d)
  }

  /** Joining the pieces of a split gives the string back. */
  lemma {:induction false} SplitJoin(s: string, d: char)
    ensures Join(Split(s, d), d) == s
    decreases |s|
  {
    if s != [] {
      var rest := Split(s[1..], d);
      SplitJoin(s[1..], d);
      if s[0] == d {
        assert Join([[]] + rest, d) == [] + [d] + Join(rest, d);
      } else if |rest| > 1 {
        var parts := [[s[0]] + rest[0]] + rest[1..];
        assert parts[1..] == rest[1..];
        assert Join(rest, d) == rest[0] + [d] + Join(rest[1..], d);
      }
    }
  }

  /** A string without the delimiter splits into itself alone. */
  lemma {:induction false} SplitNone(s: string, d: char)
    requires d !in s
    ensures Split(s, d) == [s]
    decreases |s|
  {
    if s != [] {
      SplitNone(s[1..], d);
      assert [s[0]] + s[1..] == s;
    }
  }

  /** Concatenation regroups. */
  lemma Regroup3(a: string, b: string, c: string)
    ensures a + b + c == a + (b + c)
  {
  }

  lemma Regroup5(a: string, p: string, b: string, q: string, c: string)
    ensures a + p + b + q + c == a + p + (b + q + c)
  {
    Regroup3(a + p + b, q, c);
    Regroup3(a + p, b, q + c);
    Regroup3(b, q, c);
  }

  /** Splitting `a + d + b` where `a` has no `d` peels off `a`. */
  lemma {:induction false} SplitCons(a: string, b: string, d: char)
    requires d !in a
    ensures Split(a + [d] + b, d) == [a] + Split(b, d)
    decreases |a|
  {
    var s := a + [d] + b;
    if a == [] {
      assert s[1..] == b;
    } else {
      assert s[1..] == a[1..] + [d] + b;
      SplitCons(a[1..], b, d);
      assert [a[0]] + a[1..] == a;
    }
  }

  /** A string splits into one piece exactly when the delimiter does not
      occur in it. */
  lemma SplitSingle(s: string, d: char)
    ensures |Split(s, d)| == 1 <==> d !in s
  {
    if d in s {
      var p := SplitOnce(s, d);
      SplitCons(p[0], p[1], d);
    } else {
      SplitNone(s, d);
    }
  }

  /** The first piece of `a + d + b` is `a` when `a` has no `d`. */
  lemma SplitHead(a: string, b: string, d: char)
    requires d !in a
    ensures Split(a + [d] + b, d)[0] == a && |Split(a + [d] + b, d)| >= 2
  {
    SplitCons(a, b, d);
  }

  /** Joining pieces without `x` around a different delimiter gives a
      string without `x`. */
  lemma {:induction false} JoinFree(parts: seq<string>, d: char, x: char)
    requires d != x && forall i :: 0 <= i < |parts| ==> x !in parts[i]
    ensures x !in Join(parts, d)
    decreases |parts|
  {
    if |parts| > 1 {
      JoinFree(parts[1..], d, x);
      assert parts[1..][0] == parts[1];
    }
  }

  /** Splitting a join of delimiter-free pieces gives the pieces back. */
  lemma {:induction false} JoinSplit(parts: seq<string>, d: char)
    requires |parts| >= 1
    requires forall i :: 0 <= i < |parts| ==> d !in parts[i]
    ensures Split(Join(parts, d), d) == parts
    decreases |parts|
  {
    if |parts| == 1 {
      SplitNone(parts[0], d);
    } else {
      JoinSplit(parts[1..], d);
      SplitCons(parts[0], Join(parts[1..], d), d);
      assert [parts[0]] + parts[1..] == parts;
    }
  }

  /** `s.split(d, 1)`: one piece when `d` does not occur, else the piece
      before its first occurrence and everything after it. */
  function SplitOnce(s: string, d: char): (r: seq<string>)
    ensures |r| == 1 || |r| == 2
    ensures |r| == 1 <==> d !in s
    ensures |r| == 1 ==> r[0] == s
    ensures |r| == 2 ==> s == r[0] + [d] + r[1] && d !in r[0]
  {
    if d in s then
      var i := IndexOf(s, d);
      assert s == s[..i] + [d] + s[i + 1..];
      [s[..i], s[i + 1..]]
    else [s]
  }

  /** The two readings of `a + d + b` by `split(d, 1)` when `a` has no `d`. */
  lemma SplitOnceAt(a: string, b: string, d: char)
    requires d !in a
    ensures SplitOnce(a + [d] + b, d) == [a, b]
  {
    var s := a + [d] + b;
    assert s[|a|] == d;
    var i := IndexOf(s, d);
    assert s[..|a|] == a && s[|a| + 1..] == b;
  }

  // ---------------------------------------------------------------------------
  // lower

  /** Lower-casing one character, restricted to what decides equality with an
      ASCII word: A-Z, and KELVIN SIGN, the one non-ASCII character whose
      Python lower case is ASCII ('k'). */
  function LowerChar(ch: char): char
  {
    if 'A' <= ch <= 'Z' then (ch as int + 32) as char
    else if ch == '\U{212A}' then 'k'
    else ch
  }

  function Lower(s: string): (r: string)
    ensures |r| == |s| && forall i :: 0 <= i < |s| ==> r[i] == LowerChar(s[i])
  {
    seq(|s|, i requires 0 <= i < |s| => LowerChar(s[i]))
  }

  // ---------------------------------------------------------------------------
  // int() and str()

  predicate IsDigit(ch: char)
  {
    '0' <= ch <= '9'
  }

  /** The digit body `int()` accepts: decimal digits, with single underscores
      allowed between digits. */
  predicate IsNumeral(t: string)
  {
    && |t| >= 1 && IsDigit(t[0]) && IsDigit(t[|t| - 1])
    && (forall k :: 0 <= k < |t| ==> IsDigit(t[k]) || t[k] == '_')
    && !Contains(t, "__")
  }

  /** The value of a numeral, underscores ignored. */
  function NumeralValue(t: string): nat
    decreases |t|
  {
    if t == [] then 0
    else
      var v := NumeralValue(t[..|t| - 1]);
      var ch := t[|t| - 1];
      if IsDigit(ch) then 10 * v + (ch as int - '0' as int) else v
  }

  /** `int(s)`: surrounding whitespace, an optional sign, a numeral; None
      where Python raises ValueError. */
  function ParseInt(s: string): Option<int>
  {
    var t := Strip(s);
    if |t| >= 1 && (t[0] == '+' || t[0] == '-') then
      if IsNumeral(t[1..]) then
        Some(if t[0] == '-' then -(NumeralValue(t[1..]) as int) else NumeralValue(t[1..]))
      else None
    else if IsNumeral(t) then Some(NumeralValue(t))
    else None
  }

  /** A single decimal digit parses to its value. */
  lemma ParseDigit(ch: char)
    requires IsDigit(ch)
    ensures ParseInt([ch]) == Some(ch as int - '0' as int)
  {
    var t := [ch];
    assert !IsSpace(ch);
    StripKeeps(t);
    assert !Contains(t, "__") by {
      assert !StartsWith(t, "__");
      assert !Contains(t[1..], "__") by { assert t[1..] == []; }
    }
    assert IsNumeral(t);
    assert t[..0] == [];
    assert NumeralValue(t) == ch as int - '0' as int;
  }

  /** A string holding no digit is not an integer. */
  lemma ParseNeedsDigit(s: string)
    requires forall k :: 0 <= k < |s| ==> !IsDigit(s[k])
    ensures ParseInt(s) == None
  {
    var t := Strip(s);
    assert forall k :: 0 <= k < |t| ==> !IsDigit(t[k]);
    if |t| >= 2 && (t[0] == '+' || t[0] == '-') {
      assert t[1..][0] == t[1];
    }
  }

  function DigitChar(n: nat): char
    requires n < 10
  {
    (n + '0' as int) as char
  }

  /** `str(n)` for a natural number. */
  function NatToString(n: nat): (r: string)
    ensures |r| >= 1 && forall k :: 0 <= k < |r| ==> IsDigit(r[k])
  {
    if n < 10 then [DigitChar(n)] else NatToString(n / 10) + [DigitChar(n % 10)]
  }

  /** `str(i)` for an integer. */
  function IntToString(i: int): string
  {
    if i < 0 then "-" + NatToString(-i) else NatToString(i)
  }

  /** `str` is a left inverse of the numeral reading. */
  lemma {:induction false} NatToStringValue(n: nat)
    ensures NumeralValue(NatToString(n)) == n
  {
    var r := NatToString(n);
    if n >= 10 {
      NatToStringValue(n / 10);
      assert r[..|r| - 1] == NatToString(n / 10);
    } else {
      assert r[..0] == [];
    }
  }
}
