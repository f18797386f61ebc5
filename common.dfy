/** Small shared vocabulary: optional values, results, and the handful of
    JavaScript string and number behaviours the rest of the model relies on. */
module Common {

  datatype Option<+T> = None | Some(value: T)

  /** A computation that either yields a value or fails with an error. */
  datatype Result<+T, +E> = Ok(value: T) | Err(error: E)

  /** The value if present, else the fallback (`x ?? fallback`). */
  function Override<T>(o: Option<T>, otherwise: T): (r: T)
    ensures o.Some? ==> r == o.value
    ensures o.None? ==> r == otherwise
  {
    if o.Some? then o.value else otherwise
  }

  /** `x || fallback` on an optional integer: `undefined` (also `NaN` from `parseInt`)
      and `0` are falsy and give the fallback. */
  function IntOr(x: Option<int>, fallback: int): (r: int)
    ensures x.Some? && x.value != 0 ==> r == x.value
    ensures x.None? || x.value == 0 ==> r == fallback
  {
    if x.Some? && x.value != 0 then x.value else fallback
  }

  /** The message of the `TypeError` raised by calling `toString()` on `undefined`. */
  const UndefinedToString := "Cannot read properties of undefined (reading 'toString')"

  /** JavaScript truthiness of an optional number: `undefined` and `0` are falsy. */
  predicate TruthyNum(x: Option<real>)
  {
    x.Some? && x.value != 0.0
  }

  /** JavaScript truthiness of an optional string: `undefined` and `""` are falsy. */
  predicate TruthyStr(s: Option<string>)
  {
    s.Some? && s.value != ""
  }

  /** The characters JavaScript's `\s` class and `String.prototype.trim` treat as white space. */
  predicate IsJsSpace(c: char)
  {
    c == '\t' || c == '\n' || c == '\U{000B}' || c == '\U{000C}' || c == '\r' || c == ' '
    || c == '\U{00A0}' || c == '\U{1680}' || ('\U{2000}' <= c <= '\U{200A}')
    || c == '\U{2028}' || c == '\U{2029}' || c == '\U{202F}' || c == '\U{205F}'
    || c == '\U{3000}' || c == '\U{FEFF}'
  }

  /** `!s.trim()` in JavaScript: the string is empty after trimming. */
  predicate IsBlank(s: string)
  {
    forall i :: 0 <= i < |s| ==> IsJsSpace(s[i])
  }

  predicate IsAsciiUpper(c: char) { 'A' <= c <= 'Z' }
  predicate IsAsciiLower(c: char) { 'a' <= c <= 'z' }
  predicate IsAsciiDigit(c: char) { '0' <= c <= '9' }

  predicate IsHexDigit(c: char)
  {
    IsAsciiDigit(c) || 'a' <= c <= 'f' || 'A' <= c <= 'F'
  }

  /** `mongoose.Types.ObjectId.isValid` on a request string: 24 hexadecimal digits. */
  predicate IsObjectId(s: string)
  {
    |s| == 24 && forall i :: 0 <= i < |s| ==> IsHexDigit(s[i])
  }

  /** Lower-casing, restricted to the ASCII letters. */
  function LowerChar(c: char): (r: char)
    ensures IsAsciiUpper(c) ==> IsAsciiLower(r)
    ensures !IsAsciiUpper(c) ==> r == c
  {
    if IsAsciiUpper(c) then (c as int - 'A' as int + 'a' as int) as char else c
  }

  function Lower(s: string): (r: string)
    ensures |r| == |s|
    ensures forall i :: 0 <= i < |s| ==> r[i] == LowerChar(s[i])
  {
    seq(|s|, i requires 0 <= i < |s| => LowerChar(s[i]))
  }

  /** `s.includes(sub)`: `sub` occurs in `s` at some position. */
  predicate Contains(s: string, sub: string)
  {
    exists k :: 0 <= k <= |s| - |sub| && OccursAt(s, sub, k)
  }

  /** `sub` occurs in `s` starting at position `k`. */
  predicate OccursAt(s: string, sub: string, k: int)
  {
    0 <= k <= |s| - |sub| && s[k..k + |sub|] == sub
  }

  /** `s.startsWith(p)`. */
  predicate StartsWith(s: string, p: string)
  {
    |p| <= |s| && s[..|p|] == p
  }

  /** The number of elements of `s` that satisfy `p`. */
  function CountWhere<T>(s: seq<T>, p: T -> bool): (n: nat)
    ensures n <= |s|
  {
    if s == [] then 0 else CountWhere(s[..|s| - 1], p) + (if p(s[|s| - 1]) then 1 else 0)
  }

  /** Counting with two predicates that agree gives the same count. */
  lemma {:induction false} CountWhereSame<T>(s: seq<T>, p: T -> bool, q: T -> bool)
    requires forall x :: x in s ==> p(x) == q(x)
    ensures CountWhere(s, p) == CountWhere(s, q)
    decreases |s|
  {
    if s != [] {
      CountWhereSame(s[..|s| - 1], p, q);
    }
  }

  /** `s.filter(p)`: the elements satisfying `p`, in their original order. */
  function KeepWhere<T(!new)>(s: seq<T>, p: T -> bool): (r: seq<T>)
    ensures |r| == CountWhere(s, p)
    ensures forall x :: x in r <==> x in s && p(x)
  {
    if s == [] then []
    else
      var init := s[..|s| - 1];
      assert s == init + [s[|s| - 1]];
      KeepWhere(init, p) + (if p(s[|s| - 1]) then [s[|s| - 1]] else [])
  }

  /** Filtering distributes over concatenation, so it keeps the relative order. */
  lemma {:induction false} KeepWhereAppend<T(!new)>(a: seq<T>, b: seq<T>, p: T -> bool)
    ensures KeepWhere(a + b, p) == KeepWhere(a, p) + KeepWhere(b, p)
    decreases |b|
  {
    if b == [] {
      assert a + b == a;
    } else {
      var b' := b[..|b| - 1];
      assert (a + b)[..|a + b| - 1] == a + b';
      assert (a + b)[|a + b| - 1] == b[|b| - 1];
      KeepWhereAppend(a, b', p);
    }
  }

  /** Filtering one element keeps it exactly when it satisfies the predicate. */
  lemma KeepWhereSingleton<T(!new)>(x: T, p: T -> bool)
    ensures KeepWhere([x], p) == if p(x) then [x] else []
  {
    assert [x][..0] == [];
  }

  /** Filtering twice with the same predicate is filtering once. */
  lemma {:induction false} KeepWhereIdempotent<T(!new)>(s: seq<T>, p: T -> bool)
    ensures KeepWhere(KeepWhere(s, p), p) == KeepWhere(s, p)
    decreases |s|
  {
    if s != [] {
      var init, last := s[..|s| - 1], s[|s| - 1];
      KeepWhereIdempotent(init, p);
      var tail := if p(last) then [last] else [];
      KeepWhereAppend(KeepWhere(init, p), tail, p);
      if p(last) {
        assert KeepWhere(tail, p) == KeepWhere([], p) + [last];
      } else {
        assert tail == [];
      }
    }
  }

  /** `s.slice(start, end)`: a negative bound counts from the end, and both bounds are
      clamped into the sequence. */
  function JsSlice<T>(s: seq<T>, start: int, end: int): (r: seq<T>)
    ensures 0 <= start <= end <= |s| ==> r == s[start..end]
    ensures |r| <= |s|
    ensures (0 <= end <= start || end <= start < 0) ==> r == []
  {
    var from := ClampIndex(start, |s|);
    var to := ClampIndex(end, |s|);
    if from < to then s[from..to] else []
  }

  /** A slice bound resolved against a length: negative values count from the end. */
  function ClampIndex(x: int, len: nat): (r: nat)
    ensures r <= len
    ensures 0 <= x <= len ==> r == x
    ensures x < 0 ==> r == if len + x < 0 then 0 else len + x
    ensures x > len ==> r == len
  {
    if x < 0 then (if len + x < 0 then 0 else len + x) else if x > len then len else x
  }

  /** Decimal rendering of a natural number, as `String(n)` prints it. */
  function NatToString(n: nat): (r: string)
    ensures |r| >= 1
    ensures forall i :: 0 <= i < |r| ==> IsAsciiDigit(r[i])
    decreases n
  {
    if n < 10 then [DigitChar(n)] else NatToString(n / 10) + [DigitChar(n % 10)]
  }

  function DigitChar(d: nat): (c: char)
    requires d < 10
    ensures IsAsciiDigit(c)
  {
    ('0' as int + d) as char
  }

  /** `parts.join(sep)`. */
  function Join(parts: seq<string>, sep: string): (r: string)
  {
    if parts == [] then ""
    else if |parts| == 1 then parts[0]
    else parts[0] + sep + Join(parts[1..], sep)
  }

  /** `s.split(c)` for a one-character separator. */
  function Split(s: string, c: char): (parts: seq<string>)
    ensures |parts| >= 1
  {
    if s == [] then [""]
    else
      var rest := Split(s[1..], c);
      if s[0] == c then [""] + rest else [[s[0]] + rest[0]] + rest[1..]
  }

  lemma {:induction false} SplitFree(s: string, c: char)
    requires c !in s
    ensures Split(s, c) == [s]
  {
    if s != [] {
      SplitFree(s[1..], c);
      assert [s[0]] + s[1..] == s;
    }
  }

  /** No part of a split contains the separator. */
  lemma {:induction false} SplitNoSeparator(s: string, c: char)
    ensures forall k :: 0 <= k < |Split(s, c)| ==> c !in Split(s, c)[k]
  {
    if s != [] {
      SplitNoSeparator(s[1..], c);
    }
  }

  lemma {:induction false} SplitCons(s: string, rest: string, c: char)
    requires c !in s
    ensures Split(s + [c] + rest, c) == [s] + Split(rest, c)
  {
    if s == [] {
      assert (s + [c] + rest)[1..] == rest;
    } else {
      SplitCons(s[1..], rest, c);
      assert (s + [c] + rest)[1..] == s[1..] + [c] + rest;
      assert [s[0]] + s[1..] == s;
    }
  }

  /** Splitting undoes joining when no part contains the separator. */
  lemma {:induction false} SplitJoin(parts: seq<string>, c: char)
    requires |parts| >= 1
    requires forall k :: 0 <= k < |parts| ==> c !in parts[k]
    ensures Split(Join(parts, [c]), c) == parts
  {
    if |parts| == 1 {
      SplitFree(parts[0], c);
    } else {
      SplitJoin(parts[1..], c);
      SplitCons(parts[0], Join(parts[1..], [c]), c);
      assert [parts[0]] + parts[1..] == parts;
    }
  }

  /** Joining a part onto the end. */
  lemma {:induction false} JoinSnoc(parts: seq<string>, x: string, sep: string)
    requires parts != []
    ensures Join(parts + [x], sep) == Join(parts, sep) + sep + x
  {
    if |parts| > 1 {
      JoinSnoc(parts[1..], x, sep);
      assert (parts + [x])[1..] == parts[1..] + [x];
    }
  }

  /** A join contains a character only if a part or the separator does. */
  lemma {:induction false} JoinFree(parts: seq<string>, sep: string, c: char)
    requires c !in sep
    requires forall k :: 0 <= k < |parts| ==> c !in parts[k]
    ensures c !in Join(parts, sep)
  {
    if |parts| > 1 {
      JoinFree(parts[1..], sep, c);
    }
  }

  /** `Math.round` on a real: halves round up. */
  function Round(x: real): (r: int)
    ensures x - 0.5 < r as real <= x + 0.5
  {
    (x + 0.5).Floor
  }

  function MinReal(a: real, b: real): (r: real)
    ensures r <= a && r <= b && (r == a || r == b)
  {
    if a <= b then a else b
  }

  function MaxReal(a: real, b: real): (r: real)
    ensures r >= a && r >= b && (r == a || r == b)
  {
    if a >= b then a else b
  }
}
