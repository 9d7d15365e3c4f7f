/** Shared vocabulary of the model: optional values, results with an error side,
    the white-space class of JavaScript strings and regular expressions,
    decimal rendering of numbers inside messages, and the subsequence order
    that every deleting string transformation respects. */
module Common {

  /** A value that may be absent (`undefined`, `null` or a missing property). */
  datatype Option<+T> = None | Some(value: T) {
    function GetOr(default: T): T {
      match this
      case Some(v) => v
      case None => default
    }
  }

  /** The outcome of a step that may throw: a value, or the error it throws. */
  datatype Result<+T, +E> = Success(value: T) | Failure(error: E)

  /** The `{ isValid, error }` objects returned by the file validators. */
  datatype Verdict = Valid | Invalid(error: string)

  /** Raw bytes of an uploaded image. */
  type Bytes = seq<bv8>

  /** JavaScript's WhiteSpace and LineTerminator characters: what `trim()`
      removes and what the regular-expression class `\s` matches. */
  predicate IsJsSpace(c: char) {
    || c == '\t' || c == '\n' || c == '\U{B}' || c == '\U{C}' || c == '\r'
    || c == ' ' || c == '\U{A0}' || c == '\U{1680}'
    || ('\U{2000}' <= c <= '\U{200A}')
    || c == '\U{2028}' || c == '\U{2029}' || c == '\U{202F}' || c == '\U{205F}'
    || c == '\U{3000}' || c == '\U{FEFF}'
  }

  predicate IsAsciiLetter(c: char) {
    ('a' <= c <= 'z') || ('A' <= c <= 'Z')
  }

  predicate IsDigit(c: char) {
    '0' <= c <= '9'
  }

  /** The regular-expression class `\w` (without the `u` flag). */
  predicate IsWordChar(c: char) {
    IsAsciiLetter(c) || IsDigit(c) || c == '_'
  }

  /** `toUpperCase` restricted to the characters it is applied to here. */
  function AsciiUpper(c: char): (u: char)
    ensures IsWordChar(u) == IsWordChar(c)
    ensures IsAsciiLetter(u) == IsAsciiLetter(c)
    ensures !('a' <= u <= 'z')
    ensures !('a' <= c <= 'z') ==> u == c
  {
    if 'a' <= c <= 'z' then (c as int - 32) as char else c
  }

  /** Simple case folding of the `i` regular-expression flag on ASCII. */
  function AsciiLower(c: char): char {
    if 'A' <= c <= 'Z' then (c as int + 32) as char else c
  }

  /** `String(n)` for a non-negative integer. */
  function Decimal(n: nat): (r: string)
    ensures |r| >= 1
    ensures forall i :: 0 <= i < |r| ==> IsDigit(r[i])
  {
    var last := ['0' + (n % 10) as char];
    if n < 10 then last else Decimal(n / 10) + last
  }

  /** Drops JavaScript white space from the front. */
  function TrimStart(s: string): (r: string)
    ensures |r| <= |s| && r == s[|s| - |r|..]
    ensures r == [] || !IsJsSpace(r[0])
    ensures forall i :: 0 <= i < |s| - |r| ==> IsJsSpace(s[i])
  {
    if s != [] && IsJsSpace(s[0]) then TrimStart(s[1..]) else s
  }

  /** Drops JavaScript white space from the back. */
  function TrimEnd(s: string): (r: string)
    ensures |r| <= |s| && r == s[..|r|]
    ensures r == [] || !IsJsSpace(r[|r| - 1])
    ensures forall i :: |r| <= i < |s| ==> IsJsSpace(s[i])
  {
    if s != [] && IsJsSpace(s[|s| - 1]) then TrimEnd(s[..|s| - 1]) else s
  }

  /** `String.prototype.trim`: the longest infix that neither starts nor ends
      with white space, obtained by dropping only white space. */
  function Trim(s: string): (r: string)
    ensures r == [] || (!IsJsSpace(r[0]) && !IsJsSpace(r[|r| - 1]))
    ensures (s == [] || (!IsJsSpace(s[0]) && !IsJsSpace(s[|s| - 1]))) ==> r == s
  {
    TrimEnd(TrimStart(s))
  }

  /** Trimming only deletes: the result is an infix of the input. */
  lemma TrimDeletes(s: string)
    ensures IsSubsequence(Trim(s), s)
  {
    var t := TrimStart(s);
    var r := TrimEnd(t);
    var k := |s| - |t|;
    assert r == s[k..][..|r|] == s[k..k + |r|];
    SubsequenceOfInfix(s, k, k + |r|);
  }

  /** `a` is obtained from `b` by deleting characters. */
  predicate IsSubsequence<T(==)>(a: seq<T>, b: seq<T>)
    decreases |b|
  {
    a == [] || (b != [] && ((a[0] == b[0] && IsSubsequence(a[1..], b[1..])) || IsSubsequence(a, b[1..])))
  }

  lemma {:induction false} SubsequenceRefl<T>(a: seq<T>)
    ensures IsSubsequence(a, a)
  {
    if a != [] { SubsequenceRefl(a[1..]); }
  }

  lemma {:induction false} SubsequenceOfLonger<T>(a: seq<T>, x: seq<T>, b: seq<T>)
    requires IsSubsequence(a, b)
    ensures IsSubsequence(a, x + b)
    decreases |x|
  {
    if x == [] {
      assert x + b == b;
    } else {
      SubsequenceOfLonger(a, x[1..], b);
      assert (x + b)[1..] == x[1..] + b;
      if a != [] {
        assert x + b != [] && IsSubsequence(a, (x + b)[1..]);
      }
    }
  }

  lemma {:induction false} SubsequenceOfExtended<T>(a: seq<T>, b: seq<T>, y: seq<T>)
    requires IsSubsequence(a, b)
    ensures IsSubsequence(a, b + y)
    decreases |b|
  {
    if a != [] {
      assert (b + y)[1..] == b[1..] + y;
      if a[0] == b[0] && IsSubsequence(a[1..], b[1..]) {
        SubsequenceOfExtended(a[1..], b[1..], y);
      } else {
        SubsequenceOfExtended(a, b[1..], y);
      }
    }
  }

  lemma {:induction false} SubsequenceTrans<T>(a: seq<T>, b: seq<T>, c: seq<T>)
    requires IsSubsequence(a, b) && IsSubsequence(b, c)
    ensures IsSubsequence(a, c)
    decreases |c|
  {
    if a != [] {
      if IsSubsequence(b, c[1..]) {
        SubsequenceTrans(a, b, c[1..]);
      } else if a[0] == b[0] && IsSubsequence(a[1..], b[1..]) {
        SubsequenceTrans(a[1..], b[1..], c[1..]);
      } else {
        SubsequenceTrans(a, b[1..], c[1..]);
      }
    }
  }

  lemma {:induction false} SubsequenceLength<T>(a: seq<T>, b: seq<T>)
    requires IsSubsequence(a, b)
    ensures |a| <= |b|
    decreases |b|
  {
    if a != [] {
      if a[0] == b[0] && IsSubsequence(a[1..], b[1..]) {
        SubsequenceLength(a[1..], b[1..]);
      } else {
        SubsequenceLength(a, b[1..]);
      }
    }
  }

  /** A subsequence as long as the sequence it is taken from is that sequence. */
  lemma {:induction false} SubsequenceOfSameLength<T>(a: seq<T>, b: seq<T>)
    requires IsSubsequence(a, b) && |a| == |b|
    ensures a == b
    decreases |b|
  {
    if a != [] {
      if a[0] == b[0] && IsSubsequence(a[1..], b[1..]) {
        SubsequenceOfSameLength(a[1..], b[1..]);
        assert a == [a[0]] + a[1..] && b == [b[0]] + b[1..];
      } else {
        SubsequenceLength(a, b[1..]);
        assert false;
      }
    }
  }

  lemma {:induction false} SubsequenceMembers<T>(a: seq<T>, b: seq<T>, x: T)
    requires IsSubsequence(a, b) && x in a
    ensures x in b
    decreases |b|
  {
    if a[0] == b[0] && IsSubsequence(a[1..], b[1..]) {
      if x != a[0] { SubsequenceMembers(a[1..], b[1..], x); }
    } else {
      SubsequenceMembers(a, b[1..], x);
    }
  }

  /** An infix is a subsequence. */
  lemma SubsequenceOfInfix<T>(s: seq<T>, i: nat, j: nat)
    requires i <= j <= |s|
    ensures IsSubsequence(s[i..j], s)
  {
    SubsequenceRefl(s[i..j]);
    SubsequenceOfExtended(s[i..j], s[i..j], s[j..]);
    assert s[i..j] + s[j..] == s[i..];
    SubsequenceOfLonger(s[i..j], s[..i], s[i..]);
    assert s[..i] + s[i..] == s;
  }

  /** What is a subsequence of a suffix is a subsequence of the whole. */
  lemma SubsequenceOfSuffix<T>(a: seq<T>, s: seq<T>, k: nat)
    requires k <= |s| && IsSubsequence(a, s[k..])
    ensures IsSubsequence(a, s)
  {
    SubsequenceOfLonger(a, s[..k], s[k..]);
    assert s[..k] + s[k..] == s;
  }

  /** A character kept in front of a subsequence of the rest. */
  lemma SubsequenceCons<T>(x: T, a: seq<T>, b: seq<T>)
    requires IsSubsequence(a, b)
    ensures IsSubsequence([x] + a, [x] + b)
  {
    assert ([x] + a)[1..] == a;
    assert ([x] + b)[1..] == b;
  }

  /** Position of the first occurrence of `c`. */
  function IndexOf(s: string, c: char): (i: nat)
    requires c in s
    ensures i < |s| && s[i] == c && c !in s[..i]
  {
    if s[0] == c then 0 else 1 + IndexOf(s[1..], c)
  }
}
