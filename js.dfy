/** JavaScript values and library helpers that the modelled console code relies on:
    truthiness, `String.prototype.toLowerCase`, `includes`, `Array.prototype.join`,
    `Number.prototype.toString` on integers, and Ramda's `R.uniq`. */
module Js {

  datatype Option<+T> = None | Some(value: T) {
    function GetOr(default: T): T {
      match this
      case Some(v) => v
      case None => default
    }
  }

  /** A JavaScript value as far as the modelled code inspects it.
      `Synced(v)` is an object `{$v: v, $r: …}` as produced by the YAML synchroniser;
      `Obj` is any other object (always truthy). Numbers are integers. */
  datatype Scalar =
    | Undefined
    | Null
    | Bool(b: bool)
    | Num(n: int)
    | Str(s: string)
    | Synced(v: Scalar)
    | Obj

  /** JavaScript truthiness: `undefined`, `null`, `false`, `0` and `''` are falsy. */
  predicate Truthy(x: Scalar) {
    match x
    case Undefined => false
    case Null => false
    case Bool(b) => b
    case Num(n) => n != 0
    case Str(s) => s != ""
    case Synced(_) => true
    case Obj => true
  }

  /** `_.get(x, '$v')`: the wrapped value of a synchronised field, `undefined` otherwise. */
  function SyncedValue(x: Scalar): Scalar {
    if x.Synced? then x.v else Undefined
  }

  // ---------------------------------------------------------------------------
  // Strings

  /** Lower-casing of one character (ASCII letters only). */
  function LowerChar(c: char): (d: char)
    ensures 'A' <= c <= 'Z' ==> 'a' <= d <= 'z'
    ensures !('A' <= d <= 'Z')
    ensures !('A' <= c <= 'Z') ==> d == c
  {
    if 'A' <= c <= 'Z' then (c as int + 32) as char else c
  }

  /** `s.toLowerCase()`, restricted to ASCII. */
  function ToLower(s: string): (r: string)
    ensures |r| == |s|
    ensures forall i :: 0 <= i < |s| ==> r[i] == LowerChar(s[i])
  {
    if s == [] then [] else [LowerChar(s[0])] + ToLower(s[1..])
  }

  /** Lower-casing twice is lower-casing once: a lower-cased string has no upper-case letter. */
  lemma ToLowerIdempotent(s: string)
    ensures ToLower(ToLower(s)) == ToLower(s)
  {
    var t := ToLower(s);
    assert forall i :: 0 <= i < |t| ==> LowerChar(t[i]) == t[i];
  }

  /** `s.includes(sub)`. */
  predicate Contains(s: string, sub: string) {
    sub <= s || (s != [] && Contains(s[1..], sub))
  }

  /** `xs.join(sep)`. */
  function Join(xs: seq<string>, sep: string): string
  {
    if |xs| == 0 then ""
    else if |xs| == 1 then xs[0]
    else Join(xs[..|xs| - 1], sep) + sep + xs[|xs| - 1]
  }

  /** Each item followed by the separator: what `str += item + sep` accumulates. */
  function Terminated(xs: seq<string>, sep: string): (r: string)
  {
    if xs == [] then "" else Terminated(xs[..|xs| - 1], sep) + xs[|xs| - 1] + sep
  }

  /** Dropping the trailing separator of the terminated form gives the joined form. */
  lemma {:induction false} TerminatedIsJoinPlusSeparator(xs: seq<string>, sep: string)
    requires xs != []
    ensures Terminated(xs, sep) == Join(xs, sep) + sep
  {
    var n := |xs|;
    if n > 1 {
      TerminatedIsJoinPlusSeparator(xs[..n - 1], sep);
      assert xs[..n - 1][..n - 2] == xs[..n - 2];
    } else {
      assert xs[..0] == [];
    }
  }

  // ---------------------------------------------------------------------------
  // Decimal rendering of integers

  function DigitChar(d: nat): (c: char)
    requires d < 10
    ensures '0' <= c <= '9'
  {
    ('0' as int + d) as char
  }

  /** Decimal digits of a natural number, most significant first, no leading zero. */
  function Digits(n: nat): (r: string)
    decreases n
  {
    if n < 10 then [DigitChar(n)] else Digits(n / 10) + [DigitChar(n % 10)]
  }

  /** `String(n)` / `n.toString()` for an integer. */
  function DecimalString(n: int): string {
    if n < 0 then "-" + Digits(-n) else Digits(n)
  }

  predicate IsDigit(c: char) { '0' <= c <= '9' }

  function ParseDigits(s: string): int
    requires forall i :: 0 <= i < |s| ==> IsDigit(s[i])
  {
    if s == [] then 0 else ParseDigits(s[..|s| - 1]) * 10 + (s[|s| - 1] as int - '0' as int)
  }

  /** Inverse of `DecimalString`, for strings it produces. */
  function ParseDecimal(s: string): int
    requires s != []
    requires forall i :: 1 <= i < |s| ==> IsDigit(s[i])
    requires s[0] == '-' || IsDigit(s[0])
  {
    if s[0] == '-' then -ParseDigits(s[1..]) else ParseDigits(s)
  }

  lemma {:induction false} DigitsShape(n: nat)
    ensures Digits(n) != []
    ensures forall i :: 0 <= i < |Digits(n)| ==> IsDigit(Digits(n)[i])
    ensures ParseDigits(Digits(n)) == n
    decreases n
  {
    if n >= 10 {
      DigitsShape(n / 10);
      var d := Digits(n);
      assert d[..|d| - 1] == Digits(n / 10);
    }
  }

  /** Rendering an integer in decimal and reading it back gives the integer;
      the rendering never contains a space, so it ends where the first space is. */
  lemma DecimalRoundTrip(n: int)
    ensures DecimalString(n) != []
    ensures ' ' !in DecimalString(n)
    ensures forall i :: 1 <= i < |DecimalString(n)| ==> IsDigit(DecimalString(n)[i])
    ensures DecimalString(n)[0] == '-' || IsDigit(DecimalString(n)[0])
    ensures ParseDecimal(DecimalString(n)) == n
  {
    if n < 0 {
      DigitsShape(-n);
      assert DecimalString(n)[1..] == Digits(-n);
    } else {
      DigitsShape(n);
    }
  }

  // ---------------------------------------------------------------------------
  // Collections

  predicate Distinct<T(==)>(s: seq<T>) {
    forall i, j :: 0 <= i < j < |s| ==> s[i] != s[j]
  }

  function Elements<T>(s: seq<T>): set<T> {
    set x | x in s
  }

  /** `R.uniq(s)`: the first occurrence of every structurally distinct element, in order. */
  function Uniq<T(==)>(s: seq<T>): (r: seq<T>)
    ensures Elements(r) == Elements(s)
    ensures Distinct(r)
  {
    if s == [] then []
    else
      var p := Uniq(s[..|s| - 1]);
      assert s == s[..|s| - 1] + [s[|s| - 1]];
      assert Elements(s) == Elements(s[..|s| - 1]) + {s[|s| - 1]};
      if s[|s| - 1] in p then p else p + [s[|s| - 1]]
  }

  /** A sequence without repetition has as many elements as its set. */
  lemma {:induction false} DistinctCardinality<T>(s: seq<T>)
    requires Distinct(s)
    ensures |Elements(s)| == |s|
  {
    if s != [] {
      var p := s[..|s| - 1];
      DistinctCardinality(p);
      assert Elements(s) == Elements(p) + {s[|s| - 1]};
      assert s[|s| - 1] !in Elements(p);
    }
  }

  /** `R.uniq(s).length` is the number of distinct elements of `s`. */
  lemma UniqLength<T>(s: seq<T>)
    ensures |Uniq(s)| == |Elements(s)|
  {
    var u := Uniq(s);
    DistinctCardinality(u);
    assert Elements(u) == Elements(s);
  }

  /** Number of elements of `s` satisfying `p`. */
  function CountWhere<T>(s: seq<T>, p: T -> bool): (n: nat)
    ensures n <= |s|
  {
    if s == [] then 0 else CountWhere(s[..|s| - 1], p) + (if p(s[|s| - 1]) then 1 else 0)
  }

  /** Counting distributes over concatenation. */
  lemma {:induction false} CountWhereAppend<T>(a: seq<T>, b: seq<T>, p: T -> bool)
    ensures CountWhere(a + b, p) == CountWhere(a, p) + CountWhere(b, p)
  {
    if b != [] {
      var c := b[..|b| - 1];
      CountWhereAppend(a, c, p);
      assert (a + b)[..|a + b| - 1] == a + c;
    } else {
      assert a + b == a;
    }
  }

  /** The distinct elements of `s` that satisfy `p`. */
  function Matching<T>(s: seq<T>, p: T -> bool): set<T> {
    set x | x in s && p(x)
  }

  /** On a sequence without repetition, counting the elements that satisfy `p` counts
      the set of such elements. */
  lemma {:induction false} CountWhereDistinct<T>(s: seq<T>, p: T -> bool)
    requires Distinct(s)
    ensures CountWhere(s, p) == |Matching(s, p)|
  {
    if s == [] {
      assert Matching(s, p) == {};
    } else {
      var q := s[..|s| - 1];
      var last := s[|s| - 1];
      CountWhereDistinct(q, p);
      assert s == q + [last];
      assert last !in q;
      if p(last) {
        assert Matching(s, p) == Matching(q, p) + {last};
      } else {
        assert Matching(s, p) == Matching(q, p);
      }
    }
  }

  /** Elements satisfying one of two exclusive conditions are at most all elements. */
  lemma {:induction false} CountWhereDisjoint<T>(s: seq<T>, p: T -> bool, q: T -> bool)
    requires forall x :: x in s ==> !(p(x) && q(x))
    ensures CountWhere(s, p) + CountWhere(s, q) <= |s|
  {
    if s != [] {
      var r := s[..|s| - 1];
      assert forall x :: x in r ==> x in s;
      CountWhereDisjoint(r, p, q);
      assert s[|s| - 1] in s;
    }
  }

  /** Counting after `R.uniq` counts the distinct elements that satisfy `p`. */
  lemma CountWhereUniq<T>(s: seq<T>, p: T -> bool)
    ensures CountWhere(Uniq(s), p) == |Matching(s, p)|
  {
    var u := Uniq(s);
    CountWhereDistinct(u, p);
    assert Elements(u) == Elements(s);
    assert Matching(u, p) == Matching(s, p) by {
      forall x | x in u ensures x in s { assert x in Elements(u); }
      forall x | x in s ensures x in u { assert x in Elements(s); }
    }
  }

  /** Sum of the values of a key/value list (an object's `Object.keys` walk). */
  function SumValues(kv: seq<(string, int)>): int {
    if kv == [] then 0 else SumValues(kv[..|kv| - 1]) + kv[|kv| - 1].1
  }

  predicate KeysDistinct(kv: seq<(string, int)>) {
    forall i, j :: 0 <= i < j < |kv| ==> kv[i].0 != kv[j].0
  }
}
