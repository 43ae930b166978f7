/** Shared vocabulary: optional values, ordered concatenation and substring
    occurrence, used by every renderer of the model. */
module Base {

  datatype Option<+T> = None | Some(value: T) {
    function GetOr(default: T): T {
      match this
      case Some(v) => v
      case None => default
    }

    predicate IsFailure() {
      None?
    }

    function PropagateFailure<U>(): Option<U>
      requires None?
    {
      None
    }

    function Extract(): T
      requires Some?
    {
      value
    }
  }

  /** `d.get(key, default)` on a dictionary whose entry for `key` is `o`. */
  function Get(o: Option<string>, default: string): (r: string)
    ensures o.Some? ==> r == o.value
    ensures o.None? ==> r == default
  {
    o.GetOr(default)
  }

  /** Python truthiness of `d.get(key)` for a string entry: absent and "" are both false. */
  predicate Truthy(o: Option<string>) {
    o.Some? && o.value != ""
  }

  /** The entry as text when it is truthy, else "" — so `Get(o, "")` agrees with it. */
  lemma GetEmptyDefault(o: Option<string>)
    ensures Truthy(o) <==> Get(o, "") != ""
  {}

  /** The strings `f(xs[0])`, `f(xs[1])`, ... joined in order: what a loop
      `for x in xs: acc += f(x)` leaves in `acc`. Defined from the back so that
      one more iteration appends one more piece. */
  function ConcatMap<T>(f: T -> string, xs: seq<T>): string
  {
    if xs == [] then "" else ConcatMap(f, xs[..|xs| - 1]) + f(xs[|xs| - 1])
  }

  /** Rendering a list split in two renders the two halves one after the other. */
  lemma {:induction false} ConcatMapAppend<T>(f: T -> string, a: seq<T>, b: seq<T>)
    ensures ConcatMap(f, a + b) == ConcatMap(f, a) + ConcatMap(f, b)
  {
    if b == [] {
      assert a + b == a;
    } else {
      var b' := b[..|b| - 1];
      assert (a + b)[..|a + b| - 1] == a + b';
      ConcatMapAppend(f, a, b');
    }
  }

  /** One more iteration of a loop appends one more piece. */
  lemma AppendAssoc(a: string, b: string, c: string)
    ensures (a + b) + c == a + (b + c)
  {
  }

  lemma ConcatMapSnoc<T>(f: T -> string, xs: seq<T>, j: nat)
    requires j < |xs|
    ensures ConcatMap(f, xs[..j + 1]) == ConcatMap(f, xs[..j]) + f(xs[j])
  {
    assert xs[..j + 1][..j] == xs[..j];
  }

  lemma ConcatMapSingle<T>(f: T -> string, x: T)
    ensures ConcatMap(f, [x]) == f(x)
  {
    assert [x][..0] == [];
  }

  lemma ConcatMapCons<T>(f: T -> string, x: T, xs: seq<T>)
    ensures ConcatMap(f, [x] + xs) == f(x) + ConcatMap(f, xs)
  {
    ConcatMapAppend(f, [x], xs);
    ConcatMapSingle(f, x);
  }

  /** The joined text is empty exactly when every piece is empty. */
  lemma {:induction false} ConcatMapEmptyIff<T>(f: T -> string, xs: seq<T>)
    ensures ConcatMap(f, xs) == "" <==> forall i :: 0 <= i < |xs| ==> f(xs[i]) == ""
  {
    if xs != [] {
      var xs' := xs[..|xs| - 1];
      ConcatMapEmptyIff(f, xs');
      assert forall i :: 0 <= i < |xs'| ==> xs'[i] == xs[i];
    }
  }

  /** Two functions that agree on every element join to the same text. */
  lemma {:induction false} ConcatMapCongruent<T>(f: T -> string, g: T -> string, xs: seq<T>)
    requires forall i :: 0 <= i < |xs| ==> f(xs[i]) == g(xs[i])
    ensures ConcatMap(f, xs) == ConcatMap(g, xs)
  {
    if xs != [] {
      var xs' := xs[..|xs| - 1];
      assert forall i :: 0 <= i < |xs'| ==> xs'[i] == xs[i];
      ConcatMapCongruent(f, g, xs');
    }
  }

  /** Pointwise versions over two lists of equal length. */
  lemma {:induction false} ConcatMapPointwise<T, U>(f: T -> string, xs: seq<T>, g: U -> string, ys: seq<U>)
    requires |xs| == |ys|
    requires forall i :: 0 <= i < |xs| ==> f(xs[i]) == g(ys[i])
    ensures ConcatMap(f, xs) == ConcatMap(g, ys)
  {
    if xs != [] {
      var xs', ys' := xs[..|xs| - 1], ys[..|ys| - 1];
      assert forall i :: 0 <= i < |xs'| ==> xs'[i] == xs[i] && ys'[i] == ys[i];
      ConcatMapPointwise(f, xs', g, ys');
    }
  }

  /** `x` occurs in `s` as a contiguous piece. */
  ghost predicate Contains(s: string, x: string) {
    exists k: nat :: OccursAt(s, x, k)
  }

  /** `x` occurs in `s` starting at position `k`. */
  predicate OccursAt(s: string, x: string, k: nat) {
    k + |x| <= |s| && s[k..k + |x|] == x
  }

  /** `x` occurs in `s` and, wholly after it, `y` occurs. */
  ghost predicate Precedes(s: string, x: string, y: string) {
    exists i: nat, j: nat :: OccursAt(s, x, i) && OccursAt(s, y, j) && i + |x| <= j
  }

  lemma OccursAfterPrefix(p: string, x: string, q: string)
    ensures OccursAt(p + x + q, x, |p|)
  {
    var s := p + x + q;
    assert s[|p|..|p| + |x|] == x;
  }

  lemma ContainsMiddle(p: string, x: string, q: string)
    ensures Contains(p + x + q, x)
  {
    OccursAfterPrefix(p, x, q);
  }

  lemma PrecedesMiddle(p: string, x: string, m: string, y: string, q: string)
    ensures Precedes(p + x + m + y + q, x, y)
  {
    OccursAfterPrefix(p, x, m + y + q);
    OccursAfterPrefix(p + x + m, y, q);
    assert p + x + (m + y + q) == p + x + m + y + q;
  }

  /** An occurrence of `x` in an occurrence of `y` is an occurrence in `s`. */
  lemma OccursInside(s: string, y: string, k: nat, x: string, l: nat)
    requires OccursAt(s, y, k) && OccursAt(y, x, l)
    ensures OccursAt(s, x, k + l)
  {
    forall t | 0 <= t < |x| ensures s[k + l + t] == x[t] {
      assert s[k + l + t] == s[k..k + |y|][l + t];
      assert x[t] == y[l..l + |x|][t];
    }
    assert s[k + l..k + l + |x|] == x;
  }

  /** Occurrence is transitive: a piece of a piece is a piece. */
  lemma ContainsTrans(s: string, y: string, x: string)
    requires Contains(s, y) && Contains(y, x)
    ensures Contains(s, x)
  {
    var k: nat :| OccursAt(s, y, k);
    var l: nat :| OccursAt(y, x, l);
    OccursInside(s, y, k, x, l);
  }

  /** Order is kept inside a piece: if `a` precedes `b` within `y`, it does within `s`. */
  lemma PrecedesInside(s: string, y: string, a: string, b: string)
    requires Contains(s, y) && Precedes(y, a, b)
    ensures Precedes(s, a, b)
  {
    var k: nat :| OccursAt(s, y, k);
    var i: nat, j: nat :| OccursAt(y, a, i) && OccursAt(y, b, j) && i + |a| <= j;
    OccursInside(s, y, k, a, i);
    OccursInside(s, y, k, b, j);
  }

  /** Pieces of two pieces in order are in order. */
  lemma PrecedesWithin(s: string, p: string, q: string, a: string, b: string)
    requires Precedes(s, p, q) && Contains(p, a) && Contains(q, b)
    ensures Precedes(s, a, b)
  {
    var i: nat, j: nat :| OccursAt(s, p, i) && OccursAt(s, q, j) && i + |p| <= j;
    var k: nat :| OccursAt(p, a, k);
    var l: nat :| OccursAt(q, b, l);
    OccursInside(s, p, i, a, k);
    OccursInside(s, q, j, b, l);
  }

  /** A piece of one part of a concatenation is a piece of the whole. */
  lemma ContainsInPart(p: string, y: string, q: string, x: string)
    requires Contains(y, x)
    ensures Contains(p + y + q, x)
  {
    ContainsMiddle(p, y, q);
    ContainsTrans(p + y + q, y, x);
  }

  /** The rendering of a list around its element `i`. */
  lemma ConcatMapSplit<T>(f: T -> string, xs: seq<T>, i: nat)
    requires i < |xs|
    ensures ConcatMap(f, xs) == ConcatMap(f, xs[..i]) + f(xs[i]) + ConcatMap(f, xs[i + 1..])
  {
    var left := xs[..i + 1];
    assert xs == left + xs[i + 1..];
    ConcatMapAppend(f, left, xs[i + 1..]);
    assert left[..|left| - 1] == xs[..i];
  }

  /** An element's rendering occurs in the rendering of the whole list. */
  lemma ConcatMapContains<T>(f: T -> string, xs: seq<T>, i: nat)
    requires i < |xs|
    ensures Contains(ConcatMap(f, xs), f(xs[i]))
  {
    ConcatMapSplit(f, xs, i);
    ContainsMiddle(ConcatMap(f, xs[..i]), f(xs[i]), ConcatMap(f, xs[i + 1..]));
  }

  /** The renderings of two elements occur in list order. */
  lemma ConcatMapPrecedes<T>(f: T -> string, xs: seq<T>, i: nat, j: nat)
    requires i < j < |xs|
    ensures Precedes(ConcatMap(f, xs), f(xs[i]), f(xs[j]))
  {
    var right := xs[i + 1..];
    var k := j - (i + 1);
    ConcatMapSplit(f, xs, i);
    ConcatMapSplit(f, right, k);
    assert right[k] == xs[j];
    var a, m, c := ConcatMap(f, xs[..i]), ConcatMap(f, right[..k]), ConcatMap(f, right[k + 1..]);
    var x, y := f(xs[i]), f(xs[j]);
    var s := ConcatMap(f, xs);
    assert s == a + x + (m + y + c);
    PrecedesIn(s, a, x, m, y, c);
  }

  lemma PrecedesIn(s: string, p: string, x: string, m: string, y: string, q: string)
    requires s == p + x + (m + y + q)
    ensures Precedes(s, x, y)
  {
    PrecedesMiddle(p, x, m, y, q);
    assert p + x + m + y + q == s;
  }

  function Self(s: string): string {
    s
  }

  /** A page written as the list of its parts, in order. */
  function Join(parts: seq<string>): string {
    ConcatMap(Self, parts)
  }

  lemma JoinContains(parts: seq<string>, k: nat)
    requires k < |parts|
    ensures Contains(Join(parts), parts[k])
  {
    ConcatMapContains(Self, parts, k);
  }

  lemma JoinPrecedes(parts: seq<string>, i: nat, j: nat)
    requires i < j < |parts|
    ensures Precedes(Join(parts), parts[i], parts[j])
  {
    ConcatMapPrecedes(Self, parts, i, j);
  }

  /** A page starts with its first part. */
  lemma JoinPrefix(parts: seq<string>)
    requires |parts| > 0
    ensures |parts[0]| <= |Join(parts)| && Join(parts)[..|parts[0]|] == parts[0]
  {
    ConcatMapCons(Self, parts[0], parts[1..]);
    assert [parts[0]] + parts[1..] == parts;
  }

  /** Decimal text of a natural number, as Python's `str(n)` / `f"{n}"`. */
  function NatToDecimal(n: nat): (r: string)
    ensures |r| >= 1
    ensures forall k :: 0 <= k < |r| ==> '0' <= r[k] <= '9'
    ensures n > 0 ==> r[0] != '0'
  {
    if n < 10 then [DigitChar(n)] else NatToDecimal(n / 10) + [DigitChar(n % 10)]
  }

  function DigitChar(d: nat): (c: char)
    requires d < 10
    ensures '0' <= c <= '9'
  {
    ['0', '1', '2', '3', '4', '5', '6', '7', '8', '9'][d]
  }

  function DigitValue(c: char): nat
    requires '0' <= c <= '9'
  {
    (c as int - '0' as int) as nat
  }

  function DecimalToNat(s: string): nat
    requires forall k :: 0 <= k < |s| ==> '0' <= s[k] <= '9'
  {
    if s == [] then 0 else 10 * DecimalToNat(s[..|s| - 1]) + DigitValue(s[|s| - 1])
  }

  /** Reading the decimal text back gives the number: the text names `n` and no other. */
  lemma {:induction false} DecimalRoundTrip(n: nat)
    ensures DecimalToNat(NatToDecimal(n)) == n
  {
    var r := NatToDecimal(n);
    if n < 10 {
      assert r[..0] == [];
    } else {
      DecimalRoundTrip(n / 10);
      assert r[..|r| - 1] == NatToDecimal(n / 10);
    }
  }

  lemma DecimalInjective(m: nat, n: nat)
    requires NatToDecimal(m) == NatToDecimal(n)
    ensures m == n
  {
    DecimalRoundTrip(m);
    DecimalRoundTrip(n);
  }
}
