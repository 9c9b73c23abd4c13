/**
 * The slice of PHP's value model that the client manipulates: scalars, ordered
 * arrays with string keys, truthiness, string conversion, and the
 * `implode(',', ...)` / `explode(',', ...)` pair.
 */
module Php {
  import opened Options

  /** A PHP value. Arrays are ordered maps; their keys are strings here. */
  datatype Value =
    | Null
    | Bool(b: bool)
    | Int(i: int)
    | Str(s: string)
    | Arr(entries: seq<(string, Value)>)

  /** A PHP array as an association list in insertion order. */
  type Assoc = seq<(string, Value)>

  /** PHP truthiness: null, false, 0, "", "0" and the empty array are falsy. */
  predicate Truthy(v: Value) {
    match v
    case Null => false
    case Bool(b) => b
    case Int(i) => i != 0
    case Str(s) => s != "" && s != "0"
    case Arr(e) => e != []
  }

  /** No key occurs twice, as in every PHP array. */
  predicate UniqueKeys<V>(m: seq<(string, V)>) {
    forall i, j :: 0 <= i < j < |m| ==> m[i].0 != m[j].0
  }

  /** `$r` keeps every key of `$m` at the position it had in `$m`. */
  predicate KeepsOrder(m: Assoc, r: Assoc) {
    |m| <= |r| && forall i :: 0 <= i < |m| ==> r[i].0 == m[i].0
  }

  /** `$m[$k]`, or None when the key is absent. */
  function Lookup(m: Assoc, k: string): (r: Option<Value>)
    ensures r.Some? <==> exists i :: 0 <= i < |m| && m[i].0 == k
  {
    if m == [] then None
    else if m[0].0 == k then Some(m[0].1)
    else Lookup(m[1..], k)
  }

  /**
   * `$m[$k] = $v`: an existing key keeps its position and takes the new
   * value, a new key is appended at the end.
   */
  function Put(m: Assoc, k: string, v: Value): (r: Assoc)
    ensures Lookup(r, k) == Some(v)
    ensures forall k' :: k' != k ==> Lookup(r, k') == Lookup(m, k')
    ensures KeepsOrder(m, r) && |r| <= |m| + 1
    ensures (forall i :: 0 <= i < |m| ==> m[i].0 != k) ==> r == m + [(k, v)]
  {
    if m == [] then [(k, v)]
    else if m[0].0 == k then [(k, v)] + m[1..]
    else [m[0]] + Put(m[1..], k, v)
  }

  /** `$m[$k]` read as an array; a missing or non-array entry reads as `[]`. */
  function Child(m: Assoc, k: string): Assoc {
    match Lookup(m, k)
    case Some(Arr(e)) => e
    case _ => []
  }

  /** `$m[$p0][$p1]...`, or None when some step is missing or not an array. */
  function LookupPath(m: Assoc, path: seq<string>): Option<Value>
    requires path != []
    decreases |path|
  {
    if |path| == 1 then Lookup(m, path[0])
    else match Lookup(m, path[0])
      case Some(Arr(e)) => LookupPath(e, path[1..])
      case _ => None
  }

  /** `$m[$p0][$p1]... = $v`, creating the intermediate arrays on the way. */
  function PutPath(m: Assoc, path: seq<string>, v: Value): (r: Assoc)
    requires path != []
    ensures LookupPath(r, path) == Some(v)
    ensures KeepsOrder(m, r)
    ensures forall k :: k != path[0] ==> Lookup(r, k) == Lookup(m, k)
    decreases |path|
  {
    if |path| == 1 then Put(m, path[0], v)
    else Put(m, path[0], Arr(PutPath(Child(m, path[0]), path[1..], v)))
  }

  /** Two key paths part ways at some position, so neither is a prefix of the other. */
  predicate Diverge(p: seq<string>, q: seq<string>)
    decreases |p|
  {
    p != [] && q != [] && (p[0] != q[0] || Diverge(p[1..], q[1..]))
  }

  /** Extending two diverging paths keeps them diverging. */
  lemma {:induction false} DivergeExtend(p: seq<string>, q: seq<string>, p': seq<string>, q': seq<string>)
    requires Diverge(p, q)
    ensures Diverge(p + p', q + q')
    decreases |p|
  {
    assert (p + p')[0] == p[0] && (q + q')[0] == q[0];
    if p[0] == q[0] {
      DivergeExtend(p[1..], q[1..], p', q');
      assert (p + p')[1..] == p[1..] + p' && (q + q')[1..] == q[1..] + q';
    }
  }

  /** Paths with a common prefix and different last keys diverge. */
  lemma {:induction false} DivergeLast(pre: seq<string>, a: string, b: string)
    requires a != b
    ensures Diverge(pre + [a], pre + [b])
    decreases |pre|
  {
    if pre != [] {
      DivergeLast(pre[1..], a, b);
      assert (pre + [a])[1..] == pre[1..] + [a] && (pre + [b])[1..] == pre[1..] + [b];
    }
  }

  /** A nested write leaves every path that diverges from the written one as it was. */
  lemma {:induction false} PutPathElsewhere(m: Assoc, written: seq<string>, v: Value, p: seq<string>)
    requires Diverge(p, written)
    ensures LookupPath(PutPath(m, written, v), p) == LookupPath(m, p)
    decreases |p|
  {
    var r := PutPath(m, written, v);
    if p[0] == written[0] {
      var c := Child(m, p[0]);
      PutPathElsewhere(c, written[1..], v, p[1..]);
      assert Lookup(r, p[0]) == Some(Arr(PutPath(c, written[1..], v)));
      match Lookup(m, p[0])
      case Some(Arr(e)) =>
      case _ =>
        assert c == [];
        assert LookupPath([], p[1..]) == None;
    }
  }

  /** Writing a key twice leaves only the second value. */
  lemma {:induction false} PutTwice(m: Assoc, k: string, a: Value, b: Value)
    ensures Put(Put(m, k, a), k, b) == Put(m, k, b)
  {
    if m != [] && m[0].0 != k {
      PutTwice(m[1..], k, a, b);
    }
  }

  /** A two-key write is a write of the outer key with the inner array updated. */
  lemma PutPathTwo(m: Assoc, k: string, k2: string, v: Value)
    ensures PutPath(m, [k, k2], v) == Put(m, k, Arr(Put(Child(m, k), k2, v)))
  {
    assert [k, k2][1..] == [k2];
  }

  /** Writing one key into `$q[k]` that holds the array g replaces `$q[k]` by the updated g. */
  lemma PutInto(q: Assoc, k: string, g: Assoc, k2: string, v: Value)
    ensures PutPath(Put(q, k, Arr(g)), [k, k2], v) == Put(q, k, Arr(Put(g, k2, v)))
  {
    PutPathTwo(Put(q, k, Arr(g)), k, k2, v);
    assert Child(Put(q, k, Arr(g)), k) == g;
    PutTwice(q, k, Arr(g), Arr(Put(g, k2, v)));
  }

  const Digit := "0123456789"

  /** Decimal digits of a natural number, most significant first. */
  function Digits(n: nat): string
    decreases n
  {
    if n < 10 then [Digit[n]] else Digits(n / 10) + [Digit[n % 10]]
  }

  /** PHP's string conversion `(string) $v`; an array converts to "Array". */
  function StrVal(v: Value): string {
    match v
    case Null => ""
    case Bool(b) => if b then "1" else ""
    case Int(i) => if i < 0 then "-" + Digits(-i) else Digits(i)
    case Str(s) => s
    case Arr(_) => "Array"
  }

  /** `implode(',', $xs)` on a list of strings. */
  function Join(xs: seq<string>): string {
    if xs == [] then ""
    else if |xs| == 1 then xs[0]
    else xs[0] + "," + Join(xs[1..])
  }

  /** `implode(',', $a)` on an array: its values, converted to strings, in order. */
  function Implode(a: Assoc): string {
    Join(seq(|a|, i requires 0 <= i < |a| => StrVal(a[i].1)))
  }

  /** `explode(',', $s)`: the pieces between commas; never empty. */
  function Split(s: string): (pieces: seq<string>)
    ensures |pieces| >= 1
  {
    if s == [] then [""]
    else
      var rest := Split(s[1..]);
      if s[0] == ',' then [""] + rest else [[s[0]] + rest[0]] + rest[1..]
  }

  /** Splitting after a comma-free first piece peels that piece off. */
  lemma {:induction false} SplitAfterPiece(x: string, t: string)
    requires ',' !in x
    ensures Split(x + "," + t) == [x] + Split(t)
    ensures Split(x) == [x]
  {
    if x != [] {
      SplitAfterPiece(x[1..], t);
      assert (x + "," + t)[1..] == x[1..] + "," + t;
      assert [x[0]] + x[1..] == x;
    } else {
      assert x + "," + t == [','] + t;
      assert ([','] + t)[1..] == t;
    }
  }

  /** explode undoes implode on a non-empty list whose items contain no comma. */
  lemma {:induction false} SplitJoin(xs: seq<string>)
    requires |xs| >= 1
    requires forall i :: 0 <= i < |xs| ==> ',' !in xs[i]
    ensures Split(Join(xs)) == xs
  {
    if |xs| == 1 {
      SplitAfterPiece(xs[0], "");
    } else {
      SplitJoin(xs[1..]);
      SplitAfterPiece(xs[0], Join(xs[1..]));
      assert [xs[0]] + xs[1..] == xs;
    }
  }
}
