/** Bag-of-words vectors over hashed tokens, and the bound on their cosine. */
module Embedding {
  import opened Ordering

  /** What the token digest decides: a bucket number, reduced modulo the dimension, and a sign. */
  datatype Digest = Digest(bucket: string -> nat, even: string -> bool)

  // ---- vectors of exact reals ----

  function Square(x: real): real {
    x * x
  }

  function Dot(a: seq<real>, b: seq<real>): real
    requires |a| == |b|
  {
    if a == [] then 0.0 else a[0] * b[0] + Dot(a[1..], b[1..])
  }

  function SumSq(a: seq<real>): (r: real)
    ensures r >= 0.0
  {
    if a == [] then 0.0 else Square(a[0]) + SumSq(a[1..])
  }

  function Scaled(a: seq<real>, norm: real): (r: seq<real>)
    requires norm != 0.0
    ensures |r| == |a|
  {
    seq(|a|, i requires 0 <= i < |a| => a[i] / norm)
  }

  predicate IsZero(a: seq<real>) {
    forall i :: 0 <= i < |a| ==> a[i] == 0.0
  }

  /** `root` behaves as a square root at `x`. */
  predicate SquareRoot(root: real -> real, x: real) {
    root(x) >= 0.0 && Square(root(x)) == x
  }

  // ---- the specification of an embedding ----

  function Sign(d: Digest, token: string): real {
    if d.even(token) then 1.0 else -1.0
  }

  /** What one occurrence of a token adds to coordinate `i`. */
  function Share(d: Digest, dims: nat, token: string, i: nat): real
    requires dims > 0
  {
    if d.bucket(token) % dims == i then Sign(d, token) else 0.0
  }

  /** Coordinate `i` before normalisation: the signed number of token occurrences in the bucket. */
  function Coordinate(d: Digest, dims: nat, tokens: seq<string>, i: nat): real
    requires dims > 0
  {
    if tokens == [] then 0.0 else Share(d, dims, tokens[0], i) + Coordinate(d, dims, tokens[1..], i)
  }

  function Raw(d: Digest, dims: nat, tokens: seq<string>): (r: seq<real>)
    requires dims > 0
    ensures |r| == dims
  {
    seq(dims, i requires 0 <= i < dims => Coordinate(d, dims, tokens, i))
  }

  function NormOf(raw: seq<real>, root: real -> real): (r: real)
    ensures r != 0.0
  {
    if root(SumSq(raw)) == 0.0 then 1.0 else root(SumSq(raw))
  }

  function Embed(d: Digest, dims: nat, tokens: seq<string>, root: real -> real): (r: seq<real>)
    requires dims > 0
    ensures |r| == dims
  {
    var raw := Raw(d, dims, tokens);
    Scaled(raw, NormOf(raw, root))
  }

  // ---- order does not matter ----

  lemma {:induction false} CoordinateAppends(d: Digest, dims: nat, a: seq<string>, b: seq<string>, i: nat)
    requires dims > 0
    ensures Coordinate(d, dims, a + b, i) == Coordinate(d, dims, a, i) + Coordinate(d, dims, b, i)
  {
    if a == [] {
      assert a + b == b;
    } else {
      CoordinateAppends(d, dims, a[1..], b, i);
      assert (a + b)[1..] == a[1..] + b;
    }
  }

  lemma {:induction false} CoordinateIgnoresOrder(d: Digest, dims: nat, a: seq<string>, b: seq<string>, i: nat)
    requires dims > 0 && multiset(a) == multiset(b)
    ensures Coordinate(d, dims, a, i) == Coordinate(d, dims, b, i)
    decreases |a|
  {
    if a == [] {
      assert |b| == |multiset(b)| == 0;
    } else {
      assert a[0] in multiset(b);
      var k :| 0 <= k < |b| && b[k] == a[0];
      TailMultiset(a, b, k);
      CoordinateIgnoresOrder(d, dims, a[1..], b[..k] + b[k + 1..], i);
      CoordinateAppends(d, dims, b[..k], b[k + 1..], i);
      CoordinateAppends(d, dims, b[..k], b[k..], i);
      assert b[k..][1..] == b[k + 1..] && b[..k] + b[k..] == b;
    }
  }

  /** Texts with the same token multiset have the same embedding. */
  lemma EmbeddingIgnoresOrder(d: Digest, dims: nat, a: seq<string>, b: seq<string>, root: real -> real)
    requires dims > 0 && multiset(a) == multiset(b)
    ensures Embed(d, dims, a, root) == Embed(d, dims, b, root)
  {
    forall i | 0 <= i < dims ensures Coordinate(d, dims, a, i) == Coordinate(d, dims, b, i) {
      CoordinateIgnoresOrder(d, dims, a, b, i);
    }
    assert Raw(d, dims, a) == Raw(d, dims, b);
  }

  /** A text of one token points along its bucket's axis, up or down as the digest's parity says. */
  lemma LoneTokenIsAnAxis(d: Digest, dims: nat, token: string, root: real -> real, i: nat)
    requires dims > 0 && i < dims && root(1.0) == 1.0
    ensures Embed(d, dims, [token], root)[i]
         == if i != d.bucket(token) % dims then 0.0 else if d.even(token) then 1.0 else -1.0
  {
    var raw := Raw(d, dims, [token]);
    var k := d.bucket(token) % dims;
    var sign := if d.even(token) then 1.0 else -1.0;
    forall j | 0 <= j < dims ensures raw[j] == if j == k then sign else 0.0 {
      assert [token][1..] == [] && Coordinate(d, dims, [token][1..], j) == 0.0;
    }
    AxisLength(raw, k, sign);
    assert SumSq(raw) == 1.0;
  }

  lemma {:induction false} AxisLength(a: seq<real>, k: nat, sign: real)
    requires k < |a| && a[k] == sign && (sign == 1.0 || sign == -1.0)
    requires forall j :: 0 <= j < |a| && j != k ==> a[j] == 0.0
    ensures SumSq(a) == 1.0
  {
    if k == 0 {
      ZeroLength(a[1..]);
    } else {
      AxisLength(a[1..], k - 1, sign);
    }
  }

  lemma {:induction false} ZeroLength(a: seq<real>)
    requires forall j :: 0 <= j < |a| ==> a[j] == 0.0
    ensures SumSq(a) == 0.0
  {
    if a != [] { ZeroLength(a[1..]); }
  }

  // ---- the cosine bound ----

  lemma {:induction false} DotOfSelf(a: seq<real>)
    ensures Dot(a, a) == SumSq(a)
  {
    if a != [] { DotOfSelf(a[1..]); }
  }

  lemma {:induction false} SumSqOfScaled(a: seq<real>, norm: real)
    requires norm != 0.0
    ensures SumSq(Scaled(a, norm)) * Square(norm) == SumSq(a)
  {
    if a == [] {
      assert SumSq(Scaled(a, norm)) == 0.0;
      Distribute(0.0, 0.0, Square(norm));
    } else {
      SumSqOfScaled(a[1..], norm);
      var s := Scaled(a, norm);
      assert s[1..] == Scaled(a[1..], norm);
      var q := a[0] / norm;
      assert q * norm == a[0];
      SquareOfProduct(q, norm);
      Distribute(Square(q), SumSq(s[1..]), Square(norm));
    }
  }

  // facts of real arithmetic; `p` names a product

  lemma PositiveProduct(a: real, b: real, p: real)
    requires a > 0.0 && b > 0.0 && p == a * b
    ensures p > 0.0
  {
  }

  lemma SquareSign(a: real)
    ensures a == 0.0 ==> Square(a) == 0.0
    ensures a != 0.0 ==> Square(a) > 0.0
  {
    if a > 0.0 {
      PositiveProduct(a, a, Square(a));
    } else if a < 0.0 {
      PositiveProduct(-a, -a, Square(a));
    }
  }

  lemma SquareOfProduct(q: real, n: real)
    ensures (q * n) * (q * n) == (q * q) * (n * n)
  {
  }

  lemma Distribute(x: real, y: real, z: real)
    ensures (x + y) * z == x * z + y * z
  {
  }

  lemma {:induction false} SumSqZeroIff(a: seq<real>)
    ensures SumSq(a) == 0.0 <==> IsZero(a)
  {
    hide Square;
    if a != [] {
      SumSqZeroIff(a[1..]);
      SquareSign(a[0]);
      assert forall i :: 1 <= i < |a| ==> a[i] == a[1..][i - 1];
      assert forall i :: 0 <= i < |a[1..]| ==> a[1..][i] == a[i + 1];
    }
  }

  /** An embedding has length one, or is zero because the signed counts cancelled in every bucket. */
  lemma EmbeddingIsUnitOrZero(d: Digest, dims: nat, tokens: seq<string>, root: real -> real)
    requires dims > 0 && SquareRoot(root, SumSq(Raw(d, dims, tokens)))
    ensures SumSq(Embed(d, dims, tokens, root)) == if IsZero(Raw(d, dims, tokens)) then 0.0 else 1.0
  {
    UnitAfterScaling(Raw(d, dims, tokens), root);
  }

  lemma UnitAfterScaling(raw: seq<real>, root: real -> real)
    requires SquareRoot(root, SumSq(raw))
    ensures SumSq(Scaled(raw, NormOf(raw, root))) == if IsZero(raw) then 0.0 else 1.0
  {
    hide Square;
    hide IsZero;
    var norm := NormOf(raw, root);
    SumSqZeroIff(raw);
    SumSqOfScaled(raw, norm);
    SquareSign(norm);
    SquareSign(root(SumSq(raw)));
    if SumSq(raw) == 0.0 {
      CancelZero(SumSq(Scaled(raw, norm)), Square(norm), SumSq(raw));
    } else {
      CancelFactor(SumSq(Scaled(raw, norm)), Square(norm), SumSq(raw));
    }
  }

  lemma CancelZero(x: real, y: real, p: real)
    requires y > 0.0 && p == x * y && p == 0.0
    ensures x == 0.0
  {
    if x > 0.0 {
      PositiveProduct(x, y, p);
    } else if x < 0.0 {
      PositiveProduct(-x, y, -p);
    }
  }

  lemma CancelFactor(x: real, y: real, p: real)
    requires y > 0.0 && p == x * y && p == y
    ensures x == 1.0
  {
    CancelZero(x - 1.0, y, p - y);
  }

  /** One step of Cauchy-Schwarz: adding a coordinate to each vector. */
  lemma AddCoordinate(dot: real, p: real, q: real, x: real, y: real)
    requires p >= 0.0 && q >= 0.0 && dot * dot <= p * q
    ensures (x * y + dot) * (x * y + dot) <= (x * x + p) * (y * y + q)
  {
    var u, v := p * (y * y), q * (x * x);
    var xy := x * y;
    var w := dot * xy;
    NonNegativeProduct(p, y * y, u);
    NonNegativeProduct(q, x * x, v);
    SquareOfProduct(dot, xy);
    MultiplyBoth(dot * dot, p * q, xy * xy);
    SquareOfProduct(x, y);
    Regroup(p, y * y, q, x * x);
    TwiceProductAtMostSum(w, u, v);
    ExpandSquare(xy, dot);
    ExpandProduct(x * x, p, y * y, q);
  }

  lemma NonNegativeProduct(a: real, b: real, p: real)
    requires a >= 0.0 && b >= 0.0 && p == a * b
    ensures p >= 0.0
  {
  }

  lemma Regroup(a: real, b: real, c: real, d: real)
    ensures (a * b) * (c * d) == (a * c) * (d * b)
  {
  }

  lemma ExpandSquare(a: real, b: real)
    ensures (a + b) * (a + b) == a * a + 2.0 * (b * a) + b * b
  {
  }

  lemma ExpandProduct(a: real, b: real, c: real, d: real)
    ensures (a + b) * (c + d) == a * c + d * a + b * c + b * d
  {
  }

  lemma MultiplyBoth(a: real, b: real, c: real)
    requires a <= b && c >= 0.0
    ensures a * c <= b * c
  {
  }

  lemma MultiplyStrictly(a: real, b: real)
    requires 0.0 <= a < b
    ensures a * a < b * b
  {
    PositiveProduct(b - a, a + b, (b - a) * (a + b));
    assert (b - a) * (a + b) == b * b - a * a;
  }

  lemma TwiceProductAtMostSum(w: real, u: real, v: real)
    requires u >= 0.0 && v >= 0.0 && w * w <= u * v
    ensures 2.0 * w <= u + v
  {
    var s := u + v;
    assert s * s - 4.0 * (u * v) == (u - v) * (u - v) >= 0.0;
    if 2.0 * w > s {
      MultiplyStrictly(s, 2.0 * w);
    }
  }

  lemma {:induction false} CauchySchwarz(a: seq<real>, b: seq<real>)
    requires |a| == |b|
    ensures Dot(a, b) * Dot(a, b) <= SumSq(a) * SumSq(b)
  {
    if a != [] {
      CauchySchwarz(a[1..], b[1..]);
      AddCoordinate(Dot(a[1..], b[1..]), SumSq(a[1..]), SumSq(b[1..]), a[0], b[0]);
    }
  }

  /** The cosine of two embeddings, which is their dot product, lies between -1 and 1. */
  lemma CosineIsBounded(d: Digest, dims: nat, a: seq<string>, b: seq<string>, root: real -> real)
    requires dims > 0
    requires SquareRoot(root, SumSq(Raw(d, dims, a))) && SquareRoot(root, SumSq(Raw(d, dims, b)))
    ensures -1.0 <= Dot(Embed(d, dims, a, root), Embed(d, dims, b, root)) <= 1.0
  {
    var x, y := Embed(d, dims, a, root), Embed(d, dims, b, root);
    EmbeddingIsUnitOrZero(d, dims, a, root);
    EmbeddingIsUnitOrZero(d, dims, b, root);
    UnitsHaveSmallDot(x, y);
  }

  lemma UnitsHaveSmallDot(x: seq<real>, y: seq<real>)
    requires |x| == |y| && SumSq(x) <= 1.0 && 0.0 <= SumSq(y) <= 1.0
    ensures -1.0 <= Dot(x, y) <= 1.0
  {
    hide *;
    CauchySchwarz(x, y);
    WithinOne(Dot(x, y), SumSq(x), SumSq(y));
  }

  lemma WithinOne(c: real, u: real, v: real)
    requires c * c <= u * v && u <= 1.0 && 0.0 <= v <= 1.0
    ensures -1.0 <= c <= 1.0
  {
    MultiplyBoth(u, 1.0, v);
    if c > 1.0 {
      MultiplyStrictly(1.0, c);
    } else if c < -1.0 {
      MultiplyStrictly(1.0, -c);
    }
  }

  /** The cosine of a text with any reordering of itself is 1, unless its vector is zero. */
  lemma SelfCosineIff(d: Digest, dims: nat, a: seq<string>, b: seq<string>, root: real -> real)
    requires dims > 0 && multiset(a) == multiset(b) && SquareRoot(root, SumSq(Raw(d, dims, a)))
    ensures Dot(Embed(d, dims, a, root), Embed(d, dims, b, root)) == 1.0 <==> !IsZero(Raw(d, dims, a))
    ensures IsZero(Raw(d, dims, a)) ==> Dot(Embed(d, dims, a, root), Embed(d, dims, b, root)) == 0.0
  {
    EmbeddingIgnoresOrder(d, dims, a, b, root);
    EmbeddingIsUnitOrZero(d, dims, a, root);
    DotOfSelf(Embed(d, dims, a, root));
  }

  /** Two tokens make the zero vector exactly when their digests share a bucket and differ in sign. */
  lemma TokensCancelIff(d: Digest, dims: nat, a: string, b: string)
    requires dims > 0
    ensures IsZero(Raw(d, dims, [a, b]))
       <==> d.bucket(a) % dims == d.bucket(b) % dims && d.even(a) != d.even(b)
  {
    assert [a, b][1..] == [b] && [b][1..] == [];
    forall i: nat | i < dims
      ensures Raw(d, dims, [a, b])[i] == Share(d, dims, a, i) + Share(d, dims, b, i)
    {
      assert Coordinate(d, dims, [b], i) == Share(d, dims, b, i);
    }
    var i := d.bucket(a) % dims;
    assert Raw(d, dims, [a, b])[i] == Sign(d, a) + Share(d, dims, b, i);
  }

  // ---- the loop over token counts ----

  predicate Distinct(order: seq<string>) {
    forall i, j :: 0 <= i < j < |order| ==> order[i] != order[j]
  }

  /** Coordinate `i` as the code sums it: each distinct token once, times its count. */
  function Weighted(d: Digest, dims: nat, order: seq<string>, counts: multiset<string>, i: nat): real
    requires dims > 0
  {
    if order == [] then 0.0
    else
      var t := order[|order| - 1];
      Weighted(d, dims, order[..|order| - 1], counts, i) + Share(d, dims, t, i) * counts[t] as real
  }

  lemma {:induction false} CountOneMore(d: Digest, dims: nat, order: seq<string>, counts: multiset<string>,
                                        t: string, i: nat)
    requires dims > 0 && Distinct(order)
    ensures Weighted(d, dims, order, counts + multiset{t}, i)
         == Weighted(d, dims, order, counts, i) + if t in order then Share(d, dims, t, i) else 0.0
  {
    if order != [] {
      var front, u := order[..|order| - 1], order[|order| - 1];
      CountOneMore(d, dims, front, counts, t, i);
      assert order == front + [u];
      var more := counts + multiset{t};
      if t == u {
        Distribute(counts[u] as real, 1.0, Share(d, dims, u, i));
        assert more[u] as real == counts[u] as real + 1.0;
      } else {
        assert more[u] == counts[u];
      }
    }
  }

  lemma {:induction false} NothingCounted(d: Digest, dims: nat, order: seq<string>, i: nat)
    requires dims > 0
    ensures Weighted(d, dims, order, multiset{}, i) == 0.0
  {
    if order != [] {
      NothingCounted(d, dims, order[..|order| - 1], i);
    }
  }

  /** Summing counts over distinct tokens is summing over all occurrences. */
  lemma {:induction false} WeightedIsCoordinate(d: Digest, dims: nat, order: seq<string>, tokens: seq<string>, i: nat)
    requires dims > 0 && Distinct(order) && forall t :: t in tokens ==> t in order
    ensures Weighted(d, dims, order, multiset(tokens), i) == Coordinate(d, dims, tokens, i)
  {
    if tokens == [] {
      NothingCounted(d, dims, order, i);
    } else {
      WeightedIsCoordinate(d, dims, order, tokens[1..], i);
      CountOneMore(d, dims, order, multiset(tokens[1..]), tokens[0], i);
      assert tokens == [tokens[0]] + tokens[1..];
      assert multiset(tokens) == multiset(tokens[1..]) + multiset{tokens[0]};
    }
  }

  /** `Counter`: distinct tokens in the order first met, with their counts. */
  method CountTokens(tokens: seq<string>) returns (order: seq<string>, counts: map<string, nat>)
    ensures Distinct(order)
    ensures order == [] <==> tokens == []
    ensures forall t :: t in order <==> t in tokens
    ensures forall t :: t in order <==> t in counts
    ensures forall t :: t in counts ==> counts[t] == multiset(tokens)[t]
  {
    order, counts := [], map[];
    for k := 0 to |tokens|
      invariant Distinct(order)
      invariant order == [] <==> k == 0
      invariant forall t :: t in order <==> t in tokens[..k]
      invariant forall t :: t in order <==> t in counts
      invariant forall t :: t in counts ==> counts[t] == multiset(tokens[..k])[t]
    {
      var t := tokens[k];
      assert tokens[..k + 1] == tokens[..k] + [t];
      if t in counts {
        counts := counts[t := counts[t] + 1];
      } else {
        assert t !in tokens[..k] && multiset(tokens[..k])[t] == 0;
        order := order + [t];
        counts := counts[t := 1];
      }
    }
    assert tokens[..|tokens|] == tokens;
  }

  lemma NoneWeighted(d: Digest, dims: nat, counts: multiset<string>, i: nat)
    requires dims > 0
    ensures Weighted(d, dims, [], counts, i) == 0.0
  {
  }

  /** The next token of the loop touches one bucket. */
  lemma WeightedStep(d: Digest, dims: nat, order: seq<string>, counts: multiset<string>, k: nat, i: nat)
    requires dims > 0 && k < |order|
    ensures Weighted(d, dims, order[..k + 1], counts, i)
         == Weighted(d, dims, order[..k], counts, i)
          + if i == d.bucket(order[k]) % dims then Sign(d, order[k]) * counts[order[k]] as real else 0.0
  {
    assert order[..k + 1][..k] == order[..k];
  }

  /** The vector the counts are added into, one bucket at a time. */
  method RawVector(d: Digest, dims: nat, order: seq<string>, counts: map<string, nat>, ghost bag: multiset<string>)
    returns (raw: seq<real>)
    requires dims > 0
    requires forall t :: t in order ==> t in counts && counts[t] == bag[t]
    ensures |raw| == dims
    ensures forall i :: 0 <= i < dims ==> raw[i] == Weighted(d, dims, order, bag, i)
  {
    hide Weighted;
    hide Sign;
    var vec := new real[dims](_ => 0.0);
    assert order[..0] == [];
    forall i | 0 <= i < dims ensures Weighted(d, dims, [], bag, i) == 0.0 {
      NoneWeighted(d, dims, bag, i);
    }
    for k := 0 to |order|
      invariant forall i :: 0 <= i < dims ==> vec[i] == Weighted(d, dims, order[..k], bag, i)
    {
      var token, count := order[k], counts[order[k]];
      var index := d.bucket(token) % dims;
      forall i | 0 <= i < dims
        ensures Weighted(d, dims, order[..k + 1], bag, i)
             == Weighted(d, dims, order[..k], bag, i) + if i == index then Sign(d, token) * count as real else 0.0
      {
        WeightedStep(d, dims, order, bag, k, i);
      }
      vec[index] := vec[index] + Sign(d, token) * count as real;
    }
    assert order[..|order|] == order;
    raw := vec[..];
  }

  /** `embedding_hash` after tokenising. */
  method EmbeddingHash(d: Digest, dims: nat, tokens: seq<string>, root: real -> real) returns (unit: seq<real>)
    requires dims > 0 && SquareRoot(root, 0.0)
    ensures unit == Embed(d, dims, tokens, root)
  {
    hide Weighted;
    hide Coordinate;
    hide SquareRoot;
    var order, counts := CountTokens(tokens);
    if order == [] {
      NoTokens(d, dims, tokens, root);
      return seq(dims, _ => 0.0);
    }
    var raw := RawVector(d, dims, order, counts, multiset(tokens));
    forall i | 0 <= i < dims ensures raw[i] == Coordinate(d, dims, tokens, i) {
      WeightedIsCoordinate(d, dims, order, tokens, i);
    }
    assert raw == Raw(d, dims, tokens);
    var norm := root(SumSq(raw));
    unit := Scaled(raw, if norm == 0.0 then 1.0 else norm);
  }

  lemma NoTokens(d: Digest, dims: nat, tokens: seq<string>, root: real -> real)
    requires dims > 0 && SquareRoot(root, 0.0) && tokens == []
    ensures Embed(d, dims, tokens, root) == seq(dims, _ => 0.0)
  {
    var raw := Raw(d, dims, tokens);
    SumSqZeroIff(raw);
    SquareSign(root(0.0));
    var unit := Embed(d, dims, tokens, root);
    assert forall i :: 0 <= i < dims ==> unit[i] == 0.0;
  }
}
