/**
 * The aggregation strategies of the federated-learning backend
 * (backend/federated/aggregation.py): FedAvg, FedProx, FedNova, Krum,
 * trimmed mean, coordinate-wise median, metric-weighted ("adaptive")
 * averaging, the Euclidean distance between two state dicts and the plain
 * average.
 *
 * A state dict is a map from parameter name to its flattened tensor. Every
 * strategy that adds tensors (`avg[key] += value * factor`) goes through one
 * accumulation loop, `WeightedSum`, which is proved to compute the
 * coordinate-wise weighted combination `WeightedCombination`; the
 * strategies differ in the weights and in how they prepare the inputs.
 */
module Aggregation {
  import opened Common

  /** A model's state dict: parameter name to its flattened tensor. */
  type ParamMap = map<string, seq<real>>

  /** The exceptions the strategies can raise: IndexError, ZeroDivisionError,
      KeyError, and torch's RuntimeError on tensors of different sizes. */
  datatype AggError = IndexOutOfRange | DivisionByZero | MissingKey | ShapeMismatch | EmptyArgMin

  // ---------------------------------------------------------------------
  // Shapes, coordinates and columns
  // ---------------------------------------------------------------------

  /** Same parameter names, and tensors of the same size under each name. */
  predicate SameShape(a: ParamMap, b: ParamMap) {
    a.Keys == b.Keys && forall k :: k in a ==> |a[k]| == |b[k]|
  }

  /** All clients share the first client's architecture. */
  predicate Uniform(clients: seq<ParamMap>) {
    forall i :: 0 <= i < |clients| ==> SameShape(clients[i], clients[0])
  }

  /** u with every key of c that it lacks, each with c's tensor. */
  function Extend(u: ParamMap, c: ParamMap): (r: ParamMap)
    ensures r.Keys == u.Keys + c.Keys
  {
    map k | k in u.Keys + c.Keys :: if k in u then u[k] else c[k]
  }

  /** Every key some client holds, with the tensor of the first client that
      holds it: the keys and sizes `avg_weights` takes on when each new key
      starts from `torch.zeros_like(value)`. */
  function Union(clients: seq<ParamMap>): ParamMap {
    if |clients| == 0 then map[] else Extend(Union(clients[..|clients| - 1]), clients[|clients| - 1])
  }

  /** The tensors under each key can be added together: two clients that
      hold the same key hold tensors of the same size there. */
  predicate Compatible(clients: seq<ParamMap>) {
    forall p, q, k :: 0 <= p < |clients| && 0 <= q < |clients| && k in clients[p] && k in clients[q] ==>
      |clients[p][k]| == |clients[q][k]|
  }

  /** A key some client holds is a key of the union. */
  lemma {:induction false} UnionHolds(clients: seq<ParamMap>, p: nat, k: string)
    requires p < |clients| && k in clients[p]
    ensures k in Union(clients)
  {
    var n := |clients| - 1;
    if p < n {
      assert clients[..n][p] == clients[p];
      UnionHolds(clients[..n], p, k);
    }
  }

  /** Every key of the union comes from a client holding it, with that
      client's tensor. */
  lemma {:induction false} UnionSource(clients: seq<ParamMap>, k: string) returns (p: nat)
    requires k in Union(clients)
    ensures p < |clients| && k in clients[p] && Union(clients)[k] == clients[p][k]
  {
    var n := |clients| - 1;
    var prefix := clients[..n];
    if k in Union(prefix) {
      p := UnionSource(prefix, k);
      assert prefix[p] == clients[p];
    } else {
      p := n;
    }
  }

  /** The union's keys are exactly the keys some client holds. */
  lemma {:induction false} UnionKeys(clients: seq<ParamMap>, k: string)
    ensures k in Union(clients) <==> exists p :: 0 <= p < |clients| && k in clients[p]
  {
    if k in Union(clients) {
      var p := UnionSource(clients, k);
    }
    if exists p :: 0 <= p < |clients| && k in clients[p] {
      var p :| 0 <= p < |clients| && k in clients[p];
      UnionHolds(clients, p, k);
    }
  }

  /** With compatible clients the union has, under each key, the size every
      holder of that key has. */
  lemma {:induction false} UnionSize(clients: seq<ParamMap>, p: nat, k: string)
    requires Compatible(clients) && p < |clients| && k in clients[p]
    ensures k in Union(clients) && |Union(clients)[k]| == |clients[p][k]|
  {
    UnionHolds(clients, p, k);
    var q := UnionSource(clients, k);
  }

  /** Clients of one architecture are compatible, and their union has that
      architecture. */
  lemma {:induction false} UniformUnion(clients: seq<ParamMap>)
    requires Uniform(clients) && 0 < |clients|
    ensures Compatible(clients) && SameShape(Union(clients), clients[0])
  {
    var n := |clients| - 1;
    if 0 < n {
      var prefix := clients[..n];
      assert prefix[0] == clients[0];
      assert forall i :: 0 <= i < n ==> prefix[i] == clients[i];
      UniformUnion(prefix);
    } else {
      assert clients[..n] == [];
    }
    assert SameShape(clients[n], clients[0]);
  }

  /** Clients pairwise of the same shapes are compatible together or not at all. */
  lemma {:induction false} SameShapesCompatible(a: seq<ParamMap>, b: seq<ParamMap>)
    requires |a| == |b| && forall i :: 0 <= i < |a| ==> SameShape(a[i], b[i])
    ensures Compatible(a) <==> Compatible(b)
  {
    if Compatible(a) {
      forall p, q, k | 0 <= p < |b| && 0 <= q < |b| && k in b[p] && k in b[q]
        ensures |b[p][k]| == |b[q][k]|
      {
        assert SameShape(a[p], b[p]) && SameShape(a[q], b[q]);
      }
    }
    if Compatible(b) {
      forall p, q, k | 0 <= p < |a| && 0 <= q < |a| && k in a[p] && k in a[q]
        ensures |a[p][k]| == |a[q][k]|
      {
        assert SameShape(a[p], b[p]) && SameShape(a[q], b[q]);
      }
    }
  }

  /** Clients pairwise of the same shapes have unions of the same shape. */
  lemma {:induction false} SameShapesUnion(a: seq<ParamMap>, b: seq<ParamMap>)
    requires |a| == |b| && forall i :: 0 <= i < |a| ==> SameShape(a[i], b[i])
    ensures SameShape(Union(a), Union(b))
  {
    var n := |a| - 1;
    if 0 <= n {
      var pa, pb := a[..n], b[..n];
      assert forall i :: 0 <= i < n ==> pa[i] == a[i] && pb[i] == b[i];
      SameShapesUnion(pa, pb);
      assert SameShape(a[n], b[n]);
      assert Union(a) == Extend(Union(pa), a[n]);
      assert Union(b) == Extend(Union(pb), b[n]);
    }
  }

  /** Coordinate j of parameter k (0.0 where the dict has no such coordinate). */
  function Coord(m: ParamMap, k: string, j: nat): real {
    if k in m && j < |m[k]| then m[k][j] else 0.0
  }

  /** Coordinate (k, j) across the first n clients (`torch.stack` along dim 0);
      a client without key k contributes 0.0, as it adds nothing to a sum. */
  function Column(clients: seq<ParamMap>, n: nat, k: string, j: nat): (c: seq<real>)
    requires n <= |clients|
    ensures |c| == n
  {
    seq(n, i requires 0 <= i < n => Coord(clients[i], k, j))
  }

  /** The dict with shape's keys and tensor sizes whose coordinate (k, j) is f(k, j). */
  function Build(shape: ParamMap, f: (string, nat) -> real): (r: ParamMap)
    ensures SameShape(r, shape)
    ensures forall k, j :: k in r && 0 <= j < |r[k]| ==> r[k][j] == f(k, j)
  {
    map k | k in shape :: seq(|shape[k]|, j requires 0 <= j < |shape[k]| => f(k, j))
  }

  /** A dict is determined by its shape and its coordinates. */
  lemma {:induction false} BuildExt(shape: ParamMap, f: (string, nat) -> real, r: ParamMap)
    requires SameShape(r, shape)
    requires forall k, j :: k in r && 0 <= j < |r[k]| ==> r[k][j] == f(k, j)
    ensures r == Build(shape, f)
  {
    var b := Build(shape, f);
    forall k | k in r
      ensures r[k] == b[k]
    {
    }
  }

  /** Two dicts of the same shape with the same coordinates are equal. */
  lemma {:induction false} MapExt(r: ParamMap, b: ParamMap)
    requires SameShape(r, b)
    requires forall k, j :: k in r && 0 <= j < |r[k]| ==> r[k][j] == b[k][j]
    ensures r == b
  {
    forall k | k in r
      ensures r[k] == b[k]
    {
    }
  }

  /** Every coordinate of v's column lies between the column's extremes. */
  predicate InRange(col: seq<real>, v: real) {
    0 < |col| && MinOf(col) <= v <= MaxOf(col)
  }

  /** Each coordinate of r lies between the smallest and the largest value
      the clients hold there. */
  predicate CoordinatesInRange(clients: seq<ParamMap>, r: ParamMap)
    requires 0 < |clients|
  {
    forall k, j :: k in r && 0 <= j < |r[k]| ==> InRange(Column(clients, |clients|, k, j), r[k][j])
  }

  /** r has the keys and sizes of the clients' union and each of its
      coordinates lies within the clients' values there. */
  predicate WithinClientRange(clients: seq<ParamMap>, r: ParamMap)
    requires 0 < |clients|
  {
    SameShape(r, Union(clients)) && CoordinatesInRange(clients, r)
  }

  /** Inner product, peeled from the end like `Sum`. */
  function Dot(v: seq<real>, w: seq<real>): real
    requires |v| == |w|
  {
    if |v| == 0 then 0.0 else Dot(v[..|v| - 1], w[..|w| - 1]) + v[|v| - 1] * w[|w| - 1]
  }

  function Zeros(n: nat): (z: seq<real>)
    ensures |z| == n
  {
    seq(n, _ => 0.0)
  }

  /** `acc + value * factor`, elementwise. */
  function Axpy(acc: seq<real>, value: seq<real>, factor: real): (r: seq<real>)
    requires |acc| == |value|
    ensures |r| == |value|
  {
    seq(|value|, j requires 0 <= j < |value| => acc[j] + value[j] * factor)
  }

  lemma {:induction false} AxpyAt(acc: seq<real>, value: seq<real>, factor: real, j: nat)
    requires |acc| == |value| && j < |value|
    ensures Axpy(acc, value, factor)[j] == acc[j] + value[j] * factor
  {
  }

  // ---------------------------------------------------------------------
  // The weighted combination and its accumulation loop
  // ---------------------------------------------------------------------

  /** Coordinate-wise sum of ws[i] * clients[i] over the union of the
      clients' keys: what `avg[key] += value * w[i]` over every client and
      key builds, each key summed over the clients that hold it. No clients
      give the empty dict. */
  function WeightedCombination(clients: seq<ParamMap>, ws: seq<real>): ParamMap
    requires |ws| == |clients|
  {
    Build(Union(clients), (k: string, j: nat) => Dot(Column(clients, |clients|, k, j), ws))
  }

  /** Coordinate-wise mean of the clients over the union of their keys: the
      sum over the holders of a key divided by the number of all clients. */
  function MeanMap(clients: seq<ParamMap>): ParamMap
    requires 0 < |clients|
  {
    Build(Union(clients), (k: string, j: nat) => Mean(Column(clients, |clients|, k, j)))
  }

  /** The combination holds exactly the keys some client holds. */
  lemma {:induction false} WeightedCombinationKeys(clients: seq<ParamMap>, ws: seq<real>, k: string)
    requires |ws| == |clients|
    ensures k in WeightedCombination(clients, ws) <==> exists p :: 0 <= p < |clients| && k in clients[p]
  {
    UnionKeys(clients, k);
  }

  /** One more client in the prefix adds its coordinate times its weight. */
  lemma {:induction false} DotColumnStep(clients: seq<ParamMap>, ws: seq<real>, i: nat, k: string, j: nat)
    requires i < |clients| == |ws|
    ensures Dot(Column(clients, i + 1, k, j), ws[..i + 1]) ==
            Dot(Column(clients, i, k, j), ws[..i]) + Coord(clients[i], k, j) * ws[i]
  {
    assert Column(clients, i + 1, k, j)[..i] == Column(clients, i, k, j);
    assert ws[..i + 1][..i] == ws[..i];
  }

  /** A key none of the first i clients holds sums to zero over them. */
  lemma {:induction false} AbsentKeyDotZero(clients: seq<ParamMap>, ws: seq<real>, i: nat, k: string, j: nat)
    requires i <= |clients| == |ws|
    requires forall p :: 0 <= p < i ==> k !in clients[p]
    ensures Dot(Column(clients, i, k, j), ws[..i]) == 0.0
  {
    if i > 0 {
      AbsentKeyDotZero(clients, ws, i - 1, k, j);
      DotColumnStep(clients, ws, i - 1, k, j);
    }
  }

  /** The accumulator after the first i clients: every coordinate it holds is
      the weighted sum of that coordinate over those clients. */
  predicate PartialCombination(acc: ParamMap, clients: seq<ParamMap>, ws: seq<real>, i: nat)
    requires i <= |clients| == |ws|
  {
    forall k, j :: k in acc && 0 <= j < |acc[k]| ==> acc[k][j] == Dot(Column(clients, i, k, j), ws[..i])
  }

  /** The accumulator and a client's dict agree on the size of every key both hold. */
  predicate Fits(acc: ParamMap, weights: ParamMap) {
    forall k :: k in weights && k in acc ==> |acc[k]| == |weights[k]|
  }

  /** One pass of the inner loop: every key of `weights` gets `value * w` added,
      starting from zeros when the key is new; the other keys are kept. */
  function AddClient(acc: ParamMap, weights: ParamMap, w: real): (r: ParamMap)
    requires Fits(acc, weights)
    ensures r.Keys == acc.Keys + weights.Keys
  {
    map k | k in acc.Keys + weights.Keys ::
      if k in weights then Axpy(if k in acc then acc[k] else Zeros(|weights[k]|), weights[k], w) else acc[k]
  }

  /** A key of the client gets value * w added to the accumulator's tensor,
      or to zeros when the key is new; the base used is returned. */
  lemma {:induction false} AddClientAt(acc: ParamMap, weights: ParamMap, w: real, k: string) returns (base: seq<real>)
    requires Fits(acc, weights) && k in weights
    ensures base == (if k in acc then acc[k] else Zeros(|weights[k]|))
    ensures |base| == |weights[k]| && AddClient(acc, weights, w)[k] == Axpy(base, weights[k], w)
  {
    base := if k in acc then acc[k] else Zeros(|weights[k]|);
  }

  lemma {:induction false} AddClientCoord(acc: ParamMap, clients: seq<ParamMap>, ws: seq<real>, i: nat, k: string, j: nat)
    requires i < |clients| == |ws|
    requires k in clients[i] && j < |clients[i][k]|
    requires k in acc ==> |acc[k]| == |clients[i][k]| && acc[k][j] == Dot(Column(clients, i, k, j), ws[..i])
    requires k !in acc ==> Dot(Column(clients, i, k, j), ws[..i]) == 0.0
    requires Fits(acc, clients[i])
    ensures AddClient(acc, clients[i], ws[i])[k][j] == Dot(Column(clients, i + 1, k, j), ws[..i + 1])
  {
    var weights := clients[i];
    var base := AddClientAt(acc, weights, ws[i], k);
    assert base[j] == Dot(Column(clients, i, k, j), ws[..i]);
    AxpyAt(base, weights[k], ws[i], j);
    assert weights[k][j] * ws[i] == Coord(clients[i], k, j) * ws[i];
    DotColumnStep(clients, ws, i, k, j);
  }

  lemma {:induction false} AddClientStep(acc: ParamMap, clients: seq<ParamMap>, ws: seq<real>, i: nat)
    requires i < |clients| == |ws|
    requires SameShape(acc, Union(clients[..i])) && Fits(acc, clients[i])
    requires PartialCombination(acc, clients, ws, i)
    ensures SameShape(AddClient(acc, clients[i], ws[i]), Union(clients[..i + 1]))
    ensures PartialCombination(AddClient(acc, clients[i], ws[i]), clients, ws, i + 1)
  {
    var prefix := clients[..i];
    assert clients[..i + 1][..i] == prefix;
    assert Union(clients[..i + 1]) == Extend(Union(prefix), clients[i]);
    var next := AddClient(acc, clients[i], ws[i]);
    forall k, j | k in next && 0 <= j < |next[k]|
      ensures next[k][j] == Dot(Column(clients, i + 1, k, j), ws[..i + 1])
    {
      if k in clients[i] {
        if k !in acc {
          forall p | 0 <= p < i
            ensures k !in clients[p]
          {
            if k in clients[p] {
              assert prefix[p] == clients[p];
              UnionHolds(prefix, p, k);
            }
          }
          AbsentKeyDotZero(clients, ws, i, k, j);
        }
        AddClientCoord(acc, clients, ws, i, k, j);
      } else {
        DotColumnStep(clients, ws, i, k, j);
      }
    }
  }

  /** A client clashing with the accumulator in the size of some key makes
      the clients incompatible. */
  lemma {:induction false} ClashIsIncompatible(clients: seq<ParamMap>, acc: ParamMap, i: nat)
    requires i < |clients| && SameShape(acc, Union(clients[..i]))
    requires !Fits(acc, clients[i])
    ensures !Compatible(clients)
  {
    var k :| k in clients[i] && k in acc && |acc[k]| != |clients[i][k]|;
    var p := UnionSource(clients[..i], k);
    assert clients[..i][p] == clients[p];
  }

  /** A client that fits the accumulator keeps the prefix compatible. */
  lemma {:induction false} CompatibleStep(clients: seq<ParamMap>, acc: ParamMap, i: nat)
    requires i < |clients| && Compatible(clients[..i]) && SameShape(acc, Union(clients[..i]))
    requires Fits(acc, clients[i])
    ensures Compatible(clients[..i + 1])
  {
    var prefix := clients[..i];
    var next := clients[..i + 1];
    forall p, q, k | 0 <= p < |next| && 0 <= q < |next| && k in next[p] && k in next[q]
      ensures |next[p][k]| == |next[q][k]|
    {
      assert next[p] == clients[p] && next[q] == clients[q];
      if p < i {
        assert prefix[p] == clients[p];
        UnionSize(prefix, p, k);
      }
      if q < i {
        assert prefix[q] == clients[q];
        UnionSize(prefix, q, k);
      }
    }
  }

  /** The loop shared by every averaging strategy: for each client in turn,
      for each key, start from zeros if the key is new and add value * ws[i].
      Adding a tensor to one of another size raises, which happens exactly
      when the clients are not compatible. */
  method WeightedSum(clients: seq<ParamMap>, ws: seq<real>) returns (r: Result<ParamMap, AggError>)
    requires |ws| == |clients|
    ensures Compatible(clients) ==> r == Success(WeightedCombination(clients, ws))
    ensures !Compatible(clients) ==> r == Failure(ShapeMismatch)
  {
    var acc: ParamMap := map[];
    for i := 0 to |clients|
      invariant Compatible(clients[..i])
      invariant SameShape(acc, Union(clients[..i]))
      invariant PartialCombination(acc, clients, ws, i)
    {
      if !Fits(acc, clients[i]) {
        ClashIsIncompatible(clients, acc, i);
        return Failure(ShapeMismatch);
      }
      CompatibleStep(clients, acc, i);
      AddClientStep(acc, clients, ws, i);
      acc := AddClient(acc, clients[i], ws[i]);
    }
    assert clients[..|clients|] == clients;
    assert ws[..|clients|] == ws;
    BuildExt(Union(clients), (k: string, j: nat) => Dot(Column(clients, |clients|, k, j), ws), acc);
    r := Success(acc);
  }

  lemma {:induction false} DotBounds(v: seq<real>, w: seq<real>, lo: real, hi: real)
    requires |v| == |w|
    requires forall i :: 0 <= i < |w| ==> 0.0 <= w[i]
    requires forall i :: 0 <= i < |v| ==> lo <= v[i] <= hi
    ensures Sum(w) * lo <= Dot(v, w) <= Sum(w) * hi
  {
    if |v| > 0 {
      var n := |v| - 1;
      DotBounds(v[..n], w[..n], lo, hi);
      var x, y := v[n], w[n];
      MulNonNegative(y, x - lo);
      MulNonNegative(y, hi - x);
    }
  }

  lemma {:induction false} MulNonNegative(a: real, b: real)
    requires 0.0 <= a && 0.0 <= b
    ensures 0.0 <= a * b
  {
  }

  /** A convex combination of a column lies within the column's range. */
  lemma {:induction false} DotInRange(col: seq<real>, ws: seq<real>)
    requires 0 < |col| == |ws|
    requires forall i :: 0 <= i < |ws| ==> 0.0 <= ws[i]
    requires Sum(ws) == 1.0
    ensures InRange(col, Dot(col, ws))
  {
    DotBounds(col, ws, MinOf(col), MaxOf(col));
  }

  /** A weighted combination with non-negative weights summing to one stays
      within the clients' range, coordinate by coordinate. */
  lemma {:induction false} ConvexCombinationInRange(clients: seq<ParamMap>, ws: seq<real>)
    requires 0 < |clients| && |ws| == |clients|
    requires forall i :: 0 <= i < |ws| ==> 0.0 <= ws[i]
    requires Sum(ws) == 1.0
    ensures WithinClientRange(clients, WeightedCombination(clients, ws))
  {
    var r := WeightedCombination(clients, ws);
    forall k, j | k in r && 0 <= j < |r[k]|
      ensures InRange(Column(clients, |clients|, k, j), r[k][j])
    {
      DotInRange(Column(clients, |clients|, k, j), ws);
    }
  }

  /** Dot with a constant vector is the sum scaled by that constant. */
  lemma {:induction false} DotConstant(v: seq<real>, w: seq<real>, c: real)
    requires |v| == |w|
    requires forall i :: 0 <= i < |w| ==> w[i] == c
    ensures Dot(v, w) == Sum(v) * c
  {
    if |v| > 0 {
      DotConstant(v[..|v| - 1], w[..|w| - 1], c);
    }
  }

  /** a * x + b * s, kept as one term so that the solver matches it whole. */
  function Affine(a: real, x: real, b: real, s: real): real { a * x + b * s }

  lemma {:induction false} AffineStep(d: real, s: real, x: real, y: real, a: real, b: real)
    ensures Affine(a, d, b, s) + Affine(a, x, b, 1.0) * y == Affine(a, d + x * y, b, s + y)
  {
  }

  /** Weighting an affine image a * v + b of v is that image of the weighted
      sum, with b scaled by the total weight. */
  lemma {:induction false} DotAffine(u: seq<real>, v: seq<real>, w: seq<real>, a: real, b: real)
    requires |u| == |v| == |w|
    requires forall i :: 0 <= i < |u| ==> u[i] == Affine(a, v[i], b, 1.0)
    ensures Dot(u, w) == Affine(a, Dot(v, w), b, Sum(w))
  {
    if |u| > 0 {
      DotAffine(u[..|u| - 1], v[..|v| - 1], w[..|w| - 1], a, b);
      AffineStep(Dot(v[..|v| - 1], w[..|w| - 1]), Sum(w[..|w| - 1]), v[|v| - 1], w[|w| - 1], a, b);
    } else {
      assert Affine(a, 0.0, b, 0.0) == 0.0;
    }
  }

  /** With weights summing to one, weighting commutes with an affine map. */
  lemma {:induction false} DotAffineConvex(u: seq<real>, v: seq<real>, w: seq<real>, a: real, b: real)
    requires |u| == |v| == |w| && Sum(w) == 1.0
    requires forall i :: 0 <= i < |u| ==> u[i] == Affine(a, v[i], b, 1.0)
    ensures Dot(u, w) == Affine(a, Dot(v, w), b, 1.0)
  {
    DotAffine(u, v, w, a, b);
  }

  // ---------------------------------------------------------------------
  // Plain average
  // ---------------------------------------------------------------------

  /** `simple_average`: sum the clients over the union of their keys, then
      divide every key by the number of clients. No clients give the empty
      dict (nothing is divided); tensors of different sizes under one key
      raise. */
  method SimpleAverage(clients: seq<ParamMap>) returns (r: Result<ParamMap, AggError>)
    ensures |clients| == 0 ==> r == Success(map[])
    ensures !Compatible(clients) ==> r == Failure(ShapeMismatch)
    ensures 0 < |clients| && Compatible(clients) ==>
      r == Success(MeanMap(clients)) && WithinClientRange(clients, r.value)
  {
    var sums := WeightedSum(clients, seq(|clients|, _ => 1.0));
    if sums.Failure? {
      return Failure(ShapeMismatch);
    }
    if |clients| == 0 {
      assert Union(clients) == map[];
      return Success(map[]);
    }
    var s := sums.value;
    var avg := map k | k in s ::
      seq(|s[k]|, j requires 0 <= j < |s[k]| => s[k][j] / |clients| as real);
    forall k, j | k in avg && 0 <= j < |avg[k]|
      ensures avg[k][j] == Mean(Column(clients, |clients|, k, j))
    {
      DotConstant(Column(clients, |clients|, k, j), seq(|clients|, _ => 1.0), 1.0);
    }
    BuildExt(Union(clients), (k: string, j: nat) => Mean(Column(clients, |clients|, k, j)), avg);
    MeanMapInRange(clients);
    r := Success(avg);
  }

  lemma {:induction false} MeanMapInRange(clients: seq<ParamMap>)
    requires 0 < |clients|
    ensures WithinClientRange(clients, MeanMap(clients))
  {
    var r := MeanMap(clients);
    forall k, j | k in r && 0 <= j < |r[k]|
      ensures InRange(Column(clients, |clients|, k, j), r[k][j])
    {
      var col := Column(clients, |clients|, k, j);
      MeanBounds(col, MinOf(col), MaxOf(col));
    }
  }

  // ---------------------------------------------------------------------
  // FedAvg
  // ---------------------------------------------------------------------

  /** Python's `sum` over a list of ints. */
  function IntSum(s: seq<int>): int {
    if |s| == 0 then 0 else IntSum(s[..|s| - 1]) + s[|s| - 1]
  }

  /** `client_samples[i] / total_samples` for the first n clients. */
  function FedAvgWeights(samples: seq<int>, n: nat): (ws: seq<real>)
    requires n <= |samples| && IntSum(samples) != 0
    ensures |ws| == n
  {
    seq(n, i requires 0 <= i < n => samples[i] as real / IntSum(samples) as real)
  }

  lemma {:induction false} FedAvgWeightsPrefix(samples: seq<int>, n: nat)
    requires n <= |samples| && IntSum(samples) != 0
    ensures Sum(FedAvgWeights(samples, n)) == IntSum(samples[..n]) as real / IntSum(samples) as real
  {
    if n > 0 {
      FedAvgWeightsPrefix(samples, n - 1);
      assert FedAvgWeights(samples, n)[..n - 1] == FedAvgWeights(samples, n - 1);
      assert samples[..n][..n - 1] == samples[..n - 1];
      assert IntSum(samples[..n]) as real == IntSum(samples[..n - 1]) as real + samples[n - 1] as real;
      AddQuotients(IntSum(samples[..n - 1]) as real, samples[n - 1] as real, IntSum(samples) as real);
    }
  }

  lemma {:induction false} AddQuotients(a: real, b: real, t: real)
    requires t != 0.0
    ensures a / t + b / t == (a + b) / t
  {
  }

  /** The sample-count weights of all clients sum to one. */
  lemma {:induction false} FedAvgWeightsSumToOne(samples: seq<int>)
    requires IntSum(samples) != 0
    ensures Sum(FedAvgWeights(samples, |samples|)) == 1.0
  {
    assert samples[..|samples|] == samples;
    FedAvgWeightsPrefix(samples, |samples|);
    var t := IntSum(samples) as real;
    assert t / t == 1.0;
  }

  /** `fedavg`: weight each client by its share of the samples. Client i
      first reads `client_samples[i] / total_samples` (IndexError past the
      counts, ZeroDivisionError on a zero total), then adds its tensors,
      which raises on a size clash with an earlier client's tensor. With one
      non-negative count per client the result lies within the clients'
      range. */
  method FedAvg(clients: seq<ParamMap>, samples: seq<int>) returns (r: Result<ParamMap, AggError>)
    ensures |clients| == 0 ==> r == Success(map[])
    ensures 0 < |clients| && |samples| == 0 ==> r == Failure(IndexOutOfRange)
    ensures 0 < |clients| && 0 < |samples| && IntSum(samples) == 0 ==> r == Failure(DivisionByZero)
    ensures 0 < |samples| < |clients| && IntSum(samples) != 0 ==>
      r == Failure(if Compatible(clients[..|samples|]) then IndexOutOfRange else ShapeMismatch)
    ensures 0 < |clients| <= |samples| && IntSum(samples) != 0 && !Compatible(clients) ==>
      r == Failure(ShapeMismatch)
    ensures 0 < |clients| <= |samples| && IntSum(samples) != 0 && Compatible(clients) ==>
      r == Success(WeightedCombination(clients, FedAvgWeights(samples, |clients|)))
    ensures 0 < |clients| == |samples| && IntSum(samples) != 0 && Compatible(clients) &&
            (forall i :: 0 <= i < |samples| ==> 0 <= samples[i]) ==>
      r.Success? && WithinClientRange(clients, r.value)
  {
    if |clients| == 0 {
      return Success(map[]);
    }
    if |samples| == 0 {
      return Failure(IndexOutOfRange);
    }
    var total := IntSum(samples);
    if total == 0 {
      return Failure(DivisionByZero);
    }
    if |samples| < |clients| {
      var counted := WeightedSum(clients[..|samples|], FedAvgWeights(samples, |samples|));
      return if counted.Failure? then counted else Failure(IndexOutOfRange);
    }
    var ws := FedAvgWeights(samples, |clients|);
    r := WeightedSum(clients, ws);
    if r.Success? && |clients| == |samples| && forall i :: 0 <= i < |samples| ==> 0 <= samples[i] {
      IntSumNonNegative(samples);
      FedAvgWeightsSumToOne(samples);
      forall i | 0 <= i < |ws|
        ensures 0.0 <= ws[i]
      {
        assert ws[i] == samples[i] as real / total as real;
      }
      ConvexCombinationInRange(clients, ws);
    }
  }

  lemma {:induction false} IntSumNonNegative(s: seq<int>)
    requires forall i :: 0 <= i < |s| ==> 0 <= s[i]
    ensures 0 <= IntSum(s)
  {
    if |s| > 0 {
      IntSumNonNegative(s[..|s| - 1]);
    }
  }

  lemma {:induction false} IntSumConstant(s: seq<int>, c: int)
    requires forall i :: 0 <= i < |s| ==> s[i] == c
    ensures IntSum(s) == |s| * c
  {
    if |s| > 0 {
      IntSumConstant(s[..|s| - 1], c);
    }
  }

  lemma {:induction false} EqualShare(c: int, n: nat)
    requires c != 0 && 0 < n
    ensures c as real / (n * c) as real == 1.0 / n as real
  {
    var x, m := c as real, n as real;
    assert (n * c) as real == m * x;
    assert x / (m * x) == 1.0 / m;
  }

  /** The equal share 1/n of n clients. */
  function Share(n: nat): real
    requires 0 < n
  {
    1.0 / n as real
  }

  lemma {:induction false} MeanIsScaledSum(col: seq<real>)
    requires 0 < |col|
    ensures Mean(col) == Sum(col) * Share(|col|)
  {
  }

  /** Equal weights 1/n make the weighted sum a plain mean. */
  lemma {:induction false} DotEqualWeightsIsMean(col: seq<real>, ws: seq<real>)
    requires 0 < |col| == |ws|
    requires forall i :: 0 <= i < |ws| ==> ws[i] == Share(|col|)
    ensures Dot(col, ws) == Mean(col)
  {
    DotConstant(col, ws, Share(|col|));
    MeanIsScaledSum(col);
  }

  /** Clients that trained on equally many samples are averaged plainly. */
  lemma {:induction false} FedAvgEqualSamplesIsMean(clients: seq<ParamMap>, samples: seq<int>)
    requires 0 < |clients| == |samples| && IntSum(samples) != 0
    requires forall i :: 0 <= i < |samples| ==> samples[i] == samples[0]
    ensures WeightedCombination(clients, FedAvgWeights(samples, |clients|)) == MeanMap(clients)
  {
    var n := |clients|;
    var c := samples[0];
    IntSumConstant(samples, c);
    var ws := FedAvgWeights(samples, n);
    forall i | 0 <= i < n
      ensures ws[i] == Share(n)
    {
      EqualShare(c, n);
    }
    EqualWeightsIsMean(clients, ws);
  }

  /** Weights of 1/n each make the weighted combination the plain mean. */
  lemma {:induction false} EqualWeightsIsMean(clients: seq<ParamMap>, ws: seq<real>)
    requires 0 < |clients| == |ws|
    requires forall i :: 0 <= i < |ws| ==> ws[i] == Share(|clients|)
    ensures WeightedCombination(clients, ws) == MeanMap(clients)
  {
    var n := |clients|;
    var r := WeightedCombination(clients, ws);
    forall k, j | k in r && 0 <= j < |r[k]|
      ensures r[k][j] == Mean(Column(clients, n, k, j))
    {
      DotEqualWeightsIsMean(Column(clients, n, k, j), ws);
    }
    BuildExt(Union(clients), (k: string, j: nat) => Mean(Column(clients, n, k, j)), r);
  }

  // ---------------------------------------------------------------------
  // Key orders and per-key faults
  // ---------------------------------------------------------------------

  /** The order a dict's keys are walked in: each key of m exactly once. */
  predicate KeyOrder(keys: seq<string>, m: ParamMap) {
    (forall k :: k in m ==> k in keys) &&
    (forall p :: 0 <= p < |keys| ==> keys[p] in m) &&
    forall p, q :: 0 <= p < q < |keys| ==> keys[p] != keys[q]
  }

  /** orders[i] is the key order of clients[i]. */
  predicate KeyOrders(clients: seq<ParamMap>, orders: seq<seq<string>>) {
    |orders| == |clients| && forall i :: 0 <= i < |clients| ==> KeyOrder(orders[i], clients[i])
  }

  /** Both dicts hold every key of keys with tensors of equal size. */
  predicate Comparable(a: ParamMap, b: ParamMap, keys: seq<string>) {
    forall k :: k in keys ==> k in a && k in b && |a[k]| == |b[k]|
  }

  /** Walking c's keys and reading `ref[key]` beside `c[key]`: the first key
      ref lacks raises KeyError, the first whose tensors differ in size
      raises RuntimeError on the subtraction. */
  function KeyFault(c: ParamMap, ref: ParamMap, keys: seq<string>): Option<AggError>
    requires forall t :: 0 <= t < |keys| ==> keys[t] in c
  {
    if |keys| == 0 then None
    else if keys[0] !in ref then Some(MissingKey)
    else if |ref[keys[0]]| != |c[keys[0]]| then Some(ShapeMismatch)
    else KeyFault(c, ref, keys[1..])
  }

  /** The walk finds no fault exactly when both dicts are comparable on the keys walked. */
  lemma {:induction false} KeyFaultNone(c: ParamMap, ref: ParamMap, keys: seq<string>)
    requires forall t :: 0 <= t < |keys| ==> keys[t] in c
    ensures KeyFault(c, ref, keys) == None <==> Comparable(c, ref, keys)
  {
    if |keys| > 0 {
      var rest := keys[1..];
      KeyFaultNone(c, ref, rest);
      assert forall k :: k in keys <==> k == keys[0] || k in rest;
    }
  }

  // ---------------------------------------------------------------------
  // FedProx
  // ---------------------------------------------------------------------

  /** The proximal pull of one coordinate: `value - mu * (value - global)`. */
  function Pull(x: real, g: real, mu: real): real {
    x - mu * (x - g)
  }

  /** (1 - mu) * x + mu * g. */
  function Mix(x: real, g: real, mu: real): real {
    (1.0 - mu) * x + mu * g
  }

  lemma {:induction false} PullAffine(x: real, g: real, mu: real)
    ensures Pull(x, g, mu) == Affine(1.0 - mu, x, mu * g, 1.0)
  {
  }

  lemma {:induction false} MixAffine(x: real, g: real, mu: real)
    ensures Mix(x, g, mu) == Affine(1.0 - mu, x, mu * g, 1.0)
  {
  }

  /** Convex weighting of pulled values is the pull, written as a mix, of the
      weighted value. */
  lemma {:induction false} DotPulled(pcol: seq<real>, col: seq<real>, w: seq<real>, mu: real, g: real)
    requires |pcol| == |col| == |w| && Sum(w) == 1.0
    requires forall i :: 0 <= i < |pcol| ==> pcol[i] == Pull(col[i], g, mu)
    ensures Dot(pcol, w) == Mix(Dot(col, w), g, mu)
  {
    forall i | 0 <= i < |pcol|
      ensures pcol[i] == Affine(1.0 - mu, col[i], mu * g, 1.0)
    {
      PullAffine(col[i], g, mu);
    }
    DotAffineConvex(pcol, col, w, 1.0 - mu, mu * g);
    MixAffine(Dot(col, w), g, mu);
  }

  /** `value - mu * (value - global[key])` for every key of a client. */
  function Proximal(weights: ParamMap, global: ParamMap, mu: real): ParamMap {
    Build(weights, (k: string, j: nat) => Pull(Coord(weights, k, j), Coord(global, k, j), mu))
  }

  /** Every client pulled towards the global model, each keeping its shape. */
  function ProximalClients(clients: seq<ParamMap>, global: ParamMap, mu: real): (r: seq<ParamMap>)
    ensures |r| == |clients| && forall i :: 0 <= i < |r| ==> SameShape(r[i], clients[i])
  {
    seq(|clients|, i requires 0 <= i < |clients| => Proximal(clients[i], global, mu))
  }

  /** (1 - mu) * avg + mu * global, coordinate by coordinate. */
  function Blend(avg: ParamMap, global: ParamMap, mu: real): ParamMap {
    Build(avg, (k: string, j: nat) => Mix(Coord(avg, k, j), Coord(global, k, j), mu))
  }

  /** The global model holds every key of c, at c's size. */
  predicate Admitted(c: ParamMap, global: ParamMap) {
    forall k :: k in c ==> k in global && |global[k]| == |c[k]|
  }

  /** What `fedprox` meets from client i on once the total is non-zero:
      IndexError at the first client past the m sample counts, otherwise the
      first fault of a client's key walk against the global model. */
  function ProxFault(clients: seq<ParamMap>, orders: seq<seq<string>>, global: ParamMap, m: nat, i: nat)
    : Option<AggError>
    requires KeyOrders(clients, orders) && i <= |clients|
    decreases |clients| - i
  {
    if i == |clients| then None
    else if m <= i then Some(IndexOutOfRange)
    else match KeyFault(clients[i], global, orders[i])
      case Some(e) => Some(e)
      case None => ProxFault(clients, orders, global, m, i + 1)
  }

  /** A client's key walk finds no fault exactly when the global model admits it. */
  lemma {:induction false} KeyFaultAdmitted(c: ParamMap, keys: seq<string>, global: ParamMap)
    requires KeyOrder(keys, c)
    ensures KeyFault(c, global, keys) == None <==> Admitted(c, global)
  {
    KeyFaultNone(c, global, keys);
  }

  /** FedProx meets no fault from client i on exactly when every later client
      has a sample count and is admitted by the global model. */
  lemma {:induction false} ProxFaultNone(clients: seq<ParamMap>, orders: seq<seq<string>>, global: ParamMap, m: nat, i: nat)
    requires KeyOrders(clients, orders) && i <= |clients|
    ensures ProxFault(clients, orders, global, m, i) == None <==>
      (i < |clients| ==> |clients| <= m) && forall p :: i <= p < |clients| ==> Admitted(clients[p], global)
    decreases |clients| - i
  {
    if i < |clients| {
      ProxFaultNone(clients, orders, global, m, i + 1);
      KeyFaultAdmitted(clients[i], orders[i], global);
    }
  }

  /** Clients all admitted by one global model are compatible, and so are
      their pulled versions. */
  lemma {:induction false} AdmittedCompatible(clients: seq<ParamMap>, global: ParamMap, mu: real)
    requires forall p :: 0 <= p < |clients| ==> Admitted(clients[p], global)
    ensures Compatible(clients) && Compatible(ProximalClients(clients, global, mu))
  {
    forall p, q, k | 0 <= p < |clients| && 0 <= q < |clients| && k in clients[p] && k in clients[q]
      ensures |clients[p][k]| == |clients[q][k]|
    {
      assert Admitted(clients[p], global) && Admitted(clients[q], global);
    }
    SameShapesCompatible(ProximalClients(clients, global, mu), clients);
  }

  /** `fedprox`: FedAvg of the clients pulled towards the global model. Client
      i reads its sample weight, then walks its keys reading `global[key]`. */
  method FedProx(clients: seq<ParamMap>, orders: seq<seq<string>>, samples: seq<int>, global: ParamMap, mu: real)
    returns (r: Result<ParamMap, AggError>)
    requires KeyOrders(clients, orders)
    ensures |clients| == 0 ==> r == Success(map[])
    ensures 0 < |clients| && |samples| == 0 ==> r == Failure(IndexOutOfRange)
    ensures 0 < |clients| && 0 < |samples| && IntSum(samples) == 0 ==> r == Failure(DivisionByZero)
    ensures 0 < |samples| && IntSum(samples) != 0 && ProxFault(clients, orders, global, |samples|, 0).Some? ==>
      r == Failure(ProxFault(clients, orders, global, |samples|, 0).value)
    ensures 0 < |samples| && IntSum(samples) != 0 && ProxFault(clients, orders, global, |samples|, 0) == None ==>
      |clients| <= |samples| &&
      r == Success(WeightedCombination(ProximalClients(clients, global, mu), FedAvgWeights(samples, |clients|)))
  {
    if |clients| == 0 {
      return Success(map[]);
    }
    if |samples| == 0 {
      return Failure(IndexOutOfRange);
    }
    if IntSum(samples) == 0 {
      return Failure(DivisionByZero);
    }
    for i := 0 to |clients|
      invariant ProxFault(clients, orders, global, |samples|, 0) == ProxFault(clients, orders, global, |samples|, i)
      invariant 0 < i ==> i <= |samples|
      invariant forall p :: 0 <= p < i ==> Admitted(clients[p], global)
    {
      if |samples| <= i {
        return Failure(IndexOutOfRange);
      }
      var fault := KeyFault(clients[i], global, orders[i]);
      if fault.Some? {
        return Failure(fault.value);
      }
      KeyFaultAdmitted(clients[i], orders[i], global);
    }
    AdmittedCompatible(clients, global, mu);
    var pulled := ProximalClients(clients, global, mu);
    r := WeightedSum(pulled, FedAvgWeights(samples, |clients|));
  }

  /** The column of the pulled clients is the clients' column, pulled. */
  lemma {:induction false} ProximalColumn(clients: seq<ParamMap>, global: ParamMap, mu: real, k: string, j: nat)
    requires Uniform(clients) && 0 < |clients| && k in clients[0] && j < |clients[0][k]|
    ensures var col := Column(clients, |clients|, k, j);
      var pcol := Column(ProximalClients(clients, global, mu), |clients|, k, j);
      forall i :: 0 <= i < |clients| ==> pcol[i] == Pull(col[i], Coord(global, k, j), mu)
  {
    var pulled := ProximalClients(clients, global, mu);
    forall i | 0 <= i < |clients|
      ensures Coord(pulled[i], k, j) == Pull(Coord(clients[i], k, j), Coord(global, k, j), mu)
    {
      assert SameShape(clients[i], clients[0]);
    }
  }

  /** One coordinate of FedProx: the FedAvg coordinate blended with the global one. */
  lemma {:induction false} FedProxCoord(clients: seq<ParamMap>, ws: seq<real>, global: ParamMap, mu: real, k: string, j: nat)
    requires Uniform(clients) && 0 < |clients| == |ws| && Sum(ws) == 1.0
    requires k in clients[0] && j < |clients[0][k]|
    ensures Dot(Column(ProximalClients(clients, global, mu), |clients|, k, j), ws) ==
            Mix(Coord(WeightedCombination(clients, ws), k, j), Coord(global, k, j), mu)
  {
    var col := Column(clients, |clients|, k, j);
    var pcol := Column(ProximalClients(clients, global, mu), |clients|, k, j);
    UniformUnion(clients);
    assert Coord(WeightedCombination(clients, ws), k, j) == Dot(col, ws);
    ProximalColumn(clients, global, mu, k, j);
    DotPulled(pcol, col, ws, mu, Coord(global, k, j));
  }

  /** Blending with weight zero leaves the average as it is. */
  lemma {:induction false} BlendZero(avg: ParamMap, global: ParamMap)
    ensures Blend(avg, global, 0.0) == avg
  {
    BuildExt(avg, (k: string, j: nat) => Mix(Coord(avg, k, j), Coord(global, k, j), 0.0), avg);
  }

  /** For clients of one architecture with one sample count each, FedProx is
      FedAvg blended with the global model: (1 - mu) * FedAvg + mu * global.
      At mu = 0 it is FedAvg. */
  lemma {:induction false} FedProxIsBlend(clients: seq<ParamMap>, samples: seq<int>, global: ParamMap, mu: real)
    requires Uniform(clients) && 0 < |clients| == |samples| && IntSum(samples) != 0
    ensures WeightedCombination(ProximalClients(clients, global, mu), FedAvgWeights(samples, |clients|)) ==
            Blend(WeightedCombination(clients, FedAvgWeights(samples, |clients|)), global, mu)
    ensures mu == 0.0 ==>
      WeightedCombination(ProximalClients(clients, global, mu), FedAvgWeights(samples, |clients|)) ==
      WeightedCombination(clients, FedAvgWeights(samples, |clients|))
  {
    var n := |clients|;
    var ws := FedAvgWeights(samples, n);
    var pulled := ProximalClients(clients, global, mu);
    var avg := WeightedCombination(clients, ws);
    var lhs := WeightedCombination(pulled, ws);
    FedAvgWeightsSumToOne(samples);
    UniformUnion(clients);
    SameShapesUnion(pulled, clients);
    var blended := Blend(avg, global, mu);
    assert SameShape(lhs, blended);
    forall k, j | k in lhs && 0 <= j < |lhs[k]|
      ensures lhs[k][j] == blended[k][j]
    {
      assert lhs[k][j] == Dot(Column(pulled, n, k, j), ws);
      assert blended[k][j] == Mix(Coord(avg, k, j), Coord(global, k, j), mu);
      FedProxCoord(clients, ws, global, mu, k, j);
    }
    MapExt(lhs, blended);
    BlendZero(avg, global);
  }

  /** With mu = 0 the pull leaves every client as it is. */
  lemma {:induction false} ProximalZero(clients: seq<ParamMap>, global: ParamMap)
    ensures ProximalClients(clients, global, 0.0) == clients
  {
    var pulled := ProximalClients(clients, global, 0.0);
    forall i | 0 <= i < |clients|
      ensures pulled[i] == clients[i]
    {
      BuildExt(clients[i], (k: string, j: nat) => Pull(Coord(clients[i], k, j), Coord(global, k, j), 0.0), clients[i]);
    }
  }

  /** FedProx with mu = 0 is FedAvg whenever it succeeds, for clients of any
      key sets: past the zero total and every global lookup, the clients
      have their sample counts, are compatible (so FedAvg succeeds too) and
      the pulled combination is FedAvg's. The two still differ on errors:
      FedProx raises KeyError where the global dict lacks a client's key. */
  lemma {:induction false} FedProxZeroIsFedAvg(clients: seq<ParamMap>, orders: seq<seq<string>>, samples: seq<int>, global: ParamMap)
    requires KeyOrders(clients, orders)
    requires 0 < |samples| && IntSum(samples) != 0 && ProxFault(clients, orders, global, |samples|, 0) == None
    ensures |clients| <= |samples| && Compatible(clients)
    ensures WeightedCombination(ProximalClients(clients, global, 0.0), FedAvgWeights(samples, |clients|)) ==
            WeightedCombination(clients, FedAvgWeights(samples, |clients|))
  {
    ProxFaultNone(clients, orders, global, |samples|, 0);
    AdmittedCompatible(clients, global, 0.0);
    ProximalZero(clients, global);
  }

  // ---------------------------------------------------------------------
  // FedNova
  // ---------------------------------------------------------------------

  /** One client's tensors divided by their gradient norm and multiplied by
      its local step count, for every key whose gradient norm (an input:
      `torch.norm` of the client's gradient) is present and positive. */
  function NovaNormalize(weights: ParamMap, gradNorms: map<string, real>, steps: int): ParamMap {
    Build(weights, (k: string, j: nat) =>
      if k in gradNorms && gradNorms[k] > 0.0 then Coord(weights, k, j) * (steps as real / gradNorms[k])
      else Coord(weights, k, j))
  }

  /** The first n clients, each normalised and keeping its shape. */
  function NovaNormalized(clients: seq<ParamMap>, gradNorms: seq<map<string, real>>, steps: seq<int>, n: nat)
    : (r: seq<ParamMap>)
    requires n <= |clients| && n <= |gradNorms| && n <= |steps|
    ensures |r| == n && forall i :: 0 <= i < n ==> SameShape(r[i], clients[i])
  {
    seq(n, i requires 0 <= i < n => NovaNormalize(clients[i], gradNorms[i], steps[i]))
  }

  function Min3(a: nat, b: nat, c: nat): (m: nat)
    ensures m <= a && m <= b && m <= c
    ensures m == a || m == b || m == c
  {
    if a <= b && a <= c then a else if b <= c then b else c
  }

  /** `fednova`: zip the three lists (so the shortest decides how many clients
      take part), normalise each client, then average plainly over the union
      of their keys; normalising keeps every size, so the average raises
      exactly when the zipped clients are incompatible. */
  method FedNova(clients: seq<ParamMap>, gradNorms: seq<map<string, real>>, steps: seq<int>)
    returns (r: Result<ParamMap, AggError>)
    ensures var n := Min3(|clients|, |gradNorms|, |steps|);
      r == if n == 0 then Success(map[])
           else if Compatible(clients[..n]) then Success(MeanMap(NovaNormalized(clients, gradNorms, steps, n)))
           else Failure(ShapeMismatch)
  {
    var n := Min3(|clients|, |gradNorms|, |steps|);
    var normalized: seq<ParamMap> := [];
    for i := 0 to n
      invariant normalized == NovaNormalized(clients, gradNorms, steps, i)
    {
      normalized := normalized + [NovaNormalize(clients[i], gradNorms[i], steps[i])];
    }
    SameShapesCompatible(normalized, clients[..n]);
    r := SimpleAverage(normalized);
  }

  /** A client with no positive gradient norm is left as it is, so when no
      client reports one FedNova is the plain average of the zipped clients. */
  lemma {:induction false} FedNovaWithoutGradientsIsMean(clients: seq<ParamMap>, gradNorms: seq<map<string, real>>, steps: seq<int>, n: nat)
    requires 0 < n <= |clients| && n <= |gradNorms| && n <= |steps|
    requires forall i, k :: 0 <= i < n && k in gradNorms[i] ==> gradNorms[i][k] <= 0.0
    ensures MeanMap(NovaNormalized(clients, gradNorms, steps, n)) == MeanMap(clients[..n])
  {
    var normalized := NovaNormalized(clients, gradNorms, steps, n);
    forall i | 0 <= i < n
      ensures normalized[i] == clients[i]
    {
      BuildExt(clients[i], (k: string, j: nat) =>
        if k in gradNorms[i] && gradNorms[i][k] > 0.0 then Coord(clients[i], k, j) * (steps[i] as real / gradNorms[i][k])
        else Coord(clients[i], k, j), clients[i]);
    }
    assert normalized == clients[..n];
  }

  // ---------------------------------------------------------------------
  // Euclidean distance and Krum
  // ---------------------------------------------------------------------

  /** `torch.sum((a - b) ** 2)`. */
  function SquaredDiff(a: seq<real>, b: seq<real>): (d: real)
    requires |a| == |b|
    ensures 0.0 <= d
  {
    if |a| == 0 then 0.0
    else SquaredDiff(a[..|a| - 1], b[..|b| - 1]) + (a[|a| - 1] - b[|b| - 1]) * (a[|a| - 1] - b[|b| - 1])
  }

  /** The squared distance summed over keys (the key order of the first dict). */
  function SquaredDistance(a: ParamMap, b: ParamMap, keys: seq<string>): (d: real)
    requires Comparable(a, b, keys)
    ensures 0.0 <= d
  {
    if |keys| == 0 then 0.0
    else
      var k := keys[|keys| - 1];
      SquaredDistance(a, b, keys[..|keys| - 1]) + SquaredDiff(a[k], b[k])
  }

  /** `_weight_distance`; `root` stands for `np.sqrt`. It raises exactly where
      `KeyFault(a, b, keys)` finds a fault. */
  function WeightDistance(a: ParamMap, b: ParamMap, keys: seq<string>, root: real -> real): real
    requires Comparable(a, b, keys)
  {
    root(SquaredDistance(a, b, keys))
  }

  lemma {:induction false} SquaredDiffSymmetric(a: seq<real>, b: seq<real>)
    requires |a| == |b|
    ensures SquaredDiff(a, b) == SquaredDiff(b, a)
    ensures SquaredDiff(a, a) == 0.0
  {
    if |a| > 0 {
      SquaredDiffSymmetric(a[..|a| - 1], b[..|b| - 1]);
    }
  }

  /** The distance is symmetric and zero from a dict to itself. */
  lemma {:induction false} SquaredDistanceSymmetric(a: ParamMap, b: ParamMap, keys: seq<string>)
    requires Comparable(a, b, keys)
    ensures SquaredDistance(a, b, keys) == SquaredDistance(b, a, keys)
    ensures SquaredDistance(a, a, keys) == 0.0
  {
    if |keys| > 0 {
      var k := keys[|keys| - 1];
      SquaredDistanceSymmetric(a, b, keys[..|keys| - 1]);
      SquaredDiffSymmetric(a[k], b[k]);
    }
  }

  /** The pair (p, q) can be measured: the distance between the lower- and
      the higher-numbered client is taken over the lower one's keys. */
  predicate PairComparable(clients: seq<ParamMap>, orders: seq<seq<string>>, p: nat, q: nat)
    requires |orders| == |clients| && p < |clients| && q < |clients|
  {
    if p < q then Comparable(clients[p], clients[q], orders[p])
    else if q < p then Comparable(clients[q], clients[p], orders[q])
    else true
  }

  /** What Krum's distance loop needs to finish: every pair comparable. */
  predicate KrumInput(clients: seq<ParamMap>, orders: seq<seq<string>>) {
    KeyOrders(clients, orders) &&
    forall p, q :: 0 <= p < q < |clients| ==> Comparable(clients[p], clients[q], orders[p])
  }

  /** What the distance loop meets from pair (i, j) on, pairs i < j in
      row-major order: the first fault of `_weight_distance(c_i, c_j)`. */
  function PairFault(clients: seq<ParamMap>, orders: seq<seq<string>>, i: nat, j: nat): Option<AggError>
    requires KeyOrders(clients, orders)
    decreases |clients| - i, |clients| - j
  {
    if |clients| <= i then None
    else if |clients| <= j then PairFault(clients, orders, i + 1, i + 2)
    else match KeyFault(clients[i], clients[j], orders[i])
      case Some(e) => Some(e)
      case None => PairFault(clients, orders, i, j + 1)
  }

  /** The pairs the distance loop visits from (i, j) on: the rest of row i,
      then every later row. */
  predicate PairsFrom(clients: seq<ParamMap>, orders: seq<seq<string>>, i: nat, j: nat)
    requires |orders| == |clients| && i < j
  {
    (forall q :: j <= q < |clients| ==> Comparable(clients[i], clients[q], orders[i])) &&
    forall p, q :: i < p < q < |clients| ==> Comparable(clients[p], clients[q], orders[p])
  }

  lemma {:induction false} PairsFromStep(clients: seq<ParamMap>, orders: seq<seq<string>>, i: nat, j: nat)
    requires |orders| == |clients| && i < j < |clients|
    ensures PairsFrom(clients, orders, i, j) <==>
      Comparable(clients[i], clients[j], orders[i]) && PairsFrom(clients, orders, i, j + 1)
  {
  }

  lemma {:induction false} PairsFromNextRow(clients: seq<ParamMap>, orders: seq<seq<string>>, i: nat, j: nat)
    requires |orders| == |clients| && i < |clients| <= j
    ensures PairsFrom(clients, orders, i, j) <==> PairsFrom(clients, orders, i + 1, i + 2)
  {
    if PairsFrom(clients, orders, i + 1, i + 2) {
      forall p, q | i < p < q < |clients|
        ensures Comparable(clients[p], clients[q], orders[p])
      {
        if p == i + 1 {
          assert i + 2 <= q;
        }
      }
    }
  }

  /** The loop meets no fault from (i, j) on exactly when every pair it still
      visits is comparable. */
  lemma {:induction false} PairFaultNone(clients: seq<ParamMap>, orders: seq<seq<string>>, i: nat, j: nat)
    requires KeyOrders(clients, orders) && i < j
    ensures PairFault(clients, orders, i, j) == None <==> PairsFrom(clients, orders, i, j)
    decreases |clients| - i, |clients| - j
  {
    if |clients| <= i {
    } else if |clients| <= j {
      PairFaultNone(clients, orders, i + 1, i + 2);
      PairsFromNextRow(clients, orders, i, j);
    } else {
      assert forall t :: 0 <= t < |orders[i]| ==> orders[i][t] in clients[i];
      KeyFaultNone(clients[i], clients[j], orders[i]);
      PairFaultNone(clients, orders, i, j + 1);
      PairsFromStep(clients, orders, i, j);
    }
  }

  /** No fault from the first pair on means a complete input. */
  lemma {:induction false} PairFaultNoneIsKrumInput(clients: seq<ParamMap>, orders: seq<seq<string>>)
    requires KeyOrders(clients, orders)
    ensures PairFault(clients, orders, 0, 1) == None <==> KrumInput(clients, orders)
  {
    PairFaultNone(clients, orders, 0, 1);
  }

  /** Entry [p, q] of Krum's distance matrix once filled: the upper triangle
      is computed for p < q and mirrored; the diagonal keeps its zero. */
  function DistanceEntry(clients: seq<ParamMap>, orders: seq<seq<string>>, root: real -> real, p: nat, q: nat): real
    requires |orders| == |clients| && p < |clients| && q < |clients| && PairComparable(clients, orders, p, q)
  {
    if p == q then 0.0
    else if p < q then WeightDistance(clients[p], clients[q], orders[p], root)
    else WeightDistance(clients[q], clients[p], orders[q], root)
  }

  function DistanceRow(clients: seq<ParamMap>, orders: seq<seq<string>>, root: real -> real, p: nat): (row: seq<real>)
    requires KrumInput(clients, orders) && p < |clients|
    ensures |row| == |clients|
  {
    seq(|clients|, q requires 0 <= q < |clients| => DistanceEntry(clients, orders, root, p, q))
  }

  /** Client p's Krum score: `np.sum(sorted_dists[:n-f-2])`, the sum of the
      n - f - 2 smallest entries of its row (all of them when a negative f
      makes n - f - 2 reach n, all but the last for n - f - 2 = -1). */
  function KrumScore(clients: seq<ParamMap>, orders: seq<seq<string>>, f: int, root: real -> real, p: nat): real
    requires KrumInput(clients, orders) && 2 * f + 1 < |clients| && p < |clients|
  {
    RowScore(DistanceRow(clients, orders, root, p), |clients| - f - 2)
  }

  /** `np.sum(np.sort(row)[:m])`. */
  function RowScore(row: seq<real>, m: int): real {
    Sum(PyHead(Sort(row), m))
  }

  function KrumScores(clients: seq<ParamMap>, orders: seq<seq<string>>, f: int, root: real -> real): (s: seq<real>)
    requires KrumInput(clients, orders) && 2 * f + 1 < |clients|
    ensures |s| == |clients|
  {
    seq(|clients|, p requires 0 <= p < |clients| => KrumScore(clients, orders, f, root, p))
  }

  /** `np.argmin`: the first position of a smallest element. */
  predicate IsFirstArgMin(s: seq<real>, idx: int) {
    0 <= idx < |s| &&
    (forall j :: 0 <= j < |s| ==> s[idx] <= s[j]) &&
    (forall j :: 0 <= j < idx ==> s[idx] < s[j])
  }

  method ArgMin(s: seq<real>) returns (idx: nat)
    requires 0 < |s|
    ensures IsFirstArgMin(s, idx)
  {
    idx := 0;
    for i := 1 to |s|
      invariant idx < i
      invariant forall j :: 0 <= j < i ==> s[idx] <= s[j]
      invariant forall j :: 0 <= j < idx ==> s[idx] < s[j]
    {
      if s[i] < s[idx] {
        idx := i;
      }
    }
  }

  /** Row i of the distance loop: for every j > i in turn, measure clients i
      and j and write the distance at [i, j] and [j, i]; the first pair that
      cannot be measured raises, and then the row is left unfinished. */
  method FillRow(dist: array2<real>, clients: seq<ParamMap>, orders: seq<seq<string>>, root: real -> real, i: nat)
    returns (fault: Option<AggError>)
    requires KeyOrders(clients, orders) && i < |clients| == dist.Length0 == dist.Length1
    modifies dist
    ensures fault.Some? ==> fault == PairFault(clients, orders, i, i + 1)
    ensures fault == None ==> PairFault(clients, orders, i, i + 1) == PairFault(clients, orders, i + 1, i + 2)
    ensures fault == None ==> forall q :: i < q < |clients| ==>
      PairComparable(clients, orders, i, q) &&
      dist[i, q] == DistanceEntry(clients, orders, root, i, q) &&
      dist[q, i] == DistanceEntry(clients, orders, root, q, i)
    ensures fault == None ==>
      forall p, q :: 0 <= p < |clients| && 0 <= q < |clients| && !(p == i && i < q) && !(q == i && i < p) ==>
        dist[p, q] == old(dist[p, q])
  {
    var n := |clients|;
    for j := i + 1 to n
      invariant PairFault(clients, orders, i, i + 1) == PairFault(clients, orders, i, j)
      invariant forall q :: i < q < j ==>
        PairComparable(clients, orders, i, q) &&
        dist[i, q] == DistanceEntry(clients, orders, root, i, q) &&
        dist[q, i] == DistanceEntry(clients, orders, root, q, i)
      invariant forall p, q :: 0 <= p < n && 0 <= q < n && !(p == i && i < q < j) && !(q == i && i < p < j) ==>
        dist[p, q] == old(dist[p, q])
    {
      var f := KeyFault(clients[i], clients[j], orders[i]);
      if f.Some? {
        return f;
      }
      KeyFaultNone(clients[i], clients[j], orders[i]);
      var d := WeightDistance(clients[i], clients[j], orders[i], root);
      assert d == DistanceEntry(clients, orders, root, i, j) == DistanceEntry(clients, orders, root, j, i);
      dist[i, j] := d;
      dist[j, i] := d;
    }
    fault := None;
  }

  /** The n-by-n distance matrix: zeros, then for every i < j in row-major
      order the distance between clients i and j written at [i, j] and
      [j, i]; the first pair that cannot be measured raises. */
  method DistanceMatrix(clients: seq<ParamMap>, orders: seq<seq<string>>, root: real -> real)
    returns (r: Result<array2<real>, AggError>)
    requires KeyOrders(clients, orders)
    ensures PairFault(clients, orders, 0, 1).Some? ==> r == Failure(PairFault(clients, orders, 0, 1).value)
    ensures PairFault(clients, orders, 0, 1) == None ==>
      r.Success? && KrumInput(clients, orders) && fresh(r.value) &&
      r.value.Length0 == |clients| && r.value.Length1 == |clients| &&
      forall p, q :: 0 <= p < |clients| && 0 <= q < |clients| ==>
        r.value[p, q] == DistanceEntry(clients, orders, root, p, q)
  {
    var n := |clients|;
    var dist := new real[n, n]((p, q) => 0.0);
    for i := 0 to n
      invariant PairFault(clients, orders, 0, 1) == PairFault(clients, orders, i, i + 1)
      invariant forall p, q :: 0 <= p < n && 0 <= q < n && (p < i || q < i) ==>
        PairComparable(clients, orders, p, q) && dist[p, q] == DistanceEntry(clients, orders, root, p, q)
      invariant forall p, q :: i <= p < n && i <= q < n ==> dist[p, q] == 0.0
    {
      var fault := FillRow(dist, clients, orders, root, i);
      if fault.Some? {
        return Failure(fault.value);
      }
      forall q | 0 <= q < n
        ensures PairComparable(clients, orders, q, i) == PairComparable(clients, orders, i, q)
      {
      }
    }
    PairFaultNoneIsKrumInput(clients, orders);
    r := Success(dist);
  }

  /** Row p of a matrix. */
  function RowOf(dist: array2<real>, p: nat): (row: seq<real>)
    requires p < dist.Length0
    reads dist
    ensures |row| == dist.Length1 && forall q :: 0 <= q < |row| ==> row[q] == dist[p, q]
  {
    seq(dist.Length1, q requires 0 <= q < dist.Length1 reads dist => dist[p, q])
  }

  /** A matrix whose entries are the distance entries has the distance rows as rows. */
  lemma {:induction false} MatrixRows(dist: array2<real>, clients: seq<ParamMap>, orders: seq<seq<string>>, root: real -> real)
    requires KrumInput(clients, orders)
    requires dist.Length0 == |clients| && dist.Length1 == |clients|
    requires forall p, q :: 0 <= p < |clients| && 0 <= q < |clients| ==>
      dist[p, q] == DistanceEntry(clients, orders, root, p, q)
    ensures forall p :: 0 <= p < |clients| ==> RowOf(dist, p) == DistanceRow(clients, orders, root, p)
  {
    forall p | 0 <= p < |clients|
      ensures RowOf(dist, p) == DistanceRow(clients, orders, root, p)
    {
      var row, expected := RowOf(dist, p), DistanceRow(clients, orders, root, p);
      assert forall q :: 0 <= q < |clients| ==> row[q] == expected[q];
    }
  }

  /** The score of a matrix row that is a client's distance row is that client's score. */
  lemma {:induction false} RowScoreIsKrumScore(dist: array2<real>, clients: seq<ParamMap>, orders: seq<seq<string>>, f: int,
                                               root: real -> real, p: nat)
    requires KrumInput(clients, orders) && 2 * f + 1 < |clients| == dist.Length0 && p < |clients|
    requires RowOf(dist, p) == DistanceRow(clients, orders, root, p)
    ensures RowScore(RowOf(dist, p), |clients| - f - 2) == KrumScore(clients, orders, f, root, p)
  {
  }

  /** Krum's scores read off a filled distance matrix: each row sorted, its
      n - f - 2 smallest entries summed. */
  method ScoreRows(dist: array2<real>, clients: seq<ParamMap>, orders: seq<seq<string>>, f: int, root: real -> real)
    returns (scores: seq<real>)
    requires KrumInput(clients, orders) && 2 * f + 1 < |clients| == dist.Length0
    requires forall p :: 0 <= p < |clients| ==> RowOf(dist, p) == DistanceRow(clients, orders, root, p)
    ensures scores == KrumScores(clients, orders, f, root)
  {
    var n := |clients|;
    ghost var all := KrumScores(clients, orders, f, root);
    scores := [];
    for i := 0 to n
      invariant scores == all[..i]
    {
      var score := RowScore(RowOf(dist, i), n - f - 2);
      RowScoreIsKrumScore(dist, clients, orders, f, root, i);
      assert all[i] == score;
      scores := scores + [score];
    }
    assert all[..n] == all;
  }

  /** `krum` with Byzantine tolerance f (any int): too few clients
      (n <= 2f + 1) fall back to the plain average; otherwise the distance
      matrix is filled (or raises), and the client whose summed distance to
      its n - f - 2 nearest rows is smallest is returned unchanged, the first
      such client on a tie. `np.argmin` of an empty score list raises
      ValueError; that is reachable only with no clients and a negative f,
      because n = 0 passes the n > 2f + 1 test exactly when f < 0. */
  method Krum(clients: seq<ParamMap>, orders: seq<seq<string>>, f: int, root: real -> real)
    returns (r: Result<ParamMap, AggError>, chosen: Option<nat>)
    requires KeyOrders(clients, orders)
    ensures |clients| == 0 || |clients| <= 2 * f + 1 || PairFault(clients, orders, 0, 1).Some? ==> chosen == None
    ensures |clients| == 0 ==> r == if 0 <= f then Success(map[]) else Failure(EmptyArgMin)
    ensures 0 < |clients| <= 2 * f + 1 ==>
      r == if Compatible(clients) then Success(MeanMap(clients)) else Failure(ShapeMismatch)
    ensures 2 * f + 1 < |clients| && PairFault(clients, orders, 0, 1).Some? ==>
      r == Failure(PairFault(clients, orders, 0, 1).value)
    ensures 0 < |clients| && 2 * f + 1 < |clients| && PairFault(clients, orders, 0, 1) == None ==>
      KrumInput(clients, orders) && chosen.Some? &&
      IsFirstArgMin(KrumScores(clients, orders, f, root), chosen.value) &&
      r == Success(clients[chosen.value])
  {
    var n := |clients|;
    chosen := None;
    if n <= 2 * f + 1 {
      r := SimpleAverage(clients);
      return;
    }
    var matrix := DistanceMatrix(clients, orders, root);
    if matrix.Failure? {
      return Failure(matrix.error), None;
    }
    MatrixRows(matrix.value, clients, orders, root);
    var scores := ScoreRows(matrix.value, clients, orders, f, root);
    if |scores| == 0 {
      return Failure(EmptyArgMin), None;
    }
    var idx := ArgMin(scores);
    r := Success(clients[idx]);
    chosen := Some(idx);
  }

  /** With sqrt's two properties, every matrix entry is the distance between
      the two clients in either order over the lower one's keys, the diagonal
      is zero and no entry is negative. */
  lemma {:induction false} DistanceEntryIsDistance(clients: seq<ParamMap>, orders: seq<seq<string>>, root: real -> real, p: nat, q: nat)
    requires KrumInput(clients, orders) && p < |clients| && q < |clients|
    requires root(0.0) == 0.0 && forall x :: 0.0 <= x ==> 0.0 <= root(x)
    ensures var keys := orders[if p <= q then p else q];
      Comparable(clients[p], clients[q], keys) &&
      DistanceEntry(clients, orders, root, p, q) == WeightDistance(clients[p], clients[q], keys, root)
    ensures DistanceEntry(clients, orders, root, p, q) == DistanceEntry(clients, orders, root, q, p)
    ensures 0.0 <= DistanceEntry(clients, orders, root, p, q)
  {
    var lo := if p <= q then p else q;
    var hi := if p <= q then q else p;
    var keys := orders[lo];
    if p != q {
      assert Comparable(clients[lo], clients[hi], keys);
    }
    assert Comparable(clients[q], clients[p], keys);
    SquaredDistanceSymmetric(clients[lo], clients[hi], keys);
    if p == q {
      SquaredDistanceSymmetric(clients[p], clients[p], keys);
    }
  }

  /** The smallest element of a sorted non-negative row with a zero is zero. */
  lemma {:induction false} SortedRowStartsAtZero(row: seq<real>, p: nat)
    requires p < |row| && row[p] == 0.0
    requires forall q :: 0 <= q < |row| ==> 0.0 <= row[q]
    ensures Sort(row)[0] == 0.0
  {
    var sorted := Sort(row);
    assert row[p] in multiset(row);
    assert 0.0 in multiset(sorted);
    var z :| 0 <= z < |sorted| && sorted[z] == 0.0;
    assert sorted[0] in multiset(row);
  }

  /** A client's own zero distance is the smallest entry of its sorted row, so
      whenever n - f - 2 >= 1 it fills one of the counted places: the score
      adds up only the other counted entries, the nearest other rows. */
  lemma {:induction false} KrumScoreCountsSelf(clients: seq<ParamMap>, orders: seq<seq<string>>, f: int, root: real -> real, p: nat)
    requires KrumInput(clients, orders) && 2 * f + 1 < |clients| && p < |clients|
    requires root(0.0) == 0.0 && forall x :: 0.0 <= x ==> 0.0 <= root(x)
    requires 0 < |clients| - f - 2
    ensures Sort(DistanceRow(clients, orders, root, p))[0] == 0.0
    ensures KrumScore(clients, orders, f, root, p) ==
      Sum(PyHead(Sort(DistanceRow(clients, orders, root, p)), |clients| - f - 2)[1..])
  {
    var row := DistanceRow(clients, orders, root, p);
    forall q | 0 <= q < |row|
      ensures 0.0 <= row[q]
    {
      DistanceEntryIsDistance(clients, orders, root, p, q);
    }
    SortedRowStartsAtZero(row, p);
    var kept := PyHead(Sort(row), |clients| - f - 2);
    assert kept[0] == Sort(row)[0];
    SumCons(kept);
  }

  /** A tolerance of -2 or below makes `sorted_dists[:n-f-2]` the whole row,
      so the score is the client's total distance to every client. */
  lemma {:induction false} NegativeToleranceScoresWholeRow(clients: seq<ParamMap>, orders: seq<seq<string>>, f: int, root: real -> real, p: nat)
    requires KrumInput(clients, orders) && p < |clients| && f <= -2
    ensures KrumScore(clients, orders, f, root, p) == Sum(DistanceRow(clients, orders, root, p))
  {
    var row := DistanceRow(clients, orders, root, p);
    assert PyHead(Sort(row), |clients| - f - 2) == Sort(row);
    SumPermutation(Sort(row), row);
  }

  // ---------------------------------------------------------------------
  // Trimmed mean and coordinate-wise median
  // ---------------------------------------------------------------------

  /** Python's `int(x)` on a float: truncation towards zero. */
  function TruncateToInt(x: real): (n: int)
    ensures 0.0 <= x ==> 0 <= n && n as real <= x < n as real + 1.0
    ensures x < 0.0 ==> n <= 0 && x <= n as real && (n as real) - 1.0 < x
  {
    if 0.0 <= x then x.Floor else -((-x).Floor)
  }

  /** `k = int(trim_ratio * n)`; a negative ratio gives k <= 0. */
  function TrimCount(ratio: real, n: nat): (k: int)
    ensures n == 0 ==> k == 0
  {
    TruncateToInt(ratio * n as real)
  }

  /** `torch.median` of one coordinate: the lower median. */
  function MedianOf(col: seq<real>): real
    requires 0 < |col|
  {
    Sort(col)[(|col| - 1) / 2]
  }

  /** The mean of `sorted[k:n-k]` for one coordinate: for k >= 0 the k
      smallest and k largest values are dropped; for k < 0 Python's slice
      starts at n + k (clamped at 0) and stops at n, keeping the -k largest. */
  function TrimmedOf(col: seq<real>, k: int): real
    requires 0 < |col| && 2 * k < |col|
  {
    var n := |col|;
    var lo := if 0 <= k then k else if n + k < 0 then 0 else n + k;
    var hi := if 0 <= k then n - k else n;
    Mean(Sort(col)[lo..hi])
  }

  /** The lower median is one of the values, with at least half of them
      (rounded up) at or below it and at least half (rounded down) plus one
      at or above it. */
  lemma {:induction false} MedianOfIsMiddleValue(col: seq<real>)
    requires 0 < |col|
    ensures MedianOf(col) in col && InRange(col, MedianOf(col))
    ensures forall t :: 0 <= t <= (|col| - 1) / 2 ==> Sort(col)[t] <= MedianOf(col)
    ensures forall t :: (|col| - 1) / 2 <= t < |col| ==> MedianOf(col) <= Sort(col)[t]
  {
    var sorted := Sort(col);
    var m := (|col| - 1) / 2;
    assert MedianOf(col) == sorted[m];
    assert sorted[m] in multiset(col);
    PermutationBounds(col, sorted, m);
    SortedAround(sorted, m);
  }

  /** In a sorted sequence everything before position m is at most s[m] and everything after at least. */
  lemma {:induction false} SortedAround(s: seq<real>, m: nat)
    requires Sorted(s) && m < |s|
    ensures forall t :: 0 <= t <= m ==> s[t] <= s[m]
    ensures forall t :: m <= t < |s| ==> s[m] <= s[t]
  {
  }

  /** The mean of a non-empty run of the sorted column lies within the column's range. */
  lemma {:induction false} SortedRunInRange(col: seq<real>, lo: nat, hi: nat)
    requires lo < hi <= |col|
    ensures InRange(col, Mean(Sort(col)[lo..hi]))
  {
    var sorted := Sort(col);
    var kept := sorted[lo..hi];
    forall t | 0 <= t < |kept|
      ensures MinOf(col) <= kept[t] <= MaxOf(col)
    {
      PermutationBounds(col, sorted, lo + t);
    }
    MeanBounds(kept, MinOf(col), MaxOf(col));
  }

  lemma {:induction false} TrimmedOfInRange(col: seq<real>, k: int)
    requires 0 < |col| && 2 * k < |col|
    ensures InRange(col, TrimmedOf(col, k))
  {
    var n := |col|;
    SortedRunInRange(col, if 0 <= k then k else if n + k < 0 then 0 else n + k, if 0 <= k then n - k else n);
  }

  /** Trimming nothing leaves the plain mean. */
  lemma {:induction false} TrimmedOfZeroIsMean(col: seq<real>)
    requires 0 < |col|
    ensures TrimmedOf(col, 0) == Mean(col)
  {
    assert Sort(col)[0..|col|] == Sort(col);
    SumPermutation(Sort(col), col);
  }

  /** Every client holds every key of keys at the first client's size. */
  predicate Stackable(clients: seq<ParamMap>, keys: seq<string>)
    requires 0 < |clients|
  {
    forall i, k :: 0 <= i < |clients| && k in keys ==> k in clients[0] && k in clients[i] && |clients[i][k]| == |clients[0][k]|
  }

  /** Walking the first client's keys: `[weights[key] for weights in
      client_weights]` raises KeyError at a client lacking the key, then
      `torch.stack` raises on tensors of different sizes. */
  function StackFault(clients: seq<ParamMap>, keys: seq<string>): Option<AggError>
    requires 0 < |clients| && forall t :: 0 <= t < |keys| ==> keys[t] in clients[0]
  {
    if |keys| == 0 then None
    else
      var k := keys[0];
      if exists i :: 0 <= i < |clients| && k !in clients[i] then Some(MissingKey)
      else if exists i :: 0 <= i < |clients| && |clients[i][k]| != |clients[0][k]| then Some(ShapeMismatch)
      else StackFault(clients, keys[1..])
  }

  /** Stacking raises exactly when the clients are not stackable on the keys walked. */
  lemma {:induction false} StackFaultNone(clients: seq<ParamMap>, keys: seq<string>)
    requires 0 < |clients| && forall t :: 0 <= t < |keys| ==> keys[t] in clients[0]
    ensures StackFault(clients, keys) == None <==> Stackable(clients, keys)
  {
    if |keys| > 0 {
      var rest := keys[1..];
      StackFaultNone(clients, rest);
      assert forall k :: k in keys <==> k == keys[0] || k in rest;
    }
  }

  /** `coordinatewise_median`: for each key of the first client, in order,
      stack the clients' tensors and take the lower median of every
      coordinate. No clients raise IndexError on `client_weights[0]`. */
  function CoordinatewiseMedian(clients: seq<ParamMap>, order: seq<string>): Result<ParamMap, AggError>
    requires 0 < |clients| ==> KeyOrder(order, clients[0])
  {
    if |clients| == 0 then Failure(IndexOutOfRange)
    else match StackFault(clients, order)
      case Some(e) => Failure(e)
      case None => Success(Build(clients[0], (k: string, j: nat) => MedianOf(Column(clients, |clients|, k, j))))
  }

  /** The median fails exactly on no clients or unstackable ones; otherwise
      it has the first client's shape and every coordinate is one of the
      clients' values there. */
  lemma {:induction false} MedianIsAClientValue(clients: seq<ParamMap>, order: seq<string>)
    requires 0 < |clients| ==> KeyOrder(order, clients[0])
    ensures CoordinatewiseMedian(clients, order).Failure? <==> |clients| == 0 || !Stackable(clients, order)
    ensures CoordinatewiseMedian(clients, order).Success? ==>
      var r := CoordinatewiseMedian(clients, order).value;
      SameShape(r, clients[0]) && CoordinatesInRange(clients, r) &&
      forall k, j :: k in r && 0 <= j < |r[k]| ==> r[k][j] in Column(clients, |clients|, k, j)
  {
    if 0 < |clients| {
      StackFaultNone(clients, order);
      if Stackable(clients, order) {
        var r := CoordinatewiseMedian(clients, order).value;
        forall k, j | k in r && 0 <= j < |r[k]|
          ensures r[k][j] in Column(clients, |clients|, k, j)
          ensures InRange(Column(clients, |clients|, k, j), r[k][j])
        {
          MedianOfIsMiddleValue(Column(clients, |clients|, k, j));
        }
      }
    }
  }

  /** `trimmed_mean`: with k = int(ratio * n), when n <= 2k fall back to the
      median (this includes n = 0); otherwise, for each key of the first
      client in order, stack the tensors, sort every coordinate and average
      `sorted[k:n-k]`. */
  function TrimmedMean(clients: seq<ParamMap>, order: seq<string>, ratio: real): Result<ParamMap, AggError>
    requires 0 < |clients| ==> KeyOrder(order, clients[0])
  {
    var n := |clients|;
    var k := TrimCount(ratio, n);
    if n <= 2 * k then CoordinatewiseMedian(clients, order)
    else match StackFault(clients, order)
      case Some(e) => Failure(e)
      case None => Success(Build(clients[0], (key: string, j: nat) => TrimmedOf(Column(clients, n, key, j), k)))
  }

  /** Whatever branch it takes, a trimmed mean fails exactly on no clients
      or unstackable ones, and otherwise has the first client's shape and
      stays within the clients' range. */
  lemma {:induction false} TrimmedMeanInRange(clients: seq<ParamMap>, order: seq<string>, ratio: real)
    requires 0 < |clients| ==> KeyOrder(order, clients[0])
    ensures TrimmedMean(clients, order, ratio).Failure? <==> |clients| == 0 || !Stackable(clients, order)
    ensures TrimmedMean(clients, order, ratio).Success? ==>
      SameShape(TrimmedMean(clients, order, ratio).value, clients[0]) &&
      CoordinatesInRange(clients, TrimmedMean(clients, order, ratio).value)
  {
    var n := |clients|;
    var k := TrimCount(ratio, n);
    if n <= 2 * k {
      MedianIsAClientValue(clients, order);
    } else {
      StackFaultNone(clients, order);
      if Stackable(clients, order) {
        var r := TrimmedMean(clients, order, ratio).value;
        forall key, j | key in r && 0 <= j < |r[key]|
          ensures InRange(Column(clients, n, key, j), r[key][j])
        {
          TrimmedOfInRange(Column(clients, n, key, j), k);
        }
      }
    }
  }

  /** When the ratio trims nobody (k = 0) the trimmed mean averages every
      coordinate plainly; for clients of one architecture it is their mean. */
  lemma {:induction false} TrimmedMeanWithoutTrimIsMean(clients: seq<ParamMap>, order: seq<string>, ratio: real)
    requires 0 < |clients| && KeyOrder(order, clients[0]) && Stackable(clients, order)
    requires TrimCount(ratio, |clients|) == 0
    ensures TrimmedMean(clients, order, ratio).Success?
    ensures var r := TrimmedMean(clients, order, ratio).value;
      forall key, j :: key in r && 0 <= j < |r[key]| ==> r[key][j] == Mean(Column(clients, |clients|, key, j))
    ensures Uniform(clients) ==> TrimmedMean(clients, order, ratio) == Success(MeanMap(clients))
  {
    var n := |clients|;
    StackFaultNone(clients, order);
    var r := TrimmedMean(clients, order, ratio).value;
    forall key, j | key in r && 0 <= j < |r[key]|
      ensures r[key][j] == Mean(Column(clients, n, key, j))
    {
      TrimmedOfZeroIsMean(Column(clients, n, key, j));
    }
    if Uniform(clients) {
      UniformUnion(clients);
      BuildExt(Union(clients), (key: string, j: nat) => Mean(Column(clients, n, key, j)), r);
    }
  }

  // ---------------------------------------------------------------------
  // Adaptive aggregation
  // ---------------------------------------------------------------------

  /** The scalar metrics one client reports; absent entries take the defaults
      accuracy 0.5, loss 1.0 and samples_used 1. */
  datatype ClientReport = ClientReport(accuracy: Option<real>, loss: Option<real>, samplesUsed: Option<int>)

  const LossEpsilon: real := 0.00000001

  /** `np.log(samples)` is a real number and `loss + 1e-8` can be divided by. */
  predicate ReportUsable(m: ClientReport) {
    0 < m.samplesUsed.GetOr(1) && m.loss.GetOr(1.0) + LossEpsilon != 0.0
  }

  /** `accuracy * log(samples) / (loss + 1e-8)`; `ln` stands for `np.log`. */
  function AdaptiveWeight(m: ClientReport, ln: int -> real): real
    requires ReportUsable(m)
  {
    m.accuracy.GetOr(0.5) * ln(m.samplesUsed.GetOr(1)) / (m.loss.GetOr(1.0) + LossEpsilon)
  }

  function RawWeights(reports: seq<ClientReport>, ln: int -> real): (raw: seq<real>)
    requires forall i :: 0 <= i < |reports| ==> ReportUsable(reports[i])
    ensures |raw| == |reports|
  {
    seq(|reports|, i requires 0 <= i < |reports| => AdaptiveWeight(reports[i], ln))
  }

  /** Dividing every element divides the sum. */
  lemma {:induction false} SumDivided(raw: seq<real>, w: seq<real>, s: real)
    requires s != 0.0 && |w| == |raw|
    requires forall i :: 0 <= i < |raw| ==> w[i] == raw[i] / s
    ensures Sum(w) == Sum(raw) / s
  {
    if |raw| > 0 {
      var n := |raw| - 1;
      SumDivided(raw[..n], w[..n], s);
      assert Sum(raw[..n]) / s + raw[n] / s == (Sum(raw[..n]) + raw[n]) / s;
    }
  }

  /** Divide by the total when it is positive, else share equally. */
  function Normalize(raw: seq<real>): (w: seq<real>)
    ensures |w| == |raw|
    ensures 0 < |raw| ==> Sum(w) == 1.0
    ensures (forall i :: 0 <= i < |raw| ==> 0.0 <= raw[i]) ==> forall i :: 0 <= i < |w| ==> 0.0 <= w[i]
  {
    var total := Sum(raw);
    if total > 0.0 then
      var w := seq(|raw|, i requires 0 <= i < |raw| => raw[i] / total);
      SumDivided(raw, w, total);
      w
    else
      var w := seq(|raw|, i requires 0 <= i < |raw| => 1.0 / |raw| as real);
      SumConstant(w, if |raw| == 0 then 0.0 else 1.0 / |raw| as real);
      w
  }

  /** `adaptive_aggregation`: weight clients by their metrics. The weights are
      computed for every report; client i reads `weights[i]` only for each
      of its keys, so a client past the reports raises IndexError unless it
      has no keys. Clients that each report a non-negative weight are
      combined within their range. */
  method AdaptiveAggregation(clients: seq<ParamMap>, reports: seq<ClientReport>, ln: int -> real)
    returns (r: Result<ParamMap, AggError>)
    requires forall i :: 0 <= i < |reports| ==> ReportUsable(reports[i])
    ensures |clients| <= |reports| ==>
      r == if Compatible(clients) then Success(WeightedCombination(clients, Normalize(RawWeights(reports, ln))[..|clients|]))
           else Failure(ShapeMismatch)
    ensures |reports| < |clients| ==>
      r == if !Compatible(clients[..|reports|]) then Failure(ShapeMismatch)
           else if exists i :: |reports| <= i < |clients| && clients[i] != map[] then Failure(IndexOutOfRange)
           else Success(WeightedCombination(clients[..|reports|], Normalize(RawWeights(reports, ln))))
    ensures 0 < |clients| == |reports| && Compatible(clients) &&
            (forall i :: 0 <= i < |reports| ==> 0.0 <= RawWeights(reports, ln)[i]) ==>
      r.Success? && WithinClientRange(clients, r.value)
  {
    var raw: seq<real> := [];
    for i := 0 to |reports|
      invariant raw == RawWeights(reports, ln)[..i]
    {
      raw := raw + [AdaptiveWeight(reports[i], ln)];
    }
    assert raw == RawWeights(reports, ln);
    var weights := Normalize(raw);
    if |reports| < |clients| {
      r := WeightedSum(clients[..|reports|], weights);
      if r.Failure? {
        return;
      }
      for i := |reports| to |clients|
        invariant forall t :: |reports| <= t < i ==> clients[t] == map[]
      {
        if clients[i] != map[] {
          return Failure(IndexOutOfRange);
        }
      }
      return;
    }
    r := WeightedSum(clients, weights[..|clients|]);
    if r.Success? && 0 < |clients| == |reports| && forall i :: 0 <= i < |reports| ==> 0.0 <= raw[i] {
      assert weights[..|clients|] == weights;
      ConvexCombinationInRange(clients, weights);
    }
  }
}
