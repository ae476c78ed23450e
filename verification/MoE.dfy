/**
 Expert-grouped dispatch of tokens (moe_expert_float) against the direct per-token, per-slot forms (moe_batched_bmm and
 moe_batched_einsum), over exact real arithmetic and an arbitrary activation function.
 */
module MoE {

  type Vector = seq<real>
  type Matrix = seq<seq<real>>

  datatype Error = BadExpertId | ShapeMismatch | IndexOutOfRange | AmbiguousView

  datatype Result = Ok(rows: Matrix) | Failed(error: Error)

  datatype Net = Net(hidden: nat, inter: nat, gate: seq<Matrix>, up: seq<Matrix>, down: seq<Matrix>)

  ghost predicate Wide(m: Matrix, width: nat) {
    forall r | 0 <= r < |m| :: |m[r]| == width
  }

  /** gate and up map hidden to inter, down maps back; the sizes are positive. */
  ghost predicate Shaped(net: Net) {
    && net.hidden > 0 && net.inter > 0 && |net.gate| == |net.up| == |net.down|
    && forall e | 0 <= e < |net.gate| ::
      && |net.gate[e]| == |net.up[e]| == net.inter && |net.down[e]| == net.hidden
      && Wide(net.gate[e], net.hidden) && Wide(net.up[e], net.hidden) && Wide(net.down[e], net.inter)
  }

  // ----- linear algebra

  function Dot(a: Vector, b: Vector): real
    requires |a| == |b|
  {
    if a == [] then 0.0 else Dot(a[..|a| - 1], b[..|a| - 1]) + a[|a| - 1] * b[|a| - 1]
  }

  lemma {:induction false} DotCommutes(a: Vector, b: Vector)
    requires |a| == |b|
    ensures Dot(a, b) == Dot(b, a)
  {
    if a != [] {
      DotCommutes(a[..|a| - 1], b[..|a| - 1]);
    }
  }

  /** A row times the transpose of m. */
  function RowTimes(x: Vector, m: Matrix): (y: Vector)
    requires Wide(m, |x|)
    ensures |y| == |m|
  {
    seq(|m|, i requires 0 <= i < |m| => Dot(x, m[i]))
  }

  /** m times a column. */
  function TimesColumn(m: Matrix, x: Vector): (y: Vector)
    requires Wide(m, |x|)
    ensures |y| == |m|
  {
    seq(|m|, i requires 0 <= i < |m| => Dot(m[i], x))
  }

  lemma RowIsColumn(x: Vector, m: Matrix)
    requires Wide(m, |x|)
    ensures RowTimes(x, m) == TimesColumn(m, x)
  {
    forall i | 0 <= i < |m| ensures Dot(x, m[i]) == Dot(m[i], x) {
      DotCommutes(x, m[i]);
    }
  }

  function Gated(act: real -> real, g: Vector, u: Vector): (y: Vector)
    requires |g| == |u|
    ensures |y| == |g|
  {
    seq(|g|, i requires 0 <= i < |g| => act(g[i]) * u[i])
  }

  /** mul by the weights and sum over the slots. */
  function Combine(rows: Matrix, weights: Vector, width: nat): (y: Vector)
    requires |rows| == |weights| && Wide(rows, width)
    ensures |y| == width
  {
    if rows == [] then seq(width, _ => 0.0)
    else
      var n := |rows| - 1;
      var rest := Combine(rows[..n], weights[..n], width);
      seq(width, i requires 0 <= i < width => rest[i] + rows[n][i] * weights[n])
  }

  // ----- the batched forms

  /** q tokens with k slots each; ids may be out of range. */
  ghost predicate Batch(net: Net, input: Matrix, ids: seq<seq<int>>, weights: Matrix, k: nat) {
    && Shaped(net) && |input| == |ids| == |weights| && Wide(input, net.hidden) && Wide(weights, k)
    && forall t | 0 <= t < |ids| :: |ids[t]| == k
  }

  predicate InRange(ids: seq<seq<int>>, experts: nat) {
    forall t, s | 0 <= t < |ids| && 0 <= s < |ids[t]| :: 0 <= ids[t][s] < experts
  }

  /** One (token, slot) of moe_batched_bmm: matrices times columns. */
  function BmmSlot(net: Net, act: real -> real, e: nat, x: Vector): (y: Vector)
    requires Shaped(net) && e < |net.gate| && |x| == net.hidden
    ensures |y| == net.hidden
  {
    TimesColumn(net.down[e], Gated(act, TimesColumn(net.gate[e], x), TimesColumn(net.up[e], x)))
  }

  /** One (token, slot) of moe_batched_einsum: sums over h of x[h] * gate[i][h], and so on. */
  function EinsumSlot(net: Net, act: real -> real, e: nat, x: Vector): (y: Vector)
    requires Shaped(net) && e < |net.gate| && |x| == net.hidden
    ensures |y| == net.hidden
  {
    RowTimes(Gated(act, RowTimes(x, net.gate[e]), RowTimes(x, net.up[e])), net.down[e])
  }

  lemma SlotsAgree(net: Net, act: real -> real, e: nat, x: Vector)
    requires Shaped(net) && e < |net.gate| && |x| == net.hidden
    ensures BmmSlot(net, act, e, x) == EinsumSlot(net, act, e, x)
  {
    RowIsColumn(x, net.gate[e]);
    RowIsColumn(x, net.up[e]);
    RowIsColumn(Gated(act, RowTimes(x, net.gate[e]), RowTimes(x, net.up[e])), net.down[e]);
  }

  function BmmToken(net: Net, act: real -> real, x: Vector, ids: seq<int>, weights: Vector): (y: Vector)
    requires Shaped(net) && |x| == net.hidden && |ids| == |weights|
    requires forall s | 0 <= s < |ids| :: 0 <= ids[s] < |net.gate|
    ensures |y| == net.hidden
  {
    Combine(seq(|ids|, s requires 0 <= s < |ids| => BmmSlot(net, act, ids[s], x)), weights, net.hidden)
  }

  function EinsumToken(net: Net, act: real -> real, x: Vector, ids: seq<int>, weights: Vector): (y: Vector)
    requires Shaped(net) && |x| == net.hidden && |ids| == |weights|
    requires forall s | 0 <= s < |ids| :: 0 <= ids[s] < |net.gate|
    ensures |y| == net.hidden
  {
    Combine(seq(|ids|, s requires 0 <= s < |ids| => EinsumSlot(net, act, ids[s], x)), weights, net.hidden)
  }

  function BatchedBmm(net: Net, act: real -> real, input: Matrix, ids: seq<seq<int>>, weights: Matrix, k: nat): Result
    requires Batch(net, input, ids, weights, k)
  {
    if !InRange(ids, |net.gate|) then Failed(BadExpertId)
    else
      Ok(seq(|input|, t requires 0 <= t < |input| => BmmToken(net, act, input[t], ids[t], weights[t])))
  }

  function BatchedEinsum(net: Net, act: real -> real, input: Matrix, ids: seq<seq<int>>, weights: Matrix,
                         k: nat): Result
    requires Batch(net, input, ids, weights, k)
  {
    if !InRange(ids, |net.gate|) then Failed(BadExpertId)
    else
      Ok(seq(|input|, t requires 0 <= t < |input| => EinsumToken(net, act, input[t], ids[t], weights[t])))
  }

  lemma TokensAgree(net: Net, act: real -> real, x: Vector, ids: seq<int>, weights: Vector)
    requires Shaped(net) && |x| == net.hidden && |ids| == |weights|
    requires forall s | 0 <= s < |ids| :: 0 <= ids[s] < |net.gate|
    ensures BmmToken(net, act, x, ids, weights) == EinsumToken(net, act, x, ids, weights)
  {
    var bmm := seq(|ids|, s requires 0 <= s < |ids| => BmmSlot(net, act, ids[s], x));
    var einsum := seq(|ids|, s requires 0 <= s < |ids| => EinsumSlot(net, act, ids[s], x));
    forall s | 0 <= s < |ids| ensures bmm[s] == einsum[s] {
      SlotsAgree(net, act, ids[s], x);
    }
    assert bmm == einsum;
  }

  /** The two batched forms are the same function. */
  lemma BatchedFormsAgree(net: Net, act: real -> real, input: Matrix, ids: seq<seq<int>>, weights: Matrix, k: nat)
    requires Batch(net, input, ids, weights, k)
    ensures BatchedBmm(net, act, input, ids, weights, k) == BatchedEinsum(net, act, input, ids, weights, k)
  {
    if InRange(ids, |net.gate|) {
      forall t | 0 <= t < |input|
        ensures BmmToken(net, act, input[t], ids[t], weights[t]) == EinsumToken(net, act, input[t], ids[t], weights[t])
      {
        TokensAgree(net, act, input[t], ids[t], weights[t]);
      }
    }
  }

  // ----- counting ids

  function Occ(ids: seq<int>, e: int): nat {
    if ids == [] then 0 else Occ(ids[..|ids| - 1], e) + (if ids[|ids| - 1] == e then 1 else 0)
  }

  /** How many tokens ask for expert e. */
  function Tok(ids: seq<seq<int>>, e: int): nat {
    if ids == [] then 0 else Tok(ids[..|ids| - 1], e) + (if e in ids[|ids| - 1] then 1 else 0)
  }

  function Flat(ids: seq<seq<int>>): seq<int> {
    if ids == [] then [] else Flat(ids[..|ids| - 1]) + ids[|ids| - 1]
  }

  ghost predicate Distinct(row: seq<int>) {
    forall i, j | 0 <= i < j < |row| :: row[i] != row[j]
  }

  ghost predicate AllDistinct(ids: seq<seq<int>>) {
    forall t | 0 <= t < |ids| :: Distinct(ids[t])
  }

  lemma {:induction false} OccAppend(a: seq<int>, b: seq<int>, e: int)
    ensures Occ(a + b, e) == Occ(a, e) + Occ(b, e)
  {
    if b == [] {
      assert a + b == a;
    } else {
      OccAppend(a, b[..|b| - 1], e);
      assert (a + b)[..|a + b| - 1] == a + b[..|b| - 1];
    }
  }

  lemma {:induction false} OccMember(row: seq<int>, e: int)
    ensures Occ(row, e) >= 1 <==> e in row
    ensures Distinct(row) ==> Occ(row, e) <= 1
  {
    if row != [] {
      OccMember(row[..|row| - 1], e);
      assert row == row[..|row| - 1] + [row[|row| - 1]];
    }
  }

  lemma {:induction false} DuplicateOcc(row: seq<int>, i: nat, j: nat)
    requires i < j < |row| && row[i] == row[j]
    ensures Occ(row, row[i]) >= 2
  {
    if j == |row| - 1 {
      OccMember(row[..j], row[i]);
      assert row[..j][i] == row[i];
    } else {
      DuplicateOcc(row[..|row| - 1], i, j);
    }
  }

  /** A token asks for an expert at most as often as the id occurs; equally often when its ids are distinct. */
  lemma {:induction false} TokOcc(ids: seq<seq<int>>, e: int)
    ensures Tok(ids, e) <= Occ(Flat(ids), e)
    ensures AllDistinct(ids) ==> Tok(ids, e) == Occ(Flat(ids), e)
  {
    if ids != [] {
      var n := |ids| - 1;
      TokOcc(ids[..n], e);
      OccAppend(Flat(ids[..n]), ids[n], e);
      OccMember(ids[n], e);
    }
  }

  lemma {:induction false} DuplicateLosesOne(ids: seq<seq<int>>, t: nat, i: nat, j: nat)
    requires t < |ids| && i < j < |ids[t]| && ids[t][i] == ids[t][j]
    ensures Tok(ids, ids[t][i]) < Occ(Flat(ids), ids[t][i])
  {
    var n := |ids| - 1;
    var e := ids[t][i];
    OccAppend(Flat(ids[..n]), ids[n], e);
    OccMember(ids[n], e);
    if t == n {
      TokOcc(ids[..n], e);
      DuplicateOcc(ids[n], i, j);
    } else {
      DuplicateLosesOne(ids[..n], t, i, j);
    }
  }

  /** Sums over the experts below e. */
  function OccBelow(ids: seq<int>, e: nat): nat {
    if e == 0 then 0 else OccBelow(ids, e - 1) + Occ(ids, e - 1)
  }

  function TokBelow(ids: seq<seq<int>>, e: nat): nat {
    if e == 0 then 0 else TokBelow(ids, e - 1) + Tok(ids, e - 1)
  }

  lemma {:induction false} TokBelowOcc(ids: seq<seq<int>>, e: nat)
    ensures TokBelow(ids, e) <= OccBelow(Flat(ids), e)
    ensures AllDistinct(ids) ==> TokBelow(ids, e) == OccBelow(Flat(ids), e)
  {
    if e > 0 {
      TokBelowOcc(ids, e - 1);
      TokOcc(ids, e - 1);
    }
  }

  lemma {:induction false} TokBelowLess(ids: seq<seq<int>>, d: nat, e: nat)
    requires d < e && Tok(ids, d) < Occ(Flat(ids), d)
    ensures TokBelow(ids, e) < OccBelow(Flat(ids), e)
  {
    TokOcc(ids, e - 1);
    if d == e - 1 {
      TokBelowOcc(ids, d);
    } else {
      TokBelowLess(ids, d, e - 1);
    }
  }

  /** How many entries lie in [0, e): all of them, when every id is below e. */
  lemma {:induction false} OccBelowAppend(ids: seq<int>, id: int, e: nat)
    ensures OccBelow(ids + [id], e) == OccBelow(ids, e) + (if 0 <= id < e then 1 else 0)
  {
    if e > 0 {
      OccBelowAppend(ids, id, e - 1);
      assert (ids + [id])[..|ids|] == ids;
    }
  }

  lemma {:induction false} OccBelowNone(e: nat)
    ensures OccBelow([], e) == 0
  {
    if e > 0 {
      OccBelowNone(e - 1);
    }
  }

  lemma {:induction false} OccBelowAll(ids: seq<int>, e: nat)
    requires forall i | 0 <= i < |ids| :: 0 <= ids[i] < e
    ensures OccBelow(ids, e) == |ids|
  {
    if ids == [] {
      OccBelowNone(e);
    } else {
      var n := |ids| - 1;
      OccBelowAll(ids[..n], e);
      OccBelowAppend(ids[..n], ids[n], e);
      assert ids[..n] + [ids[n]] == ids;
    }
  }

  // ----- sorting

  ghost predicate Sorted(ids: seq<int>) {
    forall i, j | 0 <= i < j < |ids| :: ids[i] <= ids[j]
  }

  lemma {:induction false} OccBelowBound(ids: seq<int>, e: nat)
    ensures OccBelow(ids, e) <= |ids|
  {
    if ids == [] {
      OccBelowNone(e);
    } else {
      var n := |ids| - 1;
      OccBelowBound(ids[..n], e);
      OccBelowAppend(ids[..n], ids[n], e);
      assert ids[..n] + [ids[n]] == ids;
    }
  }

  /** In a sorted sequence the entries below e come first. */
  lemma {:induction false} SortedBlocks(ids: seq<int>, e: nat, i: nat)
    requires Sorted(ids) && i < |ids| && forall j | 0 <= j < |ids| :: 0 <= ids[j]
    ensures ids[i] < e <==> i < OccBelow(ids, e)
  {
    var n := |ids| - 1;
    assert ids[..n] + [ids[n]] == ids;
    OccBelowAppend(ids[..n], ids[n], e);
    if ids[n] < e {
      OccBelowAll(ids, e);
    } else if i < n {
      SortedBlocks(ids[..n], e, i);
    } else {
      OccBelowBound(ids[..n], e);
    }
  }

  ghost predicate Permutation(idxs: seq<nat>) {
    && (forall i | 0 <= i < |idxs| :: idxs[i] < |idxs|)
    && (forall i, j | 0 <= i < j < |idxs| :: idxs[i] != idxs[j])
    && (forall v | 0 <= v < |idxs| :: v in idxs)
  }

  function Pick(ids: seq<int>, idxs: seq<nat>): (r: seq<int>)
    requires forall i | 0 <= i < |idxs| :: idxs[i] < |ids|
    ensures |r| == |idxs| && forall i | 0 <= i < |idxs| :: r[i] == ids[idxs[i]]
  {
    seq(|idxs|, i requires 0 <= i < |idxs| => ids[idxs[i]])
  }

  /** idxs is a result of argsort: any permutation that sorts. */
  ghost predicate SortsBy(ids: seq<int>, idxs: seq<nat>) {
    |idxs| == |ids| && Permutation(idxs) && Sorted(Pick(ids, idxs))
  }

  lemma OccRemove(ids: seq<int>, p: nat, e: int)
    requires p < |ids|
    ensures Occ(ids, e) == Occ(ids[..p] + ids[p + 1..], e) + (if ids[p] == e then 1 else 0)
  {
    assert ids == ids[..p + 1] + ids[p + 1..] && ids[..p + 1][..p] == ids[..p];
    OccAppend(ids[..p + 1], ids[p + 1..], e);
    OccAppend(ids[..p], ids[p + 1..], e);
  }

  lemma RestPermutes(idxs: seq<nat>, p: nat)
    requires Permutation(idxs) && p < |idxs| && idxs[p] == |idxs| - 1
    ensures Permutation(idxs[..p] + idxs[p + 1..])
  {
    var rest := idxs[..p] + idxs[p + 1..];
    forall v | 0 <= v < |rest| ensures v in rest {
      assert v in idxs;
      var i :| 0 <= i < |idxs| && idxs[i] == v;
      assert rest[if i < p then i else i - 1] == v;
    }
    forall i, j | 0 <= i < j < |rest| ensures rest[i] != rest[j] {
      assert rest[i] == idxs[if i < p then i else i + 1] && rest[j] == idxs[if j < p then j else j + 1];
    }
  }

  lemma PickRest(ids: seq<int>, idxs: seq<nat>, p: nat)
    requires |idxs| == |ids| && Permutation(idxs) && p < |idxs| && idxs[p] == |idxs| - 1
    ensures var n, rest, picked := |ids| - 1, idxs[..p] + idxs[p + 1..], Pick(ids, idxs);
      && Permutation(rest) && picked[p] == ids[n]
      && Pick(ids[..n], rest) == picked[..p] + picked[p + 1..]
  {
    RestPermutes(idxs, p);
  }

  lemma PositionOf(idxs: seq<nat>, v: nat) returns (p: nat)
    requires Permutation(idxs) && v < |idxs|
    ensures p < |idxs| && idxs[p] == v
  {
    assert v in idxs;
    p :| 0 <= p < |idxs| && idxs[p] == v;
  }

  lemma OccStep(ids: seq<int>, picked: seq<int>, p: nat, e: int)
    requires p < |picked| == |ids| && picked[p] == ids[|ids| - 1]
    requires Occ(picked[..p] + picked[p + 1..], e) == Occ(ids[..|ids| - 1], e)
    ensures Occ(picked, e) == Occ(ids, e)
  {
    OccRemove(picked, p, e);
  }

  lemma {:induction false} PermutedOcc(ids: seq<int>, idxs: seq<nat>, e: int)
    requires |idxs| == |ids| && Permutation(idxs)
    ensures Occ(Pick(ids, idxs), e) == Occ(ids, e)
  {
    if ids != [] {
      var n := |ids| - 1;
      var p := PositionOf(idxs, n);
      PickRest(ids, idxs, p);
      PermutedOcc(ids[..n], idxs[..p] + idxs[p + 1..], e);
      OccStep(ids, Pick(ids, idxs), p, e);
    }
  }

  lemma {:induction false} PermutedOccBelow(ids: seq<int>, idxs: seq<nat>, e: nat)
    requires |idxs| == |ids| && Permutation(idxs)
    ensures OccBelow(Pick(ids, idxs), e) == OccBelow(ids, e)
  {
    if e > 0 {
      PermutedOccBelow(ids, idxs, e - 1);
      PermutedOcc(ids, idxs, e - 1);
    }
  }

  /** The block of expert e holds exactly the sorted positions whose id is e. */
  lemma BlockOf(ids: seq<int>, idxs: seq<nat>, e: nat, i: nat)
    requires SortsBy(ids, idxs) && i < |ids| && forall j | 0 <= j < |ids| :: 0 <= ids[j]
    requires OccBelow(ids, e) <= i < OccBelow(ids, e + 1)
    ensures ids[idxs[i]] == e
  {
    var picked := Pick(ids, idxs);
    PermutedOccBelow(ids, idxs, e);
    PermutedOccBelow(ids, idxs, e + 1);
    SortedBlocks(picked, e, i);
    SortedBlocks(picked, e + 1, i);
  }

  // ----- positions

  lemma MulStep(t: nat, q: nat, k: nat)
    requires t < q
    ensures 0 <= t * k && t * k + k <= q * k
  {
    assert (t + 1) * k <= q * k;
  }

  lemma DivPosition(t: nat, k: nat, s: nat)
    requires s < k
    ensures (t * k + s) / k == t
  {
    assert t * k + s == k * t + s;
    assert (k * t + s) / k == t by {
      var d := (k * t + s) / k;
      var m := (k * t + s) % k;
      assert k * t + s == k * d + m;
      if d < t {
        MulStep(d, t, k);
      } else if d > t {
        MulStep(t, d, k);
      }
    }
  }

  lemma MulNext(n: nat, k: nat)
    ensures (n + 1) * k == n * k + k
  {
  }

  lemma {:induction false} FlatLength(ids: seq<seq<int>>, k: nat)
    requires forall t | 0 <= t < |ids| :: |ids[t]| == k
    ensures |Flat(ids)| == |ids| * k
  {
    if ids != [] {
      FlatLength(ids[..|ids| - 1], k);
      MulNext(|ids| - 1, k);
    }
  }

  /** Entry s of token t sits at t * k + s of the flattened ids. */
  lemma {:induction false} FlatAt(ids: seq<seq<int>>, k: nat, t: nat, s: nat)
    requires forall u | 0 <= u < |ids| :: |ids[u]| == k
    requires t < |ids| && s < k
    ensures 0 <= t * k + s < |Flat(ids)| && Flat(ids)[t * k + s] == ids[t][s]
  {
    var n := |ids| - 1;
    if t < n {
      FlatAt(ids[..n], k, t, s);
    } else {
      FlatLength(ids[..n], k);
    }
  }

  lemma {:induction false} FlatInRange(ids: seq<seq<int>>, experts: nat)
    requires InRange(ids, experts)
    ensures forall i | 0 <= i < |Flat(ids)| :: 0 <= Flat(ids)[i] < experts
  {
    if ids != [] {
      FlatInRange(ids[..|ids| - 1], experts);
    }
  }

  // ----- moe_expert_float

  /** counts.scatter_(1, ids, 1) and its sum over the tokens; fails on an id that is no expert. */
  method CountTokens(ids: seq<seq<int>>, experts: nat, k: nat) returns (ok: bool, tokens: seq<nat>)
    requires forall t | 0 <= t < |ids| :: |ids[t]| == k
    ensures ok <==> InRange(ids, experts)
    ensures ok ==> |tokens| == experts && forall e | 0 <= e < experts :: tokens[e] == Tok(ids, e)
  {
    var counts := new nat[|ids|, experts]((_, _) => 0);
    for t := 0 to |ids|
      invariant InRange(ids[..t], experts)
      invariant forall u, e | 0 <= u < |ids| && 0 <= e < experts ::
        counts[u, e] == if u < t && e in ids[u] then 1 else 0
    {
      for s := 0 to k
        invariant forall j | 0 <= j < s :: 0 <= ids[t][j] < experts
        invariant forall u, e | 0 <= u < |ids| && 0 <= e < experts ::
          counts[u, e] == if (u < t && e in ids[u]) || (u == t && e in ids[t][..s]) then 1 else 0
      {
        if !(0 <= ids[t][s] < experts) {
          return false, [];
        }
        counts[t, ids[t][s]] := 1;
        assert ids[t][..s + 1] == ids[t][..s] + [ids[t][s]];
      }
      assert ids[t][..k] == ids[t];
      assert ids[..t + 1] == ids[..t] + [ids[t]];
    }
    assert ids[..|ids|] == ids;
    ok, tokens := true, [];
    for e := 0 to experts
      invariant |tokens| == e && forall d | 0 <= d < e :: tokens[d] == Tok(ids, d)
    {
      var sum := 0;
      for t := 0 to |ids|
        invariant sum == Tok(ids[..t], e)
      {
        sum := sum + counts[t, e];
        assert ids[..t + 1][..t] == ids[..t];
      }
      assert ids[..|ids|] == ids;
      tokens := tokens + [sum];
    }
  }

  /** torch.mm(block, m.t()): every row times the transpose. */
  function Mm(block: Matrix, width: nat, m: Matrix): (y: Matrix)
    requires Wide(block, width) && Wide(m, width)
    ensures |y| == |block| && Wide(y, |m|)
    ensures forall r | 0 <= r < |block| :: y[r] == RowTimes(block[r], m)
  {
    seq(|block|, r requires 0 <= r < |block| => RowTimes(block[r], m))
  }

  function GatedRows(act: real -> real, g: Matrix, u: Matrix, width: nat): (y: Matrix)
    requires |g| == |u| && Wide(g, width) && Wide(u, width)
    ensures |y| == |g| && Wide(y, width)
    ensures forall r | 0 <= r < |g| :: y[r] == Gated(act, g[r], u[r])
  {
    seq(|g|, r requires 0 <= r < |g| => Gated(act, g[r], u[r]))
  }

  function Cat(blocks: seq<Matrix>): Matrix {
    if blocks == [] then [] else Cat(blocks[..|blocks| - 1]) + blocks[|blocks| - 1]
  }

  /** Row j of the outputs is what the expert of sorted position j makes of its token. */
  ghost predicate RowsDone(net: Net, act: real -> real, sorted: Matrix, ids: seq<int>, idxs: seq<nat>, rows: Matrix)
    requires Shaped(net) && Wide(sorted, net.hidden) && |sorted| == |ids| == |idxs|
    requires forall i | 0 <= i < |idxs| :: idxs[i] < |ids|
    requires forall i | 0 <= i < |ids| :: 0 <= ids[i] < |net.gate|
  {
    && |rows| <= |sorted|
    && forall j | 0 <= j < |rows| :: rows[j] == EinsumSlot(net, act, ids[idxs[j]], sorted[j])
  }

  /** One expert's block through its three matrices. */
  method ExpertBlock(net: Net, act: real -> real, e: nat, block: Matrix) returns (out: Matrix)
    requires Shaped(net) && e < |net.gate| && Wide(block, net.hidden)
    ensures |out| == |block| && forall r | 0 <= r < |block| :: out[r] == EinsumSlot(net, act, e, block[r])
  {
    var gateBuf := Mm(block, net.hidden, net.gate[e]);
    var upBuf := Mm(block, net.hidden, net.up[e]);
    var inter := GatedRows(act, gateBuf, upBuf, net.inter);
    out := Mm(inter, net.inter, net.down[e]);
  }

  lemma BlockFits(ids: seq<seq<int>>, e: nat, experts: nat)
    requires e < experts && forall i | 0 <= i < |Flat(ids)| :: 0 <= Flat(ids)[i] < experts
    ensures TokBelow(ids, e + 1) == TokBelow(ids, e) + Tok(ids, e) <= |Flat(ids)|
  {
    TokBelowOcc(ids, e + 1);
    OccBelowBound(Flat(ids), e + 1);
  }

  lemma BlockDone(net: Net, act: real -> real, sorted: Matrix, ids: seq<seq<int>>, idxs: seq<nat>, e: nat, rows: Matrix,
                  out: Matrix)
    requires Shaped(net) && Wide(sorted, net.hidden) && AllDistinct(ids) && e < |net.gate|
    requires SortsBy(Flat(ids), idxs) && |sorted| == |Flat(ids)|
    requires forall i | 0 <= i < |Flat(ids)| :: 0 <= Flat(ids)[i] < |net.gate|
    requires RowsDone(net, act, sorted, Flat(ids), idxs, rows)
    requires |rows| == TokBelow(ids, e) && |rows| + |out| == TokBelow(ids, e + 1) <= |sorted|
    requires forall r | 0 <= r < |out| :: out[r] == EinsumSlot(net, act, e, sorted[|rows| + r])
    ensures RowsDone(net, act, sorted, Flat(ids), idxs, rows + out)
  {
    TokBelowOcc(ids, e);
    TokBelowOcc(ids, e + 1);
    forall j | |rows| <= j < |rows + out|
      ensures (rows + out)[j] == EinsumSlot(net, act, Flat(ids)[idxs[j]], sorted[j])
    {
      BlockOf(Flat(ids), idxs, e, j);
      assert (rows + out)[j] == out[j - |rows|];
    }
  }

  /** The loop over the experts. */
  method RunExperts(net: Net, act: real -> real, sorted: Matrix, tokens: seq<nat>, ghost ids: seq<seq<int>>,
                    ghost idxs: seq<nat>)
    returns (rows: Matrix)
    requires Shaped(net) && Wide(sorted, net.hidden) && |tokens| == |net.gate|
    requires InRange(ids, |net.gate|) && SortsBy(Flat(ids), idxs) && |sorted| == |Flat(ids)|
    requires forall i | 0 <= i < |Flat(ids)| :: 0 <= Flat(ids)[i] < |net.gate|
    requires forall e | 0 <= e < |tokens| :: tokens[e] == Tok(ids, e)
    ensures |rows| == TokBelow(ids, |net.gate|) && Wide(rows, net.hidden)
    ensures AllDistinct(ids) ==> RowsDone(net, act, sorted, Flat(ids), idxs, rows)
  {
    var outputs: seq<Matrix> := [];
    var start := 0;
    for e := 0 to |tokens|
      invariant start == TokBelow(ids, e) == |Cat(outputs)| && Wide(Cat(outputs), net.hidden)
      invariant AllDistinct(ids) ==> RowsDone(net, act, sorted, Flat(ids), idxs, Cat(outputs))
    {
      var end := start + tokens[e];
      BlockFits(ids, e, |net.gate|);
      if tokens[e] > 0 {
        var out := ExpertBlock(net, act, e, sorted[start..end]);
        if AllDistinct(ids) {
          BlockDone(net, act, sorted, ids, idxs, e, Cat(outputs), out);
        }
        assert (outputs + [out])[..|outputs|] == outputs;
        outputs := outputs + [out];
        start := end;
      }
    }
    rows := Cat(outputs);
  }

  /** reordered[idxs] = rows, with one row broadcast; fails when the shapes differ or an index is past the end. */
  method Unsort(rows: Matrix, idxs: seq<nat>, width: nat) returns (r: Result)
    requires Wide(rows, width) && Permutation(idxs) && |rows| <= |idxs|
    ensures r.Ok? <==> |rows| == |idxs|
    ensures r.Failed? ==> r.error == if |rows| == 1 then IndexOutOfRange else ShapeMismatch
    ensures r.Ok? ==> |r.rows| == |idxs| && Wide(r.rows, width)
                      && forall j | 0 <= j < |idxs| :: r.rows[idxs[j]] == rows[j]
  {
    if |rows| != |idxs| && |rows| != 1 {
      return Failed(ShapeMismatch);
    }
    assert idxs != [] ==> |idxs| - 1 in idxs;
    var reordered := seq(|rows|, _ => seq(width, _ => 0.0));
    for j := 0 to |idxs|
      invariant |reordered| == |rows| && Wide(reordered, width)
      invariant forall i | 0 <= i < j :: idxs[i] < |rows|
      invariant |rows| == |idxs| ==> forall i | 0 <= i < j :: reordered[idxs[i]] == rows[i]
    {
      if idxs[j] >= |rows| {
        return Failed(IndexOutOfRange);
      }
      reordered := reordered[idxs[j] := rows[if |rows| == 1 then 0 else j]];
    }
    r := Ok(reordered);
  }

  /** The number of output rows is that of the flattened ids exactly when no token repeats an id. */
  lemma RowsComplete(ids: seq<seq<int>>, experts: nat)
    requires InRange(ids, experts)
    ensures TokBelow(ids, experts) <= |Flat(ids)|
    ensures TokBelow(ids, experts) == |Flat(ids)| <==> AllDistinct(ids)
  {
    FlatInRange(ids, experts);
    OccBelowAll(Flat(ids), experts);
    TokBelowOcc(ids, experts);
    if !AllDistinct(ids) {
      var t :| 0 <= t < |ids| && !Distinct(ids[t]);
      var i, j :| 0 <= i < j < |ids[t]| && ids[t][i] == ids[t][j];
      DuplicateLosesOne(ids, t, i, j);
      TokBelowLess(ids, ids[t][i], experts);
    }
  }

  /** view(q, k, -1)[t]. */
  function View(rows: Matrix, t: nat, k: nat): Matrix {
    if 0 <= t * k <= t * k + k <= |rows| then rows[t * k..t * k + k] else []
  }

  /** The gathered rows: position j of the sorted order holds the token of that position. */
  ghost predicate Gathered(input: Matrix, k: nat, idxs: seq<nat>, sorted: Matrix) {
    |sorted| == |idxs| && k > 0
    && forall j | 0 <= j < |idxs| :: 0 <= idxs[j] / k < |input| && sorted[j] == input[idxs[j] / k]
  }

  ghost predicate Scattered(idxs: seq<nat>, rows: Matrix, reordered: Matrix) {
    && |rows| == |reordered| == |idxs|
    && forall j | 0 <= j < |idxs| :: idxs[j] < |reordered| && reordered[idxs[j]] == rows[j]
  }

  /** The row scattered to slot s of token t is what that slot's expert makes of the token. */
  lemma SlotRow(net: Net, act: real -> real, input: Matrix, ids: seq<seq<int>>, k: nat,
                idxs: seq<nat>, sorted: Matrix, rows: Matrix, reordered: Matrix, t: nat, s: nat)
    requires Shaped(net) && |input| == |ids| && Wide(input, net.hidden) && t < |ids| && s < k
    requires forall u | 0 <= u < |ids| :: |ids[u]| == k
    requires SortsBy(Flat(ids), idxs) && |sorted| == |Flat(ids)| && Wide(sorted, net.hidden)
    requires forall i | 0 <= i < |Flat(ids)| :: 0 <= Flat(ids)[i] < |net.gate|
    requires Gathered(input, k, idxs, sorted)
    requires RowsDone(net, act, sorted, Flat(ids), idxs, rows) && Scattered(idxs, rows, reordered)
    ensures 0 <= t * k + s < |reordered| && 0 <= ids[t][s] < |net.gate|
    ensures reordered[t * k + s] == EinsumSlot(net, act, ids[t][s], input[t])
  {
    FlatAt(ids, k, t, s);
    assert t * k + s in idxs;
    var j :| 0 <= j < |idxs| && idxs[j] == t * k + s;
    DivPosition(t, k, s);
    assert rows[j] == EinsumSlot(net, act, Flat(ids)[idxs[j]], sorted[j]);
  }

  lemma DoubledIdSorts()
    ensures !AllDistinct([[0, 0]]) && SortsBy([0, 0], [0, 1])
  {
    assert !Distinct([[0, 0]][0]) by {
      assert [0, 0][0] == [0, 0][1];
    }
  }

  /** One token asking twice for expert 0: the scatter counts it once, so one row is produced for two slots. */
  lemma RepeatedIdLosesARow()
    ensures TokBelow([[0, 0]], 1) == 1 && Flat([[0, 0]]) == [0, 0]
    ensures !AllDistinct([[0, 0]]) && SortsBy([0, 0], [0, 1])
  {
    hide AllDistinct, SortsBy;
    DoubledIdSorts();
    assert Tok([[0, 0]], 0) == Tok([], 0) + 1;
    assert Flat([[0, 0]]) == Flat([]) + [0, 0];
  }

  predicate SlotAt(rows: Matrix, start: nat, slots: Matrix, s: nat) {
    s < |slots| && start + s < |rows| && rows[start + s] == slots[s]
  }

  lemma ViewIs(rows: Matrix, t: nat, k: nat, slots: Matrix)
    requires |slots| == k && 0 <= t * k <= t * k + k <= |rows|
    requires forall s | 0 <= s < k :: SlotAt(rows, t * k, slots, s)
    ensures View(rows, t, k) == slots
  {
    var view := rows[t * k..t * k + k];
    forall s | 0 <= s < k ensures view[s] == slots[s] {
      assert SlotAt(rows, t * k, slots, s);
    }
  }

  /** The rows of token t, read back in slot order, are its slots. */
  lemma TokenRows(net: Net, act: real -> real, input: Matrix, ids: seq<seq<int>>, weights: Matrix, k: nat,
                  idxs: seq<nat>, sorted: Matrix, rows: Matrix, reordered: Matrix, t: nat)
    requires Batch(net, input, ids, weights, k) && InRange(ids, |net.gate|) && t < |ids|
    requires SortsBy(Flat(ids), idxs) && |sorted| == |Flat(ids)|
    requires forall i | 0 <= i < |Flat(ids)| :: 0 <= Flat(ids)[i] < |net.gate|
    requires Gathered(input, k, idxs, sorted) && Wide(sorted, net.hidden)
    requires RowsDone(net, act, sorted, Flat(ids), idxs, rows) && Scattered(idxs, rows, reordered)
    ensures |View(reordered, t, k)| == k && Wide(View(reordered, t, k), net.hidden)
    ensures Combine(View(reordered, t, k), weights[t], net.hidden)
            == EinsumToken(net, act, input[t], ids[t], weights[t])
  {
    MulStep(t, |ids|, k);
    FlatLength(ids, k);
    var slots := seq(k, s requires 0 <= s < k => EinsumSlot(net, act, ids[t][s], input[t]));
    forall s | 0 <= s < k ensures SlotAt(reordered, t * k, slots, s) {
      SlotRow(net, act, input, ids, k, idxs, sorted, rows, reordered, t, s);
    }
    ViewIs(reordered, t, k, slots);
  }

  lemma MulAtLeast(a: nat, b: nat, k: nat)
    requires a >= b
    ensures a * k >= b * k
  {
  }

  lemma SortedToken(i: nat, q: nat, k: nat)
    requires i < q * k
    ensures k > 0 && 0 <= i / k < q
  {
    if i / k >= q {
      MulAtLeast(i / k, q, k);
    }
  }

  /** input_fp[idxs // k]. */
  method Gather(input: Matrix, ids: seq<seq<int>>, k: nat, idxs: seq<nat>) returns (sorted: Matrix)
    requires |input| == |ids| && |idxs| == |Flat(ids)| && forall t | 0 <= t < |ids| :: |ids[t]| == k
    requires forall j | 0 <= j < |idxs| :: idxs[j] < |idxs|
    ensures |sorted| == |idxs| && (idxs != [] ==> Gathered(input, k, idxs, sorted))
    ensures forall j | 0 <= j < |sorted| :: sorted[j] in input
  {
    FlatLength(ids, k);
    forall j | 0 <= j < |idxs| ensures k > 0 && 0 <= idxs[j] / k < |input| {
      SortedToken(idxs[j], |ids|, k);
    }
    sorted := seq(|idxs|, j requires 0 <= j < |idxs| => input[idxs[j] / k]);
  }

  /** mul_(weights).sum(dim=1). */
  method WeighAndSum(reordered: Matrix, weights: Matrix, k: nat, width: nat) returns (output: Matrix)
    requires Wide(weights, k)
    requires forall t | 0 <= t < |weights| :: |View(reordered, t, k)| == k && Wide(View(reordered, t, k), width)
    ensures |output| == |weights|
    ensures forall t | 0 <= t < |output| :: output[t] == Combine(View(reordered, t, k), weights[t], width)
  {
    output := [];
    for t := 0 to |weights|
      invariant |output| == t
      invariant forall u | 0 <= u < t :: output[u] == Combine(View(reordered, u, k), weights[u], width)
    {
      output := output + [Combine(View(reordered, t, k), weights[t], width)];
    }
  }

  lemma FlatSize(ids: seq<seq<int>>, k: nat)
    requires forall t | 0 <= t < |ids| :: |ids[t]| == k
    ensures Flat(ids) == [] <==> |ids| == 0 || k == 0
  {
    FlatLength(ids, k);
  }

  /**
   moe_expert_float: count, sort by expert, run each expert on its block, scatter back, weigh and sum. It succeeds
   exactly when every id is an expert, no token repeats an id and there is at least one slot; then it returns what the
   batched forms return, whatever sorting permutation argsort chose.
   */
  method ExpertFloat(net: Net, act: real -> real, input: Matrix, ids: seq<seq<int>>, weights: Matrix, k: nat,
                     idxs: seq<nat>)
    returns (r: Result)
    requires Batch(net, input, ids, weights, k) && (InRange(ids, |net.gate|) ==> SortsBy(Flat(ids), idxs))
    ensures r.Ok? <==> InRange(ids, |net.gate|) && AllDistinct(ids) && |ids| > 0 && k > 0
    ensures r.Ok? ==> r == BatchedEinsum(net, act, input, ids, weights, k)
    ensures r.Ok? ==> r == BatchedBmm(net, act, input, ids, weights, k)
    ensures r == Failed(BadExpertId) <==> !InRange(ids, |net.gate|)
    ensures r == Failed(AmbiguousView) <==> InRange(ids, |net.gate|) && (|ids| == 0 || k == 0)
  {
    var ok, tokens := CountTokens(ids, |net.gate|, k);
    if !ok {
      return Failed(BadExpertId);
    }
    FlatInRange(ids, |net.gate|);
    var sorted := Gather(input, ids, k, idxs);
    var rows := RunExperts(net, act, sorted, tokens, ids, idxs);
    RowsComplete(ids, |net.gate|);
    FlatSize(ids, k);
    var scattered := Unsort(rows, idxs, net.hidden);
    if scattered.Failed? {
      return scattered;
    }
    var reordered := scattered.rows;
    if |ids| == 0 || k == 0 {
      return Failed(AmbiguousView);
    }
    forall t | 0 <= t < |ids|
      ensures |View(reordered, t, k)| == k && Wide(View(reordered, t, k), net.hidden)
      ensures Combine(View(reordered, t, k), weights[t], net.hidden)
              == EinsumToken(net, act, input[t], ids[t], weights[t])
    {
      TokenRows(net, act, input, ids, weights, k, idxs, sorted, rows, reordered, t);
    }
    var output := WeighAndSum(reordered, weights, k, net.hidden);
    BatchedFormsAgree(net, act, input, ids, weights, k);
    r := Ok(output);
  }

  /** The smallest case of a repeated id: one token, expert 0 twice. The grouped form fails, the batched form does
      not. */
  method RepeatedIdFails(net: Net, act: real -> real, x: Vector, weights: Vector) returns (r: Result)
    requires Shaped(net) && |net.gate| == 1 && |x| == net.hidden && |weights| == 2
    ensures r.Failed? && r.error != BadExpertId && r.error != AmbiguousView
    ensures BatchedBmm(net, act, [x], [[0, 0]], [weights], 2).Ok?
  {
    RepeatedIdLosesARow();
    r := ExpertFloat(net, act, [x], [[0, 0]], [weights], 2, [0, 1]);
  }

  /** The empty batch: the grouped form fails at its final view, the batched forms return no rows. */
  method EmptyBatchFails(net: Net, act: real -> real, k: nat) returns (r: Result)
    requires Shaped(net)
    ensures r == Failed(AmbiguousView)
    ensures BatchedBmm(net, act, [], [], [], k) == Ok([]) && BatchedEinsum(net, act, [], [], [], k) == Ok([])
  {
    assert Flat([]) == [];
    r := ExpertFloat(net, act, [], [], [], k, []);
  }
}
