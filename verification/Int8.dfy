/** Block-wise int8 quantisation, in exact arithmetic. */
module Int8 {
  import opened Common

  const BLOCK_SIZE := 64

  function Abs(x: real): real { if x < 0.0 then -x else x }

  /** The largest magnitude in a block. */
  function AbsMax(block: seq<real>): (m: real)
    ensures m >= 0.0
  {
    if block == [] then 0.0
    else
      var rest, last := AbsMax(block[..|block| - 1]), Abs(block[|block| - 1]);
      if rest < last then last else rest
  }

  lemma {:induction false} AbsMaxIs(block: seq<real>, m: real)
    requires forall i :: 0 <= i < |block| ==> Abs(block[i]) <= m
    requires m == 0.0 || exists i :: 0 <= i < |block| && Abs(block[i]) == m
    requires m >= 0.0
    ensures AbsMax(block) == m
  {
    AbsMaxBounds(block);
  }

  lemma {:induction false} AbsMaxBounds(block: seq<real>)
    ensures forall i :: 0 <= i < |block| ==> Abs(block[i]) <= AbsMax(block)
    ensures AbsMax(block) == 0.0 || exists i :: 0 <= i < |block| && Abs(block[i]) == AbsMax(block)
  {
    if block == [] {
    } else {
      var rest := block[..|block| - 1];
      AbsMaxBounds(rest);
      if i :| 0 <= i < |rest| && Abs(rest[i]) == AbsMax(rest) {
        assert block[i] == rest[i];
      }
    }
  }

  function Scale(block: seq<real>): (s: real)
    ensures s > 0.0
  {
    var scale := AbsMax(block) / 127.0;
    if scale > 0.0 then scale else 1.0
  }

  /** To the nearest whole number, halves to even. */
  function Round(x: real): int {
    var down := x.Floor;
    var rest := x - down as real;
    if rest < 0.5 || (rest == 0.5 && down % 2 == 0) then down else down + 1
  }

  function Clamp(x: int, low: int, high: int): int {
    if x < low then low else if x > high then high else x
  }

  function Code(x: real, scale: real): int
    requires scale > 0.0
  {
    Clamp(Round(x / scale), -127, 127)
  }

  function Padding(n: nat): (padding: nat)
    ensures padding < BLOCK_SIZE && (n + padding) % BLOCK_SIZE == 0
  {
    (0 - n) % BLOCK_SIZE
  }

  function Blocks(n: nat): (b: nat)
    ensures b * BLOCK_SIZE == n + Padding(n) && b == CeilDiv(n, BLOCK_SIZE)
    ensures forall k :: 0 <= k < n ==> k / BLOCK_SIZE < b
  {
    (n + Padding(n)) / BLOCK_SIZE
  }

  function Padded(x: seq<real>): (p: seq<real>)
    ensures |p| == Blocks(|x|) * BLOCK_SIZE && p[..|x|] == x
  {
    x + seq(Padding(|x|), _ => 0.0)
  }

  function Group(x: seq<real>, j: nat): (block: seq<real>)
    requires j < Blocks(|x|)
    ensures |block| == BLOCK_SIZE
  {
    Padded(x)[j * BLOCK_SIZE..(j + 1) * BLOCK_SIZE]
  }

  datatype Quantised = Quantised(codes: seq<int>, scales: seq<real>)

  function Quantize(x: seq<real>): (q: Quantised)
    ensures |q.codes| == |x| && |q.scales| == Blocks(|x|) == CeilDiv(|x|, BLOCK_SIZE)
    ensures forall j :: 0 <= j < |q.scales| ==> q.scales[j] == Scale(Group(x, j))
    ensures forall k :: 0 <= k < |x| ==>
      q.scales[k / BLOCK_SIZE] > 0.0 && q.codes[k] == Code(x[k], q.scales[k / BLOCK_SIZE])
  {
    var scales := seq(Blocks(|x|), j requires 0 <= j < Blocks(|x|) => Scale(Group(x, j)));
    var quantised := seq(|Padded(x)|, k requires 0 <= k < |Padded(x)| => Code(Padded(x)[k], scales[k / BLOCK_SIZE]));
    assert forall k :: 0 <= k < |x| ==> Padded(x)[..|x|][k] == x[k];
    Quantised(quantised[..|x|], scales)
  }

  function Dequantize(q: Quantised): (x: seq<real>)
    requires |q.scales| == Blocks(|q.codes|)
    ensures |x| == |q.codes|
    ensures forall k :: 0 <= k < |x| ==> x[k] == q.codes[k] as real * q.scales[k / BLOCK_SIZE]
  {
    seq(|q.codes|, k requires 0 <= k < |q.codes| => q.codes[k] as real * q.scales[k / BLOCK_SIZE])
  }

  /** The public form refuses scales that do not match the codes. */
  function DequantizeInt8(q: Quantised): (restored: Option<seq<real>>)
    ensures restored.Some? <==> |q.scales| == Blocks(|q.codes|)
    ensures restored.Some? ==>
      && |restored.value| == |q.codes|
      && forall k :: 0 <= k < |q.codes| ==> restored.value[k] == q.codes[k] as real * q.scales[k / BLOCK_SIZE]
  {
    if |q.scales| != (|q.codes| + BLOCK_SIZE - 1) / BLOCK_SIZE then None else Some(Dequantize(q))
  }

  /** Every element is in the group its position says. */
  lemma InGroup(x: seq<real>, k: nat)
    requires k < |x|
    ensures k / BLOCK_SIZE < Blocks(|x|) && Group(x, k / BLOCK_SIZE)[k % BLOCK_SIZE] == x[k]
  {
    assert Padded(x)[..|x|][k] == x[k];
  }

  // One element.

  lemma RoundNear(x: real)
    ensures Abs(x - Round(x) as real) <= 0.5
  {
  }

  /** No whole number is nearer, and of two that are as near it is the even one. */
  lemma NearestEven(x: real, n: int)
    ensures Abs(x - Round(x) as real) <= Abs(x - n as real)
    ensures Abs(x - Round(x) as real) == Abs(x - n as real) && n != Round(x) ==> Round(x) % 2 == 0 && n % 2 == 1
  {
    RoundNear(x);
    var down := x.Floor;
    assert n <= down || n >= down + 1;
  }

  lemma RoundWithin(x: real, n: nat)
    requires Abs(x) <= n as real
    ensures 0 - n <= Round(x) <= n
  {
  }

  lemma RoundWhole(n: int)
    ensures Round(n as real) == n
  {
  }

  lemma Ratio(x: real, scale: real)
    requires scale > 0.0
    ensures x / scale * scale == x
  {
  }

  lemma RatioBound(x: real, scale: real, n: real)
    requires scale > 0.0 && Abs(x) <= n * scale
    ensures Abs(x / scale) <= n
  {
    var r := x / scale;
    assert r * scale == x;
    if r > n {
      assert (r - n) * scale > 0.0;
    } else if -r > n {
      assert (-r - n) * scale > 0.0;
    }
  }

  lemma ScaleCovers(block: seq<real>, i: nat)
    requires i < |block|
    ensures Abs(block[i]) <= 127.0 * Scale(block)
  {
    AbsMaxBounds(block);
  }

  /** The clamp never binds: a block's own scale keeps every ratio within range. */
  lemma ClampNeverBinds(block: seq<real>, i: nat)
    requires i < |block|
    ensures Code(block[i], Scale(block)) == Round(block[i] / Scale(block))
  {
    ScaleCovers(block, i);
    RatioBound(block[i], Scale(block), 127.0);
    RoundWithin(block[i] / Scale(block), 127);
  }

  lemma ScaledError(r: real, c: int, scale: real)
    requires scale > 0.0 && Abs(r - c as real) <= 0.5
    ensures Abs(r * scale - c as real * scale) <= scale / 2.0
  {
    var d := r - c as real;
    assert r * scale - c as real * scale == d * scale;
    NotNegative(0.5 - d, scale);
    NotNegative(0.5 + d, scale);
    assert (0.5 - d) * scale == scale / 2.0 - d * scale && (0.5 + d) * scale == scale / 2.0 + d * scale;
  }

  lemma BlockError(block: seq<real>, i: nat, restored: real)
    requires i < |block| && restored == Code(block[i], Scale(block)) as real * Scale(block)
    ensures Abs(block[i] - restored) <= Scale(block) / 2.0
  {
    hide Round, Scale, Code, AbsMax;
    ClampNeverBinds(block, i);
    RoundNear(block[i] / Scale(block));
    ElementError(block[i], Code(block[i], Scale(block)), Scale(block), restored);
  }

  lemma ElementError(x: real, c: int, scale: real, restored: real)
    requires scale > 0.0 && Abs(x / scale - c as real) <= 0.5 && restored == c as real * scale
    ensures Abs(x - restored) <= scale / 2.0
  {
    Ratio(x, scale);
    ScaledError(x / scale, c, scale);
  }

  /** Restoring an element is off by at most half its own block's scale. */
  lemma RoundTripError(x: seq<real>, k: nat)
    requires k < |x|
    ensures Abs(x[k] - Dequantize(Quantize(x))[k]) <= Quantize(x).scales[k / BLOCK_SIZE] / 2.0
  {
    hide Round, Scale, Code, Group, Padded, Abs, Quantize, Dequantize;
    InGroup(x, k);
    BlockError(Group(x, k / BLOCK_SIZE), k % BLOCK_SIZE, Dequantize(Quantize(x))[k]);
  }

  /** A block's codes and scale depend on that block alone. */
  lemma BlocksIndependent(x: seq<real>, y: seq<real>, j: nat)
    requires |x| == |y| && j < Blocks(|x|)
    requires forall k :: 0 <= k < |x| && k / BLOCK_SIZE == j ==> x[k] == y[k]
    ensures Quantize(x).scales[j] == Quantize(y).scales[j]
    ensures forall k :: 0 <= k < |x| && k / BLOCK_SIZE == j ==> Quantize(x).codes[k] == Quantize(y).codes[k]
  {
    forall i | 0 <= i < BLOCK_SIZE ensures Group(x, j)[i] == Group(y, j)[i] {
      assert (j * BLOCK_SIZE + i) / BLOCK_SIZE == j;
    }
    assert Group(x, j) == Group(y, j);
  }

  // Quantising what was restored.

  lemma WholeRatio(c: int, scale: real)
    requires scale > 0.0
    ensures c as real * scale / scale == c as real
  {
    var r := c as real * scale / scale;
    Ratio(c as real * scale, scale);
    SameProduct(r, c as real, scale);
  }

  /** A restored element has the same code again. */
  lemma SameCode(x: real, scale: real, restored: real)
    requires scale > 0.0 && restored == Code(x, scale) as real * scale
    ensures Code(restored, scale) == Code(x, scale)
  {
    WholeRatio(Code(x, scale), scale);
    RoundWhole(Code(x, scale));
  }

  ghost predicate Restores(block: seq<real>, restored: seq<real>) {
    |restored| == |block| &&
    forall i :: 0 <= i < |block| ==> restored[i] == Code(block[i], Scale(block)) as real * Scale(block)
  }

  lemma CodeSize(code: int, scale: real)
    requires -127 <= code <= 127 && scale > 0.0
    ensures Abs(code as real * scale) <= 127.0 * scale
    ensures code == 127 || code == -127 ==> Abs(code as real * scale) == 127.0 * scale
    ensures code == 0 ==> Abs(code as real * scale) == 0.0
  {
    NotNegative(127.0 - code as real, scale);
    NotNegative(127.0 + code as real, scale);
    assert (127.0 - code as real) * scale == 127.0 * scale - code as real * scale;
    assert (127.0 + code as real) * scale == 127.0 * scale + code as real * scale;
  }

  lemma NotNegative(a: real, b: real)
    requires a >= 0.0 && b >= 0.0
    ensures a * b >= 0.0
  {
  }

  lemma ZeroCode(scale: real)
    requires scale > 0.0
    ensures Code(0.0, scale) == 0
  {
    WholeRatio(0, scale);
    RoundWhole(0);
  }

  /** The largest element of a block has a code of full size. */
  lemma FullCode(x: real, scale: real)
    requires scale > 0.0 && Abs(x) == 127.0 * scale
    ensures Code(x, scale) == if x < 0.0 then -127 else 127
  {
    var c := if x < 0.0 then -127 else 127;
    assert x == c as real * scale;
    WholeRatio(c, scale);
    RoundWhole(c);
  }

  lemma ScaleIs(block: seq<real>)
    ensures if AbsMax(block) == 0.0 then Scale(block) == 1.0 else 127.0 * Scale(block) == AbsMax(block)
  {
  }

  /** A restored block has the scale it was coded with. */
  lemma ScaleKept(block: seq<real>, restored: seq<real>)
    requires Restores(block, restored)
    ensures Scale(restored) == Scale(block)
  {
    AbsMaxKept(block, restored);
    ScaleIs(block);
    ScaleIs(restored);
  }

  lemma AbsMaxKept(block: seq<real>, restored: seq<real>)
    requires Restores(block, restored)
    ensures AbsMax(restored) == AbsMax(block)
  {
    hide Scale, Code, AbsMax, Abs;
    var scale, m := Scale(block), AbsMax(block);
    ScaleIs(block);
    AbsMaxBounds(block);
    forall i | 0 <= i < |restored| ensures Abs(restored[i]) <= m {
      ElementKept(block[i], scale, m, restored[i]);
    }
    if i :| 0 <= i < |block| && Abs(block[i]) == m && m > 0.0 {
      ElementKept(block[i], scale, m, restored[i]);
      assert Abs(restored[i]) == m;
    }
    AbsMaxIs(restored, m);
  }

  /** Restoring keeps an element within the largest, and the largest where it is. */
  lemma ElementKept(x: real, scale: real, m: real, restored: real)
    requires scale > 0.0 && restored == Code(x, scale) as real * scale
    requires Abs(x) <= m && (m == 0.0 || m == 127.0 * scale)
    ensures Abs(restored) <= m
    ensures Abs(x) == m ==> Abs(restored) == m
  {
    CodeRange(x, scale);
    hide Code;
    if m == 0.0 {
      ZeroCode(scale);
    } else if Abs(x) == m {
      FullCode(x, scale);
    }
    CodeSize(Code(x, scale), scale);
  }

  lemma CodeRange(x: real, scale: real)
    requires scale > 0.0
    ensures -127 <= Code(x, scale) <= 127
  {
  }

  lemma GroupRestores(x: seq<real>, j: nat)
    requires j < Blocks(|x|)
    ensures Restores(Group(x, j), Group(Dequantize(Quantize(x)), j))
  {
    hide Code, Scale, Quantize, Dequantize, Group, Padded;
    var block, y := Group(x, j), Dequantize(Quantize(x));
    forall i | 0 <= i < |block| ensures Group(y, j)[i] == Code(block[i], Scale(block)) as real * Scale(block) {
      GroupAt(x, j, i);
      GroupAt(y, j, i);
      if j * BLOCK_SIZE + i >= |x| {
        ZeroCode(Scale(block));
      } else {
        assert Quantize(x).codes[j * BLOCK_SIZE + i] == Code(block[i], Scale(block));
      }
    }
  }

  /** A group is a stretch of the tensor, and zeros past its end. */
  lemma GroupAt(x: seq<real>, j: nat, i: nat)
    requires j < Blocks(|x|) && i < BLOCK_SIZE
    ensures Group(x, j)[i] == if j * BLOCK_SIZE + i < |x| then x[j * BLOCK_SIZE + i] else 0.0
    ensures (j * BLOCK_SIZE + i) / BLOCK_SIZE == j
  {
  }

  /** Quantising the restored tensor gives the same codes and the same scales. */
  lemma Idempotent(x: seq<real>)
    ensures Quantize(Dequantize(Quantize(x))) == Quantize(x)
  {
    hide Code, Scale, Quantize, Dequantize, Group, Restores;
    var q := Quantize(x);
    var y := Dequantize(q);
    var again := Quantize(y);
    forall j | 0 <= j < |q.scales| ensures again.scales[j] == q.scales[j] {
      GroupRestores(x, j);
      ScaleKept(Group(x, j), Group(y, j));
    }
    forall k | 0 <= k < |x| ensures again.codes[k] == q.codes[k] {
      InGroup(x, k);
      var scale := q.scales[k / BLOCK_SIZE];
      assert again.scales[k / BLOCK_SIZE] == scale;
      assert q.codes[k] == Code(x[k], scale) && y[k] == q.codes[k] as real * scale;
      SameCode(x[k], scale, y[k]);
    }
  }
}
