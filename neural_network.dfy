/** A dense feed-forward network: a stack of layers, each a weight matrix plus a
    bias vector, evaluated over real numbers. The activation (the logistic
    sigmoid in the program) is an injected function `act`. */
module NeuralNetwork {

  /** One dense layer: `weights[r]` holds the input weights of output neuron r,
      `biases[r]` its bias. */
  datatype Layer = Layer(weights: seq<seq<real>>, biases: seq<real>)

  datatype Network = Network(layers: seq<Layer>)

  function Min(a: nat, b: nat): nat { if a <= b then a else b }

  /** The layer maps `inSize` inputs to `outSize` outputs. */
  predicate LayerShaped(l: Layer, inSize: nat, outSize: nat) {
    && |l.weights| == outSize
    && |l.biases| == outSize
    && forall r :: 0 <= r < outSize ==> |l.weights[r]| == inSize
  }

  /** The network has one layer per adjacent pair of `sizes`, layer i mapping
      `sizes[i]` inputs to `sizes[i+1]` outputs. */
  predicate Shaped(net: Network, sizes: seq<nat>) {
    && |net.layers| == (if |sizes| < 2 then 0 else |sizes| - 1)
    && forall i :: 0 <= i < |net.layers| ==> LayerShaped(net.layers[i], sizes[i], sizes[i + 1])
  }

  /** Every weight and bias lies in [lo, hi). */
  predicate ParamsIn(net: Network, lo: real, hi: real) {
    forall i :: 0 <= i < |net.layers| ==>
      && (forall r, k :: 0 <= r < |net.layers[i].weights| && 0 <= k < |net.layers[i].weights[r]| ==>
            lo <= net.layers[i].weights[r][k] < hi)
      && (forall r :: 0 <= r < |net.layers[i].biases| ==> lo <= net.layers[i].biases[r] < hi)
  }

  // ---------------------------------------------------------------------------
  // Initialisation

  /** `rng.gen::<f32>() * 2.0 - 1.0` made from draw number `i` of the generator. */
  function Scaled(draw: nat -> real, i: nat): (v: real)
    ensures 0.0 <= draw(i) < 1.0 ==> -1.0 <= v < 1.0
  {
    draw(i) * 2.0 - 1.0
  }

  /** `n` consecutive scaled draws starting at draw number `start`. */
  function Draws(draw: nat -> real, start: nat, n: nat): (d: seq<real>)
    ensures |d| == n && forall k :: 0 <= k < n ==> d[k] == Scaled(draw, start + k)
  {
    seq(n, k requires 0 <= k < n => Scaled(draw, start + k))
  }

  /** How many draws building one layer consumes: all weights, then all biases. */
  function LayerDraws(inSize: nat, outSize: nat): nat {
    outSize * inSize + outSize
  }

  /** One layer of `NeuralNetwork::new`: the weights row by row, then the biases,
      drawn from the generator starting at draw number `start`. */
  function NewLayer(inSize: nat, outSize: nat, draw: nat -> real, start: nat): (l: Layer)
    ensures LayerShaped(l, inSize, outSize)
  {
    Layer(seq(outSize, r requires 0 <= r < outSize => Draws(draw, start + r * inSize, inSize)),
          Draws(draw, start + outSize * inSize, outSize))
  }

  /** `NeuralNetwork::new(sizes)`: one layer per window of two adjacent sizes.
      Fewer than two sizes give zero windows, hence a network without layers;
      zero sizes are accepted. */
  function New(sizes: seq<nat>, draw: nat -> real, start: nat): (net: Network)
    ensures Shaped(net, sizes)
    decreases |sizes|
  {
    if |sizes| < 2 then Network([])
    else
      var rest := New(sizes[1..], draw, start + LayerDraws(sizes[0], sizes[1]));
      Network([NewLayer(sizes[0], sizes[1], draw, start)] + rest.layers)
  }

  /** With every draw in [0, 1), every initial weight and bias lies in [-1, 1). */
  lemma {:induction false} NewInRange(sizes: seq<nat>, draw: nat -> real, start: nat)
    requires forall i: nat :: 0.0 <= draw(i) < 1.0
    ensures ParamsIn(New(sizes, draw, start), -1.0, 1.0)
    decreases |sizes|
  {
    if |sizes| >= 2 {
      NewInRange(sizes[1..], draw, start + LayerDraws(sizes[0], sizes[1]));
      var net := New(sizes, draw, start);
      var rest := New(sizes[1..], draw, start + LayerDraws(sizes[0], sizes[1]));
      assert net.layers == [NewLayer(sizes[0], sizes[1], draw, start)] + rest.layers;
      forall i | 0 <= i < |net.layers|
        ensures (forall r, k :: 0 <= r < |net.layers[i].weights| && 0 <= k < |net.layers[i].weights[r]| ==>
                   -1.0 <= net.layers[i].weights[r][k] < 1.0)
        ensures (forall r :: 0 <= r < |net.layers[i].biases| ==> -1.0 <= net.layers[i].biases[r] < 1.0)
      {
        if i > 0 {
          assert net.layers[i] == rest.layers[i - 1];
        } else {
          var l := net.layers[0];
          assert l == NewLayer(sizes[0], sizes[1], draw, start);
          forall r | 0 <= r < |l.biases|
            ensures -1.0 <= l.biases[r] < 1.0
          {
            assert l.biases[r] == Scaled(draw, start + sizes[1] * sizes[0] + r);
          }
          forall r, k | 0 <= r < |l.weights| && 0 <= k < |l.weights[r]|
            ensures -1.0 <= l.weights[r][k] < 1.0
          {
            assert l.weights[r][k] == Scaled(draw, start + r * sizes[0] + k);
          }
        }
      }
    }
  }

  // ---------------------------------------------------------------------------
  // Evaluation

  /** `weights.iter().zip(input).map(|(w, i)| w * i).sum()`: `zip` stops at the
      shorter of the two sequences. */
  function Dot(w: seq<real>, x: seq<real>): real {
    if |w| == 0 || |x| == 0 then 0.0 else w[0] * x[0] + Dot(w[1..], x[1..])
  }

  /** Reference sum: w[0]*x[0] + ... + w[n-1]*x[n-1], added left to right. */
  function SumProducts(w: seq<real>, x: seq<real>, n: nat): real
    requires n <= |w| && n <= |x|
  {
    if n == 0 then 0.0 else SumProducts(w, x, n - 1) + w[n - 1] * x[n - 1]
  }

  lemma {:induction false} SumProductsCons(w: seq<real>, x: seq<real>, n: nat)
    requires 0 < n <= |w| && n <= |x|
    ensures SumProducts(w, x, n) == w[0] * x[0] + SumProducts(w[1..], x[1..], n - 1)
  {
    if n > 1 {
      SumProductsCons(w, x, n - 1);
    }
  }

  /** The zipped dot product is the sum over the first min(|w|, |x|) positions:
      surplus weights or surplus inputs are ignored, not rejected. */
  lemma {:induction false} DotIsSum(w: seq<real>, x: seq<real>)
    ensures Dot(w, x) == SumProducts(w, x, Min(|w|, |x|))
  {
    if |w| > 0 && |x| > 0 {
      DotIsSum(w[1..], x[1..]);
      SumProductsCons(w, x, Min(|w|, |x|));
    }
  }

  /** Truncating both operands to the shorter length does not change the dot product. */
  lemma {:induction false} DotIgnoresSurplus(w: seq<real>, x: seq<real>)
    ensures Dot(w, x) == Dot(w[..Min(|w|, |x|)], x[..Min(|w|, |x|)])
  {
    var m := Min(|w|, |x|);
    if m > 0 {
      DotIgnoresSurplus(w[1..], x[1..]);
      assert w[..m][1..] == w[1..][..m - 1];
      assert x[..m][1..] == x[1..][..m - 1];
    }
  }

  /** `Layer::forward`: rows and biases are zipped, so the output has
      min(#rows, #biases) entries; entry r is the activation of row r's dot
      product with the input plus bias r. */
  function LayerForward(l: Layer, input: seq<real>, act: real -> real): (out: seq<real>)
    ensures |out| == Min(|l.weights|, |l.biases|)
    ensures forall r :: 0 <= r < |out| ==> out[r] == act(Dot(l.weights[r], input) + l.biases[r])
    decreases |l.weights|
  {
    if |l.weights| == 0 || |l.biases| == 0 then []
    else
      [act(Dot(l.weights[0], input) + l.biases[0])]
        + LayerForward(Layer(l.weights[1..], l.biases[1..]), input, act)
  }

  /** `NeuralNetwork::forward`: each layer's output is the next layer's input.
      Without layers the input comes back unchanged; otherwise the output length
      is fixed by the last layer alone. */
  function Forward(layers: seq<Layer>, input: seq<real>, act: real -> real): (out: seq<real>)
    ensures layers == [] ==> out == input
    ensures layers != [] ==>
      |out| == Min(|layers[|layers| - 1].weights|, |layers[|layers| - 1].biases|)
    decreases |layers|
  {
    if layers == [] then input
    else Forward(layers[1..], LayerForward(layers[0], input, act), act)
  }

  /** `forward` as the program writes it: a loop reassigning `input` layer by layer. */
  method ForwardPass(net: Network, input: seq<real>, act: real -> real) returns (out: seq<real>)
    ensures out == Forward(net.layers, input, act)
  {
    out := input;
    for i := 0 to |net.layers|
      invariant Forward(net.layers[i..], out, act) == Forward(net.layers, input, act)
    {
      assert net.layers[i..][1..] == net.layers[i + 1..];
      out := LayerForward(net.layers[i], out, act);
    }
    assert net.layers[|net.layers|..] == [];
  }

  /** Running a stack of layers is running its first part, then its second part on
      that output: layer i's output feeds layer i+1, in order. */
  lemma {:induction false} ForwardAppend(a: seq<Layer>, b: seq<Layer>, input: seq<real>, act: real -> real)
    ensures Forward(a + b, input, act) == Forward(b, Forward(a, input, act), act)
    decreases |a|
  {
    if a != [] {
      var x := LayerForward(a[0], input, act);
      assert (a + b)[0] == a[0] && (a + b)[1..] == a[1..] + b;
      assert Forward(a + b, input, act) == Forward(a[1..] + b, x, act);
      ForwardAppend(a[1..], b, x, act);
    } else {
      assert a + b == b;
    }
  }

  /** A network built from `sizes` (at least two of them) outputs `sizes[|sizes|-1]`
      values; because of `zip`, this holds whatever the input length. */
  lemma ForwardLength(net: Network, sizes: seq<nat>, input: seq<real>, act: real -> real)
    requires Shaped(net, sizes) && |sizes| >= 2
    ensures |Forward(net.layers, input, act)| == sizes[|sizes| - 1]
  {
    var last := net.layers[|net.layers| - 1];
    assert LayerShaped(last, sizes[|sizes| - 2], sizes[|sizes| - 1]);
  }

  /** If the activation maps into (0, 1), so does every output of a network with
      at least one layer. */
  lemma {:induction false} ForwardRange(layers: seq<Layer>, input: seq<real>, act: real -> real)
    requires forall x :: 0.0 < act(x) < 1.0
    requires layers != []
    ensures forall r :: 0 <= r < |Forward(layers, input, act)| ==> 0.0 < Forward(layers, input, act)[r] < 1.0
    decreases |layers|
  {
    var next := LayerForward(layers[0], input, act);
    if |layers| > 1 {
      ForwardRange(layers[1..], next, act);
    } else {
      assert Forward(layers, input, act) == Forward(layers[1..], next, act) == next;
    }
  }
}
