/** The decoder stack of SmolLM3: the residual is deferred, that is carried
    beside the hidden state and added one normalisation later. */
module DecoderStack {
  import opened Wrappers

  datatype Layer<!T> = Layer(inputNorm: T -> T, attention: T -> T, postNorm: T -> T, mlp: T -> T)

  /** Tensor addition need only be commutative; it need not be associative, so
      the equalities below hold of floating-point addition too. */
  ghost predicate Commutative<T(!new)>(add: (T, T) -> T) {
    forall a, b :: add(a, b) == add(b, a)
  }

  /** The textbook pre-norm block. */
  function Block<T>(add: (T, T) -> T, layer: Layer<T>, x: T): T {
    var y := add(x, layer.attention(layer.inputNorm(x)));
    add(y, layer.mlp(layer.postNorm(y)))
  }

  function Textbook<T>(add: (T, T) -> T, layers: seq<Layer<T>>, x: T): T {
    if layers == [] then x else Block(add, layers[|layers|-1], Textbook(add, layers[..|layers|-1], x))
  }

  /** The fused normalisation of vLLM: it adds the residual first, and returns the
      sum as the new residual. */
  function Fused<T>(add: (T, T) -> T, norm: T -> T, x: T, residual: T): (T, T) {
    (norm(add(x, residual)), add(x, residual))
  }

  /** The value a pair of hidden state and deferred residual stands for. */
  function Value<T>(add: (T, T) -> T, hidden: T, residual: Option<T>): T {
    if residual.Some? then add(hidden, residual.value) else hidden
  }

  /** One layer, in the fused form of vLLM or in the standalone form.  From the value
      `x` of its input it returns the output of its MLP and, as the residual to be
      added later, what its attention has added to. */
  method LayerForward<T(!new)>(add: (T, T) -> T, fused: bool, layer: Layer<T>, hiddenIn: T, residualIn: Option<T>)
    returns (hidden: T, residual: T)
    requires Commutative(add)
    ensures Value(add, hidden, Some(residual)) == Block(add, layer, Value(add, hiddenIn, residualIn))
    ensures var x := if residualIn.Some? then add(hiddenIn, residualIn.value) else hiddenIn;
            && residual == add(layer.attention(layer.inputNorm(x)), x)
            && hidden == layer.mlp(layer.postNorm(residual))
  {
    hidden := hiddenIn;
    if fused {
      if residualIn.None? {
        residual := hidden;
        hidden := layer.inputNorm(hidden);
      } else {
        var pair := Fused(add, layer.inputNorm, hidden, residualIn.value);
        hidden, residual := pair.0, pair.1;
      }
    } else {
      if residualIn.None? {
        residual := hidden;
      } else {
        hidden := add(hidden, residualIn.value);
        residual := hidden;
      }
      hidden := layer.inputNorm(hidden);
    }
    hidden := layer.attention(hidden);
    if fused {
      var pair := Fused(add, layer.postNorm, hidden, residual);
      hidden, residual := pair.0, pair.1;
    } else {
      hidden := add(hidden, residual);
      residual := hidden;
      hidden := layer.postNorm(hidden);
    }
    hidden := layer.mlp(hidden);
  }

  /** The whole stack computes the final norm of the textbook fold, in both forms,
      which therefore agree on every stack with at least one layer.
      Only the fused form without any layer has no meaningful result, here `None`: its
      final norm is given no residual and returns one tensor where a pair is unpacked,
      which raises unless the leading dimension happens to be 2. */
  method ModelForward<T(!new)>(add: (T, T) -> T, fused: bool, layers: seq<Layer<T>>, norm: T -> T, embedded: T)
    returns (out: Option<T>)
    requires Commutative(add)
    ensures out == if fused && layers == [] then None else Some(norm(Textbook(add, layers, embedded)))
  {
    var hidden, residual: Option<T> := embedded, None;
    for i := 0 to |layers|
      invariant Value(add, hidden, residual) == Textbook(add, layers[..i], embedded)
      invariant residual.None? <==> i == 0
    {
      assert layers[..i + 1][..i] == layers[..i];
      var h, r := LayerForward(add, fused, layers[i], hidden, residual);
      hidden, residual := h, Some(r);
    }
    assert layers[..|layers|] == layers;
    if fused {
      if residual.None? {
        out := None;
      } else {
        out := Some(Fused(add, norm, hidden, residual.value).0);
      }
    } else {
      out := Some(norm(if residual.Some? then add(hidden, residual.value) else hidden));
    }
  }
}
