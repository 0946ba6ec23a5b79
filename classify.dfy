/** The safetensors tensor-name classifier of the Rust sharder: a name is a
    layer tensor when it matches `^model\.layers\.(\d+)\.`, and a base tensor
    (embedding, final norm, output head, or anything unrecognised) otherwise. */
module Classify {
  import opened Wrappers
  import opened Text

  /** The pattern the classifier implements; `LayerCapture` is its matcher. */
  const LayerPattern: string := "^model\\.layers\\.(\\d+)\\."
  const LayerPrefix: string := "model.layers."

  /** Where a tensor lives: an index into the sorted list of source files,
      and the tensor's full name. */
  datatype TensorLocation = TensorLocation(fileIdx: nat, name: string)

  datatype TensorClass = Base | Layer(index: nat)

  /** The captured digits do not fit a `u32`: `parse().expect(..)` panics. */
  datatype ClassifyError = LayerIndexOutOfRange(digits: string)

  /** Length of the run of ASCII digits that starts `s`. */
  function DigitRun(s: string): (n: nat)
    ensures n <= |s| && AllDigits(s[..n])
    ensures n < |s| ==> !IsDigit(s[n])
  {
    if s == [] || !IsDigit(s[0]) then 0
    else
      var n := 1 + DigitRun(s[1..]);
      assert s[..n] == [s[0]] + s[1..][..n - 1];
      n
  }

  lemma DigitRunIs(s: string, k: nat)
    requires k < |s| && AllDigits(s[..k]) && !IsDigit(s[k])
    ensures DigitRun(s) == k
  {
  }

  /** The capture group of `^model\.layers\.(\d+)\.` in `name`, when the
      pattern matches. `\d+` is greedy, and no shorter digit run can be
      followed by the `.`, so the capture is the whole run of digits. */
  function LayerCapture(name: string): (r: Option<string>)
    ensures r.Some? ==> |r.value| >= 1 && AllDigits(r.value)
  {
    if !StartsWith(name, LayerPrefix) then None
    else
      var rest := name[|LayerPrefix|..];
      var n := DigitRun(rest);
      if 0 < n < |rest| && rest[n] == '.' then Some(rest[..n]) else None
  }

  /** The language of the pattern, stated independently of the matcher:
      the prefix, at least one digit, and a dot right after the digits. */
  ghost predicate MatchesLayerPattern(name: string) {
    StartsWith(name, LayerPrefix) &&
    exists i :: |LayerPrefix| < i < |name| && name[i] == '.' && AllDigits(name[|LayerPrefix|..i])
  }

  /** `classify_tensor`: pure, no state; a layer index outside `u32` aborts. */
  function ClassifyTensor(name: string): Result<TensorClass, ClassifyError> {
    match LayerCapture(name)
    case None => Ok(Base)
    case Some(digits) =>
      var n := DecimalValue(digits);
      if n <= U32Max then Ok(Layer(n)) else Err(LayerIndexOutOfRange(digits))
  }

  /** A name is classified `Base` exactly when it does not match the pattern:
      unknown names fall back to `Base` instead of failing. */
  lemma ClassifyBaseIff(name: string)
    ensures ClassifyTensor(name) == Ok(Base) <==> !MatchesLayerPattern(name)
  {
    if MatchesLayerPattern(name) {
      var i :| |LayerPrefix| < i < |name| && name[i] == '.' && AllDigits(name[|LayerPrefix|..i]);
      var rest := name[|LayerPrefix|..];
      var k := i - |LayerPrefix|;
      assert rest[..k] == name[|LayerPrefix|..i];
      DigitRunIs(rest, k);
      assert LayerCapture(name).Some?;
    }
    if LayerCapture(name).Some? {
      CaptureMatches(name);
    }
  }

  lemma CaptureMatches(name: string)
    requires LayerCapture(name).Some?
    ensures MatchesLayerPattern(name)
  {
    var rest := name[|LayerPrefix|..];
    var n := DigitRun(rest);
    var i := |LayerPrefix| + n;
    assert name[|LayerPrefix|..i] == rest[..n];
    assert name[i] == '.';
  }

  /** `model.layers.<digits>.<anything>` classifies by the value of the digits,
      and aborts when that value does not fit a `u32`. */
  lemma ClassifyLayerName(digits: string, suffix: string)
    requires |digits| >= 1 && AllDigits(digits)
    ensures ClassifyTensor(LayerPrefix + digits + "." + suffix) ==
      if DecimalValue(digits) <= U32Max then Ok(Layer(DecimalValue(digits)))
      else Err(LayerIndexOutOfRange(digits))
  {
    CaptureOf(digits, suffix);
  }

  lemma CaptureOf(digits: string, suffix: string)
    requires |digits| >= 1 && AllDigits(digits)
    ensures LayerCapture(LayerPrefix + digits + "." + suffix) == Some(digits)
  {
    var name := LayerPrefix + digits + "." + suffix;
    assert name[..|LayerPrefix|] == LayerPrefix;
    var rest := name[|LayerPrefix|..];
    assert rest == digits + "." + suffix;
    assert rest[..|digits|] == digits;
    assert rest[|digits|] == '.';
    DigitRunIs(rest, |digits|);
  }

  /** Every `u32` layer index written in decimal is recovered exactly. */
  lemma ClassifyLayerIndex(n: nat, suffix: string)
    requires n <= U32Max
    ensures ClassifyTensor(LayerPrefix + NatToDecimal(n) + "." + suffix) == Ok(Layer(n))
  {
    ClassifyLayerName(NatToDecimal(n), suffix);
  }

  /** Conversely, a `Layer(n)` name is the prefix, a digit run of value `n`,
      a dot, and the rest of the name. */
  lemma ClassifyLayerShape(name: string, n: nat)
    requires ClassifyTensor(name) == Ok(Layer(n))
    ensures LayerCapture(name).Some?
    ensures var d := LayerCapture(name).value;
      |LayerPrefix| + |d| < |name| &&
      name == LayerPrefix + d + "." + name[|LayerPrefix| + |d| + 1..] &&
      DecimalValue(d) == n && n <= U32Max
  {
    var d := LayerCapture(name).value;
    var rest := name[|LayerPrefix|..];
    assert name == name[..|LayerPrefix|] + rest;
    assert rest == rest[..|d|] + [rest[|d|]] + rest[|d| + 1..];
    assert rest[|d| + 1..] == name[|LayerPrefix| + |d| + 1..];
  }

  /** The base-tensor cases pinned by the unit tests of classify.rs. */
  lemma ClassifyBaseExamples()
    ensures ClassifyTensor("model.embed_tokens.weight") == Ok(Base)
    ensures ClassifyTensor("model.norm.weight") == Ok(Base)
    ensures ClassifyTensor("lm_head.weight") == Ok(Base)
    ensures ClassifyTensor("some.random.tensor.name") == Ok(Base)
  {
    assert "model.embed_tokens.weight"[6] != LayerPrefix[6];
    assert "model.norm.weight"[6] != LayerPrefix[6];
    assert "lm_head.weight"[0] != LayerPrefix[0];
    assert "some.random.tensor.name"[0] != LayerPrefix[0];
  }

  /** The layer-tensor cases pinned by the unit tests of classify.rs, one
      lemma per test. */
  lemma ClassifyLayerSelfAttn()
    ensures ClassifyTensor(LayerPrefix + "5" + "." + "self_attn.q_proj.weight") == Ok(Layer(5))
  {
    ClassifyLayerName("5", "self_attn.q_proj.weight");
  }

  lemma ClassifyLayerMlp()
    ensures ClassifyTensor(LayerPrefix + "12" + "." + "mlp.gate_proj.weight") == Ok(Layer(12))
  {
    ClassifyLayerName("12", "mlp.gate_proj.weight");
  }

  lemma ClassifyLayerLayernorm()
    ensures ClassifyTensor(LayerPrefix + "0" + "." + "input_layernorm.weight") == Ok(Layer(0))
  {
    ClassifyLayerName("0", "input_layernorm.weight");
  }

  /** The pattern is anchored: text before `model` makes the name `Base`. */
  lemma ClassifyAnchored()
    ensures ClassifyTensor("x.model.layers.3.w") == Ok(Base)
  {
    assert "x.model.layers.3.w"[0] != LayerPrefix[0];
  }

  /** The pattern needs a dot after the digits. */
  lemma ClassifyMissingDot()
    ensures ClassifyTensor("model.layers.3") == Ok(Base)
  {
    assert "model.layers.3"[|LayerPrefix|..] == "3";
  }

  /** A digit run whose value is past `u32::MAX` aborts instead of
      producing a class; the smallest such run is "4294967296". */
  lemma ClassifyIndexOverflow(n: nat, suffix: string)
    requires n > U32Max
    ensures ClassifyTensor(LayerPrefix + NatToDecimal(n) + "." + suffix) == Err(LayerIndexOutOfRange(NatToDecimal(n)))
  {
    ClassifyLayerName(NatToDecimal(n), suffix);
  }
}
