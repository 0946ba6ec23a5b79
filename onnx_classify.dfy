/** The ONNX sharder's initializer classifier: layer tensors by name or by
    tracing graph nodes, the rest split into embed, norm and lm_head. */
module OnnxClassify {
  import opened Wrappers
  import opened Text
  import opened Seqs
  import Classify
  import opened LayerWindows
  import opened OnnxProto

  /** A graph node: its name and the names of its inputs. */
  datatype Node = Node(name: string, inputs: seq<string>)

  datatype TensorKind = Layer(index: nat) | Embed | Norm | LmHead

  /** `NODE_LAYER_RE = /model/layers\.(\d+)/` without its digits. */
  const NodeLayerPrefix: string := "/model/layers."
  /** `EMBED_RE = ^model\.embed_tokens\.` */
  const EmbedPrefix: string := "model.embed_tokens."
  /** `NORM_RE = ^model\.norm\.` */
  const NormPrefix: string := "model.norm."
  const LmHeadMarker: string := "/lm_head/"

  // -----------------------------------------------------------------------
  // The patterns
  // -----------------------------------------------------------------------

  /** `LAYER_RE.match(name)` with `int(m.group(1))`: the same anchored
      pattern as the safetensors sharder, but Python integers never
      overflow. */
  function LayerMatch(name: string): Option<nat> {
    match Classify.LayerCapture(name)
    case None => None
    case Some(digits) => Some(DecimalValue(digits))
  }

  /** Both sharders read the same index off a name; only the safetensors one
      rejects an index beyond `u32`. */
  lemma LayerMatchAgrees(name: string)
    ensures LayerMatch(name).None? <==> Classify.ClassifyTensor(name) == Ok(Classify.Base)
    ensures forall n: nat :: LayerMatch(name) == Some(n) && n <= U32Max <==>
      Classify.ClassifyTensor(name) == Ok(Classify.Layer(n))
  {
  }

  /** `NODE_LAYER_RE` matched at position `i`: the prefix, a non-empty digit
      run (all of it, since a digit is never `/`) and a `/`. */
  function NodeLayerAt(s: string, i: nat): (r: Option<nat>)
    ensures r.Some? ==> OccursAt(s, NodeLayerPrefix, i)
  {
    if !OccursAt(s, NodeLayerPrefix, i) then None
    else
      var rest := s[i + |NodeLayerPrefix|..];
      var n := Classify.DigitRun(rest);
      if 0 < n < |rest| && rest[n] == '/' then Some(DecimalValue(rest[..n])) else None
  }

  function SearchFrom(s: string, i: nat): Option<nat>
    decreases |s| - i
  {
    if i > |s| then None
    else if NodeLayerAt(s, i).Some? then NodeLayerAt(s, i)
    else SearchFrom(s, i + 1)
  }

  /** `NODE_LAYER_RE.search(name)`: the leftmost match anywhere in the name. */
  function NodeLayer(name: string): Option<nat> {
    SearchFrom(name, 0)
  }

  lemma {:induction false} SearchFromMeaning(s: string, i: nat)
    ensures SearchFrom(s, i).Some? ==>
      exists p :: i <= p <= |s| && NodeLayerAt(s, p) == SearchFrom(s, i) &&
        forall q :: i <= q < p ==> NodeLayerAt(s, q).None?
    ensures SearchFrom(s, i).None? ==> forall p :: i <= p <= |s| ==> NodeLayerAt(s, p).None?
    decreases |s| - i
  {
    if i <= |s| && NodeLayerAt(s, i).None? {
      SearchFromMeaning(s, i + 1);
      if SearchFrom(s, i).Some? {
        var p :| i + 1 <= p <= |s| && NodeLayerAt(s, p) == SearchFrom(s, i + 1) &&
          forall q :: i + 1 <= q < p ==> NodeLayerAt(s, q).None?;
        assert forall q :: i <= q < p ==> NodeLayerAt(s, q).None?;
      }
    }
  }

  /** The search reports the layer of the leftmost position where the node
      pattern matches, and nothing when it matches nowhere. */
  lemma NodeLayerLeftmost(name: string)
    ensures NodeLayer(name).Some? ==>
      exists p :: 0 <= p <= |name| && NodeLayerAt(name, p) == NodeLayer(name) &&
        forall q :: 0 <= q < p ==> NodeLayerAt(name, q).None?
    ensures NodeLayer(name).None? ==> forall p :: 0 <= p <= |name| ==> NodeLayerAt(name, p).None?
  {
    SearchFromMeaning(name, 0);
  }

  // -----------------------------------------------------------------------
  // Tracing initializers through graph nodes
  // -----------------------------------------------------------------------

  /** The layer the first node in graph order that names a layer and takes
      `x` as input assigns to `x`. */
  function FirstLayer(nodes: seq<Node>, x: string): Option<nat> {
    if nodes == [] then None
    else if NodeLayer(nodes[0].name).Some? && x in nodes[0].inputs then NodeLayer(nodes[0].name)
    else FirstLayer(nodes[1..], x)
  }

  /** `FirstLayer` picks the earliest such node, and finds none only when
      there is none. */
  lemma {:induction false} FirstLayerIsFirst(nodes: seq<Node>, x: string)
    ensures FirstLayer(nodes, x).Some? ==>
      exists i :: 0 <= i < |nodes| && x in nodes[i].inputs && NodeLayer(nodes[i].name) == FirstLayer(nodes, x) &&
        forall j :: 0 <= j < i ==> !(NodeLayer(nodes[j].name).Some? && x in nodes[j].inputs)
    ensures FirstLayer(nodes, x).None? ==>
      forall i :: 0 <= i < |nodes| ==> !(NodeLayer(nodes[i].name).Some? && x in nodes[i].inputs)
  {
    if nodes != [] {
      FirstLayerIsFirst(nodes[1..], x);
      if !(NodeLayer(nodes[0].name).Some? && x in nodes[0].inputs) {
        if FirstLayer(nodes, x).Some? {
          var i :| 0 <= i < |nodes[1..]| && x in nodes[1..][i].inputs && NodeLayer(nodes[1..][i].name) == FirstLayer(nodes, x) &&
            forall j :: 0 <= j < i ==> !(NodeLayer(nodes[1..][j].name).Some? && x in nodes[1..][j].inputs);
          assert forall j :: 1 <= j < i + 1 ==> nodes[j] == nodes[1..][j - 1];
        } else {
          assert forall i :: 1 <= i < |nodes| ==> nodes[i] == nodes[1..][i - 1];
        }
      }
    }
  }

  lemma {:induction false} FirstLayerAppend(nodes: seq<Node>, node: Node, x: string)
    ensures FirstLayer(nodes + [node], x) ==
      if FirstLayer(nodes, x).Some? then FirstLayer(nodes, x)
      else if NodeLayer(node.name).Some? && x in node.inputs then NodeLayer(node.name)
      else None
    decreases |nodes|
  {
    if nodes == [] {
      assert ([] + [node])[1..] == [];
    } else {
      assert (nodes + [node])[1..] == nodes[1..] + [node];
      FirstLayerAppend(nodes[1..], node, x);
    }
  }

  /** Inputs not yet in `m` are assigned layer `n`; earlier ones keep theirs. */
  function AddAbsent(m: map<string, nat>, inputs: seq<string>, n: nat): map<string, nat> {
    if inputs == [] then m
    else
      var r := AddAbsent(m, inputs[..|inputs| - 1], n);
      var x := inputs[|inputs| - 1];
      if x in r then r else r[x := n]
  }

  lemma {:induction false} AddAbsentMeaning(m: map<string, nat>, inputs: seq<string>, n: nat)
    ensures forall x :: x in AddAbsent(m, inputs, n) <==> x in m || x in inputs
    ensures forall x :: x in AddAbsent(m, inputs, n) ==> AddAbsent(m, inputs, n)[x] == if x in m then m[x] else n
  {
    if inputs != [] {
      AddAbsentMeaning(m, inputs[..|inputs| - 1], n);
      assert inputs == inputs[..|inputs| - 1] + [inputs[|inputs| - 1]];
    }
  }

  /** The map `_build_init_to_layer_map` builds, node by node. */
  function InitToLayer(nodes: seq<Node>): map<string, nat> {
    if nodes == [] then map[]
    else
      var m := InitToLayer(nodes[..|nodes| - 1]);
      var node := nodes[|nodes| - 1];
      match NodeLayer(node.name)
      case None => m
      case Some(n) => AddAbsent(m, node.inputs, n)
  }

  /** The first node in graph order that references an input fixes its
      layer: the map holds exactly the inputs of layer nodes, each with the
      layer of the first such node. */
  lemma {:induction false} InitToLayerFirst(nodes: seq<Node>)
    ensures forall x :: x in InitToLayer(nodes) <==> FirstLayer(nodes, x).Some?
    ensures forall x :: x in InitToLayer(nodes) ==> Some(InitToLayer(nodes)[x]) == FirstLayer(nodes, x)
  {
    if nodes != [] {
      var init, node := nodes[..|nodes| - 1], nodes[|nodes| - 1];
      assert nodes == init + [node];
      InitToLayerFirst(init);
      forall x ensures FirstLayer(nodes, x) == FirstLayer(init + [node], x) {}
      forall x ensures FirstLayer(init + [node], x) ==
        if FirstLayer(init, x).Some? then FirstLayer(init, x)
        else if NodeLayer(node.name).Some? && x in node.inputs then NodeLayer(node.name)
        else None
      {
        FirstLayerAppend(init, node, x);
      }
      if NodeLayer(node.name).Some? {
        AddAbsentMeaning(InitToLayer(init), node.inputs, NodeLayer(node.name).value);
      }
    }
  }

  /** `_build_init_to_layer_map`. */
  method BuildInitToLayerMap(nodes: seq<Node>) returns (initToLayer: map<string, nat>)
    ensures initToLayer == InitToLayer(nodes)
  {
    initToLayer := map[];
    for i := 0 to |nodes|
      invariant initToLayer == InitToLayer(nodes[..i])
    {
      assert nodes[..i + 1][..i] == nodes[..i];
      var node := nodes[i];
      var m := NodeLayer(node.name);
      if m.None? {
        continue;
      }
      var layerIdx := m.value;
      ghost var before := initToLayer;
      for j := 0 to |node.inputs|
        invariant initToLayer == AddAbsent(before, node.inputs[..j], layerIdx)
      {
        assert node.inputs[..j + 1][..j] == node.inputs[..j];
        var inp := node.inputs[j];
        if inp !in initToLayer {
          initToLayer := initToLayer[inp := layerIdx];
        }
      }
      assert node.inputs[..|node.inputs|] == node.inputs;
    }
    assert nodes[..|nodes|] == nodes;
  }

  /** The elements of a list, as a set. */
  function Elements(xs: seq<string>): (r: set<string>)
    ensures forall x :: x in r <==> x in xs
  {
    if xs == [] then {} else Elements(xs[..|xs| - 1]) + {xs[|xs| - 1]}
  }

  /** The set `_build_init_to_lm_head` builds, node by node. */
  function LmHeadInputs(nodes: seq<Node>): set<string> {
    if nodes == [] then {}
    else
      var node := nodes[|nodes| - 1];
      LmHeadInputs(nodes[..|nodes| - 1]) + (if Contains(node.name, LmHeadMarker) then Elements(node.inputs) else {})
  }

  /** The lm_head set is the union of the inputs of every node whose name
      contains `/lm_head/`. */
  lemma {:induction false} LmHeadInputsMeaning(nodes: seq<Node>, x: string)
    ensures x in LmHeadInputs(nodes) <==>
      exists i :: 0 <= i < |nodes| && Contains(nodes[i].name, LmHeadMarker) && x in nodes[i].inputs
  {
    if nodes != [] {
      var init := nodes[..|nodes| - 1];
      LmHeadInputsMeaning(init, x);
      if x in LmHeadInputs(init) {
        var i :| 0 <= i < |init| && Contains(init[i].name, LmHeadMarker) && x in init[i].inputs;
        assert nodes[i] == init[i];
      }
      if exists i :: 0 <= i < |nodes| && Contains(nodes[i].name, LmHeadMarker) && x in nodes[i].inputs {
        var i :| 0 <= i < |nodes| && Contains(nodes[i].name, LmHeadMarker) && x in nodes[i].inputs;
        if i < |init| {
          assert init[i] == nodes[i];
        }
      }
    }
  }

  /** `_build_init_to_lm_head`. */
  method BuildInitToLmHead(nodes: seq<Node>) returns (lmHeadInits: set<string>)
    ensures lmHeadInits == LmHeadInputs(nodes)
  {
    lmHeadInits := {};
    for i := 0 to |nodes|
      invariant lmHeadInits == LmHeadInputs(nodes[..i])
    {
      assert nodes[..i + 1][..i] == nodes[..i];
      var node := nodes[i];
      if Contains(node.name, LmHeadMarker) {
        ghost var before := lmHeadInits;
        for j := 0 to |node.inputs|
          invariant lmHeadInits == before + Elements(node.inputs[..j])
        {
          assert node.inputs[..j + 1][..j] == node.inputs[..j];
          lmHeadInits := lmHeadInits + {node.inputs[j]};
        }
        assert node.inputs[..|node.inputs|] == node.inputs;
      }
    }
    assert nodes[..|nodes|] == nodes;
  }

  // -----------------------------------------------------------------------
  // classify_tensor
  // -----------------------------------------------------------------------

  /** `classify_tensor`: the name pattern, then the traced layer, then the
      embed and norm prefixes, then the lm_head set; anything else is embed. */
  function ClassifyTensor(name: string, initToLayer: map<string, nat>, lmHeadInits: set<string>): TensorKind {
    match LayerMatch(name)
    case Some(n) => Layer(n)
    case None =>
      if name in initToLayer then Layer(initToLayer[name])
      else if StartsWith(name, EmbedPrefix) then Embed
      else if StartsWith(name, NormPrefix) then Norm
      else if name in lmHeadInits then LmHead
      else Embed
  }

  /** The priority chain: each kind in terms of which earlier rules failed. */
  lemma ClassifyPriority(name: string, initToLayer: map<string, nat>, lmHeadInits: set<string>)
    ensures var k := ClassifyTensor(name, initToLayer, lmHeadInits);
      && (LayerMatch(name).Some? ==> k == Layer(LayerMatch(name).value))
      && (LayerMatch(name).None? && name in initToLayer ==> k == Layer(initToLayer[name]))
      && (k.Layer? <==> LayerMatch(name).Some? || name in initToLayer)
      && (k == Norm <==>
            !k.Layer? && !StartsWith(name, EmbedPrefix) && StartsWith(name, NormPrefix))
      && (k == LmHead <==>
            !k.Layer? && !StartsWith(name, EmbedPrefix) && !StartsWith(name, NormPrefix) && name in lmHeadInits)
      && (k == Embed <==>
            !k.Layer? && (StartsWith(name, EmbedPrefix) || (!StartsWith(name, NormPrefix) && name !in lmHeadInits)))
  {
  }

  /** A name matching the layer pattern is a layer tensor by its own
      index, whatever the node map says. */
  lemma ClassifyPatternWins()
    ensures ClassifyTensor("model.layers.7.mlp.up_proj.weight", map["model.layers.7.mlp.up_proj.weight" := 2], {}) == Layer(7)
  {
    var name := "model.layers.7.mlp.up_proj.weight";
    assert name[..|Classify.LayerPrefix|] == Classify.LayerPrefix;
    var rest := name[|Classify.LayerPrefix|..];
    assert rest == "7.mlp.up_proj.weight";
    assert rest[1..][0] == '.';
    assert Classify.DigitRun(rest) == 1;
    assert rest[..1] == "7";
    assert DecimalValue("7") == 7 by {
      assert "7"[..0] == [];
    }
  }

  /** A quantized weight traced to a layer node is a layer tensor even when
      an lm_head node also takes it. */
  lemma ClassifyTracedLayer()
    ensures ClassifyTensor("onnx::MatMul_1234", map["onnx::MatMul_1234" := 4], {"onnx::MatMul_1234"}) == Layer(4)
  {
    assert "onnx::MatMul_1234"[0] != Classify.LayerPrefix[0];
  }

  /** The final norm is recognised by its prefix before the lm_head set is
      consulted; an untraced quantized weight is lm_head when an lm_head
      node takes it and embed otherwise. */
  lemma ClassifyBaseKinds()
    ensures ClassifyTensor("model.norm.weight", map[], {"model.norm.weight"}) == Norm
    ensures ClassifyTensor("onnx::MatMul_9", map[], {"onnx::MatMul_9"}) == LmHead
    ensures ClassifyTensor("onnx::MatMul_9", map[], {}) == Embed
  {
    assert "model.norm.weight"[6] != Classify.LayerPrefix[6];
    assert "model.norm.weight"[6] != EmbedPrefix[6];
    assert "model.norm.weight"[..|NormPrefix|] == NormPrefix;
    assert "onnx::MatMul_9"[0] != Classify.LayerPrefix[0];
    assert "onnx::MatMul_9"[0] != EmbedPrefix[0];
    assert "onnx::MatMul_9"[0] != NormPrefix[0];
  }

  // -----------------------------------------------------------------------
  // classify_initializers
  // -----------------------------------------------------------------------

  /** `ClassifyResult`; `maxLayer` is -1 until a layer tensor is seen. */
  datatype ClassifyResult = ClassifyResult(
    embed: seq<TensorProto>,
    lmHead: seq<TensorProto>,
    norm: seq<TensorProto>,
    layers: map<nat, seq<TensorProto>>,
    maxLayer: int)

  const EmptyResult := ClassifyResult([], [], [], map[], -1)

  /** One tensor appended to the list of its kind. */
  function AddTensor(r: ClassifyResult, t: TensorProto, k: TensorKind): ClassifyResult {
    match k
    case Layer(n) => r.(layers := r.layers[n := Get(r.layers, n) + [t]], maxLayer := if n > r.maxLayer then n else r.maxLayer)
    case Embed => r.(embed := r.embed + [t])
    case LmHead => r.(lmHead := r.lmHead + [t])
    case Norm => r.(norm := r.norm + [t])
  }

  function Classified(ts: seq<TensorProto>, initToLayer: map<string, nat>, lmHeadInits: set<string>): ClassifyResult {
    if ts == [] then EmptyResult
    else
      var t := ts[|ts| - 1];
      AddTensor(Classified(ts[..|ts| - 1], initToLayer, lmHeadInits), t, ClassifyTensor(t.name, initToLayer, lmHeadInits))
  }

  /** The tensors of `ts` of kind `k`, in input order. */
  function OfKind(ts: seq<TensorProto>, initToLayer: map<string, nat>, lmHeadInits: set<string>, k: TensorKind): seq<TensorProto> {
    Filter(ts, (t: TensorProto) => ClassifyTensor(t.name, initToLayer, lmHeadInits) == k)
  }

  /** The largest layer index among `ts`, or -1 when there is none. */
  function MaxIndex(ts: seq<TensorProto>, initToLayer: map<string, nat>, lmHeadInits: set<string>): int {
    if ts == [] then -1
    else
      var m := MaxIndex(ts[..|ts| - 1], initToLayer, lmHeadInits);
      match ClassifyTensor(ts[|ts| - 1].name, initToLayer, lmHeadInits)
      case Layer(n) => if n > m then n else m
      case _ => m
  }

  lemma {:induction false} ClassifiedLists(ts: seq<TensorProto>, initToLayer: map<string, nat>, lmHeadInits: set<string>)
    ensures Classified(ts, initToLayer, lmHeadInits).embed == OfKind(ts, initToLayer, lmHeadInits, Embed)
    ensures Classified(ts, initToLayer, lmHeadInits).lmHead == OfKind(ts, initToLayer, lmHeadInits, LmHead)
    ensures Classified(ts, initToLayer, lmHeadInits).norm == OfKind(ts, initToLayer, lmHeadInits, Norm)
  {
    if ts != [] {
      ClassifiedLists(ts[..|ts| - 1], initToLayer, lmHeadInits);
    }
  }

  lemma {:induction false} ClassifiedLayers(ts: seq<TensorProto>, initToLayer: map<string, nat>, lmHeadInits: set<string>)
    ensures forall n: nat :: Get(Classified(ts, initToLayer, lmHeadInits).layers, n) == OfKind(ts, initToLayer, lmHeadInits, Layer(n))
    ensures forall n: nat :: n in Classified(ts, initToLayer, lmHeadInits).layers <==> OfKind(ts, initToLayer, lmHeadInits, Layer(n)) != []
  {
    if ts != [] {
      var init, t := ts[..|ts| - 1], ts[|ts| - 1];
      ClassifiedLayers(init, initToLayer, lmHeadInits);
      var k := ClassifyTensor(t.name, initToLayer, lmHeadInits);
      var prev, now := Classified(init, initToLayer, lmHeadInits), Classified(ts, initToLayer, lmHeadInits);
      assert now == AddTensor(prev, t, k);
      forall n: nat
        ensures Get(now.layers, n) == OfKind(ts, initToLayer, lmHeadInits, Layer(n))
        ensures n in now.layers <==> OfKind(ts, initToLayer, lmHeadInits, Layer(n)) != []
      {
        assert OfKind(ts, initToLayer, lmHeadInits, Layer(n))
          == OfKind(init, initToLayer, lmHeadInits, Layer(n)) + (if k == Layer(n) then [t] else []);
      }
    }
  }

  lemma {:induction false} ClassifiedMax(ts: seq<TensorProto>, initToLayer: map<string, nat>, lmHeadInits: set<string>)
    ensures Classified(ts, initToLayer, lmHeadInits).maxLayer == MaxIndex(ts, initToLayer, lmHeadInits)
  {
    if ts != [] {
      ClassifiedMax(ts[..|ts| - 1], initToLayer, lmHeadInits);
    }
  }

  /** `max_layer` is -1 exactly when no tensor is a layer tensor; otherwise
      it is the index of some layer tensor and no layer tensor has a larger
      one. */
  lemma {:induction false} MaxIndexMeaning(ts: seq<TensorProto>, initToLayer: map<string, nat>, lmHeadInits: set<string>)
    ensures var m := MaxIndex(ts, initToLayer, lmHeadInits);
      && m >= -1
      && (m == -1 <==> forall i :: 0 <= i < |ts| ==> !ClassifyTensor(ts[i].name, initToLayer, lmHeadInits).Layer?)
      && (forall i :: 0 <= i < |ts| && ClassifyTensor(ts[i].name, initToLayer, lmHeadInits).Layer? ==>
            ClassifyTensor(ts[i].name, initToLayer, lmHeadInits).index <= m)
      && (m >= 0 ==> exists i :: 0 <= i < |ts| && ClassifyTensor(ts[i].name, initToLayer, lmHeadInits) == Layer(m))
  {
    if ts != [] {
      var init := ts[..|ts| - 1];
      MaxIndexMeaning(init, initToLayer, lmHeadInits);
      assert forall i :: 0 <= i < |init| ==> init[i] == ts[i];
      var m := MaxIndex(init, initToLayer, lmHeadInits);
      if m >= 0 && MaxIndex(ts, initToLayer, lmHeadInits) == m {
        var i :| 0 <= i < |init| && ClassifyTensor(init[i].name, initToLayer, lmHeadInits) == Layer(m);
        assert ts[i] == init[i];
      }
    }
  }

  /** Every initializer lands in exactly one bucket: the list of its kind
      holds it as often as the input does, every other list never. */
  lemma EveryInitializerOnce(ts: seq<TensorProto>, initToLayer: map<string, nat>, lmHeadInits: set<string>, x: TensorProto)
    ensures var r := Classified(ts, initToLayer, lmHeadInits);
      var k := ClassifyTensor(x.name, initToLayer, lmHeadInits);
      && multiset(r.embed)[x] == (if k == Embed then multiset(ts)[x] else 0)
      && multiset(r.lmHead)[x] == (if k == LmHead then multiset(ts)[x] else 0)
      && multiset(r.norm)[x] == (if k == Norm then multiset(ts)[x] else 0)
      && forall n: nat :: multiset(Get(r.layers, n))[x] == if k == Layer(n) then multiset(ts)[x] else 0
  {
    ClassifiedLists(ts, initToLayer, lmHeadInits);
    ClassifiedLayers(ts, initToLayer, lmHeadInits);
    FilterCount(ts, (t: TensorProto) => ClassifyTensor(t.name, initToLayer, lmHeadInits) == Embed, x);
    FilterCount(ts, (t: TensorProto) => ClassifyTensor(t.name, initToLayer, lmHeadInits) == LmHead, x);
    FilterCount(ts, (t: TensorProto) => ClassifyTensor(t.name, initToLayer, lmHeadInits) == Norm, x);
    forall n: nat ensures multiset(Get(Classified(ts, initToLayer, lmHeadInits).layers, n))[x] ==
      if ClassifyTensor(x.name, initToLayer, lmHeadInits) == Layer(n) then multiset(ts)[x] else 0
    {
      FilterCount(ts, (t: TensorProto) => ClassifyTensor(t.name, initToLayer, lmHeadInits) == Layer(n), x);
    }
  }

  /** `classify_initializers`. */
  method ClassifyInitializers(initializers: seq<TensorProto>, nodes: seq<Node>) returns (result: ClassifyResult)
    ensures result == Classified(initializers, InitToLayer(nodes), LmHeadInputs(nodes))
  {
    var initToLayer := BuildInitToLayerMap(nodes);
    var lmHeadInits := BuildInitToLmHead(nodes);
    result := EmptyResult;
    for i := 0 to |initializers|
      invariant result == Classified(initializers[..i], initToLayer, lmHeadInits)
    {
      assert initializers[..i + 1][..i] == initializers[..i];
      var tensor := initializers[i];
      var kind := ClassifyTensor(tensor.name, initToLayer, lmHeadInits);
      match kind {
        case Layer(layerIdx) =>
          result := result.(layers := result.layers[layerIdx := Get(result.layers, layerIdx) + [tensor]]);
          result := result.(maxLayer := if layerIdx > result.maxLayer then layerIdx else result.maxLayer);
        case Embed =>
          result := result.(embed := result.embed + [tensor]);
        case LmHead =>
          result := result.(lmHead := result.lmHead + [tensor]);
        case Norm =>
          result := result.(norm := result.norm + [tensor]);
      }
    }
    assert initializers[..|initializers|] == initializers;
  }
}
