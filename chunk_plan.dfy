/** Which chunk files the Rust sharder writes: the base chunk, then one chunk
    per layer window that holds at least one tensor, named
    `layers_<start>-<end>.safetensors`. */
module ChunkPlan {
  import opened Text
  import opened Seqs
  import opened Classify
  import opened LayerWindows

  /** A chunk about to be written: its id, file name, layer range and the
      tensors it holds, in order. */
  datatype PlannedChunk = PlannedChunk(id: string, fileName: string, layerStart: nat, layerEnd: nat, locs: seq<TensorLocation>)

  const BaseId: string := "base"
  const BaseFileName: string := "base.safetensors"
  const ManifestFileName: string := "manifest.json"
  const LayerIdPrefix: string := "layers_"
  const ChunkSuffix: string := ".safetensors"

  /** `format!("layers_{}-{}", chunk_start, chunk_end)`. */
  function ChunkId(w: Window): string {
    LayerIdPrefix + NatToDecimal(w.start) + "-" + NatToDecimal(w.end)
  }

  function ChunkFileName(id: string): string {
    id + ChunkSuffix
  }

  function BaseChunk(base: seq<TensorLocation>): PlannedChunk {
    PlannedChunk(BaseId, BaseFileName, 0, 0, base)
  }

  /** The chunk of window `w`, holding its layers in ascending order. */
  function WindowChunk(layers: map<nat, seq<TensorLocation>>, w: Window): PlannedChunk {
    PlannedChunk(ChunkId(w), ChunkFileName(ChunkId(w)), w.start, w.end, CollectRange(layers, w.start, w.end + 1))
  }

  /** Some layer of window `w` holds a tensor. */
  predicate Occupied(layers: map<nat, seq<TensorLocation>>, w: Window) {
    CollectRange(layers, w.start, w.end + 1) != []
  }

  /** The windows the loop writes a chunk for; an empty one is skipped
      (`continue`). */
  function OccupiedWindows(layers: map<nat, seq<TensorLocation>>, ws: seq<Window>): seq<Window> {
    Filter(ws, (w: Window) => Occupied(layers, w))
  }

  /** The window loop's chunks, in window order. */
  function LayerPlan(layers: map<nat, seq<TensorLocation>>, ws: seq<Window>): (plan: seq<PlannedChunk>)
    ensures var occ := OccupiedWindows(layers, ws);
      |plan| == |occ| && forall i :: 0 <= i < |plan| ==> plan[i] == WindowChunk(layers, occ[i])
  {
    var occ := OccupiedWindows(layers, ws);
    seq(|occ|, i requires 0 <= i < |occ| => WindowChunk(layers, occ[i]))
  }

  function LocsOf(plan: seq<PlannedChunk>): (r: seq<seq<TensorLocation>>)
    ensures |r| == |plan| && forall i :: 0 <= i < |plan| ==> r[i] == plan[i].locs
  {
    if plan == [] then [] else [plan[0].locs] + LocsOf(plan[1..])
  }

  // -----------------------------------------------------------------------
  // Names
  // -----------------------------------------------------------------------

  /** Distinct windows get distinct ids: the digits of the start cannot
      contain the '-' that ends them. */
  lemma ChunkIdInjective(v: Window, w: Window)
    requires ChunkId(v) == ChunkId(w)
    ensures v == w
  {
    var a, b := NatToDecimal(v.start), NatToDecimal(w.start);
    var x, y := NatToDecimal(v.end), NatToDecimal(w.end);
    var p := |LayerIdPrefix|;
    var s := ChunkId(v);
    assert s == LayerIdPrefix + a + "-" + x;
    assert s == LayerIdPrefix + b + "-" + y;
    DashNotEarlier(a, x, b, y);
    assert a == s[p..p + |a|] == b;
    NatToDecimalInjective(v.start, w.start);
    assert x == s[p + |a| + 1..] == y;
    NatToDecimalInjective(v.end, w.end);
  }

  /** The digit run after the prefix is exactly `a`, so the '-' that ends it
      fixes the length of `a`. */
  lemma DashNotEarlier(a: string, x: string, b: string, y: string)
    requires AllDigits(a) && AllDigits(b)
    requires LayerIdPrefix + a + "-" + x == LayerIdPrefix + b + "-" + y
    ensures |a| == |b|
  {
    var p := |LayerIdPrefix|;
    var s := LayerIdPrefix + a + "-" + x;
    var t := LayerIdPrefix + b + "-" + y;
    assert s[p..] == a + "-" + x;
    assert t[p..] == b + "-" + y;
    RunBeforeDash(a, x);
    RunBeforeDash(b, y);
  }

  lemma RunBeforeDash(a: string, x: string)
    requires AllDigits(a)
    ensures DigitRun(a + "-" + x) == |a|
  {
    assert (a + "-" + x)[..|a|] == a;
    DigitRunIs(a + "-" + x, |a|);
  }

  /** Layer chunk files never collide with the base chunk or the manifest. */
  lemma ChunkFileNameReserved(w: Window)
    ensures ChunkFileName(ChunkId(w)) != BaseFileName
    ensures ChunkFileName(ChunkId(w)) != ManifestFileName
  {
    assert ChunkFileName(ChunkId(w))[0] == 'l';
  }

  lemma ChunkFileNameInjective(v: Window, w: Window)
    requires ChunkFileName(ChunkId(v)) == ChunkFileName(ChunkId(w))
    ensures v == w
  {
    var x, y := ChunkId(v), ChunkId(w);
    assert |x| == |y|;
    assert x == ChunkFileName(x)[..|x|];
    ChunkIdInjective(v, w);
  }

  // -----------------------------------------------------------------------
  // The plan
  // -----------------------------------------------------------------------

  /** The window a planned chunk covers. */
  function RangeOf(c: PlannedChunk): Window {
    Window(c.layerStart, c.layerEnd)
  }

  /** The plan from the front: the first window gives a chunk exactly
      when it is occupied. */
  lemma LayerPlanCons(layers: map<nat, seq<TensorLocation>>, w: Window, ws: seq<Window>)
    ensures LayerPlan(layers, [w] + ws) ==
      (if Occupied(layers, w) then [WindowChunk(layers, w)] else []) + LayerPlan(layers, ws)
  {
    FilterCons(w, ws, (v: Window) => Occupied(layers, v));
  }

  /** Skipping windows keeps the survivors in order. */
  lemma OccupiedOrdered(layers: map<nat, seq<TensorLocation>>, ws: seq<Window>)
    requires forall i, j :: 0 <= i < j < |ws| ==> ws[i].end < ws[j].start
    ensures var occ := OccupiedWindows(layers, ws);
      forall i, j :: 0 <= i < j < |occ| ==> occ[i].end < occ[j].start
  {
    FilterKeepsOrder(ws, (w: Window) => Occupied(layers, w), (v: Window, w: Window) => v.end < w.start);
  }

  /** Skipping the empty windows does not change what they collect. */
  lemma {:induction false} OccupiedCollected(layers: map<nat, seq<TensorLocation>>, ws: seq<Window>)
    ensures Collected(layers, OccupiedWindows(layers, ws)) == Collected(layers, ws)
  {
    if ws != [] {
      var init := ws[..|ws| - 1];
      var last := ws[|ws| - 1];
      assert ws == init + [last];
      OccupiedCollected(layers, init);
      FilterAppend(init, last, (w: Window) => Occupied(layers, w));
      var occ := OccupiedWindows(layers, init);
      CollectedAppend(layers, init, last);
      if Occupied(layers, last) {
        CollectedAppend(layers, occ, last);
      } else {
        assert OccupiedWindows(layers, ws) == occ;
        assert CollectRange(layers, last.start, last.end + 1) == [];
        assert Collected(layers, ws) == Collected(layers, init) + [];
      }
    }
  }

  lemma {:induction false} PlanLocsCollected(layers: map<nat, seq<TensorLocation>>, occ: seq<Window>, plan: seq<PlannedChunk>)
    requires |plan| == |occ| && forall i :: 0 <= i < |plan| ==> plan[i].locs == CollectRange(layers, occ[i].start, occ[i].end + 1)
    ensures Concat(LocsOf(plan)) == Collected(layers, occ)
  {
    if plan != [] {
      var occ', plan' := occ[1..], plan[1..];
      assert forall i :: 0 <= i < |plan'| ==> plan'[i] == plan[i + 1] && occ'[i] == occ[i + 1];
      PlanLocsCollected(layers, occ', plan');
      assert LocsOf(plan) == [plan[0].locs] + LocsOf(plan');
      ConcatCons(plan[0].locs, LocsOf(plan'));
    }
  }

  /** What the planned chunks hold, put together, is what the windows
      collect: an empty window adds nothing. */
  lemma LayerPlanContents(layers: map<nat, seq<TensorLocation>>, ws: seq<Window>)
    ensures Concat(LocsOf(LayerPlan(layers, ws))) == Collected(layers, ws)
  {
    PlanLocsCollected(layers, OccupiedWindows(layers, ws), LayerPlan(layers, ws));
    OccupiedCollected(layers, ws);
  }

  /** The planned layer chunks of `Windows(total, k)` hold exactly the layer
      lists below `total`, each once, in ascending layer order. */
  lemma LayerPlanDrainsAll(layers: map<nat, seq<TensorLocation>>, total: nat, k: nat)
    requires k >= 1
    ensures Concat(LocsOf(LayerPlan(layers, Windows(total, k)))) == CollectRange(layers, 0, total)
  {
    LayerPlanContents(layers, Windows(total, k));
    DrainAll(layers, 0, total, k);
  }

  /** Every window the loop writes is one of `Windows(total, k)`: it lies
      below `total`, spans at most `k` layers and holds a tensor. */
  lemma OccupiedShape(layers: map<nat, seq<TensorLocation>>, total: nat, k: nat)
    requires k >= 1
    ensures var occ := OccupiedWindows(layers, Windows(total, k));
      forall i :: 0 <= i < |occ| ==>
        occ[i] in Windows(total, k) && occ[i].start <= occ[i].end < total &&
        occ[i].end + 1 - occ[i].start <= k && Occupied(layers, occ[i])
  {
    var ws := Windows(total, k);
    var occ := OccupiedWindows(layers, ws);
    if total > 0 {
      WindowsTile(0, total, k);
    }
    forall i | 0 <= i < |occ|
      ensures occ[i] in ws && occ[i].start <= occ[i].end < total && occ[i].end + 1 - occ[i].start <= k
    {
      assert occ[i] in ws;
      var j :| 0 <= j < |ws| && ws[j] == occ[i];
    }
  }

  /** Every chunk of `Windows(total, k)` is non-empty, covers one of the
      windows (at most `k` layers below `total`), holds exactly the layers
      of its range, and is named after that range. */
  lemma LayerPlanShape(layers: map<nat, seq<TensorLocation>>, total: nat, k: nat)
    requires k >= 1
    ensures var plan := LayerPlan(layers, Windows(total, k));
      forall i :: 0 <= i < |plan| ==>
        && plan[i].locs != []
        && RangeOf(plan[i]) in Windows(total, k)
        && plan[i].layerStart <= plan[i].layerEnd < total
        && plan[i].layerEnd + 1 - plan[i].layerStart <= k
        && plan[i].id == ChunkId(RangeOf(plan[i]))
        && plan[i].fileName == ChunkFileName(plan[i].id)
        && plan[i].locs == CollectRange(layers, plan[i].layerStart, plan[i].layerEnd + 1)
  {
    OccupiedShape(layers, total, k);
  }

  lemma WindowsAscending(total: nat, k: nat)
    requires k >= 1
    ensures var ws := Windows(total, k);
      forall i, j :: 0 <= i < j < |ws| ==> ws[i].end < ws[j].start
  {
    if total > 0 {
      WindowsTile(0, total, k);
      WindowsOrdered(Windows(total, k), total, k);
    }
  }

  /** The chunks of `Windows(total, k)` are in ascending layer order. */
  lemma LayerPlanAscending(layers: map<nat, seq<TensorLocation>>, total: nat, k: nat)
    requires k >= 1
    ensures var plan := LayerPlan(layers, Windows(total, k));
      forall i, j :: 0 <= i < j < |plan| ==> plan[i].layerEnd < plan[j].layerStart
  {
    WindowsAscending(total, k);
    OccupiedOrdered(layers, Windows(total, k));
  }

  /** No two chunks of `Windows(total, k)` share a file name. */
  lemma LayerPlanDistinct(layers: map<nat, seq<TensorLocation>>, total: nat, k: nat)
    requires k >= 1
    ensures var plan := LayerPlan(layers, Windows(total, k));
      forall i, j :: 0 <= i < j < |plan| ==> plan[i].fileName != plan[j].fileName
  {
    var plan := LayerPlan(layers, Windows(total, k));
    LayerPlanAscending(layers, total, k);
    OccupiedShape(layers, total, k);
    var occ := OccupiedWindows(layers, Windows(total, k));
    forall i, j | 0 <= i < j < |plan| ensures plan[i].fileName != plan[j].fileName {
      assert plan[i] == WindowChunk(layers, occ[i]) && plan[j] == WindowChunk(layers, occ[j]);
      assert RangeOf(plan[i]) == occ[i] && RangeOf(plan[j]) == occ[j];
      if plan[i].fileName == plan[j].fileName {
        ChunkFileNameInjective(occ[i], occ[j]);
      }
    }
  }
}
