/** What `write_shards` writes, as values: the `_write_shard` calls it makes,
    in order, each naming the shard, its data file and the tensors that go
    into it. */
module OnnxPlan {
  import opened Wrappers
  import opened Text
  import opened LayerWindows
  import opened OnnxProto
  import opened OnnxClassify
  import opened OnnxManifest

  /** One `_write_shard` call: shard id and kind, data file, tensors, and
      the layer range of a layer group. */
  datatype Job = Job(id: string, kind: ShardKind, fileName: string, tensors: seq<TensorProto>, range: Option<(int, int)>)

  const DataPrefix: string := "model.onnx_data_"
  const EmbedFileName: string := DataPrefix + "embed"
  const LmHeadFileName: string := DataPrefix + "lm_head"

  /** `range()` with a zero step raises `ValueError`. */
  datatype WriterError = ZeroLayersPerChunk

  /** Split mode: embed_tokens and norm weights. */
  function EmbedJob(r: ClassifyResult): Job {
    Job("embed", EmbedShard, EmbedFileName, r.embed + r.norm, None)
  }

  /** Split mode: the lm_head weights. */
  function LmHeadJob(r: ClassifyResult): Job {
    Job("lm_head", LmHeadShard, LmHeadFileName, r.lmHead, None)
  }

  /** Legacy mode: every base weight in data file 0. */
  function BaseJob(r: ClassifyResult): Job {
    Job("embed", EmbedShard, DataPrefix + NatToDecimal(0), r.embed + r.norm + r.lmHead, None)
  }

  /** `layer_<n>` for a one-layer group in split mode, otherwise
      `layers_<start>-<end>`. */
  function LayerId(w: Window, split: bool): string {
    if split && w.start == w.end then "layer_" + NatToDecimal(w.start)
    else "layers_" + NatToDecimal(w.start) + "-" + NatToDecimal(w.end)
  }

  /** The group of window `w`: its layers' tensors in ascending layer order,
      in the file numbered by the group start (split mode) or by the running
      data index (legacy mode). */
  function LayerJob(layers: map<nat, seq<TensorProto>>, w: Window, split: bool, idx: nat): Job {
    Job(LayerId(w, split), LayerShard, DataPrefix + NatToDecimal(if split then w.start else idx),
        CollectRange(layers, w.start, w.end + 1), Some((w.start, w.end)))
  }

  /** The groups of the windows `ws`; an empty group is skipped and does not
      use up a data index. */
  function LayerJobs(layers: map<nat, seq<TensorProto>>, ws: seq<Window>, split: bool, idx: nat): seq<Job> {
    if ws == [] then []
    else
      var job := LayerJob(layers, ws[0], split, idx);
      if job.tensors == [] then LayerJobs(layers, ws[1..], split, idx)
      else [job] + LayerJobs(layers, ws[1..], split, idx + 1)
  }

  /** A job that writes a shard: `_write_shard` returns None for no tensors. */
  function NonEmpty(job: Job): seq<Job> {
    if job.tensors == [] then [] else [job]
  }

  /** The shards written before the layer groups. */
  function HeadJobs(r: ClassifyResult, split: bool): seq<Job> {
    if split then NonEmpty(EmbedJob(r)) else NonEmpty(BaseJob(r))
  }

  /** The shards written after the layer groups. */
  function TailJobs(r: ClassifyResult, split: bool): seq<Job> {
    if split then NonEmpty(LmHeadJob(r)) else []
  }

  /** The layer loop is reached and its `range()` has step 0. */
  predicate StepRejected(r: ClassifyResult, k: int) {
    r.maxLayer >= 0 && k == 0
  }

  /** The windows `range(0, max_layer + 1, k)` visits; none when no layer
      tensor was found or the step is not positive. */
  function GroupWindows(maxLayer: int, k: int): seq<Window> {
    if maxLayer >= 0 && k >= 1 then Windows(maxLayer + 1, k) else []
  }

  /** Every shard `write_shards` writes, in order. */
  function Plan(r: ClassifyResult, k: int, split: bool): seq<Job> {
    HeadJobs(r, split) + LayerJobs(r.layers, GroupWindows(r.maxLayer, k), split, |HeadJobs(r, split)|) + TailJobs(r, split)
  }

  /** The tensors of the jobs, job after job. */
  function AllTensors(jobs: seq<Job>): seq<TensorProto> {
    if jobs == [] then [] else jobs[0].tensors + AllTensors(jobs[1..])
  }

  /** The data file each of the jobs' tensors goes to, tensor by tensor. */
  function Locations(jobs: seq<Job>): (locs: seq<string>)
    ensures |locs| == |AllTensors(jobs)|
  {
    if jobs == [] then [] else seq(|jobs[0].tensors|, _ => jobs[0].fileName) + Locations(jobs[1..])
  }

  /** No two jobs write the same data file. */
  predicate NamesDistinct(jobs: seq<Job>) {
    forall i, j :: 0 <= i < j < |jobs| ==> jobs[i].fileName != jobs[j].fileName
  }

  lemma {:induction false} AllTensorsAppend(a: seq<Job>, b: seq<Job>)
    ensures AllTensors(a + b) == AllTensors(a) + AllTensors(b)
  {
    if a != [] {
      assert (a + b)[1..] == a[1..] + b;
      AllTensorsAppend(a[1..], b);
    } else {
      assert a + b == b;
    }
  }

  lemma {:induction false} LocationsAppend(a: seq<Job>, b: seq<Job>)
    ensures Locations(a + b) == Locations(a) + Locations(b)
  {
    if a != [] {
      assert (a + b)[1..] == a[1..] + b;
      LocationsAppend(a[1..], b);
    } else {
      assert a + b == b;
    }
  }

  /** Every tensor goes to the data file of one of the jobs. */
  lemma {:induction false} LocationsFrom(jobs: seq<Job>, x: nat)
    requires x < |Locations(jobs)|
    ensures exists j :: 0 <= j < |jobs| && Locations(jobs)[x] == jobs[j].fileName
  {
    var m := |jobs[0].tensors|;
    if x < m {
      assert Locations(jobs)[x] == jobs[0].fileName;
    } else {
      LocationsFrom(jobs[1..], x - m);
      var j :| 0 <= j < |jobs[1..]| && Locations(jobs[1..])[x - m] == jobs[1..][j].fileName;
      assert Locations(jobs)[x] == jobs[j + 1].fileName;
    }
  }

  /** Where a job's tensors sit among all the jobs' tensors, and that with
      distinct file names no earlier tensor goes to the job's file. */
  lemma {:induction false} JobSlot(done: seq<Job>, job: Job, rest: seq<Job>)
    ensures |AllTensors(done + [job])| == |AllTensors(done)| + |job.tensors| <= |AllTensors(done + [job] + rest)|
    ensures AllTensors(done + [job] + rest)[|AllTensors(done)|..|AllTensors(done + [job])|] == job.tensors
    ensures forall y :: |AllTensors(done)| <= y < |AllTensors(done + [job])| ==> Locations(done + [job] + rest)[y] == job.fileName
    ensures NamesDistinct(done + [job] + rest) ==>
      forall x :: 0 <= x < |AllTensors(done)| ==> Locations(done + [job] + rest)[x] != job.fileName
  {
    var jobs := done + [job] + rest;
    var n := |AllTensors(done)|;
    AllTensorsAppend(done + [job], rest);
    AllTensorsAppend(done, [job]);
    LocationsAppend(done + [job], rest);
    LocationsAppend(done, [job]);
    assert [job][1..] == [];
    assert AllTensors([job]) == job.tensors;
    assert Locations([job]) == seq(|job.tensors|, _ => job.fileName);
    if NamesDistinct(jobs) {
      forall x | 0 <= x < n
        ensures Locations(jobs)[x] != job.fileName
      {
        LocationsFrom(done, x);
        var j :| 0 <= j < |done| && Locations(done)[x] == done[j].fileName;
        assert jobs[j] == done[j] && jobs[|done|] == job;
      }
    }
  }

  /** In split mode a group's file is named by its first layer, so the
      running data index plays no part. */
  lemma {:induction false} SplitIgnoresIndex(layers: map<nat, seq<TensorProto>>, ws: seq<Window>, i: nat, j: nat)
    ensures LayerJobs(layers, ws, true, i) == LayerJobs(layers, ws, true, j)
  {
    if ws != [] {
      SplitIgnoresIndex(layers, ws[1..], i, j);
      SplitIgnoresIndex(layers, ws[1..], i + 1, j + 1);
    }
  }

  /** The data index after the group `job`: legacy mode numbers its files
      by a running index that each written group uses up. */
  function NextIndex(job: Job, split: bool, idx: nat): nat {
    if split || job.tensors == [] then idx else idx + 1
  }

  /** Past the last layer the loop visits no window and writes no group. */
  lemma LayerJobsExhausted(layers: map<nat, seq<TensorProto>>, start: nat, total: nat, k: nat, split: bool, idx: nat)
    requires k >= 1 && start >= total
    ensures LayerJobs(layers, WindowsFrom(start, total, k), split, idx) == []
  {
  }

  /** One turn of `for group_start in range(0, total_layers, k)`: the group
      of the window at `start` is written before the later ones unless it is
      empty, and the later ones continue from the next data index. */
  lemma LayerJobsStep(layers: map<nat, seq<TensorProto>>, start: nat, total: nat, k: nat, split: bool, idx: nat)
    requires k >= 1 && start < total
    ensures LayerJobs(layers, WindowsFrom(start, total, k), split, idx) ==
      NonEmpty(LayerJob(layers, WindowAt(start, total, k), split, idx)) +
      LayerJobs(layers, WindowsFrom(start + k, total, k), split,
                NextIndex(LayerJob(layers, WindowAt(start, total, k), split, idx), split, idx))
  {
    WindowsStep(start, total, k);
    var ws := WindowsFrom(start, total, k);
    assert ws[0] == WindowAt(start, total, k);
    assert ws[1..] == WindowsFrom(start + k, total, k);
    if split {
      SplitIgnoresIndex(layers, ws[1..], idx, idx + 1);
    }
    if LayerJob(layers, ws[0], split, idx).tensors == [] {
      assert [] + LayerJobs(layers, ws[1..], split, idx) == LayerJobs(layers, ws[1..], split, idx);
    }
  }

  // -----------------------------------------------------------------------
  // Which tensors are written
  // -----------------------------------------------------------------------

  /** The layer tensors `write_shards` writes: every layer `0 ..= max_layer`
      when a layer was found and the step is positive, none otherwise. */
  function LayerTensors(r: ClassifyResult, k: int): seq<TensorProto> {
    if r.maxLayer >= 0 && k >= 1 then CollectRange(r.layers, 0, r.maxLayer + 1) else []
  }

  lemma {:induction false} LayerJobsTensors(layers: map<nat, seq<TensorProto>>, ws: seq<Window>, split: bool, idx: nat)
    ensures AllTensors(LayerJobs(layers, ws, split, idx)) == Collected(layers, ws)
  {
    if ws != [] {
      var job := LayerJob(layers, ws[0], split, idx);
      if job.tensors == [] {
        LayerJobsTensors(layers, ws[1..], split, idx);
      } else {
        LayerJobsTensors(layers, ws[1..], split, idx + 1);
        var rest := LayerJobs(layers, ws[1..], split, idx + 1);
        assert ([job] + rest)[1..] == rest;
      }
    }
  }

  lemma NonEmptyTensors(job: Job)
    ensures AllTensors(NonEmpty(job)) == job.tensors
  {
    if job.tensors != [] {
      assert [job][1..] == [];
    }
  }

  /** The tensors written, in the order they are written: in split mode
      embed, norm, the layers in ascending order, lm_head; in legacy mode
      embed, norm, lm_head, then the layers. */
  lemma PlanTensors(r: ClassifyResult, k: int, split: bool)
    ensures AllTensors(Plan(r, k, split)) ==
      if split then r.embed + r.norm + LayerTensors(r, k) + r.lmHead
      else r.embed + r.norm + r.lmHead + LayerTensors(r, k)
  {
    var head, tail := HeadJobs(r, split), TailJobs(r, split);
    var ws := GroupWindows(r.maxLayer, k);
    var mid := LayerJobs(r.layers, ws, split, |head|);
    ThreePartsTensors(head, mid, tail);
    LayerJobsTensors(r.layers, ws, split, |head|);
    assert AllTensors(mid) == LayerTensors(r, k) by {
      if r.maxLayer >= 0 && k >= 1 {
        DrainAll(r.layers, 0, r.maxLayer + 1, k);
      }
    }
    if split {
      NonEmptyTensors(EmbedJob(r));
      NonEmptyTensors(LmHeadJob(r));
    } else {
      NonEmptyTensors(BaseJob(r));
      assert AllTensors(tail) == [];
    }
  }

  lemma ThreePartsTensors(head: seq<Job>, mid: seq<Job>, tail: seq<Job>)
    ensures AllTensors(head + mid + tail) == AllTensors(head) + AllTensors(mid) + AllTensors(tail)
  {
    AllTensorsAppend(head + mid, tail);
    AllTensorsAppend(head, mid);
  }

  /** How often `x` occurs across layers `lo .. hi-1` when only layer `m`
      holds it. */
  lemma {:induction false} CollectRangeCount<T>(layers: map<nat, seq<T>>, lo: nat, hi: nat, x: T, m: int, c: nat)
    requires forall n: nat :: multiset(Get(layers, n))[x] == if n == m then c else 0
    ensures multiset(CollectRange(layers, lo, hi))[x] == if lo <= m < hi then c else 0
    decreases hi
  {
    if lo < hi {
      CollectRangeCount(layers, lo, hi - 1, x, m, c);
    }
  }

  /** When `x` sits only in the list of `kind`, `total` times, the lists
      `write_shards` writes hold it at most `total` times. */
  lemma ListsCount(r: ClassifyResult, k: int, x: TensorProto, kind: TensorKind, total: nat)
    requires multiset(r.embed)[x] == (if kind == Embed then total else 0)
    requires multiset(r.lmHead)[x] == (if kind == LmHead then total else 0)
    requires multiset(r.norm)[x] == (if kind == Norm then total else 0)
    requires forall n: nat :: multiset(Get(r.layers, n))[x] == if kind == Layer(n) then total else 0
    ensures multiset(r.embed + r.norm + r.lmHead + LayerTensors(r, k))[x] <= total
  {
    var m := if kind.Layer? then kind.index else -1;
    var c := if kind.Layer? then total else 0;
    if r.maxLayer >= 0 && k >= 1 {
      forall n: nat
        ensures multiset(Get<TensorProto>(r.layers, n))[x] == if n == m then c else 0
      {
        assert kind == Layer(n) <==> n == m;
      }
      CollectRangeCount<TensorProto>(r.layers, 0, r.maxLayer + 1, x, m, c);
    }
  }

  /** Each initializer occurs among the lists `write_shards` writes at
      most as often as among the initializers. */
  lemma ClassifiedCount(ts: seq<TensorProto>, initToLayer: map<string, nat>, lmHeadInits: set<string>, k: int, x: TensorProto)
    ensures var r := Classified(ts, initToLayer, lmHeadInits);
      multiset(r.embed + r.norm + r.lmHead + LayerTensors(r, k))[x] <= multiset(ts)[x]
  {
    EveryInitializerOnce(ts, initToLayer, lmHeadInits, x);
    ListsCount(Classified(ts, initToLayer, lmHeadInits), k, x, ClassifyTensor(x.name, initToLayer, lmHeadInits), multiset(ts)[x]);
  }

  /** Distinct initializers are written at most once each. */
  lemma PlanDistinct(ts: seq<TensorProto>, nodes: seq<Node>, k: int, split: bool)
    requires Distinct(ts)
    ensures Distinct(AllTensors(Plan(Classified(ts, InitToLayer(nodes), LmHeadInputs(nodes)), k, split)))
  {
    var initToLayer, lmHeadInits := InitToLayer(nodes), LmHeadInputs(nodes);
    var r := Classified(ts, initToLayer, lmHeadInits);
    var all: seq<TensorProto> := AllTensors(Plan(r, k, split));
    var lists := r.embed + r.norm + r.lmHead + LayerTensors(r, k);
    PlanTensors(r, k, split);
    assert multiset(all) == multiset(lists);
    DistinctCounts(ts);
    forall x: TensorProto
      ensures multiset(all)[x] <= 1
    {
      ClassifiedCount(ts, initToLayer, lmHeadInits, k, x);
    }
    DistinctCounts(all);
  }

  // -----------------------------------------------------------------------
  // Order, ranges and file names
  // -----------------------------------------------------------------------

  /** A layer group of windows within `lo ..= hi`: non-empty, with its
      window as range and that window's tensors, in the file numbered by the
      group start (split mode) or by `index` (legacy mode). */
  predicate IsGroup(job: Job, layers: map<nat, seq<TensorProto>>, lo: nat, hi: nat, split: bool, index: nat) {
    && job.kind == LayerShard && job.range.Some? && job.tensors != []
    && lo <= job.range.value.0 <= job.range.value.1 <= hi
    && job.tensors == CollectRange(layers, job.range.value.0, job.range.value.1 + 1)
    && job.fileName == DataPrefix + NatToDecimal(if split then job.range.value.0 else index)
  }

  /** The layer groups of windows within `lo ..= hi`, numbered in legacy
      mode by consecutive data indices from `idx`. */
  lemma {:induction false} LayerJobsShape(layers: map<nat, seq<TensorProto>>, ws: seq<Window>, split: bool, idx: nat, lo: nat, hi: nat)
    requires forall i :: 0 <= i < |ws| ==> lo <= ws[i].start <= ws[i].end <= hi
    ensures forall i :: 0 <= i < |LayerJobs(layers, ws, split, idx)| ==>
      IsGroup(LayerJobs(layers, ws, split, idx)[i], layers, lo, hi, split, idx + i)
  {
    if ws != [] {
      var w, ws' := ws[0], ws[1..];
      var job := LayerJob(layers, w, split, idx);
      assert forall i :: 0 <= i < |ws'| ==> lo <= ws'[i].start <= ws'[i].end <= hi by {
        forall i | 0 <= i < |ws'| ensures lo <= ws'[i].start <= ws'[i].end <= hi {
          assert ws'[i] == ws[i + 1];
        }
      }
      var next := if job.tensors == [] then idx else idx + 1;
      LayerJobsShape(layers, ws', split, next, lo, hi);
      var rest := LayerJobs(layers, ws', split, next);
      if job.tensors != [] {
        assert lo <= w.start <= w.end <= hi;
        GroupsCons(job, rest, layers, lo, hi, split, idx);
      }
    }
  }

  lemma GroupsCons(job: Job, rest: seq<Job>, layers: map<nat, seq<TensorProto>>, lo: nat, hi: nat, split: bool, idx: nat)
    requires IsGroup(job, layers, lo, hi, split, idx)
    requires forall i :: 0 <= i < |rest| ==> IsGroup(rest[i], layers, lo, hi, split, idx + 1 + i)
    ensures forall i :: 0 <= i < |[job] + rest| ==> IsGroup(([job] + rest)[i], layers, lo, hi, split, idx + i)
  {
    var jobs := [job] + rest;
    forall i | 0 <= i < |jobs|
      ensures IsGroup(jobs[i], layers, lo, hi, split, idx + i)
    {
      if i > 0 {
        assert jobs[i] == rest[i - 1] && idx + 1 + (i - 1) == idx + i;
      }
    }
  }

  /** Windows starting at `lo` or later give groups whose ranges do too. */
  lemma {:induction false} LayerJobsFrom(layers: map<nat, seq<TensorProto>>, ws: seq<Window>, split: bool, idx: nat, lo: nat)
    requires forall i :: 0 <= i < |ws| ==> lo <= ws[i].start
    ensures forall i :: 0 <= i < |LayerJobs(layers, ws, split, idx)| ==>
      var job := LayerJobs(layers, ws, split, idx)[i];
      job.range.Some? && lo <= job.range.value.0
  {
    if ws != [] {
      var job := LayerJob(layers, ws[0], split, idx);
      var ws' := ws[1..];
      assert forall i :: 0 <= i < |ws'| ==> ws'[i] == ws[i + 1];
      if job.tensors == [] {
        LayerJobsFrom(layers, ws', split, idx, lo);
        assert LayerJobs(layers, ws, split, idx) == LayerJobs(layers, ws', split, idx);
      } else {
        LayerJobsFrom(layers, ws', split, idx + 1, lo);
        var rest := LayerJobs(layers, ws', split, idx + 1);
        assert LayerJobs(layers, ws, split, idx) == [job] + rest;
        assert forall i :: 1 <= i < |rest| + 1 ==> ([job] + rest)[i] == rest[i - 1];
      }
    }
  }

  /** Ordered windows give layer groups whose ranges strictly increase. */
  lemma {:induction false} LayerJobsOrdered(layers: map<nat, seq<TensorProto>>, ws: seq<Window>, split: bool, idx: nat)
    requires forall i :: 0 <= i < |ws| ==> ws[i].start <= ws[i].end
    requires forall i, j :: 0 <= i < j < |ws| ==> ws[i].end < ws[j].start
    ensures RangesIncrease(LayerJobs(layers, ws, split, idx))
  {
    if ws != [] {
      var job := LayerJob(layers, ws[0], split, idx);
      var ws' := ws[1..];
      assert forall i :: 0 <= i < |ws'| ==> ws'[i] == ws[i + 1];
      if job.tensors == [] {
        LayerJobsOrdered(layers, ws', split, idx);
        assert LayerJobs(layers, ws, split, idx) == LayerJobs(layers, ws', split, idx);
      } else {
        LayerJobsOrdered(layers, ws', split, idx + 1);
        LayerJobsFrom(layers, ws', split, idx + 1, ws[0].end + 1);
        var rest := LayerJobs(layers, ws', split, idx + 1);
        assert LayerJobs(layers, ws, split, idx) == [job] + rest;
        RangesIncreaseCons(job, rest);
      }
    }
  }

  /** A job whose range ends before every later range starts keeps the
      ranges increasing. */
  lemma RangesIncreaseCons(job: Job, rest: seq<Job>)
    requires RangesIncrease(rest)
    requires job.range.Some? ==>
      forall i :: 0 <= i < |rest| && rest[i].range.Some? ==> job.range.value.1 < rest[i].range.value.0
    ensures RangesIncrease([job] + rest)
  {
    var js := [job] + rest;
    forall i, j | 0 <= i < j < |js| && js[i].range.Some? && js[j].range.Some?
      ensures js[i].range.value.1 < js[j].range.value.0
    {
      assert js[j] == rest[j - 1];
      if i > 0 {
        assert js[i] == rest[i - 1];
      }
    }
  }

  /** Orders the shard kinds as `write_shards` emits them. */
  function Rank(kind: ShardKind): nat {
    match kind
    case EmbedShard => 0
    case LayerShard => 1
    case LmHeadShard => 2
  }

  lemma GroupWindowsOrdered(maxLayer: int, k: int)
    ensures forall i :: 0 <= i < |GroupWindows(maxLayer, k)| ==>
      GroupWindows(maxLayer, k)[i].start <= GroupWindows(maxLayer, k)[i].end <= maxLayer
    ensures forall i, j :: 0 <= i < j < |GroupWindows(maxLayer, k)| ==>
      GroupWindows(maxLayer, k)[i].end < GroupWindows(maxLayer, k)[j].start
  {
    if maxLayer >= 0 && k >= 1 {
      WindowsTile(0, maxLayer + 1, k);
      WindowsOrdered(Windows(maxLayer + 1, k), maxLayer + 1, k);
    }
  }

  /** Each layer shard's range ends before the next one's begins. */
  predicate RangesIncrease(jobs: seq<Job>) {
    forall i, j :: 0 <= i < j < |jobs| ==>
      jobs[i].range.Some? && jobs[j].range.Some? ==> jobs[i].range.value.1 < jobs[j].range.value.0
  }

  /** Embed first, lm_head last, the layer groups between them. */
  predicate KindsInOrder(jobs: seq<Job>) {
    && (forall i, j :: 0 <= i < j < |jobs| ==> Rank(jobs[i].kind) <= Rank(jobs[j].kind))
    && (forall i :: 0 <= i < |jobs| && jobs[i].kind == EmbedShard ==> i == 0)
    && (forall i :: 0 <= i < |jobs| && jobs[i].kind == LmHeadShard ==> i == |jobs| - 1)
  }

  /** Exactly the layer shards carry a range; it lies within
      `0 ..= maxLayer` and the shard holds that range's layers. */
  predicate RangesWithin(jobs: seq<Job>, layers: map<nat, seq<TensorProto>>, maxLayer: int) {
    forall i :: 0 <= i < |jobs| ==>
      && (jobs[i].kind == LayerShard <==> jobs[i].range.Some?)
      && (jobs[i].range.Some? ==>
            && 0 <= jobs[i].range.value.0 <= jobs[i].range.value.1 <= maxLayer
            && jobs[i].tensors == CollectRange(layers, jobs[i].range.value.0, jobs[i].range.value.1 + 1))
  }

  /** Every shard written is non-empty, and embed comes first, then the
      layer groups, then lm_head. */
  lemma PlanOrder(r: ClassifyResult, k: int, split: bool)
    ensures forall i :: 0 <= i < |Plan(r, k, split)| ==> Plan(r, k, split)[i].tensors != []
    ensures KindsInOrder(Plan(r, k, split))
  {
    var head, tail := HeadJobs(r, split), TailJobs(r, split);
    var ws := GroupWindows(r.maxLayer, k);
    var mid := LayerJobs(r.layers, ws, split, |head|);
    GroupWindowsOrdered(r.maxLayer, k);
    LayerJobsShape(r.layers, ws, split, |head|, 0, if r.maxLayer < 0 then 0 else r.maxLayer);
    assert forall i :: 0 <= i < |mid| ==> mid[i].tensors != [] && mid[i].kind == LayerShard;
    ThreePartsOrder(head, mid, tail);
  }

  /** At most one embed shard, then layer shards, then at most one lm_head
      shard, all non-empty: the kinds come in order. */
  lemma ThreePartsOrder(head: seq<Job>, mid: seq<Job>, tail: seq<Job>)
    requires |head| <= 1 && |tail| <= 1
    requires forall i :: 0 <= i < |head| ==> head[i].tensors != [] && head[i].kind == EmbedShard
    requires forall i :: 0 <= i < |mid| ==> mid[i].tensors != [] && mid[i].kind == LayerShard
    requires forall i :: 0 <= i < |tail| ==> tail[i].tensors != [] && tail[i].kind == LmHeadShard
    ensures forall i :: 0 <= i < |head + mid + tail| ==> (head + mid + tail)[i].tensors != []
    ensures KindsInOrder(head + mid + tail)
  {
    var p := head + mid + tail;
    forall i | 0 <= i < |p|
      ensures p[i].tensors != []
      ensures Rank(p[i].kind) == if i < |head| then 0 else if i < |head| + |mid| then 1 else 2
    {
      if i < |head| {
        assert p[i] == head[i];
      } else if i < |head| + |mid| {
        assert p[i] == mid[i - |head|];
      } else {
        assert p[i] == tail[i - |head| - |mid|];
      }
    }
  }

  /** Exactly the layer shards carry a range; each lies within
      `0 ..= max_layer` and the shard holds exactly that range's layers. */
  lemma PlanRanges(r: ClassifyResult, k: int, split: bool)
    ensures RangesWithin(Plan(r, k, split), r.layers, r.maxLayer)
  {
    var head, tail := HeadJobs(r, split), TailJobs(r, split);
    var ws := GroupWindows(r.maxLayer, k);
    var mid := LayerJobs(r.layers, ws, split, |head|);
    GroupWindowsOrdered(r.maxLayer, k);
    LayerJobsShape(r.layers, ws, split, |head|, 0, if r.maxLayer < 0 then 0 else r.maxLayer);
    var p := head + mid + tail;
    assert |mid| > 0 ==> r.maxLayer >= 0;
    forall i | 0 <= i < |p|
      ensures p[i].kind == LayerShard <==> p[i].range.Some?
      ensures p[i].range.Some? ==>
        && 0 <= p[i].range.value.0 <= p[i].range.value.1 <= r.maxLayer
        && p[i].tensors == CollectRange(r.layers, p[i].range.value.0, p[i].range.value.1 + 1)
    {
      if i < |head| {
        assert p[i] == head[0];
      } else if i < |head| + |mid| {
        assert p[i] == mid[i - |head|];
      } else {
        assert p[i] == tail[0];
      }
    }
  }

  /** The layer ranges ascend without overlap. */
  lemma PlanRangesIncrease(r: ClassifyResult, k: int, split: bool)
    ensures RangesIncrease(Plan(r, k, split))
  {
    var head, tail := HeadJobs(r, split), TailJobs(r, split);
    var ws := GroupWindows(r.maxLayer, k);
    var mid := LayerJobs(r.layers, ws, split, |head|);
    GroupWindowsOrdered(r.maxLayer, k);
    LayerJobsOrdered(r.layers, ws, split, |head|);
    assert forall i :: 0 <= i < |head| ==> head[i].range.None?;
    assert forall i :: 0 <= i < |tail| ==> tail[i].range.None?;
    ThreePartsRanges(head, mid, tail);
  }

  /** Shards without a range around layer shards whose ranges ascend. */
  lemma ThreePartsRanges(head: seq<Job>, mid: seq<Job>, tail: seq<Job>)
    requires forall i :: 0 <= i < |head| ==> head[i].range.None?
    requires forall i :: 0 <= i < |tail| ==> tail[i].range.None?
    requires RangesIncrease(mid)
    ensures RangesIncrease(head + mid + tail)
  {
    var p := head + mid + tail;
    forall i | 0 <= i < |p| && !(|head| <= i < |head| + |mid|)
      ensures p[i].range.None?
    {
      if i < |head| {
        assert p[i] == head[i];
      } else {
        assert p[i] == tail[i - |head| - |mid|];
      }
    }
    forall i, j | 0 <= i < j < |p| && p[i].range.Some? && p[j].range.Some?
      ensures p[i].range.value.1 < p[j].range.value.0
    {
      assert p[i] == mid[i - |head|] && p[j] == mid[j - |head|];
    }
  }

  /** Legacy mode numbers the data files 0, 1, 2, ... with no gap: the base
      shard, when there is one, takes 0, and an empty group takes no number. */
  lemma PlanLegacyNumbering(r: ClassifyResult, k: int)
    ensures forall j :: 0 <= j < |Plan(r, k, false)| ==> Plan(r, k, false)[j].fileName == DataPrefix + NatToDecimal(j)
  {
    var head, tail := HeadJobs(r, false), TailJobs(r, false);
    var ws := GroupWindows(r.maxLayer, k);
    var mid := LayerJobs(r.layers, ws, false, |head|);
    GroupWindowsOrdered(r.maxLayer, k);
    var hi: nat := if r.maxLayer < 0 then 0 else r.maxLayer;
    LayerJobsShape(r.layers, ws, false, |head|, 0, hi);
    assert tail == [];
    var p := head + mid;
    assert Plan(r, k, false) == p;
    forall j | 0 <= j < |p| ensures p[j].fileName == DataPrefix + NatToDecimal(j) {
      if j < |head| {
        assert p[j] == BaseJob(r);
      } else {
        assert p[j] == mid[j - |head|];
        assert IsGroup(mid[j - |head|], r.layers, 0, hi, false, |head| + (j - |head|));
      }
    }
  }

  /** Split mode names the data files after the embed shard, the first
      layer of each group, and the lm_head shard. */
  lemma PlanSplitNames(r: ClassifyResult, k: int)
    ensures forall j :: 0 <= j < |Plan(r, k, true)| ==>
      var job := Plan(r, k, true)[j];
      && (job.kind == EmbedShard ==> job.fileName == EmbedFileName)
      && (job.kind == LmHeadShard ==> job.fileName == LmHeadFileName)
      && (job.kind == LayerShard ==>
            job.range.Some? && job.range.value.0 >= 0 && job.fileName == DataPrefix + NatToDecimal(job.range.value.0))
  {
    var head, tail := HeadJobs(r, true), TailJobs(r, true);
    var ws := GroupWindows(r.maxLayer, k);
    var mid := LayerJobs(r.layers, ws, true, |head|);
    GroupWindowsOrdered(r.maxLayer, k);
    LayerJobsShape(r.layers, ws, true, |head|, 0, if r.maxLayer < 0 then 0 else r.maxLayer);
    var p := head + mid + tail;
    assert forall i :: 0 <= i < |head| ==> p[i] == EmbedJob(r);
    assert forall i :: |head| <= i < |head| + |mid| ==> p[i] == mid[i - |head|];
    assert forall i :: |head| + |mid| <= i < |p| ==> p[i] == LmHeadJob(r);
  }

  /** Names after the data-file prefix differ when what follows it does. */
  lemma DataNamesDiffer(a: string, b: string)
    requires a != b
    ensures DataPrefix + a != DataPrefix + b
  {
    assert (DataPrefix + a)[|DataPrefix|..] == a && (DataPrefix + b)[|DataPrefix|..] == b;
  }

  lemma WordsAreNotNumbers(n: nat)
    ensures EmbedFileName != DataPrefix + NatToDecimal(n)
    ensures LmHeadFileName != DataPrefix + NatToDecimal(n)
    ensures EmbedFileName != LmHeadFileName
  {
    var d := NatToDecimal(n);
    assert !IsDigit("embed"[0]) && !IsDigit("lm_head"[0]) && IsDigit(d[0]);
    DataNamesDiffer("embed", d);
    DataNamesDiffer("lm_head", d);
    DataNamesDiffer("embed", "lm_head");
  }

  lemma NumberedNamesDiffer(a: nat, b: nat)
    requires a != b
    ensures DataPrefix + NatToDecimal(a) != DataPrefix + NatToDecimal(b)
  {
    if NatToDecimal(a) == NatToDecimal(b) {
      NatToDecimalInjective(a, b);
    }
    DataNamesDiffer(NatToDecimal(a), NatToDecimal(b));
  }

  /** No two shards share a data file, in either mode. */
  lemma PlanNamesDistinct(r: ClassifyResult, k: int, split: bool)
    ensures NamesDistinct(Plan(r, k, split))
  {
    var p := Plan(r, k, split);
    if split {
      PlanSplitNames(r, k);
      PlanOrder(r, k, true);
      PlanRanges(r, k, true);
      PlanRangesIncrease(r, k, true);
      forall i, j | 0 <= i < j < |p|
        ensures p[i].fileName != p[j].fileName
      {
        match p[i].kind {
          case EmbedShard =>
            if p[j].kind == LayerShard {
              WordsAreNotNumbers(p[j].range.value.0);
            } else if p[j].kind == LmHeadShard {
              WordsAreNotNumbers(0);
            }
          case LayerShard =>
            if p[j].kind == LayerShard {
              NumberedNamesDiffer(p[i].range.value.0, p[j].range.value.0);
            } else if p[j].kind == LmHeadShard {
              WordsAreNotNumbers(p[i].range.value.0);
            }
          case LmHeadShard =>
        }
      }
    } else {
      PlanLegacyNumbering(r, k);
      forall i, j | 0 <= i < j < |p|
        ensures p[i].fileName != p[j].fileName
      {
        NumberedNamesDiffer(i, j);
      }
    }
  }
}
