// What a successful `run` produces, and how it fails.

module ShardProperties {
  import opened Wrappers
  import opened Text
  import opened Seqs
  import opened Storage
  import opened Classify
  import opened LayerWindows
  import opened TensorIo
  import opened ManifestCore
  import opened Discovery
  import opened Partition
  import opened ChunkPlan
  import opened Shard

  /** `written[i]` is what loading, serializing and writing `plan[i]` gave. */
  predicate Realizes(files: seq<SourceFile>, codec: Codec, unwritable: set<string>,
                     plan: seq<PlannedChunk>, written: seq<Written>) {
    |written| == |plan| &&
    forall i :: 0 <= i < |plan| ==> ChunkOutcome(files, codec, unwritable, plan[i]) == Ok(written[i])
  }

  /** The chunk files a run plans: the base chunk, then one per occupied
      window. */
  function RunPlan(b: Buckets, k: nat): seq<PlannedChunk>
    requires k >= 1
  {
    [BaseChunk(b.base)] + LayerPlan(b.layers, Windows(b.maxLayer + 1, k))
  }

  lemma RealizesCons(files: seq<SourceFile>, codec: Codec, unwritable: set<string>,
                      c: PlannedChunk, w: Written, plan: seq<PlannedChunk>, written: seq<Written>)
    requires ChunkOutcome(files, codec, unwritable, c) == Ok(w)
    requires Realizes(files, codec, unwritable, plan, written)
    ensures Realizes(files, codec, unwritable, [c] + plan, [w] + written)
  {
    forall i | 0 <= i < |[c] + plan|
      ensures ChunkOutcome(files, codec, unwritable, ([c] + plan)[i]) == Ok(([w] + written)[i])
    {
      if i > 0 {
        assert ([c] + plan)[i] == plan[i - 1] && ([w] + written)[i] == written[i - 1];
      }
    }
  }

  /** A written chunk's manifest entry carries the planned id, name and
      layer range, and the size and digest of exactly the bytes the codec
      serialized from the loaded tensors. */
  lemma ChunkOutcomeEntry(files: seq<SourceFile>, codec: Codec, unwritable: set<string>, c: PlannedChunk, w: Written)
    requires ChunkOutcome(files, codec, unwritable, c) == Ok(w)
    ensures LoadSpec(files, c.locs).Ok?
    ensures Serialized(codec.serialize, LoadSpec(files, c.locs).value) == Ok(w.bytes)
    ensures c.fileName !in unwritable
    ensures w.entry == ManifestChunk(c.id, c.fileName, c.layerStart, c.layerEnd, |w.bytes|, codec.digest(w.bytes), "")
  {
  }

  /** A successful window loop wrote exactly the chunks of the occupied
      windows, in window order. */
  lemma {:induction false} WindowOutcomesRealize(files: seq<SourceFile>, codec: Codec, unwritable: set<string>,
                                                 layers: map<nat, seq<TensorLocation>>, ws: seq<Window>, k: nat)
    requires WindowOutcomes(files, codec, unwritable, layers, ws, k).Ok?
    ensures Realizes(files, codec, unwritable, LayerPlan(layers, ws), WindowOutcomes(files, codec, unwritable, layers, ws, k).value)
    decreases |ws|
  {
    if ws != [] {
      var w, rest := ws[0], ws[1..];
      assert ws == [w] + rest;
      var c := WindowChunk(layers, w);
      var tail := WindowOutcomes(files, codec, unwritable, layers, rest, k).value;
      var first := ChunkStep(files, codec, unwritable, c).value;
      assert WindowOutcomes(files, codec, unwritable, layers, ws, k).value == first + tail;
      LayerPlanCons(layers, w, rest);
      WindowOutcomesRealize(files, codec, unwritable, layers, rest, k);
      if c.locs != [] {
        assert first == [ChunkOutcome(files, codec, unwritable, c).value];
        RealizesCons(files, codec, unwritable, c, first[0], LayerPlan(layers, rest), tail);
      } else {
        assert first + tail == tail;
      }
    }
  }

  /** The part of a run before any chunk is written succeeded. */
  predicate Reached(inputIsDir: bool, entries: seq<DirEntry>) {
    && inputIsDir && Discover(entries).Ok? && Scan(Discover(entries).value).Ok?
    && Scan(Discover(entries).value).value.maxLayer + 1 <= U32Max
  }

  /** A run either fails before writing anything, with one of the early
      errors, or goes on to publish the scanned buckets. */
  lemma RunIsPublish(args: Args, inputIsDir: bool, entries: seq<DirEntry>, codec: Codec, unwritable: set<string>)
    ensures !Reached(inputIsDir, entries) ==>
      && RunSpec(args, inputIsDir, entries, codec, unwritable).Err?
      && var e := RunSpec(args, inputIsDir, entries, codec, unwritable).error;
         e.InputNotDirectory? || e.DiscoveryFailed? || e.ScanFailed? || e.ArithmeticOverflow?
    ensures Reached(inputIsDir, entries) ==>
      RunSpec(args, inputIsDir, entries, codec, unwritable) ==
        Publish(args, Discover(entries).value, Scan(Discover(entries).value).value, codec, unwritable)
  {
  }

  /** A successful publish wrote the planned chunks in order with
      `layers_per_chunk >= 1`; the manifest lists them and passes
      validation. */
  lemma PublishOk(args: Args, files: seq<SourceFile>, b: Buckets, codec: Codec, unwritable: set<string>)
    requires Publish(args, files, b, codec, unwritable).Ok?
    ensures args.layersPerChunk >= 1
    ensures var out := Publish(args, files, b, codec, unwritable).value;
      && Realizes(files, codec, unwritable, RunPlan(b, args.layersPerChunk), out.chunks)
      && out.manifest == MakeManifest(args, out.chunks)
      && Validate(out.manifest).Ok?
      && ManifestFileName !in unwritable
  {
    var k := args.layersPerChunk;
    var base := ChunkOutcome(files, codec, unwritable, BaseChunk(b.base)).value;
    var layerChunks := LayerOutcomes(files, codec, unwritable, b.layers, b.maxLayer + 1, k).value;
    assert Publish(args, files, b, codec, unwritable).value.chunks == [base] + layerChunks;
    WindowOutcomesRealize(files, codec, unwritable, b.layers, Windows(b.maxLayer + 1, k), k);
    RealizesCons(files, codec, unwritable, BaseChunk(b.base), base, LayerPlan(b.layers, Windows(b.maxLayer + 1, k)), layerChunks);
  }

  /** Validation never rejects what `run` hands it: the base chunk makes the
      list non-empty, and the window loop only finishes when
      `layers_per_chunk >= 1`. */
  lemma PublishNeverInvalid(args: Args, files: seq<SourceFile>, b: Buckets, codec: Codec, unwritable: set<string>)
    ensures !Publish(args, files, b, codec, unwritable).Err? || !Publish(args, files, b, codec, unwritable).error.Invalid?
  {
    var base := ChunkOutcome(files, codec, unwritable, BaseChunk(b.base));
    var k := args.layersPerChunk;
    var lo := LayerOutcomes(files, codec, unwritable, b.layers, b.maxLayer + 1, k);
    if base.Err? || lo.Err? {
      PublishChunksFail(args, files, b, codec, unwritable);
      if base.Ok? && k >= 1 {
        WindowOutcomesErrors(files, codec, unwritable, b.layers, Windows(b.maxLayer + 1, k), k);
      }
    } else {
      PublishAfterChunks(args, files, b, codec, unwritable, base.value, lo.value);
      assert k >= 1;
    }
  }

  /** The window loop fails only on a chunk write or an overflow. */
  lemma {:induction false} WindowOutcomesErrors(files: seq<SourceFile>, codec: Codec, unwritable: set<string>,
                                                layers: map<nat, seq<TensorLocation>>, ws: seq<Window>, k: nat)
    requires WindowOutcomes(files, codec, unwritable, layers, ws, k).Err?
    ensures var e := WindowOutcomes(files, codec, unwritable, layers, ws, k).error;
      e.ChunkFailed? || e.ArithmeticOverflow?
    decreases |ws|
  {
    if ws[0].start + k <= U32Max && ChunkStep(files, codec, unwritable, WindowChunk(layers, ws[0])).Ok? {
      WindowOutcomesErrors(files, codec, unwritable, layers, ws[1..], k);
    }
  }

  lemma RunNeverInvalid(args: Args, inputIsDir: bool, entries: seq<DirEntry>, codec: Codec, unwritable: set<string>)
    ensures !RunSpec(args, inputIsDir, entries, codec, unwritable).Err?
         || !RunSpec(args, inputIsDir, entries, codec, unwritable).error.Invalid?
  {
    RunIsPublish(args, inputIsDir, entries, codec, unwritable);
    if Reached(inputIsDir, entries) {
      PublishNeverInvalid(args, Discover(entries).value, Scan(Discover(entries).value).value, codec, unwritable);
    }
  }

  /** Every tensor lands in exactly one planned chunk: the base chunk
      followed by the window chunks hold the same multiset of tensors as
      the partitioned list. */
  lemma PlanEveryTensorOnce(ls: seq<TensorLocation>, b: Buckets, k: nat)
    requires k >= 1 && Partitions(ls, b) && AllClassified(ls)
    ensures multiset(Concat(LocsOf(RunPlan(b, k)))) == multiset(ls)
  {
    EveryTensorOnceOverall(ls, b);
    RunPlanContents(b, k);
  }

  /** The plan's chunks, read in order, hold the base tensors and then
      every layer's tensors in ascending layer order. */
  lemma RunPlanContents(b: Buckets, k: nat)
    requires k >= 1
    ensures Concat(LocsOf(RunPlan(b, k))) == b.base + CollectRange(b.layers, 0, b.maxLayer + 1)
  {
    var total := b.maxLayer + 1;
    var layerPlan := LayerPlan(b.layers, Windows(total, k));
    assert RunPlan(b, k) == [BaseChunk(b.base)] + layerPlan;
    ConcatLocsCons(BaseChunk(b.base), layerPlan);
    LayerPlanDrainsAll(b.layers, total, k);
  }

  lemma ConcatLocsCons(c: PlannedChunk, plan: seq<PlannedChunk>)
    ensures Concat(LocsOf([c] + plan)) == c.locs + Concat(LocsOf(plan))
  {
    assert ([c] + plan)[1..] == plan;
    assert LocsOf([c] + plan) == [c.locs] + LocsOf(plan);
    ConcatCons(c.locs, LocsOf(plan));
  }

  /** A successful run read a directory whose safetensors files all parse
      and whose names all classify, and its chunks hold every tensor of
      those files exactly once. */
  lemma RunEveryTensorOnce(args: Args, inputIsDir: bool, entries: seq<DirEntry>, codec: Codec, unwritable: set<string>)
    requires RunSpec(args, inputIsDir, entries, codec, unwritable).Ok?
    ensures Reached(inputIsDir, entries) && args.layersPerChunk >= 1
    ensures var files := Discover(entries).value;
      var b := Scan(files).value;
      && AllHeadersParse(files, |files|) && AllClassified(AllLocs(files, |files|))
      && Realizes(files, codec, unwritable, RunPlan(b, args.layersPerChunk), RunSpec(args, inputIsDir, entries, codec, unwritable).value.chunks)
      && multiset(Concat(LocsOf(RunPlan(b, args.layersPerChunk)))) == multiset(AllLocs(files, |files|))
  {
    RunIsPublish(args, inputIsDir, entries, codec, unwritable);
    var files := Discover(entries).value;
    var b := Scan(files).value;
    PublishOk(args, files, b, codec, unwritable);
    ScanMeaning(files);
    PlanEveryTensorOnce(AllLocs(files, |files|), b, args.layersPerChunk);
  }

  /** The planned chunk files have pairwise distinct names, none of them
      `manifest.json`. */
  lemma RunPlanNamesDistinct(b: Buckets, k: nat)
    requires k >= 1
    ensures var plan := RunPlan(b, k);
      && (forall i, j :: 0 <= i < j < |plan| ==> plan[i].fileName != plan[j].fileName)
      && (forall i :: 0 <= i < |plan| ==> plan[i].fileName != ManifestFileName)
  {
    var layerPlan := LayerPlan(b.layers, Windows(b.maxLayer + 1, k));
    LayerPlanDistinct(b.layers, b.maxLayer + 1, k);
    LayerPlanShape(b.layers, b.maxLayer + 1, k);
    forall i | 0 <= i < |layerPlan|
      ensures layerPlan[i].fileName != BaseFileName && layerPlan[i].fileName != ManifestFileName
    {
      ChunkFileNameReserved(RangeOf(layerPlan[i]));
    }
    NamesDistinctCons(BaseChunk(b.base), layerPlan);
  }

  lemma NamesDistinctCons(c: PlannedChunk, plan: seq<PlannedChunk>)
    requires forall i, j :: 0 <= i < j < |plan| ==> plan[i].fileName != plan[j].fileName
    requires forall i :: 0 <= i < |plan| ==> plan[i].fileName != c.fileName && plan[i].fileName != ManifestFileName
    requires c.fileName != ManifestFileName
    ensures var p := [c] + plan;
      && (forall i, j :: 0 <= i < j < |p| ==> p[i].fileName != p[j].fileName)
      && (forall i :: 0 <= i < |p| ==> p[i].fileName != ManifestFileName)
  {
    var p := [c] + plan;
    forall i | 1 <= i < |p| ensures p[i] == plan[i - 1] {}
  }

  /** With distinct names, the directory holds each written chunk's bytes
      under its name. */
  lemma {:induction false} StoredHoldsEach(files: map<string, seq<byte>>, ws: seq<Written>, i: nat)
    requires i < |ws|
    requires forall a, b :: 0 <= a < b < |ws| ==> ws[a].entry.filename != ws[b].entry.filename
    ensures ws[i].entry.filename in Stored(files, ws) && Stored(files, ws)[ws[i].entry.filename] == ws[i].bytes
    decreases |ws|
  {
    if i < |ws| - 1 {
      StoredHoldsEach(files, ws[..|ws| - 1], i);
    }
  }

  /** After a successful publish the output directory holds every chunk
      file with exactly the bytes whose length and digest its manifest
      entry records, each entry names its planned chunk, and
      `manifest.json` holds the rendered manifest. */
  lemma PublishWritesEachChunk(args: Args, files: seq<SourceFile>, b: Buckets, codec: Codec,
                               unwritable: set<string>, before: map<string, seq<byte>>)
    requires Publish(args, files, b, codec, unwritable).Ok?
    ensures args.layersPerChunk >= 1
    ensures var out := Publish(args, files, b, codec, unwritable).value;
      var plan := RunPlan(b, args.layersPerChunk);
      var after := Stored(before, out.chunks)[ManifestFileName := codec.render(ManifestToJson(out.manifest))];
      && |out.chunks| == |plan| == |out.manifest.chunks|
      && after[ManifestFileName] == codec.render(ManifestToJson(out.manifest))
      && forall i :: 0 <= i < |plan| ==>
           var e := out.manifest.chunks[i];
           && e.id == plan[i].id && e.filename == plan[i].fileName
           && e.layerStart == plan[i].layerStart && e.layerEnd == plan[i].layerEnd
           && e.filename in after && e.bytes == |after[e.filename]| && e.sha256 == codec.digest(after[e.filename])
           && e.url == ""
  {
    PublishOk(args, files, b, codec, unwritable);
    var out := Publish(args, files, b, codec, unwritable).value;
    var plan := RunPlan(b, args.layersPerChunk);
    RunPlanNamesDistinct(b, args.layersPerChunk);
    var ws := out.chunks;
    forall x, y | 0 <= x < y < |ws| ensures ws[x].entry.filename != ws[y].entry.filename {
      ChunkOutcomeEntry(files, codec, unwritable, plan[x], ws[x]);
      ChunkOutcomeEntry(files, codec, unwritable, plan[y], ws[y]);
    }
    var after := Stored(before, ws)[ManifestFileName := codec.render(ManifestToJson(out.manifest))];
    forall i | 0 <= i < |plan|
      ensures var e := out.manifest.chunks[i];
           && e.id == plan[i].id && e.filename == plan[i].fileName
           && e.layerStart == plan[i].layerStart && e.layerEnd == plan[i].layerEnd
           && e.filename in after && e.bytes == |after[e.filename]| && e.sha256 == codec.digest(after[e.filename])
           && e.url == ""
    {
      ChunkOutcomeEntry(files, codec, unwritable, plan[i], ws[i]);
      StoredHoldsEach(before, ws, i);
      assert out.manifest.chunks[i] == ws[i].entry;
    }
  }

  /** `layers_per_chunk == 0`: once the base chunk is written the first
      window computes `min(0, total) - 1`, which overflows; the run fails
      there and never reaches the depth check of validation. */
  lemma ZeroDepthOverflows(args: Args, files: seq<SourceFile>, b: Buckets, codec: Codec, unwritable: set<string>)
    requires args.layersPerChunk == 0
    requires ChunkOutcome(files, codec, unwritable, BaseChunk(b.base)).Ok?
    ensures Publish(args, files, b, codec, unwritable) == Err(ArithmeticOverflow)
  {
  }

  /** As written, a zero depth never reaches validation's depth check: a
      run that gets past the base chunk fails with an overflow, and no run
      fails with `ZeroMinRunnableDepth`. It leaves `base.safetensors`
      behind: the base chunk is the one file it wrote (see `Shard.Run`'s
      contract on failure). */
  lemma RunZeroDepth(args: Args, inputIsDir: bool, entries: seq<DirEntry>, codec: Codec, unwritable: set<string>,
                      before: map<string, seq<byte>>)
    requires args.layersPerChunk == 0 && Reached(inputIsDir, entries)
    requires ChunkOutcome(Discover(entries).value, codec, unwritable, BaseChunk(Scan(Discover(entries).value).value.base)).Ok?
    ensures RunSpec(args, inputIsDir, entries, codec, unwritable) == Err(ArithmeticOverflow)
    ensures RunSpec(args, inputIsDir, entries, codec, unwritable) != Err(Invalid(ZeroMinRunnableDepth))
    ensures RunTouched(ArithmeticOverflow) == {}
    ensures var base := ChunkOutcome(Discover(entries).value, codec, unwritable, BaseChunk(Scan(Discover(entries).value).value.base)).value;
      var after := Stored(before, RunWrites(args, inputIsDir, entries, codec, unwritable));
      && RunWrites(args, inputIsDir, entries, codec, unwritable) == [base]
      && BaseFileName in after && after[BaseFileName] == base.bytes
  {
    var files := Discover(entries).value;
    var b := Scan(files).value;
    RunIsPublish(args, inputIsDir, entries, codec, unwritable);
    ZeroDepthOverflows(args, files, b, codec, unwritable);
    var base := ChunkOutcome(files, codec, unwritable, BaseChunk(b.base)).value;
    ChunkOutcomeEntry(files, codec, unwritable, BaseChunk(b.base), base);
    assert PublishWrites(args, files, b, codec, unwritable) == [base] + [];
    assert [base][..0] == [];
  }

  /** With the depth checked first, a zero depth is always reported as
      `ZeroMinRunnableDepth`, and any other depth runs as before. */
  lemma CheckedRunDepth(args: Args, inputIsDir: bool, entries: seq<DirEntry>, codec: Codec, unwritable: set<string>)
    ensures args.layersPerChunk == 0 <==>
      CheckedRunSpec(args, inputIsDir, entries, codec, unwritable) == Err(Invalid(ZeroMinRunnableDepth))
    ensures args.layersPerChunk >= 1 ==>
      CheckedRunSpec(args, inputIsDir, entries, codec, unwritable) == RunSpec(args, inputIsDir, entries, codec, unwritable)
  {
    RunNeverInvalid(args, inputIsDir, entries, codec, unwritable);
  }

  /** The ways a run fails before anything is written. */
  lemma RunEarlyErrors(args: Args, inputIsDir: bool, entries: seq<DirEntry>, codec: Codec, unwritable: set<string>)
    ensures !inputIsDir ==> RunSpec(args, inputIsDir, entries, codec, unwritable) == Err(InputNotDirectory)
    ensures inputIsDir && KeepSafetensors(entries) == [] ==>
      RunSpec(args, inputIsDir, entries, codec, unwritable) == Err(DiscoveryFailed(NoSafetensorsFiles))
    ensures inputIsDir && Discover(entries).Ok? && Scan(Discover(entries).value).Err? ==>
      RunSpec(args, inputIsDir, entries, codec, unwritable) == Err(ScanFailed(Scan(Discover(entries).value).error))
  {
    DiscoverMeaning(entries);
  }
}
