/** `run` of the Rust sharder: discover the source files, partition their
    tensors, write the base chunk and one chunk per occupied layer window,
    then validate and write `manifest.json`. A panic of a debug build
    (`u32` overflow) is an error that ends the run. */
module Shard {
  import opened Wrappers
  import opened Text
  import opened Seqs
  import opened Storage
  import opened Classify
  import opened LayerWindows
  import opened TensorIo
  import opened Json
  import opened ManifestCore
  import opened Discovery
  import opened Partition
  import opened ChunkPlan

  /** The command line: `--model-id` and `--layers-per-chunk`. The input and
      output directories are the `entries` and `OutputDir` of `Run`. */
  datatype Args = Args(modelId: string, layersPerChunk: nat)

  /** The libraries `run` calls: `safetensors::serialize`, the digest
      (SHA-256 as lowercase hex) and `serde_json::to_string_pretty`. */
  datatype Codec = Codec(
    serialize: seq<OwnedTensor> -> Option<seq<byte>>,
    digest: seq<byte> -> string,
    render: Value -> seq<byte>)

  datatype RunError =
    | InputNotDirectory
    | DiscoveryFailed(discovery: DiscoveryError)
    | ScanFailed(scan: ScanError)
    | ChunkFailed(io: IoError)
    | ArithmeticOverflow
    | Invalid(validation: ValidationError)
    | ManifestWriteFailed

  /** A chunk file written: its manifest entry and its bytes. */
  datatype Written = Written(entry: ManifestChunk, bytes: seq<byte>)

  /** Loading, serializing and writing one planned chunk. */
  function ChunkOutcome(files: seq<SourceFile>, codec: Codec, unwritable: set<string>, c: PlannedChunk): Result<Written, IoError> {
    var tensors :- LoadSpec(files, c.locs);
    var bytes :- Serialized(codec.serialize, tensors);
    if c.fileName in unwritable then Err(WriteFailed(c.fileName))
    else Ok(Written(ManifestChunk(c.id, c.fileName, c.layerStart, c.layerEnd, |bytes|, codec.digest(bytes), ""), bytes))
  }

  function ChunkStep(files: seq<SourceFile>, codec: Codec, unwritable: set<string>, c: PlannedChunk): Result<seq<Written>, RunError> {
    if c.locs == [] then Ok([])
    else
      match ChunkOutcome(files, codec, unwritable, c)
      case Err(e) => Err(ChunkFailed(e))
      case Ok(w) => Ok([w])
  }

  /** The window loop from window `ws[0]` on: `chunk_start + layers_per_chunk`
      must fit a `u32`, an empty window is skipped, and the first failure
      ends the loop. */
  function WindowOutcomes(files: seq<SourceFile>, codec: Codec, unwritable: set<string>,
                          layers: map<nat, seq<TensorLocation>>, ws: seq<Window>, k: nat): Result<seq<Written>, RunError>
  {
    if ws == [] then Ok([])
    else if ws[0].start + k > U32Max then Err(ArithmeticOverflow)
    else
      var first :- ChunkStep(files, codec, unwritable, WindowChunk(layers, ws[0]));
      var rest :- WindowOutcomes(files, codec, unwritable, layers, ws[1..], k);
      Ok(first + rest)
  }

  /** The window loop over `[0, total)`; with `k == 0` the first window's
      `min(..) - 1` is `0 - 1`, which overflows. */
  function LayerOutcomes(files: seq<SourceFile>, codec: Codec, unwritable: set<string>,
                         layers: map<nat, seq<TensorLocation>>, total: nat, k: nat): Result<seq<Written>, RunError>
  {
    if total == 0 then Ok([])
    else if k == 0 then Err(ArithmeticOverflow)
    else WindowOutcomes(files, codec, unwritable, layers, Windows(total, k), k)
  }

  function Entries(ws: seq<Written>): (es: seq<ManifestChunk>)
    ensures |es| == |ws| && forall i :: 0 <= i < |ws| ==> es[i] == ws[i].entry
  {
    if ws == [] then [] else Entries(ws[..|ws| - 1]) + [ws[|ws| - 1].entry]
  }

  /** The output directory after the chunk files `ws` were written in order. */
  function Stored(files: map<string, seq<byte>>, ws: seq<Written>): map<string, seq<byte>> {
    if ws == [] then files
    else Stored(files, ws[..|ws| - 1])[ws[|ws| - 1].entry.filename := ws[|ws| - 1].bytes]
  }

  function MakeManifest(args: Args, chunks: seq<Written>): ModelManifest {
    ModelManifest(args.modelId, "1.0.0", "auto", args.layersPerChunk, Entries(chunks))
  }

  /** What a successful run leaves: the manifest and the chunk files, base
      first. */
  datatype RunOutput = RunOutput(manifest: ModelManifest, chunks: seq<Written>)

  /** `run`, step by step; each step's failure ends it. */
  function RunSpec(args: Args, inputIsDir: bool, entries: seq<DirEntry>, codec: Codec, unwritable: set<string>): Result<RunOutput, RunError> {
    if !inputIsDir then Err(InputNotDirectory)
    else
      match Discover(entries)
      case Err(e) => Err(DiscoveryFailed(e))
      case Ok(files) =>
        match Scan(files)
        case Err(e) => Err(ScanFailed(e))
        case Ok(b) =>
          if b.maxLayer + 1 > U32Max then Err(ArithmeticOverflow)
          else Publish(args, files, b, codec, unwritable)
  }

  /** The part of `run` after the partition: the base chunk, the window
      loop, validation and `manifest.json`. */
  function Publish(args: Args, files: seq<SourceFile>, b: Buckets, codec: Codec, unwritable: set<string>): Result<RunOutput, RunError> {
    match ChunkOutcome(files, codec, unwritable, BaseChunk(b.base))
    case Err(e) => Err(ChunkFailed(e))
    case Ok(base) =>
      var layerChunks :- LayerOutcomes(files, codec, unwritable, b.layers, b.maxLayer + 1, args.layersPerChunk);
      var m := MakeManifest(args, [base] + layerChunks);
      match Validate(m)
      case Err(e) => Err(Invalid(e))
      case Ok(_) =>
        if ManifestFileName in unwritable then Err(ManifestWriteFailed)
        else Ok(RunOutput(m, [base] + layerChunks))
  }

  // -----------------------------------------------------------------------
  // What a failed run leaves behind
  // -----------------------------------------------------------------------

  /** The file a failed run may have left truncated or partly written: the
      one whose write failed. */
  function RunTouched(e: RunError): set<string> {
    match e
    case ChunkFailed(io) => Touched(io)
    case ManifestWriteFailed => {ManifestFileName}
    case _ => {}
  }

  /** The chunk files the window loop from `ws[0]` on writes before it
      ends, in order: every chunk when it succeeds, the chunks of the
      windows before the failing one when it fails. */
  function WindowWrites(files: seq<SourceFile>, codec: Codec, unwritable: set<string>,
                        layers: map<nat, seq<TensorLocation>>, ws: seq<Window>, k: nat): seq<Written>
  {
    if ws == [] || ws[0].start + k > U32Max then []
    else
      match ChunkStep(files, codec, unwritable, WindowChunk(layers, ws[0]))
      case Err(_) => []
      case Ok(first) => first + WindowWrites(files, codec, unwritable, layers, ws[1..], k)
  }

  function LayerWrites(files: seq<SourceFile>, codec: Codec, unwritable: set<string>,
                       layers: map<nat, seq<TensorLocation>>, total: nat, k: nat): seq<Written>
  {
    if total == 0 || k == 0 then [] else WindowWrites(files, codec, unwritable, layers, Windows(total, k), k)
  }

  /** The chunk files `Publish` writes before it ends: the base chunk once
      its write succeeds, then those of the window loop. */
  function PublishWrites(args: Args, files: seq<SourceFile>, b: Buckets, codec: Codec, unwritable: set<string>): seq<Written> {
    match ChunkOutcome(files, codec, unwritable, BaseChunk(b.base))
    case Err(_) => []
    case Ok(base) => [base] + LayerWrites(files, codec, unwritable, b.layers, b.maxLayer + 1, args.layersPerChunk)
  }

  /** The chunk files `run` writes before it ends; nothing when it fails
      before the base chunk. */
  function RunWrites(args: Args, inputIsDir: bool, entries: seq<DirEntry>, codec: Codec, unwritable: set<string>): seq<Written> {
    if !inputIsDir then []
    else
      match Discover(entries)
      case Err(_) => []
      case Ok(files) =>
        match Scan(files)
        case Err(_) => []
        case Ok(b) =>
          if b.maxLayer + 1 > U32Max then [] else PublishWrites(args, files, b, codec, unwritable)
  }

  /** `PublishWrites` by the outcome of the base chunk. */
  lemma PublishWritesCases(args: Args, files: seq<SourceFile>, b: Buckets, codec: Codec, unwritable: set<string>)
    ensures var base := ChunkOutcome(files, codec, unwritable, BaseChunk(b.base));
      PublishWrites(args, files, b, codec, unwritable) ==
        if base.Err? then []
        else [base.value] + LayerWrites(files, codec, unwritable, b.layers, b.maxLayer + 1, args.layersPerChunk)
  {
  }

  /** A window loop that succeeds wrote exactly the chunks it returns. */
  lemma {:induction false} WindowWritesOk(files: seq<SourceFile>, codec: Codec, unwritable: set<string>,
                                          layers: map<nat, seq<TensorLocation>>, ws: seq<Window>, k: nat)
    requires WindowOutcomes(files, codec, unwritable, layers, ws, k).Ok?
    ensures WindowWrites(files, codec, unwritable, layers, ws, k) == WindowOutcomes(files, codec, unwritable, layers, ws, k).value
    decreases |ws|
  {
    if ws != [] {
      WindowWritesOk(files, codec, unwritable, layers, ws[1..], k);
    }
  }

  lemma LayerWritesOk(files: seq<SourceFile>, codec: Codec, unwritable: set<string>,
                      layers: map<nat, seq<TensorLocation>>, total: nat, k: nat)
    requires LayerOutcomes(files, codec, unwritable, layers, total, k).Ok?
    ensures LayerWrites(files, codec, unwritable, layers, total, k) == LayerOutcomes(files, codec, unwritable, layers, total, k).value
  {
    if total > 0 {
      WindowWritesOk(files, codec, unwritable, layers, Windows(total, k), k);
    }
  }

  /** A successful run wrote exactly the chunk files of its output; a
      failed one wrote a prefix of the chunks it would have written. */
  lemma RunWritesOk(args: Args, inputIsDir: bool, entries: seq<DirEntry>, codec: Codec, unwritable: set<string>)
    requires RunSpec(args, inputIsDir, entries, codec, unwritable).Ok?
    ensures RunWrites(args, inputIsDir, entries, codec, unwritable) == RunSpec(args, inputIsDir, entries, codec, unwritable).value.chunks
  {
    var files := Discover(entries).value;
    var b := Scan(files).value;
    PublishWritesOk(args, files, b, codec, unwritable);
  }

  lemma PublishWritesOk(args: Args, files: seq<SourceFile>, b: Buckets, codec: Codec, unwritable: set<string>)
    requires Publish(args, files, b, codec, unwritable).Ok?
    ensures PublishWrites(args, files, b, codec, unwritable) == Publish(args, files, b, codec, unwritable).value.chunks
  {
    var base := ChunkOutcome(files, codec, unwritable, BaseChunk(b.base));
    var layers := LayerOutcomes(files, codec, unwritable, b.layers, b.maxLayer + 1, args.layersPerChunk);
    if base.Err? || layers.Err? {
      PublishChunksFail(args, files, b, codec, unwritable);
    }
    PublishAfterChunks(args, files, b, codec, unwritable, base.value, layers.value);
    PublishWritesAfterChunks(args, files, b, codec, unwritable, base.value, layers.value);
  }

  /** Once every chunk is written, they are what `Publish` leaves behind,
      whatever validation and the manifest write then do. */
  lemma PublishWritesAfterChunks(args: Args, files: seq<SourceFile>, b: Buckets, codec: Codec, unwritable: set<string>,
                                 base: Written, layers: seq<Written>)
    requires ChunkOutcome(files, codec, unwritable, BaseChunk(b.base)) == Ok(base)
    requires LayerOutcomes(files, codec, unwritable, b.layers, b.maxLayer + 1, args.layersPerChunk) == Ok(layers)
    ensures PublishWrites(args, files, b, codec, unwritable) == [base] + layers
  {
    LayerWritesOk(files, codec, unwritable, b.layers, b.maxLayer + 1, args.layersPerChunk);
  }

  // -----------------------------------------------------------------------
  // The steps of `run`
  // -----------------------------------------------------------------------

  lemma {:induction false} CollectInFiles(layers: map<nat, seq<TensorLocation>>, lo: nat, hi: nat, count: nat)
    requires forall n: nat :: InFiles(LayerWindows.Get(layers, n), count)
    ensures InFiles(CollectRange(layers, lo, hi), count)
    decreases hi
  {
    if lo < hi {
      CollectInFiles(layers, lo, hi - 1, count);
      var a, g := CollectRange(layers, lo, hi - 1), LayerWindows.Get(layers, hi - 1);
      assert InFiles(g, count);
      assert CollectRange(layers, lo, hi) == a + g;
    }
  }

  /** One chunk: `load_tensors` then `write_safetensors`, and the manifest
      entry built from the returned size and digest. */
  method WriteChunk(out: OutputDir, files: seq<SourceFile>, codec: Codec, c: PlannedChunk) returns (r: Result<ManifestChunk, IoError>)
    requires InFiles(c.locs, |files|)
    modifies out
    ensures var spec := ChunkOutcome(files, codec, out.unwritable, c);
      && (r.Ok? <==> spec.Ok?)
      && (r.Ok? ==> r.value == spec.value.entry && out.files == old(out.files)[c.fileName := spec.value.bytes])
      && (r.Err? ==> r.error == spec.error && SameExcept(out.files, old(out.files), Touched(r.error)))
  {
    var loaded, parsed := LoadTensors(files, c.locs);
    if loaded.Err? {
      return Err(loaded.error);
    }
    var written := WriteSafetensors(out, codec.serialize, codec.digest, loaded.value, c.fileName);
    if written.Err? {
      return Err(written.error);
    }
    var (bytes, digest) := written.value;
    r := Ok(ManifestChunk(c.id, c.fileName, c.layerStart, c.layerEnd, bytes, digest, ""));
  }

  /** The layers from `start` on: what is left of `layer_tensors` once the
      windows before `start` have drained theirs. */
  function Above(layers: map<nat, seq<TensorLocation>>, start: nat): map<nat, seq<TensorLocation>> {
    map n | n in layers && n >= start :: layers[n]
  }

  function Prepend(done: seq<Written>, r: Result<seq<Written>, RunError>): Result<seq<Written>, RunError> {
    match r
    case Ok(rest) => Ok(done + rest)
    case Err(e) => Err(e)
  }

  /** The inner loop: remove each layer of the window from the map and
      append its tensors. */
  method DrainWindow(layers: map<nat, seq<TensorLocation>>, ghost all: map<nat, seq<TensorLocation>>, start: nat, end: nat)
    returns (locs: seq<TensorLocation>, rest: map<nat, seq<TensorLocation>>)
    requires start <= end + 1 && layers == Above(all, start)
    ensures locs == CollectRange(all, start, end + 1)
    ensures rest == Above(all, end + 1)
  {
    locs := [];
    rest := layers;
    for layerIdx := start to end + 1
      invariant locs == CollectRange(all, start, layerIdx)
      invariant rest == Above(all, layerIdx)
    {
      if layerIdx in rest {
        locs := locs + rest[layerIdx];
        rest := rest - {layerIdx};
      }
      assert rest == Above(all, layerIdx + 1);
    }
  }

  /** One window of the loop: an empty window writes nothing, otherwise
      its chunk is written. */
  method WriteStep(out: OutputDir, files: seq<SourceFile>, codec: Codec, c: PlannedChunk) returns (r: Result<seq<ManifestChunk>, RunError>)
    requires InFiles(c.locs, |files|)
    modifies out
    ensures var spec := ChunkStep(files, codec, out.unwritable, c);
      && (r.Ok? <==> spec.Ok?)
      && (r.Ok? ==> r.value == Entries(spec.value) && out.files == Stored(old(out.files), spec.value))
      && (r.Err? ==> r.error == spec.error && SameExcept(out.files, old(out.files), RunTouched(r.error)))
  {
    if c.locs == [] {
      return Ok([]);
    }
    ghost var files0 := out.files;
    var entry := WriteChunk(out, files, codec, c);
    if entry.Err? {
      assert RunTouched(ChunkFailed(entry.error)) == Touched(entry.error);
      return Err(ChunkFailed(entry.error));
    }
    ghost var w := ChunkOutcome(files, codec, out.unwritable, c).value;
    assert Stored(files0, [w]) == out.files && Entries([w]) == [entry.value] by {
      assert [w][..0] == [];
    }
    r := Ok([entry.value]);
  }

  /** One unfolding of the window loop's specification at `start`. */
  lemma WindowOutcomesFrom(files: seq<SourceFile>, codec: Codec, unwritable: set<string>,
                           layers: map<nat, seq<TensorLocation>>, start: nat, total: nat, k: nat)
    requires k >= 1 && start < total
    ensures var w := WindowAt(start, total, k);
      var rest := WindowOutcomes(files, codec, unwritable, layers, WindowsFrom(w.end + 1, total, k), k);
      WindowOutcomes(files, codec, unwritable, layers, WindowsFrom(start, total, k), k) ==
        if start + k > U32Max then Err(ArithmeticOverflow)
        else match ChunkStep(files, codec, unwritable, WindowChunk(layers, w))
          case Err(e) => Err(e)
          case Ok(first) => Prepend(first, rest)
    ensures var w := WindowAt(start, total, k);
      WindowWrites(files, codec, unwritable, layers, WindowsFrom(start, total, k), k) ==
        if start + k > U32Max then []
        else match ChunkStep(files, codec, unwritable, WindowChunk(layers, w))
          case Err(_) => []
          case Ok(first) => first + WindowWrites(files, codec, unwritable, layers, WindowsFrom(w.end + 1, total, k), k)
  {
    var w := WindowAt(start, total, k);
    var ws := WindowsFrom(start, total, k);
    assert ws[0] == w && ws[1..] == WindowsFrom(w.end + 1, total, k);
  }

  lemma PrependPrepend(done: seq<Written>, first: seq<Written>, r: Result<seq<Written>, RunError>)
    ensures Prepend(done, Prepend(first, r)) == Prepend(done + first, r)
  {
    if r.Ok? {
      assert done + (first + r.value) == (done + first) + r.value;
    }
  }

  /** One turn of the window loop at `chunkStart`: the overflow checks, the
      drain of the window's layers and the write of its chunk. On success
      `written` is what the window added and `next` the following start. */
  method NextWindow(out: OutputDir, files: seq<SourceFile>, codec: Codec,
                    layers: map<nat, seq<TensorLocation>>, ghost layers0: map<nat, seq<TensorLocation>>,
                    total: nat, k: nat, chunkStart: nat)
    returns (r: Result<seq<ManifestChunk>, RunError>, next: nat, rest: map<nat, seq<TensorLocation>>, ghost written: seq<Written>)
    requires chunkStart < total && (k == 0 ==> chunkStart == 0)
    requires layers == Above(layers0, chunkStart)
    requires forall n: nat :: InFiles(LayerWindows.Get(layers0, n), |files|)
    modifies out
    ensures k == 0 ==> r == Err(ArithmeticOverflow)
    ensures r.Err? ==> SameExcept(out.files, old(out.files), RunTouched(r.error))
    ensures k >= 1 ==>
      var spec := WindowOutcomes(files, codec, out.unwritable, layers0, WindowsFrom(chunkStart, total, k), k);
      var writes := WindowWrites(files, codec, out.unwritable, layers0, WindowsFrom(chunkStart, total, k), k);
      && (r.Err? ==> spec == Err(r.error) && writes == [])
      && (r.Ok? ==>
            && chunkStart < next <= total
            && rest == Above(layers0, next)
            && spec == Prepend(written, WindowOutcomes(files, codec, out.unwritable, layers0, WindowsFrom(next, total, k), k))
            && writes == written + WindowWrites(files, codec, out.unwritable, layers0, WindowsFrom(next, total, k), k)
            && r.value == Entries(written)
            && out.files == Stored(old(out.files), written))
  {
    next, rest, written := chunkStart, layers, [];
    if chunkStart + k > U32Max {
      if k >= 1 {
        WindowOutcomesFrom(files, codec, out.unwritable, layers0, chunkStart, total, k);
      }
      return Err(ArithmeticOverflow), next, rest, written;
    }
    var bound := Min(chunkStart + k, total);
    if bound == 0 {
      return Err(ArithmeticOverflow), next, rest, written;
    }
    var chunkEnd := bound - 1;
    r, rest, written := WriteWindow(out, files, codec, layers, layers0, total, k, chunkStart, chunkEnd);
    next := chunkEnd + 1;
    WindowStepMeaning(files, codec, out.unwritable, layers0, chunkStart, total, k, r, written, next);
  }

  /** The window `[chunkStart, chunkEnd]`: drain its layers from the map and
      write its chunk unless it is empty. */
  method WriteWindow(out: OutputDir, files: seq<SourceFile>, codec: Codec,
                     layers: map<nat, seq<TensorLocation>>, ghost layers0: map<nat, seq<TensorLocation>>,
                     total: nat, k: nat, chunkStart: nat, chunkEnd: nat)
    returns (r: Result<seq<ManifestChunk>, RunError>, rest: map<nat, seq<TensorLocation>>, ghost written: seq<Written>)
    requires k >= 1 && chunkStart < total && chunkStart + k <= U32Max
    requires chunkEnd == Min(chunkStart + k, total) - 1
    requires layers == Above(layers0, chunkStart)
    requires forall n: nat :: InFiles(LayerWindows.Get(layers0, n), |files|)
    modifies out
    ensures rest == Above(layers0, chunkEnd + 1)
    ensures var step := ChunkStep(files, codec, out.unwritable, WindowChunk(layers0, WindowAt(chunkStart, total, k)));
      && (r.Ok? <==> step.Ok?)
      && (r.Err? ==> r.error == step.error && SameExcept(out.files, old(out.files), RunTouched(r.error)))
      && (r.Ok? ==> written == step.value && r.value == Entries(written) && out.files == Stored(old(out.files), written))
  {
    var w := Window(chunkStart, chunkEnd);
    assert w == WindowAt(chunkStart, total, k);
    var chunkLocs;
    chunkLocs, rest := DrainWindow(layers, layers0, chunkStart, chunkEnd);
    var id := ChunkId(w);
    var c := PlannedChunk(id, ChunkFileName(id), chunkStart, chunkEnd, chunkLocs);
    assert c == WindowChunk(layers0, w);
    CollectInFiles(layers0, chunkStart, chunkEnd + 1, |files|);
    r := WriteStep(out, files, codec, c);
    written := [];
    if r.Ok? {
      written := ChunkStep(files, codec, out.unwritable, c).value;
    }
  }

  /** The outcome of the window at `start` decides the loop's outcome: its
      error ends the loop, its chunks come before those of the next window. */
  lemma WindowStepMeaning(files: seq<SourceFile>, codec: Codec, unwritable: set<string>,
                          layers0: map<nat, seq<TensorLocation>>, start: nat, total: nat, k: nat,
                          r: Result<seq<ManifestChunk>, RunError>, written: seq<Written>, next: nat)
    requires k >= 1 && start < total && start + k <= U32Max && next == WindowAt(start, total, k).end + 1
    requires var step := ChunkStep(files, codec, unwritable, WindowChunk(layers0, WindowAt(start, total, k)));
      && (r.Ok? <==> step.Ok?) && (r.Err? ==> r.error == step.error) && (r.Ok? ==> written == step.value)
    ensures var spec := WindowOutcomes(files, codec, unwritable, layers0, WindowsFrom(start, total, k), k);
      var writes := WindowWrites(files, codec, unwritable, layers0, WindowsFrom(start, total, k), k);
      && (r.Err? ==> spec == Err(r.error) && writes == [])
      && (r.Ok? ==> spec == Prepend(written, WindowOutcomes(files, codec, unwritable, layers0, WindowsFrom(next, total, k), k)))
      && (r.Ok? ==> writes == written + WindowWrites(files, codec, unwritable, layers0, WindowsFrom(next, total, k), k))
  {
    WindowOutcomesFrom(files, codec, unwritable, layers0, start, total, k);
  }

  /** The window loop of `run`. */
  method WriteLayerChunks(out: OutputDir, files: seq<SourceFile>, codec: Codec,
                          layers0: map<nat, seq<TensorLocation>>, total: nat, k: nat)
    returns (r: Result<seq<ManifestChunk>, RunError>)
    requires forall n: nat :: InFiles(LayerWindows.Get(layers0, n), |files|)
    modifies out
    ensures var spec := LayerOutcomes(files, codec, out.unwritable, layers0, total, k);
      && (r.Ok? <==> spec.Ok?)
      && (r.Ok? ==> r.value == Entries(spec.value) && out.files == Stored(old(out.files), spec.value))
      && (r.Err? ==> r.error == spec.error)
    ensures r.Err? ==>
      SameExcept(out.files, Stored(old(out.files), LayerWrites(files, codec, out.unwritable, layers0, total, k)), RunTouched(r.error))
  {
    var layers := layers0;
    assert layers == Above(layers0, 0);
    var chunks: seq<ManifestChunk> := [];
    ghost var done: seq<Written> := [];
    ghost var files0 := out.files;
    ghost var unwritable := out.unwritable;
    var chunkStart: nat := 0;
    ghost var allWrites := LayerWrites(files, codec, unwritable, layers0, total, k);
    if k >= 1 {
      PrependNil(LayerOutcomes(files, codec, unwritable, layers0, total, k));
      assert allWrites == [] + WindowWrites(files, codec, unwritable, layers0, WindowsFrom(0, total, k), k);
    }
    while chunkStart < total
      invariant k == 0 ==> chunkStart == 0 && done == []
      invariant k >= 1 ==>
        (LayerOutcomes(files, codec, unwritable, layers0, total, k) ==
         Prepend(done, WindowOutcomes(files, codec, unwritable, layers0, WindowsFrom(chunkStart, total, k), k)))
      invariant k >= 1 ==> allWrites == done + WindowWrites(files, codec, unwritable, layers0, WindowsFrom(chunkStart, total, k), k)
      invariant chunks == Entries(done)
      invariant out.files == Stored(files0, done)
      invariant layers == Above(layers0, chunkStart)
      invariant unwritable == out.unwritable
      decreases total - chunkStart
    {
      var step, next, rest;
      ghost var written;
      step, next, rest, written := NextWindow(out, files, codec, layers, layers0, total, k, chunkStart);
      if step.Err? {
        assert k >= 1 ==> done + [] == done;
        return Err(step.error);
      }
      PrependPrepend(done, written, WindowOutcomes(files, codec, unwritable, layers0, WindowsFrom(next, total, k), k));
      StoredAppend(files0, done, written);
      EntriesAppend(done, written);
      if k >= 1 {
        ghost var restWrites := WindowWrites(files, codec, unwritable, layers0, WindowsFrom(next, total, k), k);
        Assoc(done, written, restWrites);
      }
      chunks := chunks + step.value;
      done := done + written;
      chunkStart, layers := next, rest;
    }
    if k >= 1 {
      assert WindowsFrom(chunkStart, total, k) == [];
      assert done + [] == done;
    }
    r := Ok(chunks);
  }

  /** `run`. */
  method Run(args: Args, inputIsDir: bool, entries: seq<DirEntry>, codec: Codec, out: OutputDir)
    returns (r: Result<ModelManifest, RunError>)
    modifies out
    ensures var spec := RunSpec(args, inputIsDir, entries, codec, out.unwritable);
      && (r.Ok? <==> spec.Ok?)
      && (r.Err? ==> r.error == spec.error)
      && (r.Ok? ==>
            (r.value == spec.value.manifest
             && out.files == Stored(old(out.files), spec.value.chunks)[ManifestFileName := codec.render(ManifestToJson(r.value))]))
    ensures r.Err? ==>
      SameExcept(out.files, Stored(old(out.files), RunWrites(args, inputIsDir, entries, codec, out.unwritable)), RunTouched(r.error))
  {
    if !inputIsDir {
      return Err(InputNotDirectory);
    }
    var found := Discover(entries);
    if found.Err? {
      return Err(DiscoveryFailed(found.error));
    }
    var files := found.value;
    var scanned := ClassifyAll(files);
    if scanned.Err? {
      return Err(ScanFailed(scanned.error));
    }
    var b := scanned.value;
    ScanInFiles(files);
    if b.maxLayer + 1 > U32Max {
      return Err(ArithmeticOverflow);
    }
    r := WriteAll(args, files, b, codec, out);
  }

  /** `run` with the depth rejected up front, as validation intends: a zero
      `layers_per_chunk` is reported as `ZeroMinRunnableDepth` before any
      file is written, instead of overflowing in the window loop. */
  function CheckedRunSpec(args: Args, inputIsDir: bool, entries: seq<DirEntry>, codec: Codec, unwritable: set<string>): Result<RunOutput, RunError> {
    if args.layersPerChunk == 0 then Err(Invalid(ZeroMinRunnableDepth))
    else RunSpec(args, inputIsDir, entries, codec, unwritable)
  }

  method CheckedRun(args: Args, inputIsDir: bool, entries: seq<DirEntry>, codec: Codec, out: OutputDir)
    returns (r: Result<ModelManifest, RunError>)
    modifies out
    ensures var spec := CheckedRunSpec(args, inputIsDir, entries, codec, out.unwritable);
      && (r.Ok? <==> spec.Ok?)
      && (r.Err? ==> r.error == spec.error)
      && (r.Ok? ==>
            (r.value == spec.value.manifest
             && out.files == Stored(old(out.files), spec.value.chunks)[ManifestFileName := codec.render(ManifestToJson(r.value))]))
    ensures args.layersPerChunk == 0 ==> out.files == old(out.files)
    ensures args.layersPerChunk >= 1 && r.Err? ==>
      SameExcept(out.files, Stored(old(out.files), RunWrites(args, inputIsDir, entries, codec, out.unwritable)), RunTouched(r.error))
  {
    if args.layersPerChunk == 0 {
      return Err(Invalid(ZeroMinRunnableDepth));
    }
    r := Run(args, inputIsDir, entries, codec, out);
  }

  /** The chunk writes and the manifest write of `run`. */
  method WriteAll(args: Args, files: seq<SourceFile>, b: Buckets, codec: Codec, out: OutputDir)
    returns (r: Result<ModelManifest, RunError>)
    requires InFiles(b.base, |files|)
    requires forall n: nat :: InFiles(LayerWindows.Get(b.layers, n), |files|)
    modifies out
    ensures var spec := Publish(args, files, b, codec, out.unwritable);
      && (r.Ok? <==> spec.Ok?)
      && (r.Err? ==> r.error == spec.error)
      && (r.Ok? ==>
            (r.value == spec.value.manifest
             && out.files == Stored(old(out.files), spec.value.chunks)[ManifestFileName := codec.render(ManifestToJson(r.value))]))
    ensures r.Err? ==>
      SameExcept(out.files, Stored(old(out.files), PublishWrites(args, files, b, codec, out.unwritable)), RunTouched(r.error))
  {
    ghost var files0 := out.files;
    var entries;
    ghost var written;
    entries, written := WriteChunks(args, files, b, codec, out);
    if entries.Err? {
      PublishChunksFail(args, files, b, codec, out.unwritable);
      return Err(entries.error);
    }
    PublishAfterChunks(args, files, b, codec, out.unwritable, written[0], written[1..]);
    PublishWritesAfterChunks(args, files, b, codec, out.unwritable, written[0], written[1..]);
    assert [written[0]] + written[1..] == written;
    r := FinishManifest(args, entries.value, codec, out);
  }

  /** The chunk files of `run`: the base chunk, then the window loop. */
  method WriteChunks(args: Args, files: seq<SourceFile>, b: Buckets, codec: Codec, out: OutputDir)
    returns (r: Result<seq<ManifestChunk>, RunError>, ghost written: seq<Written>)
    requires InFiles(b.base, |files|)
    requires forall n: nat :: InFiles(LayerWindows.Get(b.layers, n), |files|)
    modifies out
    ensures var base := ChunkOutcome(files, codec, out.unwritable, BaseChunk(b.base));
      var layers := LayerOutcomes(files, codec, out.unwritable, b.layers, b.maxLayer + 1, args.layersPerChunk);
      && (r.Ok? <==> base.Ok? && layers.Ok?)
      && (r.Err? ==> r.error == if base.Err? then ChunkFailed(base.error) else layers.error)
      && (r.Ok? ==> written == [base.value] + layers.value
                    && r.value == Entries(written) && out.files == Stored(old(out.files), written))
    ensures r.Err? ==>
      SameExcept(out.files, Stored(old(out.files), PublishWrites(args, files, b, codec, out.unwritable)), RunTouched(r.error))
  {
    ghost var files0 := out.files;
    ghost var unwritable := out.unwritable;
    var base := WriteChunk(out, files, codec, BaseChunk(b.base));
    if base.Err? {
      assert PublishWrites(args, files, b, codec, unwritable) == [] by {
        PublishWritesCases(args, files, b, codec, unwritable);
      }
      assert Stored(files0, []) == files0;
      assert RunTouched(ChunkFailed(base.error)) == Touched(base.error);
      return Err(ChunkFailed(base.error)), [];
    }
    ghost var baseWritten := ChunkOutcome(files, codec, unwritable, BaseChunk(b.base)).value;
    assert out.files == Stored(files0, [baseWritten]);
    ghost var files1 := out.files;
    var layerChunks := WriteLayerChunks(out, files, codec, b.layers, b.maxLayer + 1, args.layersPerChunk);
    if layerChunks.Err? {
      ghost var layerWrites := LayerWrites(files, codec, unwritable, b.layers, b.maxLayer + 1, args.layersPerChunk);
      assert Stored(files0, PublishWrites(args, files, b, codec, unwritable)) == Stored(files1, layerWrites) by {
        PublishWritesCases(args, files, b, codec, unwritable);
        StoredAppend(files0, [baseWritten], layerWrites);
      }
      return Err(layerChunks.error), [];
    }
    ghost var layerWritten := LayerOutcomes(files, codec, unwritable, b.layers, b.maxLayer + 1, args.layersPerChunk).value;
    assert out.files == Stored(files0, [baseWritten] + layerWritten) by {
      StoredAppend(files0, [baseWritten], layerWritten);
    }
    assert Entries([baseWritten] + layerWritten) == [base.value] + layerChunks.value by {
      EntriesAppend([baseWritten], layerWritten);
    }
    written := [baseWritten] + layerWritten;
    r := Ok([base.value] + layerChunks.value);
  }

  /** The end of `run`: assemble the manifest from the chunk entries,
      validate it, and write `manifest.json`. */
  method FinishManifest(args: Args, entries: seq<ManifestChunk>, codec: Codec, out: OutputDir)
    returns (r: Result<ModelManifest, RunError>)
    modifies out
    ensures var m := ModelManifest(args.modelId, "1.0.0", "auto", args.layersPerChunk, entries);
      r == (if Validate(m).Err? then Err(Invalid(Validate(m).error))
            else if ManifestFileName in out.unwritable then Err(ManifestWriteFailed)
            else Ok(m))
    ensures r.Ok? ==> out.files == old(out.files)[ManifestFileName := codec.render(ManifestToJson(r.value))]
    ensures r.Err? ==> SameExcept(out.files, old(out.files), RunTouched(r.error))
  {
    var manifest := ModelManifest(args.modelId, "1.0.0", "auto", args.layersPerChunk, entries);
    var valid := Validate(manifest);
    match valid {
      case Err(e) => return Err(Invalid(e));
      case Ok(_) =>
    }
    var ok := out.Write(ManifestFileName, codec.render(ManifestToJson(manifest)));
    if !ok {
      return Err(ManifestWriteFailed);
    }
    r := Ok(manifest);
  }

  /** `Publish` when a chunk write fails: the base chunk's error, else the
      window loop's. */
  lemma PublishChunksFail(args: Args, files: seq<SourceFile>, b: Buckets, codec: Codec, unwritable: set<string>)
    requires var base := ChunkOutcome(files, codec, unwritable, BaseChunk(b.base));
      base.Err? || LayerOutcomes(files, codec, unwritable, b.layers, b.maxLayer + 1, args.layersPerChunk).Err?
    ensures var base := ChunkOutcome(files, codec, unwritable, BaseChunk(b.base));
      var layers := LayerOutcomes(files, codec, unwritable, b.layers, b.maxLayer + 1, args.layersPerChunk);
      Publish(args, files, b, codec, unwritable) == Err(if base.Err? then ChunkFailed(base.error) else layers.error)
  {
  }

  /** `Publish` once every chunk is written: validation and the manifest
      write decide the outcome. */
  lemma PublishAfterChunks(args: Args, files: seq<SourceFile>, b: Buckets, codec: Codec, unwritable: set<string>,
                           base: Written, layers: seq<Written>)
    requires ChunkOutcome(files, codec, unwritable, BaseChunk(b.base)) == Ok(base)
    requires LayerOutcomes(files, codec, unwritable, b.layers, b.maxLayer + 1, args.layersPerChunk) == Ok(layers)
    ensures var m := MakeManifest(args, [base] + layers);
      Publish(args, files, b, codec, unwritable) ==
        if Validate(m).Err? then Err(Invalid(Validate(m).error))
        else if ManifestFileName in unwritable then Err(ManifestWriteFailed)
        else Ok(RunOutput(m, [base] + layers))
  {
  }

  lemma {:induction false} StoredAppend(files: map<string, seq<byte>>, a: seq<Written>, b: seq<Written>)
    ensures Stored(files, a + b) == Stored(Stored(files, a), b)
    decreases |b|
  {
    if b != [] {
      var n := |b| - 1;
      assert (a + b)[..|a + b| - 1] == a + b[..n];
      StoredAppend(files, a, b[..n]);
    } else {
      assert a + b == a;
    }
  }

  lemma EntriesAppend(a: seq<Written>, b: seq<Written>)
    ensures Entries(a + b) == Entries(a) + Entries(b)
  {
  }

  lemma PrependNil(r: Result<seq<Written>, RunError>)
    ensures Prepend([], r) == r
  {
    if r.Ok? {
      assert [] + r.value == r.value;
    }
  }
}
