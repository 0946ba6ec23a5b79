# PB-AI model sharder, modelled in Dafny

PB-AI splits a large language model's weights into chunk files that a client
can download progressively, and describes the chunks in a `manifest.json`.
This project models the sharding core and proves properties about it:

- **Rust `pb-sharder`** (`crates/pb-sharder`). It reads every `.safetensors` file of an
  input directory in sorted path order. It classifies each tensor as *base* or as *layer N*
  with the pattern `^model\.layers\.(\d+)\.`, then writes `base.safetensors`. Next it
  walks the layers in windows of `layers_per_chunk`, draining each window's tensors into
  `layers_<start>-<end>.safetensors` (empty windows are skipped). Last, it validates the
  manifest and writes `manifest.json`. `main.rs` is an older, self-contained copy of
  `classify.rs`, `io.rs` and `shard.rs::run`; one model covers both.
- **Tensor I/O** (`io.rs` in both Rust crates). `load_tensors` groups the requested
  locations by source file, in ascending file order, and copies the tensors.
  `write_safetensors` serializes the tensors, digests the result (SHA-256, or BLAKE3 in the
  tools crate) and writes the file. The tools crate also counts `bytes_read`.
- **`manifest-core`**: the manifest records, their serde field rules (`filename` and `url`
  are omitted when empty and default to empty when absent), and `validate`.
- **`model_rules.rs`**: reading `model_type` from `config.json`, and the Qwen-family test.
  Both branches build the same layer pattern.
- **Python `onnx-sharder`**. `classify.py` classifies ONNX initializers by name or by the
  graph node that consumes them. `shard_writer.py` writes the initializers into external-data
  files and rewrites each tensor's `external_data` reference. `manifest.py` builds the v0.2
  manifest dictionary.

Files and modules (one module per file):

| file | module | what it holds |
|---|---|---|
| `wrappers.dfy` | `Wrappers` | `Option`, `Result` |
| `text.dfy` | `Text` | decimal digits, prefixes, ASCII lower-casing, `u32`/`u64` bounds |
| `seqs.dfy` | `Seqs` | filtering, counting and concatenation of sequences |
| `json.dfy` | `Json` | JSON values with objects as ordered member lists |
| `storage.dfy` | `Storage` | `byte`; `OutputDir`, the output directory as a class whose `files` map the writes update |
| `classify.dfy` | `Classify` | Rust `classify_tensor` |
| `discovery.dfy` | `Discovery` | `.safetensors` discovery: extension, filter, sort, empty check |
| `partition.dfy` | `Partition` | the header scan that fills the base list and the layer map |
| `windows.dfy` | `LayerWindows` | layer windows of `layers_per_chunk` layers and draining them |
| `chunk_plan.dfy` | `ChunkPlan` | chunk ids, file names and the planned layer chunks |
| `tensor_io.dfy` | `TensorIo` | `load_tensors` (both crates), `write_safetensors` |
| `manifest_core.dfy` | `ManifestCore` | `ManifestChunk`, `ModelManifest`, `validate`, serde form |
| `model_rules.dfy` | `ModelRules` | `rules_from_input_dir`, `read_model_type`, `is_qwen_family` |
| `shard.dfy` | `Shard` | `run` as a specification (`RunSpec`) and as imperative methods |
| `shard_properties.dfy` | `ShardProperties` | end-to-end properties of `run` |
| `onnx_proto.dfy` | `OnnxProto` | `TensorProto` as a class (its data and external reference change in place) |
| `onnx_classify.dfy` | `OnnxClassify` | `classify.py` |
| `onnx_plan.dfy` | `OnnxPlan` | which shards `write_shards` writes, in which order, with which names |
| `onnx_writer.dfy` | `OnnxWriter` | `_write_data_file`, `_write_shard`, `write_shards` as methods |
| `onnx_manifest.dfy` | `OnnxManifest` | `Shard.to_dict`, `ModelManifest.to_dict` |

How the environment is modelled:

- **Input directory.** It is a sequence of `DirEntry` values. Each entry has a file name and
  the file's parsed header (`None` when the bytes are not safetensors), or it is an entry the
  directory listing could not read.
- **Output directory.** It is an `OutputDir` object. Its `files` map the writes update, and
  a set of names whose write fails stands for `fs::write` errors. A failed write may leave its
  target truncated or partly written. A failed run leaves behind the chunk files it wrote
  before the failure (`Shard.RunWrites`).
- **Libraries.** `safetensors::serialize`, the digests and `serde_json::to_string_pretty` are
  function-valued parameters (`Shard.Codec`, `blake3`).
- **Panics.** A `u32` overflow, a failed `parse::<u32>()` and a `TensorView::new(..).expect`
  all abort the program. The model turns each of them into an error value that ends the run.

## Model

| member | source | states |
|---|---|---|
| Classify.ClassifyBaseIff | crates/pb-sharder/src/classify.rs:38-45 | a name is `Base` exactly when it does not match `^model\.layers\.(\d+)\.` (also `classify_tensor` at crates/pb-sharder/src/main.rs:89-96) |
| Classify.ClassifyLayerName | crates/pb-sharder/src/classify.rs:38-45 | `model.layers.<digits>.<rest>` is `Layer(value of digits)` when the value fits a `u32`, and the index parse fails otherwise |
| Classify.ClassifyLayerIndex | crates/pb-sharder/src/classify.rs:38-45 | every `u32` index written in decimal inside a layer name classifies back to that index |
| Classify.ClassifyLayerShape | crates/pb-sharder/src/classify.rs:38-45 | every `Layer(n)` result comes from a name `model.layers.<d>.<rest>` whose digits `d` denote `n <= u32::MAX` |
| Classify.ClassifyIndexOverflow | crates/pb-sharder/src/classify.rs:40 | an index above `u32::MAX` is the parse failure, naming the digits |
| Classify.CaptureMatches | crates/pb-sharder/src/classify.rs:39 | whenever the capture exists, the name matches the layer pattern |
| Classify.ClassifyBaseExamples | crates/pb-sharder/src/classify.rs:55-80 | embedding, final norm, `lm_head` and unknown names are base (the unit tests) |
| Classify.ClassifyLayerSelfAttn | crates/pb-sharder/src/classify.rs:82-89 | `model.layers.5.self_attn.q_proj.weight` is layer 5 |
| Classify.ClassifyLayerMlp | crates/pb-sharder/src/classify.rs:91-98 | `model.layers.12.mlp.gate_proj.weight` is layer 12 |
| Classify.ClassifyLayerLayernorm | crates/pb-sharder/src/classify.rs:100-107 | `model.layers.0.input_layernorm.weight` is layer 0 |
| Classify.ClassifyAnchored | crates/pb-sharder/src/classify.rs:52 | the pattern is anchored at the start: a layer name behind a prefix is base |
| Classify.ClassifyMissingDot | crates/pb-sharder/src/classify.rs:52 | the pattern needs the dot after the digits: `model.layers.3` is base |
| Discovery.ExtensionIsSafetensors | crates/pb-sharder/src/shard.rs:33 | `extension() == Some("safetensors")` holds exactly when the name is something non-empty followed by `.safetensors` |
| Discovery.KeepSafetensors | crates/pb-sharder/src/shard.rs:29-39 | every kept file has the `safetensors` extension and comes from a readable directory entry, kept in directory order |
| Discovery.KeepCount | crates/pb-sharder/src/shard.rs:29-39 | the filter is exact: a file is kept once for every readable entry with the `safetensors` extension that names it, and never otherwise |
| Discovery.KeepCounted | crates/pb-sharder/src/shard.rs:29-39 | the same count, as occurrences in the directory order |
| Discovery.KeepsEach | crates/pb-sharder/src/shard.rs:29-39 | every readable entry with the `safetensors` extension is kept |
| Discovery.KeepAll | crates/pb-sharder/src/shard.rs:43-45 | nothing is kept exactly when no readable entry has the extension |
| Discovery.NameLeTotal | crates/pb-sharder/src/shard.rs:41 | the path order is total |
| Discovery.NameLeTransitive | crates/pb-sharder/src/shard.rs:41 | the path order is transitive |
| Discovery.Insert | crates/pb-sharder/src/shard.rs:41 | inserting adds exactly one element (as a multiset) |
| Discovery.InsertSorted | crates/pb-sharder/src/shard.rs:41 | inserting into a sorted list keeps it sorted |
| Discovery.SortByPath | crates/pb-sharder/src/shard.rs:41 | sorting is a permutation |
| Discovery.SortByPathSorted | crates/pb-sharder/src/shard.rs:41 | sorting yields a list ordered by path |
| Discovery.DiscoverMeaning | crates/pb-sharder/src/shard.rs:29-45 | discovery fails exactly when no entry is a safetensors file; otherwise it is the kept files sorted by path, each readable `.safetensors` entry exactly once and nothing else (also crates/pb-sharder/src/main.rs:201-217) |
| Partition.Place | crates/pb-sharder/src/shard.rs:91-100 | placing one location keeps the buckets well formed |
| Partition.PlaceAllOk | crates/pb-sharder/src/shard.rs:85-101 | classifying a file's names succeeds exactly when every name classifies, and a failure is the first failing name's error |
| Partition.PlaceAllExtends | crates/pb-sharder/src/shard.rs:91-100 | base grows by the base names in order, each layer bucket by its own names in order, keys are exactly the non-empty layers, and `max_layer` is the maximum |
| Partition.PlaceAllAppend | crates/pb-sharder/src/shard.rs:85-101 | placing `xs + ys` is placing `xs` and then `ys` |
| Partition.MaxLayerOfMeaning | crates/pb-sharder/src/shard.rs:96-98 | `max_layer` bounds every layer index, and it is attained when positive |
| Partition.FileLocs | crates/pb-sharder/src/shard.rs:85-89 | one location per header name, carrying the file's index |
| Partition.ScanFileMeaning | crates/pb-sharder/src/shard.rs:82-101 | one file succeeds exactly when its header parses and all its names classify |
| Partition.ScanUpToMeaning | crates/pb-sharder/src/shard.rs:81-103 | scanning the first `n` files succeeds exactly when their headers parse and all their names classify, giving the placement of all their locations |
| Partition.ScanOk | crates/pb-sharder/src/shard.rs:81-103 | a successful scan of `n` files had every header parse and is the placement of all their locations |
| Partition.ScanErr | crates/pb-sharder/src/shard.rs:81-103 | a failed scan had a header that did not parse or a name that did not classify |
| Partition.ScanErrSticky | crates/pb-sharder/src/shard.rs:82-83 | once the scan fails, later files do not change the error |
| Partition.ScanMeaning | crates/pb-sharder/src/shard.rs:77-103 | the scan succeeds exactly when every header parses and every name classifies, and the buckets then partition all locations and are well formed |
| Partition.PlaceAllWellFormed | crates/pb-sharder/src/shard.rs:91-100 | placement keeps every layer key non-empty and at most `max_layer` |
| Partition.EveryTensorOnce | crates/pb-sharder/src/shard.rs:91-100 | each location lands in exactly its own bucket, as often as it occurs, and in no other |
| Partition.LayerKeysBelowTotal | crates/pb-sharder/src/shard.rs:105 | every layer key is below `total_layers` |
| Partition.LayerCount | crates/pb-sharder/src/shard.rs:95-99 | a layer bucket counts a location exactly when the location belongs to that layer |
| Partition.CollectCount | crates/pb-sharder/src/shard.rs:161-166 | draining layers `[0, hi)` yields each layer location as often as it occurs if its layer is below `hi`, and never otherwise |
| Partition.EveryTensorOnceOverall | crates/pb-sharder/src/shard.rs:77-105 | base plus all layer buckets over `[0, total_layers)` is a permutation of the scanned locations |
| Partition.AllLocsInFiles | crates/pb-sharder/src/shard.rs:81-89 | every location refers to a loaded file |
| Partition.ScanInFiles | crates/pb-sharder/src/shard.rs:81-103 | every bucketed location refers to a loaded file |
| Partition.ClassifyAll | crates/pb-sharder/src/shard.rs:77-103 | the scan loop computes the scan (also crates/pb-sharder/src/main.rs:243-271) |
| Partition.ScanNext | crates/pb-sharder/src/shard.rs:81-103 | one loop step: an unreadable header ends the run, a bad name ends it with its error, otherwise the buckets advance by one file |
| Partition.PlaceNames | crates/pb-sharder/src/shard.rs:85-101 | the inner loop over one file's names computes their placement |
| LayerWindows.WindowAt | crates/pb-sharder/src/shard.rs:151 | a window starts at `chunk_start` and ends at `min(chunk_start + k, total) - 1` |
| LayerWindows.WindowsStep | crates/pb-sharder/src/shard.rs:150-193 | the loop visits one window and goes on at `chunk_start + k` |
| LayerWindows.WindowsTile | crates/pb-sharder/src/shard.rs:148-194 | the windows tile `[start, total)` without gaps; every window but the last holds `k` layers, and none holds more |
| LayerWindows.WindowsPartition | crates/pb-sharder/src/shard.rs:148-194 | each layer below `total` lies in exactly one window |
| LayerWindows.WindowsOrdered | crates/pb-sharder/src/shard.rs:193 | adjacent windows leave every earlier window before every later one |
| LayerWindows.WindowsCover | crates/pb-sharder/src/shard.rs:150-193 | windows from 0 to `total - 1` cover every layer |
| LayerWindows.WindowStarts | crates/pb-sharder/src/shard.rs:148-193 | the `i`-th window starts at `start + i * k` |
| LayerWindows.CollectSplit | crates/pb-sharder/src/shard.rs:161-166 | draining `[lo, hi)` is draining `[lo, mid)` and then `[mid, hi)` |
| LayerWindows.DrainAll | crates/pb-sharder/src/shard.rs:156-166 | draining every window in turn yields the tensors of layers `[start, total)` in layer order |
| ChunkPlan.ChunkIdInjective | crates/pb-sharder/src/shard.rs:152 | distinct windows get distinct chunk ids |
| ChunkPlan.ChunkFileNameReserved | crates/pb-sharder/src/shard.rs:153 | no layer chunk is named `base.safetensors` or `manifest.json` |
| ChunkPlan.ChunkFileNameInjective | crates/pb-sharder/src/shard.rs:153 | distinct windows get distinct file names |
| ChunkPlan.OccupiedCollected | crates/pb-sharder/src/shard.rs:168-171 | skipping empty windows loses no tensor |
| ChunkPlan.LayerPlanContents | crates/pb-sharder/src/shard.rs:156-191 | the layer chunks hold, one after the other, what the windows drain |
| ChunkPlan.LayerPlanDrainsAll | crates/pb-sharder/src/shard.rs:148-194 | the layer chunks hold all tensors of layers `[0, total)`, in layer order |
| ChunkPlan.OccupiedShape | crates/pb-sharder/src/shard.rs:150-171 | each occupied window is a window of the loop, within `[0, total)`, at most `k` layers, and non-empty |
| ChunkPlan.LayerPlanShape | crates/pb-sharder/src/shard.rs:150-191 | each layer chunk is non-empty, covers a loop window of at most `k` layers, is named `layers_<start>-<end>[.safetensors]` and holds exactly its layers' tensors |
| ChunkPlan.WindowsAscending | crates/pb-sharder/src/shard.rs:148-194 | the loop's windows are strictly ascending |
| ChunkPlan.LayerPlanAscending | crates/pb-sharder/src/shard.rs:148-194 | layer chunks have strictly ascending, disjoint layer ranges |
| ChunkPlan.LayerPlanDistinct | crates/pb-sharder/src/shard.rs:153 | no two layer chunks share a file name |
| TensorIo.CopyNames | crates/pb-sharder/src/io.rs:42-54 | copying succeeds exactly when every name is in the header; the `i`-th copy is that tensor's dtype, shape and data; a failure names the first missing tensor and the file |
| TensorIo.CopyNamesErrSticky | crates/pb-sharder/src/io.rs:43-45 | after a missing tensor, the rest of the names do not change the error |
| TensorIo.LoadFileMeaning | crates/pb-sharder/src/io.rs:37-55 | one file: its requested tensors are copied in request order, or the first failure (header, missing tensor) is reported |
| TensorIo.LoadFileCases | crates/pb-sharder/src/io.rs:37-55 | a file with no requests yields nothing; otherwise an unparsable header fails, else the names are copied |
| TensorIo.LoadUpToErrSticky | crates/pb-sharder/src/io.rs:39-45 | once loading fails, later files do not change the error |
| TensorIo.LoadUpToMeaning | crates/pb-sharder/src/io.rs:37-55 | loading files `0..n` copies the requests of those files grouped by file, or fails with the first failure in that order |
| TensorIo.LocsInFileCount | crates/pb-sharder/src/io.rs:32-35 | a file's group holds a location as often as the request does when it is in that file, and never otherwise |
| TensorIo.OrderUpToCount | crates/pb-sharder/src/io.rs:32-37 | the groups of files below `n` hold each of their locations as often as requested |
| TensorIo.OrderIsPermutation | crates/pb-sharder/src/io.rs:32-37 | grouping by file is a permutation of the request |
| TensorIo.OrderAscending | crates/pb-sharder/src/io.rs:32-37 | the result is ordered by ascending file index |
| TensorIo.OrderWithinFile | crates/pb-sharder/src/io.rs:32-35 | within one file the request order is kept |
| TensorIo.LoadSpecOk | crates/pb-sharder/src/io.rs:25-58 | a successful load returns one copy per requested location, as a permutation of the request |
| TensorIo.LoadSpecErr | crates/pb-sharder/src/io.rs:25-58 | loading fails exactly when some requested tensor is unavailable, and then with the first failure in file order |
| TensorIo.RequestedFilesAscending | crates/pb-sharder/src/io.rs:37 | the files visited are exactly those with requests, in ascending order |
| TensorIo.GroupByFile | crates/pb-sharder/src/io.rs:32-35 | the grouping has a key exactly for each requested file, holding that file's names in request order |
| TensorIo.LoadFromFile | crates/pb-sharder/src/io.rs:38-55 | the per-file loop computes that file's load, and it parses the header only when something is requested |
| TensorIo.CopyFromHeader | crates/pb-sharder/src/io.rs:42-54 | the name loop computes the copies |
| TensorIo.LoadTensors | crates/pb-sharder/src/io.rs:25-58 | `load_tensors` computes the specified load, parsing exactly the requested files (also crates/pb-sharder/src/main.rs:115-148) |
| TensorIo.TotalBytesAppend | tools/crates/pb-sharder/src/io.rs:73 | the byte counter adds over concatenation |
| TensorIo.CopyCounted | tools/crates/pb-sharder/src/io.rs:69-87 | the counting name loop computes the copies, and its counter is their total data length |
| TensorIo.LoadFromFileCounted | tools/crates/pb-sharder/src/io.rs:62-88 | one file's load, with its byte count |
| TensorIo.LoadTensorsCounted | tools/crates/pb-sharder/src/io.rs:46-99 | the tools `load_tensors` returns the same tensors as the plain one, with `bytes_read` their total data length |
| TensorIo.CheckViews | crates/pb-sharder/src/io.rs:65-72 | the views are accepted exactly when every tensor's data length is its element size times its element count; otherwise the first bad tensor is reported |
| TensorIo.WriteSafetensors | crates/pb-sharder/src/io.rs:63-90 | the file is written exactly when serialization succeeds and the path is writable; it then holds the serialized bytes and the result is their length and digest. A serialization failure changes nothing; a failed write leaves every other file alone and the target file unspecified, as `fs::write` may have truncated it (also crates/pb-sharder/src/main.rs:153-180, and tools/crates/pb-sharder/src/io.rs:103-167 with the BLAKE3 digest, whose hash and write threads read the same bytes) |
| Storage.OutputDir.Write | crates/pb-sharder/src/io.rs:86-87 | a write succeeds exactly when the path is writable and then replaces that file only; a failed write leaves every other file alone, and the target keeps its old bytes (create failed) or holds a prefix of the data (truncated, then a later failure such as a full disk) |
| Storage.OutputDir.Truncate | tools/onnx-sharder/src/writer/shard_writer.py:50 | opening with `"wb"` empties the file and changes nothing else |
| Storage.OutputDir.Append | tools/onnx-sharder/src/writer/shard_writer.py:54 | `f.write` appends to that file and changes nothing else |
| ManifestCore.Validate | crates/manifest-core/src/lib.rs:41-51 | valid exactly when there are chunks and `min_runnable_depth > 0`; empty chunks is reported before depth 0 |
| ManifestCore.ValidateIgnoresChunkFields | crates/manifest-core/src/lib.rs:41-51 | validation depends only on the chunk count and the depth |
| ManifestCore.ChunkJsonOmitsEmpty | crates/manifest-core/src/lib.rs:9-21 | `filename` and `url` appear in the JSON exactly when non-empty; the other five fields always appear |
| ManifestCore.ChunkMembers | crates/manifest-core/src/lib.rs:5-22 | the JSON members are in field order, with each optional one present only when non-empty |
| ManifestCore.ChunkRequiredFieldsRead | crates/manifest-core/src/lib.rs:5-22 | reading the required fields back gives their values (when they fit `u32`/`u64`) |
| ManifestCore.ChunkOptionalFieldsRead | crates/manifest-core/src/lib.rs:9-21 | reading an optional field back, defaulting to empty, gives its value |
| ManifestCore.ChunkRoundTrip | crates/manifest-core/src/lib.rs:4-22 | deserializing a serialized chunk gives it back |
| ManifestCore.ChunksRoundTrip | crates/manifest-core/src/lib.rs:35-36 | the chunk list round-trips |
| ManifestCore.ManifestFieldsRead | crates/manifest-core/src/lib.rs:25-37 | reading each manifest field back gives its value |
| ManifestCore.ManifestRoundTrip | crates/manifest-core/src/lib.rs:25-37 | deserializing a serialized manifest gives it back |
| ModelRules.ReadModelType | tools/crates/pb-sharder/src/model_rules.rs:34-48 | a missing config is `None`; read and parse failures are errors; a type is returned exactly when `model_type` is a string |
| ModelRules.LowerCharIs | tools/crates/pb-sharder/src/model_rules.rs:51 | lower-casing a character gives a lower-case letter exactly when the two agree ignoring ASCII case |
| ModelRules.QwenAt | tools/crates/pb-sharder/src/model_rules.rs:51 | the lower-cased text has `qwen` at a position exactly when the original has it there ignoring ASCII case |
| ModelRules.IsQwenFamilyIff | tools/crates/pb-sharder/src/model_rules.rs:50-52 | a type is Qwen-family exactly when it contains `qwen` ignoring ASCII case |
| ModelRules.RulesFromInputDir | tools/crates/pb-sharder/src/model_rules.rs:13-32 | the rules succeed exactly when the model type could be read, and carry it |
| ModelRules.RulesPatternIndependent | tools/crates/pb-sharder/src/model_rules.rs:17-26 | every successful rule set uses the same layer pattern as `classify_tensor` |
| ModelRules.MissingConfigIsQwen | tools/crates/pb-sharder/src/model_rules.rs:35-37 | without `config.json` the model type is unknown and the Qwen pattern is used |
| Shard.WriteChunk | crates/pb-sharder/src/shard.rs:178-191 | one chunk: load, serialize, write; on success the file holds the bytes and the entry records id, range, size and digest; on failure every other file is unchanged, and only the chunk file itself may be truncated when its write failed |
| Shard.DrainWindow | crates/pb-sharder/src/shard.rs:158-166 | `remove` over a window yields its layers' tensors in order and leaves exactly the layers after it |
| Shard.WriteStep | crates/pb-sharder/src/shard.rs:168-191 | an empty window writes nothing; otherwise one chunk is written, or the run fails with every file unchanged except a chunk file whose write failed |
| Shard.WindowOutcomesFrom | crates/pb-sharder/src/shard.rs:150-194 | the rest of the loop: overflow of `chunk_start + k`, else this window's chunk followed by the rest |
| Shard.PrependPrepend | crates/pb-sharder/src/shard.rs:183-191 | chunks pushed in two steps are the chunks pushed at once |
| Shard.WriteWindow | crates/pb-sharder/src/shard.rs:151-191 | one window's body: it drains the window, writes its chunk if any, and leaves the later layers; on failure no other file changes |
| Shard.NextWindow | crates/pb-sharder/src/shard.rs:150-193 | one iteration advances `chunk_start` and writes the files of the specified loop's next step; with `k == 0` it overflows; on failure the specified loop writes nothing more from here and no file but the failed one changes |
| Shard.WriteLayerChunks | crates/pb-sharder/src/shard.rs:148-194 | the window loop writes exactly the specified layer chunks, in order, or fails with the specified error; on failure the chunks of the earlier windows stay written (`LayerWrites`) and only the failed file may differ |
| Shard.WriteChunks | crates/pb-sharder/src/shard.rs:117-194 | the base chunk, then the layer chunks; the first failure ends it, and the chunks written before it (`base.safetensors` first) stay in the directory |
| Shard.FinishManifest | crates/pb-sharder/src/shard.rs:200-212 | the manifest has version `1.0.0`, dtype `auto` and depth `layers_per_chunk`; an invalid one fails with every file unchanged; an unwritable `manifest.json` fails and only that file may change; otherwise it is written |
| Shard.WriteAll | crates/pb-sharder/src/shard.rs:117-212 | everything after the scan: on success exactly the chunk files and the manifest of the specification; on failure the chunk files written before it (`PublishWrites`) stay, and only the file whose write failed may differ |
| Shard.StoredAppend | crates/pb-sharder/src/shard.rs:178-191 | writing two batches of chunks is writing their concatenation |
| Shard.EntriesAppend | crates/pb-sharder/src/shard.rs:183-191 | manifest entries add over concatenation |
| Shard.Run | crates/pb-sharder/src/shard.rs:16-221 | `run` ends as specified: the same error, with the chunk files written before it (`RunWrites`) left behind and only a file whose write failed differing, or the specified manifest with exactly the chunk files and `manifest.json` written (also `main` at crates/pb-sharder/src/main.rs:186-389) |
| Shard.WindowWritesOk | crates/pb-sharder/src/shard.rs:150-194 | a window loop that succeeds has written exactly the chunks it returns |
| Shard.LayerWritesOk | crates/pb-sharder/src/shard.rs:148-194 | the same for the loop over all layers |
| Shard.PublishWritesAfterChunks | crates/pb-sharder/src/shard.rs:200-212 | once the base and every layer chunk are written, they are the files left behind whatever validation and the manifest write then do |
| Shard.PublishWritesOk | crates/pb-sharder/src/shard.rs:117-212 | a successful run after the scan wrote exactly its chunk files |
| Shard.RunWritesOk | crates/pb-sharder/src/shard.rs:16-221 | on success the chunk files `run` leaves behind are exactly its output's chunks |
| Shard.CheckedRun | crates/pb-sharder/src/shard.rs:148-151 | the corrected run: `layers_per_chunk == 0` is refused as an invalid depth before any file is written; otherwise it is `run`, including what a failure leaves behind |
| ShardProperties.ChunkOutcomeEntry | crates/pb-sharder/src/shard.rs:178-191 | a written chunk's tensors loaded, its bytes serialized, its file writable, and its entry records id, file, range, size and digest of those bytes with an empty `url` |
| ShardProperties.RealizesCons | crates/pb-sharder/src/shard.rs:178-191 | a chunk written in front of written chunks realizes the longer plan |
| ShardProperties.WindowOutcomesRealize | crates/pb-sharder/src/shard.rs:148-194 | the chunks of a successful loop are exactly the planned layer chunks, each loaded, serialized and written |
| ShardProperties.RunIsPublish | crates/pb-sharder/src/shard.rs:16-105 | before writing, only the directory check, discovery, the scan and the `max_layer + 1` overflow can fail |
| ShardProperties.PublishOk | crates/pb-sharder/src/shard.rs:117-212 | a successful run had `layers_per_chunk >= 1`, wrote exactly the planned chunks, and built a valid manifest from them |
| ShardProperties.WindowOutcomesErrors | crates/pb-sharder/src/shard.rs:148-194 | the loop fails only by a chunk failure or an overflow |
| ShardProperties.PublishNeverInvalid | crates/pb-sharder/src/shard.rs:200-208 | validation after writing never fails: the base chunk makes the list non-empty, and depth 0 fails earlier |
| ShardProperties.RunNeverInvalid | crates/pb-sharder/src/shard.rs:16-221 | no run ends with a validation error |
| ShardProperties.PlanEveryTensorOnce | crates/pb-sharder/src/shard.rs:77-194 | the planned chunks hold every scanned tensor exactly once |
| ShardProperties.RunPlanContents | crates/pb-sharder/src/shard.rs:117-194 | the planned chunks hold base, then all layers in order |
| ShardProperties.ConcatLocsCons | crates/pb-sharder/src/shard.rs:117-194 | the base chunk's tensors come first |
| ShardProperties.RunEveryTensorOnce | crates/pb-sharder/src/shard.rs:16-221 | a successful run parsed every header, classified every name, and wrote every tensor of every source file exactly once |
| ShardProperties.NamesDistinctCons | crates/pb-sharder/src/shard.rs:120-153 | adding the base chunk keeps file names distinct |
| ShardProperties.RunPlanNamesDistinct | crates/pb-sharder/src/shard.rs:120-153 | no two chunks share a file, and none is `manifest.json` |
| ShardProperties.StoredHoldsEach | crates/pb-sharder/src/shard.rs:178-191 | with distinct names, each written chunk's file holds its bytes afterwards |
| ShardProperties.PublishWritesEachChunk | crates/pb-sharder/src/shard.rs:117-212 | after a successful run each manifest entry names a planned chunk's file, its `bytes` is that file's size and its digest is that file's digest |
| ShardProperties.ZeroDepthOverflows | crates/pb-sharder/src/shard.rs:151 | with `layers_per_chunk == 0` the loop's `min(..) - 1` overflows once the base chunk is written |
| ShardProperties.RunZeroDepth | crates/pb-sharder/src/shard.rs:128-151 | such a run ends by the overflow and never by the manifest's depth check, and it leaves `base.safetensors` with the base chunk's bytes behind |
| ShardProperties.CheckedRunDepth | crates/manifest-core/src/lib.rs:46-48 | the corrected run fails with the depth error exactly when `layers_per_chunk == 0`, and otherwise behaves like `run` |
| ShardProperties.RunEarlyErrors | crates/pb-sharder/src/shard.rs:18-45 | a non-directory, a directory without safetensors files, and a failed scan each end the run with their own error |
| OnnxClassify.LayerMatchAgrees | tools/onnx-sharder/src/parser/classify.py:21 | the Python `LAYER_RE` agrees with the Rust rule on every name within `u32` |
| OnnxClassify.NodeLayerAt | tools/onnx-sharder/src/parser/classify.py:23 | a node match starts with `/model/layers.` |
| OnnxClassify.SearchFromMeaning | tools/onnx-sharder/src/parser/classify.py:49 | the search returns the leftmost match from a position, or none when no position matches |
| OnnxClassify.NodeLayerLeftmost | tools/onnx-sharder/src/parser/classify.py:49 | `NODE_LAYER_RE.search` takes the leftmost match |
| OnnxClassify.FirstLayerIsFirst | tools/onnx-sharder/src/parser/classify.py:48-55 | an input's layer is that of the first layer node that consumes it |
| OnnxClassify.FirstLayerAppend | tools/onnx-sharder/src/parser/classify.py:53-55 | a later node never overrides an earlier mapping |
| OnnxClassify.AddAbsentMeaning | tools/onnx-sharder/src/parser/classify.py:53-55 | an input is added only when absent |
| OnnxClassify.InitToLayerFirst | tools/onnx-sharder/src/parser/classify.py:41-56 | the map holds exactly the inputs of layer nodes, each with its first node's layer |
| OnnxClassify.BuildInitToLayerMap | tools/onnx-sharder/src/parser/classify.py:41-56 | the loop builds that map |
| OnnxClassify.LmHeadInputsMeaning | tools/onnx-sharder/src/parser/classify.py:59-70 | the set holds exactly the inputs of nodes whose name contains `/lm_head/` |
| OnnxClassify.BuildInitToLmHead | tools/onnx-sharder/src/parser/classify.py:59-70 | the loop builds that set |
| OnnxClassify.ClassifyPriority | tools/onnx-sharder/src/parser/classify.py:73-104 | the rules in order: name pattern, graph layer, embed prefix, norm prefix, `lm_head` input, else embed; each kind holds exactly under its condition |
| OnnxClassify.ClassifyPatternWins | tools/onnx-sharder/src/parser/classify.py:83-89 | the name pattern beats the graph map |
| OnnxClassify.ClassifyTracedLayer | tools/onnx-sharder/src/parser/classify.py:88-89 | a quantized name takes its layer from the graph |
| OnnxClassify.ClassifyBaseKinds | tools/onnx-sharder/src/parser/classify.py:92-104 | norm beats `lm_head`, and an unmatched name is embed |
| OnnxClassify.ClassifiedLists | tools/onnx-sharder/src/parser/classify.py:116-126 | embed, `lm_head` and norm lists are the initializers of that kind, in order |
| OnnxClassify.ClassifiedLayers | tools/onnx-sharder/src/parser/classify.py:118-119 | each layer list is that layer's initializers in order, and the keys are the non-empty layers |
| OnnxClassify.ClassifiedMax | tools/onnx-sharder/src/parser/classify.py:120 | `max_layer` is the largest layer index found (or -1) |
| OnnxClassify.MaxIndexMeaning | tools/onnx-sharder/src/parser/classify.py:38 | -1 exactly when there is no layer tensor; otherwise an attained upper bound |
| OnnxClassify.EveryInitializerOnce | tools/onnx-sharder/src/parser/classify.py:116-126 | each initializer lands in exactly its kind's list, as often as it occurs |
| OnnxClassify.ClassifyInitializers | tools/onnx-sharder/src/parser/classify.py:107-128 | the loop computes the classification |
| OnnxPlan.AllTensorsAppend | tools/onnx-sharder/src/writer/shard_writer.py:130-217 | written tensors add over concatenated shard lists |
| OnnxPlan.LocationsAppend | tools/onnx-sharder/src/writer/shard_writer.py:130-217 | tensor file names add over concatenated shard lists |
| OnnxPlan.LayerJobsExhausted | tools/onnx-sharder/src/writer/shard_writer.py:148 | the group loop ends at `total_layers` |
| OnnxPlan.LayerJobsStep | tools/onnx-sharder/src/writer/shard_writer.py:148-171 | one group: its shard if non-empty, then the groups from `group_start + k` |
| OnnxPlan.LayerJobsTensors | tools/onnx-sharder/src/writer/shard_writer.py:152-157 | the group shards hold the windows' layer tensors, in order |
| OnnxPlan.PlanTensors | tools/onnx-sharder/src/writer/shard_writer.py:133-217 | the tensors written, in order: embed, norm, layers, `lm_head` (split) or embed, norm, `lm_head`, layers (legacy) |
| OnnxPlan.ClassifiedCount | tools/onnx-sharder/src/writer/shard_writer.py:135-204 | the shards hold each initializer at most as often as the model does |
| OnnxPlan.PlanDistinct | tools/onnx-sharder/src/writer/shard_writer.py:110-217 | no initializer is written twice |
| OnnxPlan.LayerJobsShape | tools/onnx-sharder/src/writer/shard_writer.py:148-171 | each group shard is non-empty with the window's id, range, file name and tensors |
| OnnxPlan.LayerJobsOrdered | tools/onnx-sharder/src/writer/shard_writer.py:148-171 | the group ranges strictly increase |
| OnnxPlan.GroupWindowsOrdered | tools/onnx-sharder/src/writer/shard_writer.py:148-149 | the groups lie within `[0, max_layer]` and ascend |
| OnnxPlan.PlanOrder | tools/onnx-sharder/src/writer/shard_writer.py:133-217 | every shard is non-empty, and the kinds come in the order embed, layers, `lm_head` |
| OnnxPlan.PlanRanges | tools/onnx-sharder/src/writer/shard_writer.py:144-171 | layer ranges lie within `[0, max_layer]`, hold their layers' tensors, and only layer shards have one |
| OnnxPlan.PlanRangesIncrease | tools/onnx-sharder/src/writer/shard_writer.py:148 | layer ranges strictly increase over the whole plan |
| OnnxPlan.PlanLegacyNumbering | tools/onnx-sharder/src/writer/shard_writer.py:181-217 | legacy mode numbers the files `model.onnx_data_0, 1, 2, …` with no gap |
| OnnxPlan.PlanSplitNames | tools/onnx-sharder/src/writer/shard_writer.py:133-179 | split mode names `…_embed`, `…_lm_head` and `…_<group_start>` |
| OnnxPlan.PlanNamesDistinct | tools/onnx-sharder/src/writer/shard_writer.py:110-217 | no file is written twice |
| OnnxWriter.RefsAt | tools/onnx-sharder/src/writer/shard_writer.py:63-70 | the `i`-th reference's offset is the sum of the earlier lengths |
| OnnxWriter.ResolveRef | tools/onnx-sharder/src/writer/shard_writer.py:63-70 | reading a reference back out of the data file yields that tensor's bytes |
| OnnxWriter.LayoutEnd | tools/onnx-sharder/src/writer/shard_writer.py:47-72 | after the loop the file holds all tensors' bytes in order |
| OnnxWriter.WriteTensor | tools/onnx-sharder/src/writer/shard_writer.py:51-70 | one tensor: its bytes are appended, `raw_data` and the four typed fields `float_data`, `int32_data`, `int64_data` and `double_data` are cleared, and its reference records the file, offset and length |
| OnnxWriter.WriteDataFile | tools/onnx-sharder/src/writer/shard_writer.py:36-72 | the file holds the tensors' bytes in order, the total is its length, and each tensor refers to its slice |
| OnnxWriter.WriteShard | tools/onnx-sharder/src/writer/shard_writer.py:84-107 | no tensors writes nothing; otherwise the shard records the file's size and hash, and every tensor resolves to its original bytes |
| OnnxWriter.PlaceShard | tools/onnx-sharder/src/writer/shard_writer.py:84-107 | a written shard places every tensor in its file |
| OnnxWriter.ContentsBytes | tools/onnx-sharder/src/writer/shard_writer.py:28-33 | a file's contents are its tensors' raw bytes in order |
| OnnxWriter.WriteJob | tools/onnx-sharder/src/writer/shard_writer.py:166-171 | one shard written keeps earlier shards' tensors resolvable and appends the shard |
| OnnxWriter.WriteNext | tools/onnx-sharder/src/writer/shard_writer.py:130-217 | one more shard of the plan written |
| OnnxWriter.WriteJobs | tools/onnx-sharder/src/writer/shard_writer.py:130-217 | writing the planned shards in order gives the specified files and shards |
| OnnxWriter.GatherGroup | tools/onnx-sharder/src/writer/shard_writer.py:152-154 | a group's tensors are its layers' tensors in layer order |
| OnnxWriter.NextGroup | tools/onnx-sharder/src/writer/shard_writer.py:148-171 | one group iteration yields the next shard, if any |
| OnnxWriter.LayerGroups | tools/onnx-sharder/src/writer/shard_writer.py:144-171 | the group loop yields the specified group shards |
| OnnxWriter.HeadShards | tools/onnx-sharder/src/writer/shard_writer.py:133-141 | the first shard: embed plus norm (split) or all base (legacy), and the next data index |
| OnnxWriter.GroupsAfterHead | tools/onnx-sharder/src/writer/shard_writer.py:143-171 | the group shards, or none without layer tensors |
| OnnxWriter.TailShards | tools/onnx-sharder/src/writer/shard_writer.py:173-179 | the `lm_head` shard in split mode only |
| OnnxWriter.WriteShards | tools/onnx-sharder/src/writer/shard_writer.py:110-225 | with a step of 0 the head shard is written and then `range` fails; otherwise exactly the planned files and shards are written, and every tensor resolves to its bytes |
| OnnxManifest.ShardDictShape | tools/onnx-sharder/src/writer/manifest.py:21-31 | the keys in order, `layer_range` exactly when set, and the hash prefixed `blake3:` |
| OnnxManifest.ShardFieldsRead | tools/onnx-sharder/src/writer/manifest.py:21-31 | each field reads back |
| OnnxManifest.ShardRoundTrip | tools/onnx-sharder/src/writer/manifest.py:21-31 | a shard dictionary gives its shard back |
| OnnxManifest.NewManifest | tools/onnx-sharder/src/writer/manifest.py:34-42 | the version defaults to `0.2` and the other fields are as given |
| OnnxManifest.ManifestDictShape | tools/onnx-sharder/src/writer/manifest.py:44-53 | the keys in order and the shards as their dictionaries |
| OnnxManifest.ShardsRoundTrip | tools/onnx-sharder/src/writer/manifest.py:52 | the shard list round-trips |
| OnnxManifest.ManifestFieldsRead | tools/onnx-sharder/src/writer/manifest.py:44-53 | each manifest field reads back |
| OnnxManifest.ManifestRoundTrip | tools/onnx-sharder/src/writer/manifest.py:44-53 | a manifest dictionary gives its manifest back |

## Left out

- File system and process: `fs::create_dir_all`, `File::open` and `mmap` are not modelled. A
  file whose bytes do not parse stands for all three failures (its header is `None`).
  Non-UTF-8 paths and extensions are not modelled either, since names are strings.
- Libraries: `safetensors` parsing and `serialize`, SHA-256, BLAKE3, `serde_json` rendering,
  `json.dump` and `onnx.numpy_helper` are abstract. Each is a parameter or a field.
  The model proves what the sharder does with their results, not what they compute.
- Threads: the tools crate's `write_safetensors` hashes and writes on two scoped threads.
  The model runs them in sequence over the same bytes, which gives the same result because
  both only read the buffer. A thread that panics is not modelled.
- Timings, `Instant`, and all printing (`println!`, `print`, `print_summary`) are left out.
  They do not affect the files or the manifest.
- Classify.ClassifyTensor: `\d` in the Rust `regex` crate also matches non-ASCII Unicode
  digits. Those then fail `parse::<u32>()` and panic. The model accepts ASCII digits only, so
  such a name is base in the model but aborts the source.
- OnnxClassify.ClassifyTensor: `\d` in Python's `re` on `str` patterns matches every Unicode
  decimal digit, and `int()` accepts those digits too (tools/onnx-sharder/src/parser/classify.py:21,23,52,85).
  So `model.layers.٣.x` is a layer-3 tensor in the source. The model (`LayerMatch`,
  `NodeLayerAt`) reads ASCII digits only, so it classifies such a name without a layer.
- Shard.Run: the model follows overflow-checked (debug build) `u32` arithmetic, where
  `max_layer + 1` (crates/pb-sharder/src/shard.rs:105, main.rs:273) and
  `chunk_start + layers_per_chunk` (shard.rs:151, main.rs:319) panic, modelled as
  `ArithmeticOverflow`. A release build wraps instead. A tensor `model.layers.4294967295.x`
  then makes `total_layers` 0: the window loop never runs, every layer tensor is silently
  dropped, and a manifest with the base chunk alone is validated and written. That release
  behaviour is not modelled.
- Storage.OutputDir.Write: a failed write promises only that the target still exists if it
  did, and holds its old bytes or a prefix of the new ones. Which failure happens is not modelled.
- The ONNX graph is reduced to node names and input lists. `onnx.save` of `model.onnx`, and
  `ModelManifest.write` (the JSON file with indentation), are not modelled beyond the
  dictionary they write.
- OnnxWriter.WriteTensor: the source clears only `raw_data`, `float_data`, `int32_data`,
  `int64_data` and `double_data` (tools/onnx-sharder/src/writer/shard_writer.py:57-61).
  `numpy_helper.to_array` also reads `uint64_data` (UINT32, UINT64) and `string_data`, which
  stay in place, so such a tensor ends with its data both inline and external. The model's
  `TensorProto` has no field for those two, so it does not represent such tensors or the data
  they keep inline.
- OnnxWriter.WriteShards: Python I/O errors are not modelled. Every output path is taken as
  writable, so the method requires an output directory without unwritable names.
- OnnxWriter.WriteShards: the source gathers each group and writes it in the same loop. The
  model builds the shard list first and then writes it. Gathering reads only the
  classification and never a tensor field, so the files and shards are the same.
- OnnxWriter.WriteShards: with a negative `layers_per_chunk`, Python's `range` yields nothing
  and no group is written, which the model follows. Its case with step 0 stops after the head
  shard, where `range` raises.
- TensorIo.LoadTensors: the source indexes `loaded_files[file_idx]`, which panics when out
  of range. The model requires every location to refer to a loaded file, and the scan
  guarantees this (`Partition.ScanInFiles`).
- TensorIo.CheckViews: `TensorView::new` also rejects other malformed views (for example a
  shape whose product overflows). The model checks only the byte length against dtype size
  times element count.
- TensorIo.LoadTensorsCounted: `bytes_read` is a `usize` and its overflow is not modelled,
  because a sum above `usize::MAX` cannot be held in memory.
- ModelRules.ReadModelType: `config.json` reading and parsing are abstract outcomes
  (missing, unreadable, malformed, or a parsed JSON value).
- `main.rs` CLI parsing (`clap`) and `metrics.rs` are not part of this model. The argument
  record holds only what `run` reads: `model_id` and `layers_per_chunk`.

## Findings

| source | as written | input that shows it | evidently intended | confidence | as-written member | corrected member |
|---|---|---|---|---|---|---|
| crates/pb-sharder/src/shard.rs:151 | with `layers_per_chunk == 0`, `(chunk_start + 0).min(total_layers) - 1` computes `0u32 - 1`. A debug build panics after `base.safetensors` is written. A release build wraps to `u32::MAX`, and `chunk_end + 1` then wraps back to 0, so the loop never ends. The manifest's `min_runnable_depth > 0` check (crates/manifest-core/src/lib.rs:46) is never reached. | `--layers-per-chunk 0` on any model directory | refuse a depth of 0 as an invalid manifest before writing any chunk | high (not executed) | ShardProperties.RunZeroDepth | Shard.CheckedRun |
