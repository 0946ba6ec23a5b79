/** The header scan of the Rust sharder: every tensor of every source file,
    in file order and header order, goes either to the base list or to the
    list of its layer, and the largest layer index is remembered. */
module Partition {
  import opened Wrappers
  import opened Seqs
  import opened Classify
  import opened TensorIo
  import opened LayerWindows

  /** `base_tensors`, `layer_tensors` (a `BTreeMap<u32, Vec<_>>`) and
      `max_layer`. */
  datatype Buckets = Buckets(base: seq<TensorLocation>, layers: map<nat, seq<TensorLocation>>, maxLayer: nat)

  const NoBuckets: Buckets := Buckets([], map[], 0)

  datatype ScanError =
    | HeaderUnreadable(path: string)
    | BadLayerIndex(e: ClassifyError)

  /** Every present layer key holds at least one tensor and is at most
      `maxLayer`. */
  predicate WellFormed(b: Buckets) {
    forall n :: n in b.layers ==> n <= b.maxLayer && b.layers[n] != []
  }

  /** One arm of the `match classify_tensor(..)`. */
  function Place(b: Buckets, loc: TensorLocation, c: TensorClass): (r: Buckets)
    ensures WellFormed(b) ==> WellFormed(r)
  {
    match c
    case Base => b.(base := b.base + [loc])
    case Layer(n) => Buckets(b.base, b.layers[n := Get(b.layers, n) + [loc]], if n > b.maxLayer then n else b.maxLayer)
  }

  /** Placing a run of tensors one after the other; the first name whose
      layer index does not fit stops the scan. */
  function PlaceAll(b: Buckets, locs: seq<TensorLocation>): Result<Buckets, ClassifyError> {
    if locs == [] then Ok(b)
    else
      var prev :- PlaceAll(b, locs[..|locs| - 1]);
      var loc := locs[|locs| - 1];
      var c :- ClassifyTensor(loc.name);
      Ok(Place(prev, loc, c))
  }

  /** The locations of one file's tensors, in header order. */
  function FileLocs(f: nat, names: seq<string>): (r: seq<TensorLocation>)
    ensures |r| == |names|
    ensures forall i :: 0 <= i < |r| ==> r[i] == TensorLocation(f, names[i])
  {
    seq(|names|, i requires 0 <= i < |names| => TensorLocation(f, names[i]))
  }

  /** One file of the scan: its header must parse, then its tensors are
      placed in header order. */
  function ScanFile(b: Buckets, f: nat, file: SourceFile): Result<Buckets, ScanError> {
    match file.header
    case None => Err(HeaderUnreadable(file.path))
    case Some(h) =>
      match PlaceAll(b, FileLocs(f, HeaderNames(h)))
      case Err(e) => Err(BadLayerIndex(e))
      case Ok(b') => Ok(b')
  }

  /** The scan over the first `n` files: a file whose header does not parse
      stops it. */
  function ScanUpTo(files: seq<SourceFile>, n: nat): Result<Buckets, ScanError>
    requires n <= |files|
  {
    if n == 0 then Ok(NoBuckets)
    else
      var b :- ScanUpTo(files, n - 1);
      ScanFile(b, n - 1, files[n - 1])
  }

  function Scan(files: seq<SourceFile>): Result<Buckets, ScanError> {
    ScanUpTo(files, |files|)
  }

  // -----------------------------------------------------------------------
  // What the buckets mean
  // -----------------------------------------------------------------------

  predicate IsBase(loc: TensorLocation) {
    ClassifyTensor(loc.name) == Ok(Base)
  }

  predicate InLayer(loc: TensorLocation, n: nat) {
    ClassifyTensor(loc.name) == Ok(Layer(n))
  }

  function BaseLocs(ls: seq<TensorLocation>): seq<TensorLocation> {
    Filter(ls, IsBase)
  }

  function LayerLocs(ls: seq<TensorLocation>, n: nat): seq<TensorLocation> {
    Filter(ls, (loc: TensorLocation) => InLayer(loc, n))
  }

  /** The largest layer index among `ls`, 0 when there is none. */
  function MaxLayerOf(ls: seq<TensorLocation>): nat {
    if ls == [] then 0
    else
      var m := MaxLayerOf(ls[..|ls| - 1]);
      match ClassifyTensor(ls[|ls| - 1].name)
      case Ok(Layer(n)) => if n > m then n else m
      case _ => m
  }

  predicate AllClassified(ls: seq<TensorLocation>) {
    forall i :: 0 <= i < |ls| ==> ClassifyTensor(ls[i].name).Ok?
  }

  /** `ls[i]` is the first location whose name does not classify, and `e`
      is its error. */
  predicate FirstUnclassified(ls: seq<TensorLocation>, i: int, e: ClassifyError) {
    0 <= i < |ls| && ClassifyTensor(ls[i].name) == Err(e) && AllClassified(ls[..i])
  }

  function Max(a: nat, b: nat): nat {
    if a >= b then a else b
  }

  /** The buckets after `b` plus `ls`: the base tensors of `ls` appended to
      the base list, the layer-`n` tensors of `ls` appended to layer `n`,
      and the maximum updated. */
  ghost predicate Extends(b: Buckets, ls: seq<TensorLocation>, p: Buckets) {
    && p.base == b.base + BaseLocs(ls)
    && (forall n: nat :: Get(p.layers, n) == Get(b.layers, n) + LayerLocs(ls, n))
    && (forall n: nat :: n in p.layers <==> n in b.layers || LayerLocs(ls, n) != [])
    && p.maxLayer == Max(b.maxLayer, MaxLayerOf(ls))
  }

  /** Placing succeeds exactly when every name classifies, and otherwise
      reports the first name that does not. */
  lemma {:induction false} PlaceAllOk(b: Buckets, ls: seq<TensorLocation>)
    ensures PlaceAll(b, ls).Ok? <==> AllClassified(ls)
    ensures PlaceAll(b, ls).Err? ==> exists i :: FirstUnclassified(ls, i, PlaceAll(b, ls).error)
  {
    if ls != [] {
      var init := ls[..|ls| - 1];
      var loc := ls[|ls| - 1];
      PlaceAllOk(b, init);
      assert forall i :: 0 <= i < |init| ==> init[i] == ls[i];
      if PlaceAll(b, init).Err? {
        var i :| FirstUnclassified(init, i, PlaceAll(b, init).error);
        assert ls[..i] == init[..i];
        assert FirstUnclassified(ls, i, PlaceAll(b, ls).error);
      } else if ClassifyTensor(loc.name).Err? {
        assert ls[..|ls| - 1] == init;
        assert FirstUnclassified(ls, |ls| - 1, PlaceAll(b, ls).error);
      }
    }
  }

  /** When placing succeeds, every tensor is filed under its class, in
      order. */
  lemma {:induction false} PlaceAllExtends(b: Buckets, ls: seq<TensorLocation>)
    requires PlaceAll(b, ls).Ok?
    ensures Extends(b, ls, PlaceAll(b, ls).value)
  {
    if ls == [] {
      forall n: nat ensures LayerLocs(ls, n) == [] {
      }
    } else {
      var init := ls[..|ls| - 1];
      var loc := ls[|ls| - 1];
      PlaceAllExtends(b, init);
      assert ls == init + [loc];
      PlaceStep(b, init, loc, PlaceAll(b, init).value, ClassifyTensor(loc.name).value);
    }
  }

  lemma PlaceStep(b: Buckets, init: seq<TensorLocation>, loc: TensorLocation, prev: Buckets, c: TensorClass)
    requires Extends(b, init, prev) && ClassifyTensor(loc.name) == Ok(c)
    ensures Extends(b, init + [loc], Place(prev, loc, c))
  {
    BaseStep(b, init, loc, prev, c);
    MaxStep(b, init, loc, prev, c);
    LayersStep(b, init, loc, prev, c);
    KeysStep(b, init, loc, prev, c);
  }

  lemma BaseStep(b: Buckets, init: seq<TensorLocation>, loc: TensorLocation, prev: Buckets, c: TensorClass)
    requires prev.base == b.base + BaseLocs(init) && ClassifyTensor(loc.name) == Ok(c)
    ensures Place(prev, loc, c).base == b.base + BaseLocs(init + [loc])
  {
    FilterAppend(init, loc, IsBase);
  }

  lemma MaxStep(b: Buckets, init: seq<TensorLocation>, loc: TensorLocation, prev: Buckets, c: TensorClass)
    requires prev.maxLayer == Max(b.maxLayer, MaxLayerOf(init)) && ClassifyTensor(loc.name) == Ok(c)
    ensures Place(prev, loc, c).maxLayer == Max(b.maxLayer, MaxLayerOf(init + [loc]))
  {
    assert (init + [loc])[..|init|] == init;
  }

  lemma LayersStep(b: Buckets, init: seq<TensorLocation>, loc: TensorLocation, prev: Buckets, c: TensorClass)
    requires forall n: nat :: Get(prev.layers, n) == Get(b.layers, n) + LayerLocs(init, n)
    requires ClassifyTensor(loc.name) == Ok(c)
    ensures forall n: nat :: Get(Place(prev, loc, c).layers, n) == Get(b.layers, n) + LayerLocs(init + [loc], n)
  {
    forall n: nat ensures Get(Place(prev, loc, c).layers, n) == Get(b.layers, n) + LayerLocs(init + [loc], n) {
      LayerStep(init, loc, n);
    }
  }

  lemma KeysStep(b: Buckets, init: seq<TensorLocation>, loc: TensorLocation, prev: Buckets, c: TensorClass)
    requires forall n: nat :: n in prev.layers <==> n in b.layers || LayerLocs(init, n) != []
    requires ClassifyTensor(loc.name) == Ok(c)
    ensures forall n: nat :: n in Place(prev, loc, c).layers <==> n in b.layers || LayerLocs(init + [loc], n) != []
  {
    forall n: nat ensures n in Place(prev, loc, c).layers <==> n in b.layers || LayerLocs(init + [loc], n) != [] {
      LayerStep(init, loc, n);
    }
  }

  lemma LayerStep(init: seq<TensorLocation>, loc: TensorLocation, n: nat)
    ensures LayerLocs(init + [loc], n) == LayerLocs(init, n) + if InLayer(loc, n) then [loc] else []
  {
    FilterAppend(init, loc, (l: TensorLocation) => InLayer(l, n));
  }

  /** Running on `xs + ys` is running on `xs` and then on `ys`. */
  lemma {:induction false} PlaceAllAppend(b: Buckets, xs: seq<TensorLocation>, ys: seq<TensorLocation>)
    ensures PlaceAll(b, xs + ys) ==
      if PlaceAll(b, xs).Err? then PlaceAll(b, xs) else PlaceAll(PlaceAll(b, xs).value, ys)
  {
    if ys == [] {
      assert xs + ys == xs;
    } else {
      var init := ys[..|ys| - 1];
      PlaceAllAppend(b, xs, init);
      assert (xs + ys)[..|xs + ys| - 1] == xs + init;
    }
  }

  /** The largest index is an upper bound of every layer index, and is
      itself a layer index unless there is no layer tensor at all. */
  lemma {:induction false} MaxLayerOfMeaning(ls: seq<TensorLocation>)
    ensures forall i, n: nat :: 0 <= i < |ls| && InLayer(ls[i], n) ==> n <= MaxLayerOf(ls)
    ensures MaxLayerOf(ls) > 0 ==> exists i :: 0 <= i < |ls| && InLayer(ls[i], MaxLayerOf(ls))
  {
    if ls != [] {
      var init := ls[..|ls| - 1];
      MaxLayerOfMeaning(init);
      assert forall i :: 0 <= i < |init| ==> init[i] == ls[i];
    }
  }

  // -----------------------------------------------------------------------
  // The scan over all files
  // -----------------------------------------------------------------------

  predicate AllHeadersParse(files: seq<SourceFile>, n: nat)
    requires n <= |files|
  {
    forall i :: 0 <= i < n ==> files[i].header.Some?
  }

  /** The tensors of file `f`, in header order; none when the header does
      not parse. */
  function FileLocsOf(f: nat, file: SourceFile): seq<TensorLocation> {
    match file.header
    case None => []
    case Some(h) => FileLocs(f, HeaderNames(h))
  }

  /** Every tensor of the first `n` files, in file order and header order. */
  function AllLocs(files: seq<SourceFile>, n: nat): seq<TensorLocation>
    requires n <= |files|
  {
    if n == 0 then [] else AllLocs(files, n - 1) + FileLocsOf(n - 1, files[n - 1])
  }

  lemma ScanFileMeaning(b: Buckets, f: nat, file: SourceFile)
    ensures ScanFile(b, f, file).Ok? <==> file.header.Some? && PlaceAll(b, FileLocsOf(f, file)).Ok?
    ensures ScanFile(b, f, file).Ok? ==> ScanFile(b, f, file).value == PlaceAll(b, FileLocsOf(f, file)).value
  {
  }

  /** The scan succeeds exactly when every header parses and every name
      classifies, and its buckets are then those of placing all tensors in
      order, starting from nothing. */
  lemma ScanUpToMeaning(files: seq<SourceFile>, n: nat)
    requires n <= |files|
    ensures ScanUpTo(files, n).Ok? <==> AllHeadersParse(files, n) && PlaceAll(NoBuckets, AllLocs(files, n)).Ok?
    ensures ScanUpTo(files, n).Ok? ==> ScanUpTo(files, n).value == PlaceAll(NoBuckets, AllLocs(files, n)).value
  {
    if ScanUpTo(files, n).Ok? {
      ScanOk(files, n);
    } else {
      ScanErr(files, n);
    }
  }

  lemma {:induction false} ScanOk(files: seq<SourceFile>, n: nat)
    requires n <= |files| && ScanUpTo(files, n).Ok?
    ensures AllHeadersParse(files, n) && PlaceAll(NoBuckets, AllLocs(files, n)) == Ok(ScanUpTo(files, n).value)
  {
    ScanOkHeaders(files, n);
    if n > 0 {
      ScanOkPrefix(files, n);
      ScanOk(files, n - 1);
      ScanOkLast(files, n);
    } else {
      ScanOkNone(files);
    }
  }

  lemma ScanOkNone(files: seq<SourceFile>)
    ensures PlaceAll(NoBuckets, AllLocs(files, 0)) == Ok(NoBuckets) && ScanUpTo(files, 0) == Ok(NoBuckets)
  {
    assert AllLocs(files, 0) == [];
    assert PlaceAll(NoBuckets, []) == Ok(NoBuckets);
  }

  /** The last file of a successful scan: its tensors are placed onto the
      buckets of the files before it. */
  lemma ScanOkLast(files: seq<SourceFile>, n: nat)
    requires 0 < n <= |files| && ScanUpTo(files, n).Ok? && ScanUpTo(files, n - 1).Ok?
    requires PlaceAll(NoBuckets, AllLocs(files, n - 1)) == Ok(ScanUpTo(files, n - 1).value)
    requires ScanFile(ScanUpTo(files, n - 1).value, n - 1, files[n - 1]) == ScanUpTo(files, n)
    ensures PlaceAll(NoBuckets, AllLocs(files, n)) == Ok(ScanUpTo(files, n).value)
  {
    var prev, b, c := AllLocs(files, n - 1), ScanUpTo(files, n - 1).value, ScanUpTo(files, n).value;
    assert AllLocs(files, n) == prev + FileLocsOf(n - 1, files[n - 1]);
    ScanOkStep(prev, b, n - 1, files[n - 1], c);
  }

  /** A successful scan of `n` files extends a successful scan of the first
      `n - 1` by the last file. */
  lemma ScanOkPrefix(files: seq<SourceFile>, n: nat)
    requires 0 < n <= |files| && ScanUpTo(files, n).Ok?
    ensures ScanUpTo(files, n - 1).Ok?
    ensures ScanFile(ScanUpTo(files, n - 1).value, n - 1, files[n - 1]) == ScanUpTo(files, n)
  {
  }

  /** One more file placed onto buckets that the earlier files produced. */
  lemma ScanOkStep(prev: seq<TensorLocation>, b: Buckets, f: nat, file: SourceFile, c: Buckets)
    requires PlaceAll(NoBuckets, prev) == Ok(b) && ScanFile(b, f, file) == Ok(c)
    ensures PlaceAll(NoBuckets, prev + FileLocsOf(f, file)) == Ok(c)
  {
    ScanFileMeaning(b, f, file);
    PlaceAllAppend(NoBuckets, prev, FileLocsOf(f, file));
  }

  /** A successful scan has read every header. */
  lemma {:induction false} ScanOkHeaders(files: seq<SourceFile>, n: nat)
    requires n <= |files| && ScanUpTo(files, n).Ok?
    ensures AllHeadersParse(files, n)
  {
    if n > 0 {
      var m := n - 1;
      assert ScanUpTo(files, m).Ok?;
      ScanOkHeaders(files, m);
      assert files[m].header.Some?;
    }
  }

  lemma {:induction false} ScanErr(files: seq<SourceFile>, n: nat)
    requires n <= |files| && ScanUpTo(files, n).Err?
    ensures !AllHeadersParse(files, n) || PlaceAll(NoBuckets, AllLocs(files, n)).Err?
  {
    var m := n - 1;
    var before := ScanUpTo(files, m);
    var prev := AllLocs(files, m);
    var here := FileLocsOf(m, files[m]);
    assert AllLocs(files, n) == prev + here;
    if before.Err? {
      ScanErr(files, m);
      if AllHeadersParse(files, n) {
        assert AllHeadersParse(files, m);
        PlaceAllAppend(NoBuckets, prev, here);
      }
    } else {
      assert ScanUpTo(files, n) == ScanFile(before.value, m, files[m]);
      ScanFileMeaning(before.value, m, files[m]);
      ScanOk(files, m);
      if AllHeadersParse(files, n) {
        assert files[m].header.Some?;
        PlaceAllAppend(NoBuckets, prev, here);
      }
    }
  }

  /** `b` is the partition of `ls`: base tensors in the base list, layer-`n`
      tensors in layer `n`'s list, both in their original order, a layer key
      exactly for the layers that occur, and the largest layer index. */
  ghost predicate Partitions(ls: seq<TensorLocation>, b: Buckets) {
    && b.base == BaseLocs(ls)
    && (forall n: nat :: Get(b.layers, n) == LayerLocs(ls, n))
    && (forall n: nat :: n in b.layers <==> LayerLocs(ls, n) != [])
    && b.maxLayer == MaxLayerOf(ls)
  }

  /** The scan of all files succeeds exactly when every header parses and
      every tensor name classifies, and then partitions all their tensors. */
  lemma ScanMeaning(files: seq<SourceFile>)
    ensures Scan(files).Ok? <==> AllHeadersParse(files, |files|) && AllClassified(AllLocs(files, |files|))
    ensures Scan(files).Ok? ==> Partitions(AllLocs(files, |files|), Scan(files).value) && WellFormed(Scan(files).value)
  {
    var all := AllLocs(files, |files|);
    ScanUpToMeaning(files, |files|);
    PlaceAllOk(NoBuckets, all);
    if Scan(files).Ok? {
      PlaceAllExtends(NoBuckets, all);
      PlaceAllWellFormed(NoBuckets, all);
      var b := Scan(files).value;
      assert Extends(NoBuckets, all, b);
      forall n: nat ensures Get(b.layers, n) == LayerLocs(all, n) {
        assert Get(NoBuckets.layers, n) == [];
      }
    }
  }

  lemma {:induction false} PlaceAllWellFormed(b: Buckets, ls: seq<TensorLocation>)
    requires WellFormed(b) && PlaceAll(b, ls).Ok?
    ensures WellFormed(PlaceAll(b, ls).value)
  {
    if ls != [] {
      PlaceAllWellFormed(b, ls[..|ls| - 1]);
    }
  }

  /** Every occurrence of a tensor lands in exactly one bucket: all of
      them in the base list, or all of them in the list of its layer. */
  lemma EveryTensorOnce(ls: seq<TensorLocation>, b: Buckets, x: TensorLocation)
    requires Partitions(ls, b)
    ensures IsBase(x) ==>
      (multiset(b.base)[x] == multiset(ls)[x] && forall n: nat :: multiset(Get(b.layers, n))[x] == 0)
    ensures forall m: nat :: InLayer(x, m) ==>
      (multiset(b.base)[x] == 0 && forall n: nat :: multiset(Get(b.layers, n))[x] == if n == m then multiset(ls)[x] else 0)
  {
    FilterCount(ls, IsBase, x);
    forall n: nat ensures multiset(Get(b.layers, n))[x] == if InLayer(x, n) then multiset(ls)[x] else 0 {
      FilterCount(ls, (l: TensorLocation) => InLayer(l, n), x);
    }
  }

  /** The largest layer index bounds every layer key, and every layer key
      is below `maxLayer + 1`, the `total_layers` of the window loop. */
  lemma LayerKeysBelowTotal(b: Buckets)
    requires WellFormed(b)
    ensures forall n :: n in b.layers ==> n < b.maxLayer + 1
  {
  }

  /** The layer a tensor belongs to, if it is a layer tensor. */
  function LayerOf(x: TensorLocation): Option<nat> {
    match ClassifyTensor(x.name)
    case Ok(Layer(m)) => Some(m)
    case _ => None
  }

  lemma LayerCount(ls: seq<TensorLocation>, b: Buckets, n: nat, x: TensorLocation)
    requires Get(b.layers, n) == LayerLocs(ls, n)
    ensures multiset(Get(b.layers, n))[x] == if LayerOf(x) == Some(n) then multiset(ls)[x] else 0
  {
    FilterCount(ls, (l: TensorLocation) => InLayer(l, n), x);
  }

  /** Collecting layers `0 .. hi-1` gathers every occurrence of the tensors
      whose layer is below `hi`, and nothing else. */
  lemma {:induction false} CollectCount(ls: seq<TensorLocation>, b: Buckets, hi: nat, x: TensorLocation)
    requires forall n: nat :: Get(b.layers, n) == LayerLocs(ls, n)
    ensures multiset(CollectRange(b.layers, 0, hi))[x] ==
      if LayerOf(x).Some? && LayerOf(x).value < hi then multiset(ls)[x] else 0
  {
    if hi > 0 {
      var m := hi - 1;
      CollectCount(ls, b, m, x);
      assert Get(b.layers, m) == LayerLocs(ls, m);
      LayerCount(ls, b, m, x);
      var c, g := CollectRange(b.layers, 0, m), Get(b.layers, m);
      assert CollectRange(b.layers, 0, hi) == c + g;
      assert multiset(c + g)[x] == multiset(c)[x] + multiset(g)[x];
    } else {
      assert CollectRange(b.layers, 0, hi) == [];
    }
  }

  /** The base list and the layer lists drained in ascending order hold, as
      a multiset, exactly the tensors scanned: none is lost or repeated. */
  lemma EveryTensorOnceOverall(ls: seq<TensorLocation>, b: Buckets)
    requires Partitions(ls, b) && AllClassified(ls)
    ensures multiset(b.base + CollectRange(b.layers, 0, b.maxLayer + 1)) == multiset(ls)
  {
    forall x ensures multiset(b.base + CollectRange(b.layers, 0, b.maxLayer + 1))[x] == multiset(ls)[x] {
      TensorOnceAt(ls, b, x);
    }
  }

  lemma TensorOnceAt(ls: seq<TensorLocation>, b: Buckets, x: TensorLocation)
    requires Partitions(ls, b) && AllClassified(ls)
    ensures multiset(b.base + CollectRange(b.layers, 0, b.maxLayer + 1))[x] == multiset(ls)[x]
  {
    var c := CollectRange(b.layers, 0, b.maxLayer + 1);
    CollectCount(ls, b, b.maxLayer + 1, x);
    FilterCount(ls, IsBase, x);
    assert multiset(b.base + c) == multiset(b.base) + multiset(c);
    if x in ls {
      MaxLayerOfMeaning(ls);
      var i :| 0 <= i < |ls| && ls[i] == x;
      assert ClassifyTensor(ls[i].name).Ok?;
      match ClassifyTensor(x.name).value {
        case Base =>
        case Layer(m) =>
          assert InLayer(ls[i], m);
      }
    }
  }

  /** Every location points into the list of source files. */
  predicate InFiles(locs: seq<TensorLocation>, count: nat) {
    forall i :: 0 <= i < |locs| ==> locs[i].fileIdx < count
  }

  lemma {:induction false} AllLocsInFiles(files: seq<SourceFile>, n: nat)
    requires n <= |files|
    ensures InFiles(AllLocs(files, n), n)
  {
    if n > 0 {
      AllLocsInFiles(files, n - 1);
    }
  }

  /** The buckets of a successful scan only name tensors of the scanned
      files, which is what the loader needs. */
  lemma ScanInFiles(files: seq<SourceFile>)
    requires Scan(files).Ok?
    ensures InFiles(Scan(files).value.base, |files|)
    ensures forall n: nat :: InFiles(Get(Scan(files).value.layers, n), |files|)
  {
    var all := AllLocs(files, |files|);
    ScanMeaning(files);
    AllLocsInFiles(files, |files|);
    var b := Scan(files).value;
    forall i | 0 <= i < |b.base| ensures b.base[i].fileIdx < |files| {
      assert b.base[i] in all;
    }
    forall n: nat ensures InFiles(Get(b.layers, n), |files|) {
      var g := Get(b.layers, n);
      forall i | 0 <= i < |g| ensures g[i].fileIdx < |files| {
        assert g[i] in LayerLocs(all, n);
      }
    }
  }

  // -----------------------------------------------------------------------
  // The scan loop
  // -----------------------------------------------------------------------

  /** The scan of `run`: for every file in order, parse its header, then
      classify every name and push its location. */
  method ClassifyAll(files: seq<SourceFile>) returns (r: Result<Buckets, ScanError>)
    ensures r == Scan(files)
  {
    var buckets := NoBuckets;
    for f := 0 to |files|
      invariant ScanUpTo(files, f) == Ok(buckets)
    {
      ScanNext(files, f, buckets);
      if files[f].header.None? {
        return Err(HeaderUnreadable(files[f].path));
      }
      var placed := PlaceNames(buckets, f, HeaderNames(files[f].header.value));
      if placed.Err? {
        return Err(BadLayerIndex(placed.error));
      }
      buckets := placed.value;
    }
    r := Ok(buckets);
  }

  /** File `f` of the scan, after files `0 .. f-1` gave `b`: an unreadable
      header or a bad name ends the whole scan, otherwise its tensors are
      placed into `b`. */
  lemma ScanNext(files: seq<SourceFile>, f: nat, b: Buckets)
    requires f < |files| && ScanUpTo(files, f) == Ok(b)
    ensures files[f].header.None? ==> Scan(files) == Err(HeaderUnreadable(files[f].path))
    ensures files[f].header.Some? ==>
      var placed := PlaceAll(b, FileLocs(f, HeaderNames(files[f].header.value)));
      && (placed.Err? ==> Scan(files) == Err(BadLayerIndex(placed.error)))
      && (placed.Ok? ==> ScanUpTo(files, f + 1) == Ok(placed.value))
  {
    assert ScanUpTo(files, f + 1) == ScanFile(b, f, files[f]);
    if ScanUpTo(files, f + 1).Err? {
      ScanErrSticky(files, f + 1, |files|, ScanUpTo(files, f + 1).error);
    }
  }

  /** The inner loop over one file's names. */
  method PlaceNames(start: Buckets, f: nat, names: seq<string>) returns (r: Result<Buckets, ClassifyError>)
    ensures r == PlaceAll(start, FileLocs(f, names))
  {
    var base: seq<TensorLocation> := start.base;
    var layers: map<nat, seq<TensorLocation>> := start.layers;
    var maxLayer: nat := start.maxLayer;
    ghost var locs := FileLocs(f, names);
    for j := 0 to |names|
      invariant PlaceAll(start, locs[..j]) == Ok(Buckets(base, layers, maxLayer))
    {
      var loc := TensorLocation(f, names[j]);
      assert locs[..j + 1][..j] == locs[..j];
      var c := ClassifyTensor(names[j]);
      if c.Err? {
        PlaceAllAppend(start, locs[..j + 1], locs[j + 1..]);
        assert locs[..j + 1] + locs[j + 1..] == locs;
        return Err(c.error);
      }
      match c.value {
        case Base =>
          base := base + [loc];
        case Layer(n) =>
          if n > maxLayer {
            maxLayer := n;
          }
          layers := layers[n := Get(layers, n) + [loc]];
      }
    }
    assert locs[..|names|] == locs;
    r := Ok(Buckets(base, layers, maxLayer));
  }

  /** Once the scan has failed, the later files do not change its error. */
  lemma {:induction false} ScanErrSticky(files: seq<SourceFile>, n: nat, m: nat, e: ScanError)
    requires n <= m <= |files| && ScanUpTo(files, n) == Err(e)
    ensures ScanUpTo(files, m) == Err(e)
    decreases m - n
  {
    if n < m {
      ScanErrStep(files, n + 1, e);
      ScanErrSticky(files, n + 1, m, e);
    }
  }

  lemma ScanErrStep(files: seq<SourceFile>, m: nat, e: ScanError)
    requires 0 < m <= |files| && ScanUpTo(files, m - 1) == Err(e)
    ensures ScanUpTo(files, m) == Err(e)
  {
  }
}
