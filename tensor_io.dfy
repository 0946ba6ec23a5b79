/** Tensor loading and chunk writing of the Rust sharder. A source file is
    its path and its parsed header (name -> dtype, shape, bytes); the
    safetensors serializer and the digest are parameters. */
module TensorIo {
  import opened Wrappers
  import opened Storage
  import opened Classify
  import opened Seqs

  /** The element types of the safetensors format. */
  datatype Dtype = BOOL | U8 | I8 | F8_E5M2 | F8_E4M3 | I16 | U16 | F16 | BF16 | I32 | U32 | F32 | F64 | I64 | U64

  function ElementSize(d: Dtype): nat {
    match d
    case BOOL | U8 | I8 | F8_E5M2 | F8_E4M3 => 1
    case I16 | U16 | F16 | BF16 => 2
    case I32 | U32 | F32 => 4
    case F64 | I64 | U64 => 8
  }

  datatype TensorInfo = TensorInfo(dtype: Dtype, shape: seq<nat>, data: seq<byte>)

  /** A parsed safetensors header, in the order the library lists it. */
  type Header = seq<(string, TensorInfo)>

  /** A memory-mapped source file; `header` is `None` when the bytes do not
      parse as safetensors. */
  datatype SourceFile = SourceFile(path: string, header: Option<Header>)

  /** `OwnedTensor`: a tensor copied out of its source file. */
  datatype OwnedTensor = OwnedTensor(name: string, dtype: Dtype, shape: seq<nat>, data: seq<byte>)

  datatype IoError =
    | HeaderParseFailed(path: string)
    | TensorNotFound(name: string, path: string)
    | InvalidTensorData(name: string)
    | SerializeFailed
    | WriteFailed(path: string)

  /** `SafeTensors::tensor`: the entry called `name`. */
  function HeaderLookup(h: Header, name: string): Option<TensorInfo> {
    if h == [] then None
    else if h[0].0 == name then Some(h[0].1)
    else HeaderLookup(h[1..], name)
  }

  /** `SafeTensors::names`. */
  function HeaderNames(h: Header): (names: seq<string>)
    ensures |names| == |h|
    ensures forall i :: 0 <= i < |h| ==> names[i] == h[i].0
  {
    if h == [] then [] else [h[0].0] + HeaderNames(h[1..])
  }

  function Copy(name: string, t: TensorInfo): OwnedTensor {
    OwnedTensor(name, t.dtype, t.shape, t.data)
  }

  // ---------------------------------------------------------------------
  // What `load_tensors` computes
  // ---------------------------------------------------------------------

  /** The requested locations in file `f`, in request order. */
  function LocsInFile(locs: seq<TensorLocation>, f: nat): seq<TensorLocation> {
    if locs == [] then []
    else
      var last := locs[|locs| - 1];
      LocsInFile(locs[..|locs| - 1], f) + (if last.fileIdx == f then [last] else [])
  }

  /** Every location `LocsInFile` keeps is in file `f`. */
  lemma {:induction false} LocsInFileIdx(locs: seq<TensorLocation>, f: nat)
    ensures forall i :: 0 <= i < |LocsInFile(locs, f)| ==> LocsInFile(locs, f)[i].fileIdx == f
  {
    if locs != [] {
      LocsInFileIdx(locs[..|locs| - 1], f);
    }
  }

  lemma {:induction false} LocsInFileMembers(locs: seq<TensorLocation>, f: nat)
    ensures forall l :: l in LocsInFile(locs, f) ==> l in locs
  {
    if locs != [] {
      LocsInFileMembers(locs[..|locs| - 1], f);
    }
  }

  function NamesOf(locs: seq<TensorLocation>): (names: seq<string>)
    ensures |names| == |locs|
    ensures forall i :: 0 <= i < |locs| ==> names[i] == locs[i].name
  {
    seq(|locs|, i requires 0 <= i < |locs| => locs[i].name)
  }

  /** The order results come out in: the locations of file 0, then those
      of file 1, and so on up to file `n - 1`, each group in request order. */
  function OrderUpTo(locs: seq<TensorLocation>, n: nat): seq<TensorLocation> {
    if n == 0 then [] else OrderUpTo(locs, n - 1) + LocsInFile(locs, n - 1)
  }

  /** Only files below `n` contribute to `OrderUpTo(locs, n)`. */
  lemma {:induction false} OrderUpToIdx(locs: seq<TensorLocation>, n: nat)
    ensures forall i :: 0 <= i < |OrderUpTo(locs, n)| ==> OrderUpTo(locs, n)[i].fileIdx < n
  {
    if n > 0 {
      OrderUpToIdx(locs, n - 1);
      LocsInFileIdx(locs, n - 1);
    }
  }

  /** The location names an entry of a header that parses. */
  predicate Available(files: seq<SourceFile>, loc: TensorLocation) {
    loc.fileIdx < |files| && files[loc.fileIdx].header.Some?
    && HeaderLookup(files[loc.fileIdx].header.value, loc.name).Some?
  }

  /** The error `load_tensors` reports for an unavailable location: the
      file's header does not parse, or the name is not in it. */
  function ErrorOf(files: seq<SourceFile>, loc: TensorLocation): IoError
    requires loc.fileIdx < |files|
  {
    var file := files[loc.fileIdx];
    if file.header.None? then HeaderParseFailed(file.path) else TensorNotFound(loc.name, file.path)
  }

  function CopyOf(files: seq<SourceFile>, loc: TensorLocation): OwnedTensor
    requires Available(files, loc)
  {
    Copy(loc.name, HeaderLookup(files[loc.fileIdx].header.value, loc.name).value)
  }

  /** Copy `names` out of one parsed header; the first missing name fails. */
  function CopyNames(h: Header, path: string, names: seq<string>): (r: Result<seq<OwnedTensor>, IoError>)
    ensures r.Ok? <==> forall i :: 0 <= i < |names| ==> HeaderLookup(h, names[i]).Some?
    ensures r.Ok? ==> |r.value| == |names|
    ensures r.Ok? ==> forall i :: 0 <= i < |names| ==> r.value[i] == Copy(names[i], HeaderLookup(h, names[i]).value)
    ensures r.Err? ==> exists i :: (0 <= i < |names| && HeaderLookup(h, names[i]).None?
      && (forall j :: 0 <= j < i ==> HeaderLookup(h, names[j]).Some?)
      && r.error == TensorNotFound(names[i], path))
  {
    if names == [] then Ok([])
    else
      var n := |names| - 1;
      var init, name := names[..n], names[n];
      assert forall j :: 0 <= j < n ==> names[j] == init[j];
      var prev := CopyNames(h, path, init);
      if prev.Err? then
        assert exists i :: (0 <= i < |names| && HeaderLookup(h, names[i]).None?
          && (forall j :: 0 <= j < i ==> HeaderLookup(h, names[j]).Some?)
          && prev.error == TensorNotFound(names[i], path)) by {
          var i :| 0 <= i < |init| && HeaderLookup(h, init[i]).None?
            && (forall j :: 0 <= j < i ==> HeaderLookup(h, init[j]).Some?)
            && prev.error == TensorNotFound(init[i], path);
          assert names[i] == init[i];
        }
        Err(prev.error)
      else
        match HeaderLookup(h, name)
        case None =>
          assert HeaderLookup(h, names[n]).None?;
          Err(TensorNotFound(name, path))
        case Some(t) => Ok(prev.value + [Copy(name, t)])
  }

  /** The part of the result that comes from file `f`. */
  function LoadFile(files: seq<SourceFile>, locs: seq<TensorLocation>, f: nat): Result<seq<OwnedTensor>, IoError>
    requires f < |files|
  {
    var names := NamesOf(LocsInFile(locs, f));
    if names == [] then Ok([])
    else
      match files[f].header
      case None => Err(HeaderParseFailed(files[f].path))
      case Some(h) => CopyNames(h, files[f].path, names)
  }

  predicate AllAvailable(files: seq<SourceFile>, ls: seq<TensorLocation>) {
    forall i :: 0 <= i < |ls| ==> Available(files, ls[i])
  }

  /** `ts` holds one copy per location of `ls`, in the same order. */
  predicate CopiesOf(files: seq<SourceFile>, ls: seq<TensorLocation>, ts: seq<OwnedTensor>) {
    AllAvailable(files, ls) && |ts| == |ls| && forall i :: 0 <= i < |ls| ==> ts[i] == CopyOf(files, ls[i])
  }

  /** `e` is the error of the first unavailable location of `ls`. */
  predicate FailsFirstWith(files: seq<SourceFile>, ls: seq<TensorLocation>, e: IoError) {
    exists i :: (0 <= i < |ls| && ls[i].fileIdx < |files| && !Available(files, ls[i])
      && AllAvailable(files, ls[..i]) && e == ErrorOf(files, ls[i]))
  }

  /** What a load of the locations `ls` must return: copies of them all
      when all are available, otherwise the first one's error. */
  predicate LoadMeans(files: seq<SourceFile>, ls: seq<TensorLocation>, r: Result<seq<OwnedTensor>, IoError>) {
    && (r.Ok? <==> AllAvailable(files, ls))
    && (r.Ok? ==> CopiesOf(files, ls, r.value))
    && (r.Err? ==> FailsFirstWith(files, ls, r.error))
  }

  lemma LoadFileMeaning(files: seq<SourceFile>, locs: seq<TensorLocation>, f: nat)
    requires f < |files|
    ensures LoadMeans(files, LocsInFile(locs, f), LoadFile(files, locs, f))
  {
    var ls := LocsInFile(locs, f);
    var names := NamesOf(ls);
    var r := LoadFile(files, locs, f);
    LocsInFileIdx(locs, f);
    if ls == [] {
    } else if files[f].header.None? {
      assert !Available(files, ls[0]);
      assert ls[..0] == [];
      assert FailsFirstWith(files, ls, r.error);
    } else {
      var h := files[f].header.value;
      var path := files[f].path;
      assert r == CopyNames(h, path, names);
      assert forall i :: 0 <= i < |ls| ==> (Available(files, ls[i]) <==> HeaderLookup(h, names[i]).Some?);
      if r.Err? {
        var i :| 0 <= i < |names| && HeaderLookup(h, names[i]).None?
          && (forall j :: 0 <= j < i ==> HeaderLookup(h, names[j]).Some?)
          && r.error == TensorNotFound(names[i], path);
        assert AllAvailable(files, ls[..i]);
        assert FailsFirstWith(files, ls, r.error);
      }
    }
  }

  /** The result of `load_tensors` restricted to files `0 .. n-1`. */
  function LoadUpTo(files: seq<SourceFile>, locs: seq<TensorLocation>, n: nat): Result<seq<OwnedTensor>, IoError>
    requires n <= |files|
  {
    if n == 0 then Ok([])
    else
      var prev :- LoadUpTo(files, locs, n - 1);
      var cur :- LoadFile(files, locs, n - 1);
      Ok(prev + cur)
  }

  /** `load_tensors`: files in ascending index order, and within a file the
      names in request order; the first location that cannot be served
      decides the error. */
  function LoadSpec(files: seq<SourceFile>, locs: seq<TensorLocation>): Result<seq<OwnedTensor>, IoError> {
    LoadUpTo(files, locs, |files|)
  }

  /** Once the load of a prefix of the files has failed, the whole load
      fails with the same error. */
  lemma {:induction false} LoadUpToErrSticky(files: seq<SourceFile>, locs: seq<TensorLocation>, n: nat, m: nat)
    requires n <= m <= |files|
    requires LoadUpTo(files, locs, n).Err?
    ensures LoadUpTo(files, locs, m) == LoadUpTo(files, locs, n)
    decreases m - n
  {
    if n < m {
      LoadUpToErrSticky(files, locs, n, m - 1);
      LoadUpToStep(files, locs, m);
    }
  }

  /** One more file: the prefix's error, else this file's error, else the
      two results appended. */
  lemma LoadUpToStep(files: seq<SourceFile>, locs: seq<TensorLocation>, n: nat)
    requires 0 < n <= |files|
    ensures var prev, cur := LoadUpTo(files, locs, n - 1), LoadFile(files, locs, n - 1);
      LoadUpTo(files, locs, n) ==
        if prev.Err? then Err(prev.error) else if cur.Err? then Err(cur.error) else Ok(prev.value + cur.value)
  {
  }

  lemma {:induction false} CopyNamesErrSticky(h: Header, path: string, names: seq<string>, k: nat)
    requires k <= |names|
    requires CopyNames(h, path, names[..k]).Err?
    ensures CopyNames(h, path, names) == CopyNames(h, path, names[..k])
    decreases |names| - k
  {
    if k < |names| {
      var init := names[..|names| - 1];
      assert init[..k] == names[..k];
      CopyNamesErrSticky(h, path, init, k);
    } else {
      assert names[..k] == names;
    }
  }

  lemma AllAvailableAppend(files: seq<SourceFile>, a: seq<TensorLocation>, b: seq<TensorLocation>)
    ensures AllAvailable(files, a + b) <==> AllAvailable(files, a) && AllAvailable(files, b)
  {
    if AllAvailable(files, a) && AllAvailable(files, b) {
      forall i | 0 <= i < |a + b| ensures Available(files, (a + b)[i]) {
        if i >= |a| {
          assert (a + b)[i] == b[i - |a|];
        }
      }
    }
    if AllAvailable(files, a + b) {
      forall i | 0 <= i < |a| ensures Available(files, a[i]) {
        assert (a + b)[i] == a[i];
      }
      forall i | 0 <= i < |b| ensures Available(files, b[i]) {
        assert (a + b)[|a| + i] == b[i];
      }
    }
  }

  lemma CopiesAppend(files: seq<SourceFile>, a: seq<TensorLocation>, b: seq<TensorLocation>,
                     ta: seq<OwnedTensor>, tb: seq<OwnedTensor>)
    requires CopiesOf(files, a, ta) && CopiesOf(files, b, tb)
    ensures CopiesOf(files, a + b, ta + tb)
  {
    AllAvailableAppend(files, a, b);
    forall i | 0 <= i < |a + b| ensures (ta + tb)[i] == CopyOf(files, (a + b)[i]) {
      if i >= |a| {
        assert (a + b)[i] == b[i - |a|];
      }
    }
  }

  lemma FailsAppend(files: seq<SourceFile>, a: seq<TensorLocation>, b: seq<TensorLocation>, e: IoError)
    requires FailsFirstWith(files, a, e) || (AllAvailable(files, a) && FailsFirstWith(files, b, e))
    ensures FailsFirstWith(files, a + b, e)
  {
    if FailsFirstWith(files, a, e) {
      var i :| 0 <= i < |a| && a[i].fileIdx < |files| && !Available(files, a[i])
        && AllAvailable(files, a[..i]) && e == ErrorOf(files, a[i]);
      assert (a + b)[..i] == a[..i];
      assert (a + b)[i] == a[i];
    } else {
      var i :| 0 <= i < |b| && b[i].fileIdx < |files| && !Available(files, b[i])
        && AllAvailable(files, b[..i]) && e == ErrorOf(files, b[i]);
      assert (a + b)[..|a| + i] == a + b[..i];
      AllAvailableAppend(files, a, b[..i]);
      assert (a + b)[|a| + i] == b[i];
    }
  }

  /** What the loaded prefix means: success iff every location of files
      `0 .. n-1` is available; then one copy per location in `OrderUpTo`
      order; otherwise the error of the first unavailable one. */
  lemma {:induction false} LoadUpToMeaning(files: seq<SourceFile>, locs: seq<TensorLocation>, n: nat)
    requires n <= |files|
    ensures LoadMeans(files, OrderUpTo(locs, n), LoadUpTo(files, locs, n))
  {
    if n > 0 {
      var m := n - 1;
      LoadUpToMeaning(files, locs, m);
      LoadFileMeaning(files, locs, m);
      LoadUpToStep(files, locs, n);
      var a, b := OrderUpTo(locs, m), LocsInFile(locs, m);
      assert OrderUpTo(locs, n) == a + b;
      MeansAppend(files, a, b, LoadUpTo(files, locs, m), LoadFile(files, locs, m), LoadUpTo(files, locs, n));
    }
  }

  /** Loading `a` then `b`, stopping at the first error, means loading
      `a + b`. */
  lemma MeansAppend(files: seq<SourceFile>, a: seq<TensorLocation>, b: seq<TensorLocation>,
                    ra: Result<seq<OwnedTensor>, IoError>, rb: Result<seq<OwnedTensor>, IoError>,
                    r: Result<seq<OwnedTensor>, IoError>)
    requires LoadMeans(files, a, ra) && LoadMeans(files, b, rb)
    requires r == if ra.Err? then Err(ra.error) else if rb.Err? then Err(rb.error) else Ok(ra.value + rb.value)
    ensures LoadMeans(files, a + b, r)
  {
    AllAvailableAppend(files, a, b);
    if ra.Err? {
      FailsAppend(files, a, b, ra.error);
    } else if rb.Err? {
      FailsAppend(files, a, b, rb.error);
    } else {
      CopiesAppend(files, a, b, ra.value, rb.value);
    }
  }

  // ---------------------------------------------------------------------
  // Properties of the load
  // ---------------------------------------------------------------------

  lemma {:induction false} LocsInFileCount(locs: seq<TensorLocation>, f: nat, x: TensorLocation)
    ensures Count(LocsInFile(locs, f), x) == if x.fileIdx == f then Count(locs, x) else 0
  {
    if locs != [] {
      var init, last := locs[..|locs| - 1], locs[|locs| - 1];
      var tail := if last.fileIdx == f then [last] else [];
      LocsInFileCount(init, f, x);
      CountAppend(LocsInFile(init, f), tail, x);
      assert [last][..0] == [];
    }
  }

  lemma {:induction false} OrderUpToCount(locs: seq<TensorLocation>, n: nat, x: TensorLocation)
    ensures Count(OrderUpTo(locs, n), x) == if x.fileIdx < n then Count(locs, x) else 0
  {
    if n > 0 {
      var m := n - 1;
      OrderUpToCount(locs, m, x);
      LocsInFileCount(locs, m, x);
      CountAppend(OrderUpTo(locs, m), LocsInFile(locs, m), x);
    }
  }

  /** When every index is in range, the output order is a rearrangement of
      the requested locations. */
  lemma OrderIsPermutation(files: seq<SourceFile>, locs: seq<TensorLocation>)
    requires forall i :: 0 <= i < |locs| ==> locs[i].fileIdx < |files|
    ensures multiset(OrderUpTo(locs, |files|)) == multiset(locs)
  {
    forall x | true
      ensures multiset(OrderUpTo(locs, |files|))[x] == multiset(locs)[x]
    {
      OrderUpToCount(locs, |files|, x);
      CountMultiplicity(OrderUpTo(locs, |files|), x);
      CountMultiplicity(locs, x);
      if x.fileIdx >= |files| {
        assert x !in locs;
      }
    }
  }

  /** The output is grouped by ascending file index. */
  lemma {:induction false} OrderAscending(locs: seq<TensorLocation>, n: nat)
    ensures forall i, j :: 0 <= i < j < |OrderUpTo(locs, n)| ==>
      OrderUpTo(locs, n)[i].fileIdx <= OrderUpTo(locs, n)[j].fileIdx
  {
    if n > 0 {
      OrderAscending(locs, n - 1);
      OrderUpToIdx(locs, n - 1);
      LocsInFileIdx(locs, n - 1);
    }
  }

  /** Within one file the output keeps the order the locations were given. */
  lemma {:induction false} OrderWithinFile(locs: seq<TensorLocation>, n: nat, f: nat)
    requires f < n
    ensures LocsInFile(OrderUpTo(locs, n), f) == LocsInFile(locs, f)
  {
    LocsInFileOfGroups(locs, n, f);
  }

  lemma {:induction false} LocsInFileAppend(a: seq<TensorLocation>, b: seq<TensorLocation>, f: nat)
    ensures LocsInFile(a + b, f) == LocsInFile(a, f) + LocsInFile(b, f)
    decreases |b|
  {
    if b == [] {
      assert a + b == a;
    } else {
      var b' := b[..|b| - 1];
      assert (a + b)[..|a + b| - 1] == a + b';
      LocsInFileAppend(a, b', f);
    }
  }

  lemma {:induction false} LocsInFileAllIn(ls: seq<TensorLocation>, f: nat)
    requires forall i :: 0 <= i < |ls| ==> ls[i].fileIdx == f
    ensures LocsInFile(ls, f) == ls
  {
    if ls != [] {
      LocsInFileAllIn(ls[..|ls| - 1], f);
    }
  }

  lemma {:induction false} LocsInFileNoneIn(ls: seq<TensorLocation>, f: nat)
    requires forall i :: 0 <= i < |ls| ==> ls[i].fileIdx != f
    ensures LocsInFile(ls, f) == []
  {
    if ls != [] {
      LocsInFileNoneIn(ls[..|ls| - 1], f);
    }
  }

  lemma {:induction false} LocsInFileOfGroups(locs: seq<TensorLocation>, n: nat, f: nat)
    ensures LocsInFile(OrderUpTo(locs, n), f) == if f < n then LocsInFile(locs, f) else []
  {
    if n > 0 {
      var m := n - 1;
      LocsInFileOfGroups(locs, m, f);
      LocsInFileAppend(OrderUpTo(locs, m), LocsInFile(locs, m), f);
      LocsInFileIdx(locs, m);
      if f == m {
        LocsInFileAllIn(LocsInFile(locs, m), f);
      } else {
        LocsInFileNoneIn(LocsInFile(locs, m), f);
      }
    }
  }

  /** On success there is one tensor per requested location, named as
      requested, with dtype, shape and bytes copied from its source file. */
  lemma LoadSpecOk(files: seq<SourceFile>, locs: seq<TensorLocation>)
    requires forall i :: 0 <= i < |locs| ==> locs[i].fileIdx < |files|
    requires LoadSpec(files, locs).Ok?
    ensures |OrderUpTo(locs, |files|)| == |LoadSpec(files, locs).value| == |locs|
    ensures multiset(OrderUpTo(locs, |files|)) == multiset(locs)
    ensures CopiesOf(files, OrderUpTo(locs, |files|), LoadSpec(files, locs).value)
  {
    LoadUpToMeaning(files, locs, |files|);
    OrderIsPermutation(files, locs);
    var order := OrderUpTo(locs, |files|);
    assert |order| == |locs| by {
      assert |multiset(order)| == |multiset(locs)|;
    }
  }

  lemma OrderSameElements(files: seq<SourceFile>, locs: seq<TensorLocation>)
    requires forall i :: 0 <= i < |locs| ==> locs[i].fileIdx < |files|
    ensures forall x :: x in OrderUpTo(locs, |files|) <==> x in locs
  {
    OrderIsPermutation(files, locs);
    var order := OrderUpTo(locs, |files|);
    forall x ensures x in order <==> x in locs {
      assert x in order <==> x in multiset(order);
    }
  }

  lemma AllAvailableSameElements(files: seq<SourceFile>, a: seq<TensorLocation>, b: seq<TensorLocation>)
    requires forall x :: x in a <==> x in b
    ensures AllAvailable(files, a) <==> AllAvailable(files, b)
  {
    if !AllAvailable(files, a) {
      var i :| 0 <= i < |a| && !Available(files, a[i]);
      assert a[i] in b;
    }
    if !AllAvailable(files, b) {
      var i :| 0 <= i < |b| && !Available(files, b[i]);
      assert b[i] in a;
    }
  }

  /** The load fails exactly when some requested location is unavailable,
      and the error is that of the first such location in processing
      order: its unparsable file, or its name and file. */
  lemma LoadSpecErr(files: seq<SourceFile>, locs: seq<TensorLocation>)
    requires forall i :: 0 <= i < |locs| ==> locs[i].fileIdx < |files|
    ensures LoadSpec(files, locs).Err? <==> !AllAvailable(files, locs)
    ensures LoadSpec(files, locs).Err? ==> FailsFirstWith(files, OrderUpTo(locs, |files|), LoadSpec(files, locs).error)
  {
    LoadUpToMeaning(files, locs, |files|);
    OrderSameElements(files, locs);
    AllAvailableSameElements(files, OrderUpTo(locs, |files|), locs);
  }

  // ---------------------------------------------------------------------
  // The loaders
  // ---------------------------------------------------------------------

  /** The indices below `n` of the files some location refers to, in
      ascending order: the headers `load_tensors` parses. */
  function RequestedFiles(locs: seq<TensorLocation>, n: nat): seq<nat> {
    if n == 0 then []
    else RequestedFiles(locs, n - 1) + (if LocsInFile(locs, n - 1) != [] then [n - 1] else [])
  }

  /** Each requested header is parsed exactly once, in ascending order. */
  lemma {:induction false} RequestedFilesAscending(locs: seq<TensorLocation>, n: nat)
    ensures forall g: nat :: g in RequestedFiles(locs, n) <==> g < n && LocsInFile(locs, g) != []
    ensures forall i, j :: 0 <= i < j < |RequestedFiles(locs, n)| ==> RequestedFiles(locs, n)[i] < RequestedFiles(locs, n)[j]
  {
    if n > 0 {
      RequestedFilesAscending(locs, n - 1);
      var prev := RequestedFiles(locs, n - 1);
      assert forall i :: 0 <= i < |prev| ==> prev[i] < n - 1 by {
        forall i | 0 <= i < |prev| ensures prev[i] < n - 1 {
          assert prev[i] in prev;
        }
      }
    }
  }

  /** `load_tensors`: group the requested names by file index, then parse
      each requested file's header once, in ascending index order, and copy
      the named tensors out. `parsed` lists the headers parsed, in order. */
  method LoadTensors(files: seq<SourceFile>, locations: seq<TensorLocation>)
    returns (r: Result<seq<OwnedTensor>, IoError>, ghost parsed: seq<nat>)
    requires forall i :: 0 <= i < |locations| ==> locations[i].fileIdx < |files|
    ensures r == LoadSpec(files, locations)
    ensures r.Ok? ==> parsed == RequestedFiles(locations, |files|)
  {
    var byFile := GroupByFile(files, locations);
    var result: seq<OwnedTensor> := [];
    parsed := [];
    for f := 0 to |files|
      invariant LoadUpTo(files, locations, f) == Ok(result)
      invariant parsed == RequestedFiles(locations, f)
    {
      var names := if f in byFile then byFile[f] else [];
      var cur := LoadFromFile(files, locations, f, names);
      LoadNext(files, locations, f, result, cur);
      if cur.Err? {
        return Err(cur.error), parsed;
      }
      assert |names| == |LocsInFile(locations, f)|;
      assert RequestedFiles(locations, f + 1)
        == RequestedFiles(locations, f) + (if LocsInFile(locations, f) != [] then [f] else []);
      if names != [] {
        parsed := parsed + [f];
      }
      result := result + cur.value;
    }
    r := Ok(result);
  }

  /** One key of `by_file`: parse file `f`'s header and copy its requested
      names out; a file nothing is requested from is not visited. */
  method LoadFromFile(files: seq<SourceFile>, locations: seq<TensorLocation>, f: nat, names: seq<string>)
    returns (cur: Result<seq<OwnedTensor>, IoError>)
    requires f < |files| && names == NamesOf(LocsInFile(locations, f))
    ensures cur == LoadFile(files, locations, f)
    ensures names != [] && cur.Ok? ==> files[f].header.Some?
  {
    LoadFileCases(files, locations, f, names);
    if names == [] {
      return Ok([]);
    }
    match files[f].header {
      case None =>
        cur := Err(HeaderParseFailed(files[f].path));
      case Some(h) =>
        cur := CopyFromHeader(h, files[f].path, names);
    }
  }

  /** What `LoadFile` is, given the names grouped for file `f`. */
  lemma LoadFileCases(files: seq<SourceFile>, locs: seq<TensorLocation>, f: nat, names: seq<string>)
    requires f < |files| && names == NamesOf(LocsInFile(locs, f))
    ensures names == [] ==> LoadFile(files, locs, f) == Ok([])
    ensures names != [] && files[f].header.None? ==> LoadFile(files, locs, f) == Err(HeaderParseFailed(files[f].path))
    ensures names != [] && files[f].header.Some? ==>
      LoadFile(files, locs, f) == CopyNames(files[f].header.value, files[f].path, names)
  {
  }

  /** Loading file `f` after files `0 .. f-1` loaded: its tensors are
      appended, or its error is the error of the whole load. */
  lemma LoadNext(files: seq<SourceFile>, locs: seq<TensorLocation>, f: nat, result: seq<OwnedTensor>,
                 cur: Result<seq<OwnedTensor>, IoError>)
    requires f < |files| && LoadUpTo(files, locs, f) == Ok(result) && LoadFile(files, locs, f) == cur
    ensures cur.Ok? ==> LoadUpTo(files, locs, f + 1) == Ok(result + cur.value)
    ensures cur.Err? ==> LoadSpec(files, locs) == Err(cur.error)
  {
    LoadUpToStep(files, locs, f + 1);
    if cur.Err? {
      LoadUpToErrSticky(files, locs, f + 1, |files|);
    }
  }

  /** The inner loop of `load_tensors`: copy `names` out of one parsed
      header, stopping at the first name it does not hold. */
  method CopyFromHeader(h: Header, path: string, names: seq<string>)
    returns (r: Result<seq<OwnedTensor>, IoError>)
    ensures r == CopyNames(h, path, names)
  {
    var copied: seq<OwnedTensor> := [];
    for j := 0 to |names|
      invariant CopyNames(h, path, names[..j]) == Ok(copied)
    {
      var t := HeaderLookup(h, names[j]);
      assert names[..j + 1][..j] == names[..j];
      if t.None? {
        r := Err(TensorNotFound(names[j], path));
        CopyNamesErrSticky(h, path, names, j + 1);
        return;
      }
      copied := copied + [Copy(names[j], t.value)];
    }
    assert names[..|names|] == names;
    r := Ok(copied);
  }

  /** The `by_file` map: for every requested file index, its names in
      request order. */
  method GroupByFile(files: seq<SourceFile>, locations: seq<TensorLocation>)
    returns (byFile: map<nat, seq<string>>)
    requires forall i :: 0 <= i < |locations| ==> locations[i].fileIdx < |files|
    ensures forall f: nat :: f in byFile <==> f < |files| && LocsInFile(locations, f) != []
    ensures forall f :: f in byFile ==> byFile[f] == NamesOf(LocsInFile(locations, f))
  {
    byFile := map[];
    for i := 0 to |locations|
      invariant Grouped(byFile, locations[..i], |files|)
    {
      var loc := locations[i];
      var names := if loc.fileIdx in byFile then byFile[loc.fileIdx] else [];
      var byFile' := byFile[loc.fileIdx := names + [loc.name]];
      GroupStep(byFile, byFile', locations, i, |files|);
      byFile := byFile';
    }
    assert locations[..|locations|] == locations;
    GroupedAll(byFile, locations, |files|);
  }

  /** `m` maps each file index below `n` that `ls` refers to, and only
      those, to the names of its locations in `ls`, in order. */
  ghost predicate Grouped(m: map<nat, seq<string>>, ls: seq<TensorLocation>, n: nat) {
    && (forall f: nat :: f in m <==> LocsInFile(ls, f) != [])
    && (forall f :: f in m ==> f < n && m[f] == NamesOf(LocsInFile(ls, f)))
  }

  /** Once every location is grouped, the map holds exactly the files
      referred to. */
  lemma GroupedAll(m: map<nat, seq<string>>, ls: seq<TensorLocation>, n: nat)
    requires Grouped(m, ls, n)
    requires forall i :: 0 <= i < |ls| ==> ls[i].fileIdx < n
    ensures forall f: nat :: f in m <==> f < n && LocsInFile(ls, f) != []
    ensures forall f :: f in m ==> m[f] == NamesOf(LocsInFile(ls, f))
  {
    forall f: nat | LocsInFile(ls, f) != [] ensures f < n {
      LocsInFileMembers(ls, f);
      LocsInFileIdx(ls, f);
      assert LocsInFile(ls, f)[0] in ls;
    }
  }

  /** Appending one more name to its file's list keeps the map grouped. */
  lemma GroupStep(m: map<nat, seq<string>>, m': map<nat, seq<string>>, ls: seq<TensorLocation>, i: nat, n: nat)
    requires i < |ls| && ls[i].fileIdx < n && Grouped(m, ls[..i], n)
    requires var f := ls[i].fileIdx; m' == m[f := (if f in m then m[f] else []) + [ls[i].name]]
    ensures Grouped(m', ls[..i + 1], n)
  {
    assert ls[..i + 1] == ls[..i] + [ls[i]];
    GroupAppend(m, ls[..i], ls[i], n);
  }

  lemma GroupAppend(m: map<nat, seq<string>>, ls: seq<TensorLocation>, loc: TensorLocation, n: nat)
    requires Grouped(m, ls, n) && loc.fileIdx < n
    ensures var names := if loc.fileIdx in m then m[loc.fileIdx] else [];
      Grouped(m[loc.fileIdx := names + [loc.name]], ls + [loc], n)
  {
    var ls' := ls + [loc];
    assert ls'[..|ls|] == ls;
    var g := LocsInFile(ls, loc.fileIdx);
    assert NamesOf(g + [loc]) == NamesOf(g) + [loc.name];
  }

  function TotalBytes(ts: seq<OwnedTensor>): nat {
    if ts == [] then 0 else TotalBytes(ts[..|ts| - 1]) + |ts[|ts| - 1].data|
  }

  lemma TotalBytesAppend(a: seq<OwnedTensor>, b: seq<OwnedTensor>)
    ensures TotalBytes(a + b) == TotalBytes(a) + TotalBytes(b)
    decreases |b|
  {
    if b == [] {
      assert a + b == a;
    } else {
      assert (a + b)[..|a + b| - 1] == a + b[..|b| - 1];
      TotalBytesAppend(a, b[..|b| - 1]);
    }
  }

  /** The inner loop of the tools crate's loader: copy `names` out of one
      parsed header, adding up the bytes copied. */
  method CopyCounted(h: Header, path: string, names: seq<string>)
    returns (r: Result<seq<OwnedTensor>, IoError>, bytes: nat)
    ensures r == CopyNames(h, path, names)
    ensures r.Ok? ==> bytes == TotalBytes(r.value)
  {
    var copied: seq<OwnedTensor> := [];
    bytes := 0;
    for j := 0 to |names|
      invariant CopyNames(h, path, names[..j]) == Ok(copied)
      invariant bytes == TotalBytes(copied)
    {
      var t := HeaderLookup(h, names[j]);
      CopyStep(h, path, names, j, copied);
      if t.None? {
        r := Err(TensorNotFound(names[j], path));
        return;
      }
      var c := Copy(names[j], t.value);
      bytes := bytes + |c.data|;
      copied := copied + [c];
    }
    assert names[..|names|] == names;
    r := Ok(copied);
  }

  /** One more name copied: a missing name ends the copy with its error,
      otherwise its tensor and its bytes are added. */
  lemma CopyStep(h: Header, path: string, names: seq<string>, j: nat, copied: seq<OwnedTensor>)
    requires j < |names| && CopyNames(h, path, names[..j]) == Ok(copied)
    ensures HeaderLookup(h, names[j]).None? ==> CopyNames(h, path, names) == Err(TensorNotFound(names[j], path))
    ensures HeaderLookup(h, names[j]).Some? ==>
      var c := Copy(names[j], HeaderLookup(h, names[j]).value);
      CopyNames(h, path, names[..j + 1]) == Ok(copied + [c]) && TotalBytes(copied + [c]) == TotalBytes(copied) + |c.data|
  {
    assert names[..j + 1][..j] == names[..j];
    if HeaderLookup(h, names[j]).None? {
      CopyNamesErrSticky(h, path, names, j + 1);
    } else {
      var c := Copy(names[j], HeaderLookup(h, names[j]).value);
      assert (copied + [c])[..|copied|] == copied;
    }
  }

  /** `LoadResult` of the tools crate (timings left out). */
  datatype LoadResult = LoadResult(tensors: seq<OwnedTensor>, bytesRead: nat)

  /** The tools crate's `load_tensors`: the same load, also counting the
      bytes it copies. */
  method LoadTensorsCounted(files: seq<SourceFile>, locations: seq<TensorLocation>)
    returns (r: Result<LoadResult, IoError>)
    requires forall i :: 0 <= i < |locations| ==> locations[i].fileIdx < |files|
    ensures r == match LoadSpec(files, locations)
      case Ok(ts) => Ok(LoadResult(ts, TotalBytes(ts)))
      case Err(e) => Err(e)
  {
    var byFile := GroupByFile(files, locations);
    var result: seq<OwnedTensor> := [];
    var bytesRead := 0;
    for f := 0 to |files|
      invariant LoadUpTo(files, locations, f) == Ok(result) && bytesRead == TotalBytes(result)
    {
      var names := if f in byFile then byFile[f] else [];
      var cur, n := LoadFromFileCounted(files, locations, f, names);
      CountedNext(files, locations, f, result, bytesRead, cur, n);
      if cur.Err? {
        return Err(cur.error);
      }
      result := result + cur.value;
      bytesRead := bytesRead + n;
    }
    r := Ok(LoadResult(result, bytesRead));
  }

  /** `LoadNext` with the byte counter: the counts of the files loaded so
      far and of file `f` add up to the count of their concatenation. */
  lemma CountedNext(files: seq<SourceFile>, locs: seq<TensorLocation>, f: nat, result: seq<OwnedTensor>,
                    bytesRead: nat, cur: Result<seq<OwnedTensor>, IoError>, n: nat)
    requires f < |files| && LoadUpTo(files, locs, f) == Ok(result) && bytesRead == TotalBytes(result)
    requires cur == LoadFile(files, locs, f) && (cur.Ok? ==> n == TotalBytes(cur.value))
    ensures cur.Ok? ==> LoadUpTo(files, locs, f + 1) == Ok(result + cur.value)
    ensures cur.Ok? ==> bytesRead + n == TotalBytes(result + cur.value)
    ensures cur.Err? ==> LoadSpec(files, locs) == Err(cur.error)
    ensures f + 1 == |files| && cur.Ok? ==> LoadSpec(files, locs) == Ok(result + cur.value)
  {
    LoadNext(files, locs, f, result, cur);
    if cur.Ok? {
      TotalBytesAppend(result, cur.value);
    }
  }

  /** One key of the tools crate's `by_file`, counting the bytes copied. */
  method LoadFromFileCounted(files: seq<SourceFile>, locations: seq<TensorLocation>, f: nat, names: seq<string>)
    returns (cur: Result<seq<OwnedTensor>, IoError>, bytes: nat)
    requires f < |files| && names == NamesOf(LocsInFile(locations, f))
    ensures cur == LoadFile(files, locations, f)
    ensures cur.Ok? ==> bytes == TotalBytes(cur.value)
  {
    LoadFileCases(files, locations, f, names);
    if names == [] {
      return Ok([]), 0;
    }
    match files[f].header {
      case None =>
        cur, bytes := Err(HeaderParseFailed(files[f].path)), 0;
      case Some(h) =>
        cur, bytes := CopyCounted(h, files[f].path, names);
    }
  }

  // ---------------------------------------------------------------------
  // The chunk writer
  // ---------------------------------------------------------------------

  function Product(dims: seq<nat>): nat {
    if dims == [] then 1 else Product(dims[..|dims| - 1]) * dims[|dims| - 1]
  }

  /** `TensorView::new` accepts the tensor: its byte count is the element
      count times the element size. */
  predicate ValidView(t: OwnedTensor) {
    |t.data| == Product(t.shape) * ElementSize(t.dtype)
  }

  /** Building the views: the first invalid tensor aborts the write. */
  function CheckViews(ts: seq<OwnedTensor>): (r: Result<(), IoError>)
    ensures r.Ok? <==> forall i :: 0 <= i < |ts| ==> ValidView(ts[i])
    ensures r.Err? ==> exists i :: (0 <= i < |ts| && !ValidView(ts[i])
      && (forall j :: 0 <= j < i ==> ValidView(ts[j])) && r.error == InvalidTensorData(ts[i].name))
  {
    if ts == [] then Ok(())
    else if !ValidView(ts[0]) then Err(InvalidTensorData(ts[0].name))
    else
      var r := CheckViews(ts[1..]);
      assert r.Err? ==> exists i :: (1 <= i < |ts| && !ValidView(ts[i])
          && (forall j :: 0 <= j < i ==> ValidView(ts[j])) && r.error == InvalidTensorData(ts[i].name)) by {
        if r.Err? {
          var i :| 0 <= i < |ts[1..]| && !ValidView(ts[1..][i])
            && (forall j :: 0 <= j < i ==> ValidView(ts[1..][j])) && r.error == InvalidTensorData(ts[1..][i].name);
          assert ts[i + 1] == ts[1..][i];
        }
      }
      r
  }

  /** The file a failed write may have left changed: the one it was
      writing, truncated or partly written. */
  function Touched(e: IoError): set<string> {
    if e.WriteFailed? then {e.path} else {}
  }

  /** The bytes a chunk file receives: `safetensors::serialize` of the views. */
  function Serialized(serialize: seq<OwnedTensor> -> Option<seq<byte>>, ts: seq<OwnedTensor>): Result<seq<byte>, IoError> {
    var _ :- CheckViews(ts);
    match serialize(ts)
    case None => Err(SerializeFailed)
    case Some(bytes) => Ok(bytes)
  }

  /** `write_safetensors` (SHA-256 in the first crate, BLAKE3 in the tools
      crate, where hashing and writing run as two joined tasks): the
      returned size and digest describe exactly the bytes now in the file. */
  method WriteSafetensors(out: OutputDir, serialize: seq<OwnedTensor> -> Option<seq<byte>>,
                          digest: seq<byte> -> string, tensors: seq<OwnedTensor>, path: string)
    returns (r: Result<(nat, string), IoError>)
    modifies out
    ensures r.Ok? <==> Serialized(serialize, tensors).Ok? && path !in out.unwritable
    ensures r.Ok? ==> out.files == old(out.files)[path := Serialized(serialize, tensors).value]
    ensures r.Ok? ==> r.value == (|out.files[path]|, digest(out.files[path]))
    ensures r.Err? ==> SameExcept(out.files, old(out.files), Touched(r.error))
    ensures r.Err? ==> r.error == if Serialized(serialize, tensors).Err? then Serialized(serialize, tensors).error else WriteFailed(path)
  {
    var bytes :- Serialized(serialize, tensors);
    var hash := digest(bytes);
    var size := |bytes|;
    var ok := out.Write(path, bytes);
    if !ok {
      return Err(WriteFailed(path));
    }
    r := Ok((size, hash));
  }
}
