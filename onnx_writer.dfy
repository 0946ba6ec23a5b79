/** The ONNX sharder's writer: moves classified initializers into numbered
    external data files and rewrites each tensor to point at its bytes. */
module OnnxWriter {
  import opened Wrappers
  import opened Text
  import opened Seqs
  import opened Storage
  import opened LayerWindows
  import opened OnnxProto
  import opened OnnxClassify
  import opened OnnxManifest
  import opened OnnxPlan

  // -----------------------------------------------------------------------
  // External data references
  // -----------------------------------------------------------------------

  /** The `external_data` entries written for a tensor. */
  function ExternalRef(dataName: string, offset: nat, length: nat): seq<(string, string)> {
    [("location", dataName), ("offset", NatToDecimal(offset)), ("length", NatToDecimal(length))]
  }

  /** A tensor whose `raw_data` and cleared typed fields are empty and
      whose external data is `ref`. */
  predicate Externalized(t: TensorProto, ref: seq<(string, string)>)
    reads t
  {
    && t.rawData == []
    && t.typedBytes == []
    && t.dataLocation == External
    && t.externalData == ref
  }

  /** The references the tensors of a data file laid out as `pieces` get,
      one per piece. */
  function Refs(dataName: string, pieces: seq<seq<byte>>): (refs: seq<seq<(string, string)>>)
    ensures |refs| == |pieces|
  {
    if pieces == [] then []
    else Refs(dataName, pieces[..|pieces| - 1]) + [ExternalRef(dataName, Offset(pieces, |pieces| - 1), |pieces[|pieces| - 1]|)]
  }

  /** Piece `i` is referenced by its offset and length. */
  lemma {:induction false} RefsAt(dataName: string, pieces: seq<seq<byte>>, i: nat)
    requires i < |pieces|
    ensures Refs(dataName, pieces)[i] == ExternalRef(dataName, Offset(pieces, i), |pieces[i]|)
  {
    var n := |pieces| - 1;
    if i < n {
      var init := pieces[..n];
      RefsAt(dataName, init, i);
      assert init[..i] == pieces[..i];
    }
  }

  /** The value of the first entry called `key`. */
  function RefValue(ref: seq<(string, string)>, key: string): Option<string> {
    if ref == [] then None
    else if ref[0].0 == key then Some(ref[0].1)
    else RefValue(ref[1..], key)
  }

  /** How an ONNX loader reads external data: `length` bytes from `offset`
      in the file named by `location`. */
  function Resolve(files: map<string, seq<byte>>, ref: seq<(string, string)>): Option<seq<byte>> {
    var loc := RefValue(ref, "location");
    var off := RefValue(ref, "offset");
    var len := RefValue(ref, "length");
    if loc.Some? && off.Some? && len.Some? && loc.value in files && AllDigits(off.value) && AllDigits(len.value)
    then
      var file := files[loc.value];
      var o := DecimalValue(off.value);
      var n := DecimalValue(len.value);
      if o + n <= |file| then Some(file[o..o + n]) else None
    else None
  }

  /** The reference written for piece `i` of a data file reads back
      exactly that piece. */
  lemma ResolveRef(files: map<string, seq<byte>>, name: string, pieces: seq<seq<byte>>, i: nat)
    requires name in files && files[name] == Concat(pieces) && i < |pieces|
    ensures Resolve(files, ExternalRef(name, Offset(pieces, i), |pieces[i]|)) == Some(pieces[i])
  {
    var ref := ExternalRef(name, Offset(pieces, i), |pieces[i]|);
    assert "offset"[0] != "location"[0] && "length"[1] != "location"[1] && "length"[0] != "offset"[0];
    assert RefValue(ref, "location") == Some(name);
    assert RefValue(ref, "offset") == Some(NatToDecimal(Offset(pieces, i)));
    assert RefValue(ref[2..], "length") == Some(NatToDecimal(|pieces[i]|));
    assert RefValue(ref[1..], "length") == RefValue(ref[2..], "length") by {
      assert ref[1..][1..] == ref[2..];
    }
    ConcatSlice(pieces, i);
  }

  // -----------------------------------------------------------------------
  // One data file
  // -----------------------------------------------------------------------

  /** The first `i` pieces are laid out back to back in `written`. */
  predicate Laid(pieces: seq<seq<byte>>, i: nat, written: seq<byte>) {
    i <= |pieces| && written == Concat(pieces[..i])
  }

  lemma LayoutStart(pieces: seq<seq<byte>>)
    ensures Laid(pieces, 0, [])
  {
    assert pieces[..0] == [];
  }

  /** Appending piece `i` lays out one more piece. */
  lemma LayoutStep(pieces: seq<seq<byte>>, i: nat, written: seq<byte>)
    requires Laid(pieces, i, written) && i < |pieces|
    ensures Laid(pieces, i + 1, written + pieces[i])
  {
    ConcatPrefixStep(pieces, i);
  }

  /** Piece `i`, written where the first `i` pieces end, is referenced by
      that offset and its length. */
  lemma LaidRef(dataName: string, pieces: seq<seq<byte>>, i: nat, written: seq<byte>, offset: nat, length: nat)
    requires Laid(pieces, i, written) && i < |pieces| && offset == |written| && length == |pieces[i]|
    ensures Refs(dataName, pieces)[i] == ExternalRef(dataName, offset, length)
  {
    ConcatLength(pieces[..i]);
    RefsAt(dataName, pieces, i);
  }

  lemma LayoutEnd(pieces: seq<seq<byte>>, written: seq<byte>)
    requires Laid(pieces, |pieces|, written)
    ensures written == Concat(pieces)
  {
    assert pieces[..|pieces|] == pieces;
  }

  /** One iteration of the write loop: tensor `i`'s bytes appended to the
      open data file, its `raw_data` and typed fields cleared and its reference set to the
      range they now occupy. */
  method WriteTensor(t: TensorProto, out: OutputDir, dataName: string, offset: nat,
                     ghost pieces: seq<seq<byte>>, ghost i: nat, ghost written: seq<byte>)
    returns (length: nat)
    requires dataName in out.files && dataName !in out.unwritable
    requires Laid(pieces, i, written) && i < |pieces| && offset == |written| && RawBytes(t) == pieces[i]
    modifies out, t
    ensures length == |pieces[i]|
    ensures out.files == old(out.files)[dataName := old(out.files[dataName]) + pieces[i]]
    ensures Externalized(t, Refs(dataName, pieces)[i])
  {
    var raw := RawBytes(t);
    length := |raw|;
    out.Append(dataName, raw);
    t.rawData := [];
    t.typedBytes := [];
    t.dataLocation := External;
    t.externalData := ExternalRef(dataName, offset, length);
    LaidRef(dataName, pieces, i, written, offset, length);
  }

  /** `_write_data_file`: the tensors' raw bytes back to back in `dataName`,
      each tensor rewritten to reference its own range. */
  method WriteDataFile(tensors: seq<TensorProto>, out: OutputDir, dataName: string) returns (total: nat)
    requires Distinct(tensors) && dataName !in out.unwritable
    modifies out, tensors
    ensures out.files == old(out.files)[dataName := old(Contents(tensors))]
    ensures total == |old(Contents(tensors))|
    ensures forall i :: 0 <= i < |tensors| ==> Externalized(tensors[i], Refs(dataName, old(Pieces(tensors)))[i])
  {
    ghost var pieces := Pieces(tensors);
    ghost var refs := Refs(dataName, pieces);
    ghost var written: seq<byte> := [];
    out.Truncate(dataName);
    var offset := 0;
    LayoutStart(pieces);
    for i := 0 to |tensors|
      invariant out.files == old(out.files)[dataName := written]
      invariant Laid(pieces, i, written) && offset == |written|
      invariant forall j :: i <= j < |tensors| ==> RawBytes(tensors[j]) == pieces[j]
      invariant forall j {:trigger refs[j]} :: 0 <= j < i ==> Externalized(tensors[j], refs[j])
    {
      LayoutStep(pieces, i, written);
      var length := WriteTensor(tensors[i], out, dataName, offset, pieces, i, written);
      written := written + pieces[i];
      offset := offset + length;
    }
    LayoutEnd(pieces, written);
    total := offset;
  }

  // -----------------------------------------------------------------------
  // One shard
  // -----------------------------------------------------------------------

  /** The manifest entry for a job whose data file holds `data`. */
  function ShardOf(job: Job, data: seq<byte>, blake3: seq<byte> -> string): Shard {
    Shard(job.id, job.kind, job.fileName, |data|, blake3(data), job.range)
  }

  /** `_write_shard`: nothing for an empty list; otherwise the data file and
      its manifest entry, whose size and hash are those of the file. */
  method WriteShard(job: Job, out: OutputDir, blake3: seq<byte> -> string) returns (s: Option<Shard>)
    requires Distinct(job.tensors) && job.fileName !in out.unwritable
    modifies out, job.tensors
    ensures job.tensors == [] ==> s == None && out.files == old(out.files)
    ensures job.tensors != [] ==>
      && s == Some(ShardOf(job, old(Contents(job.tensors)), blake3))
      && out.files == old(out.files)[job.fileName := old(Contents(job.tensors))]
    ensures forall i :: 0 <= i < |job.tensors| ==>
      Externalized(job.tensors[i], Refs(job.fileName, old(Pieces(job.tensors)))[i])
    ensures forall i :: 0 <= i < |job.tensors| ==>
      && RefValue(job.tensors[i].externalData, "location") == Some(job.fileName)
      && Resolve(out.files, job.tensors[i].externalData) == Some(old(RawBytes(job.tensors[i])))
  {
    if job.tensors == [] {
      return None;
    }
    ghost var pieces := Pieces(job.tensors);
    var total := WriteDataFile(job.tensors, out, job.fileName);
    var fileHash := blake3(out.files[job.fileName]);
    s := Some(Shard(job.id, job.kind, job.fileName, total, fileHash, job.range));
    forall i | 0 <= i < |job.tensors|
      ensures RefValue(job.tensors[i].externalData, "location") == Some(job.fileName)
      ensures Resolve(out.files, job.tensors[i].externalData) == Some(pieces[i])
    {
      RefsAt(job.fileName, pieces, i);
      ResolveRef(out.files, job.fileName, pieces, i);
    }
  }

  // -----------------------------------------------------------------------
  // The outcome, in terms of the tensors' bytes when writing starts
  // -----------------------------------------------------------------------

  /** A data file's contents when tensor `t` holds `raw(t)`. */
  function Bytes(raw: TensorProto -> seq<byte>, ts: seq<TensorProto>): seq<byte> {
    if ts == [] then [] else Bytes(raw, ts[..|ts| - 1]) + raw(ts[|ts| - 1])
  }

  /** The output directory after the jobs' data files are written in order. */
  function Stored(files: map<string, seq<byte>>, jobs: seq<Job>, raw: TensorProto -> seq<byte>): map<string, seq<byte>> {
    if jobs == [] then files
    else
      var last := jobs[|jobs| - 1];
      Stored(files, jobs[..|jobs| - 1], raw)[last.fileName := Bytes(raw, last.tensors)]
  }

  /** The manifest entries of the jobs. */
  function ShardsOf(jobs: seq<Job>, raw: TensorProto -> seq<byte>, blake3: seq<byte> -> string): (shards: seq<Shard>)
    ensures |shards| == |jobs|
    ensures forall i :: 0 <= i < |jobs| ==> shards[i] == ShardOf(jobs[i], Bytes(raw, jobs[i].tensors), blake3)
  {
    if jobs == [] then [] else [ShardOf(jobs[0], Bytes(raw, jobs[0].tensors), blake3)] + ShardsOf(jobs[1..], raw, blake3)
  }

  /** Tensor `t` no longer carries `raw_data` or typed data, and its external data
      names `name` and resolves in `files` to `bytes`. */
  predicate Placed(files: map<string, seq<byte>>, t: TensorProto, name: string, bytes: seq<byte>)
    reads t
  {
    && t.rawData == []
    && t.typedBytes == []
    && t.dataLocation == External
    && RefValue(t.externalData, "location") == Some(name)
    && Resolve(files, t.externalData) == Some(bytes)
  }

  /** Writing another file leaves a placed tensor's bytes where they were. */
  lemma PlacedUpdate(files: map<string, seq<byte>>, t: TensorProto, name: string, bytes: seq<byte>,
                     other: string, data: seq<byte>)
    requires Placed(files, t, name, bytes) && other != name
    ensures Placed(files[other := data], t, name, bytes)
  {
    assert files[other := data][name] == files[name];
  }

  lemma {:induction false} ContentsBytes(ts: seq<TensorProto>, raw: TensorProto -> seq<byte>)
    requires forall t :: t in ts ==> RawBytes(t) == raw(t)
    ensures Contents(ts) == Bytes(raw, ts)
    decreases |ts|
  {
    if ts != [] {
      var init := ts[..|ts| - 1];
      ContentsBytes(init, raw);
      assert Pieces(ts)[..|ts| - 1] == Pieces(init);
    }
  }

  /** A slice of distinct tensors is itself distinct and shares no tensor
      with the rest. */
  lemma SliceApart(T: seq<TensorProto>, n: nat, m: nat)
    requires n + m <= |T| && Distinct(T)
    ensures Distinct(T[n..n + m])
    ensures forall x :: 0 <= x < |T| && !(n <= x < n + m) ==> T[x] !in T[n..n + m]
  {
    var S := T[n..n + m];
    assert forall y :: 0 <= y < m ==> S[y] == T[n + y];
    forall x | 0 <= x < |T| && !(n <= x < n + m)
      ensures T[x] !in S
    {
      forall y | 0 <= y < m
        ensures S[y] != T[x]
      {
        assert S[y] == T[n + y];
      }
    }
  }

  /** The tensors not yet written still hold their bytes. */
  lemma SliceRaw(T: seq<TensorProto>, n: nat, ts: seq<TensorProto>, raw: TensorProto -> seq<byte>)
    requires n + |ts| <= |T| && T[n..n + |ts|] == ts
    requires forall x :: n <= x < |T| ==> RawBytes(T[x]) == raw(T[x])
    ensures forall t :: t in ts ==> RawBytes(t) == raw(t)
  {
    forall t | t in ts ensures RawBytes(t) == raw(t) {
      var i :| 0 <= i < |ts| && ts[i] == t;
      assert T[n + i] == t;
    }
  }

  /** `_write_shard` seen from `write_shards`: the shard of a non-empty
      job, its data file, and each of its tensors placed there. */
  method PlaceShard(job: Job, out: OutputDir, blake3: seq<byte> -> string, ghost raw: TensorProto -> seq<byte>)
    returns (s: Shard)
    requires job.tensors != [] && Distinct(job.tensors) && job.fileName !in out.unwritable
    requires forall t :: t in job.tensors ==> RawBytes(t) == raw(t)
    modifies out, job.tensors
    ensures s == ShardOf(job, Bytes(raw, job.tensors), blake3)
    ensures out.files == old(out.files)[job.fileName := Bytes(raw, job.tensors)]
    ensures forall i :: 0 <= i < |job.tensors| ==>
      Placed(out.files, job.tensors[i], job.fileName, raw(job.tensors[i]))
  {
    ContentsBytes(job.tensors, raw);
    var r := WriteShard(job, out, blake3);
    s := r.value;
  }

  /** Writing a file no earlier tensor lives in keeps every earlier
      tensor placed. */
  lemma PlacedKept(files: map<string, seq<byte>>, T: seq<TensorProto>, L: seq<string>,
                   raw: TensorProto -> seq<byte>, n: nat, name: string, data: seq<byte>)
    requires n <= |T| == |L|
    requires forall x :: 0 <= x < n ==> Placed(files, T[x], L[x], raw(T[x])) && L[x] != name
    ensures forall x :: 0 <= x < n ==> Placed(files[name := data], T[x], L[x], raw(T[x]))
  {
    forall x | 0 <= x < n
      ensures Placed(files[name := data], T[x], L[x], raw(T[x]))
    {
      PlacedUpdate(files, T[x], L[x], raw(T[x]), name, data);
    }
  }

  /** The tensors placed by one job extend the placed prefix of `T`. */
  lemma PlacedJoin(files: map<string, seq<byte>>, T: seq<TensorProto>, L: seq<string>,
                   raw: TensorProto -> seq<byte>, n: nat, job: Job)
    requires n + |job.tensors| <= |T| == |L| && T[n..n + |job.tensors|] == job.tensors
    requires forall y :: n <= y < n + |job.tensors| ==> L[y] == job.fileName
    requires forall x :: 0 <= x < n ==> Placed(files, T[x], L[x], raw(T[x]))
    requires forall i :: 0 <= i < |job.tensors| ==>
      Placed(files, job.tensors[i], job.fileName, raw(job.tensors[i]))
    ensures forall x :: 0 <= x < n + |job.tensors| ==> Placed(files, T[x], L[x], raw(T[x]))
  {
    forall x | n <= x < n + |job.tensors|
      ensures Placed(files, T[x], L[x], raw(T[x]))
    {
      assert T[x] == job.tensors[x - n];
    }
  }

  /** Writing has reached tensor `n` of `T`: every earlier tensor is placed
      in its file `L[x]` with its original bytes, every later one still
      holds them. */
  ghost predicate Progress(files: map<string, seq<byte>>, T: seq<TensorProto>, L: seq<string>, n: nat,
                           raw: TensorProto -> seq<byte>)
    reads T
  {
    && |L| == |T| && n <= |T|
    && (forall x :: n <= x < |T| ==> RawBytes(T[x]) == raw(T[x]))
    && (forall x :: 0 <= x < n ==> Placed(files, T[x], L[x], raw(T[x])))
  }

  /** After a job's file is written, writing has reached the end of the
      job's tensors. */
  lemma ProgressJob(before: map<string, seq<byte>>, files: map<string, seq<byte>>, T: seq<TensorProto>,
                    L: seq<string>, raw: TensorProto -> seq<byte>, n: nat, job: Job)
    requires |L| == |T| && n + |job.tensors| <= |T| && T[n..n + |job.tensors|] == job.tensors
    requires files == before[job.fileName := Bytes(raw, job.tensors)]
    requires forall y :: n <= y < n + |job.tensors| ==> L[y] == job.fileName
    requires forall x :: 0 <= x < n ==> Placed(before, T[x], L[x], raw(T[x])) && L[x] != job.fileName
    requires forall x :: n + |job.tensors| <= x < |T| ==> RawBytes(T[x]) == raw(T[x])
    requires forall i :: 0 <= i < |job.tensors| ==>
      Placed(files, job.tensors[i], job.fileName, raw(job.tensors[i]))
    ensures Progress(files, T, L, n + |job.tensors|, raw)
  {
    PlacedKept(before, T, L, raw, n, job.fileName, Bytes(raw, job.tensors));
    PlacedJoin(files, T, L, raw, n, job);
  }

  /** One `_write_shard` call of `write_shards` for a job with tensors,
      its shard appended. All the tensors being written are `T`, tensor `x`
      going to file `L[x]`; this job writes `T[n..n + |job.tensors|]`, the
      ones before it are placed and the ones after it untouched; `raw` are
      the tensors' bytes when writing began. */
  method WriteJob(job: Job, out: OutputDir, blake3: seq<byte> -> string, shards: seq<Shard>,
                  ghost raw: TensorProto -> seq<byte>, ghost T: seq<TensorProto>, ghost L: seq<string>, ghost n: nat)
    returns (shards': seq<Shard>)
    requires job.tensors != [] && |L| == |T| && n + |job.tensors| <= |T| && Distinct(T)
    requires T[n..n + |job.tensors|] == job.tensors
    requires forall y :: n <= y < n + |job.tensors| ==> L[y] == job.fileName
    requires forall x :: 0 <= x < n ==> L[x] != job.fileName
    requires job.fileName !in out.unwritable
    requires Progress(out.files, T, L, n, raw)
    modifies out, job.tensors
    ensures shards' == shards + [ShardOf(job, Bytes(raw, job.tensors), blake3)]
    ensures out.files == old(out.files)[job.fileName := Bytes(raw, job.tensors)]
    ensures Progress(out.files, T, L, n + |job.tensors|, raw)
  {
    SliceApart(T, n, |job.tensors|);
    SliceRaw(T, n, job.tensors, raw);
    ghost var before := out.files;
    var s := PlaceShard(job, out, blake3, raw);
    shards' := shards + [s];
    ProgressJob(before, out.files, T, L, raw, n, job);
  }

  // -----------------------------------------------------------------------
  // The whole run
  // -----------------------------------------------------------------------

  lemma SliceIn(T: seq<TensorProto>, n: nat, ts: seq<TensorProto>)
    requires n + |ts| <= |T| && T[n..n + |ts|] == ts
    ensures forall t :: t in ts ==> t in T
  {
    forall t | t in ts
      ensures t in T
    {
      var i :| 0 <= i < |ts| && ts[i] == t;
      assert T[n + i] == t;
    }
  }

  lemma StoredSnoc(files: map<string, seq<byte>>, done: seq<Job>, job: Job, raw: TensorProto -> seq<byte>)
    ensures Stored(files, done + [job], raw) == Stored(files, done, raw)[job.fileName := Bytes(raw, job.tensors)]
  {
    assert (done + [job])[..|done|] == done;
  }

  lemma ShardsSnoc(done: seq<Job>, job: Job, raw: TensorProto -> seq<byte>, blake3: seq<byte> -> string)
    ensures ShardsOf(done + [job], raw, blake3) == ShardsOf(done, raw, blake3) + [ShardOf(job, Bytes(raw, job.tensors), blake3)]
  {
  }

  /** Where the next job's tensors sit among all of the run's tensors, and
      that no earlier tensor goes to its file. */
  lemma JobPlace(done: seq<Job>, job: Job, rest: seq<Job>, T: seq<TensorProto>, L: seq<string>, n: nat)
    requires T == AllTensors(done + [job] + rest) && L == Locations(done + [job] + rest)
    requires n == |AllTensors(done)| && NamesDistinct(done + [job] + rest)
    ensures n + |job.tensors| == |AllTensors(done + [job])| <= |T| == |L|
    ensures T[n..n + |job.tensors|] == job.tensors
    ensures forall t :: t in job.tensors ==> t in T
    ensures forall y :: n <= y < n + |job.tensors| ==> L[y] == job.fileName
    ensures forall x :: 0 <= x < n ==> L[x] != job.fileName
  {
    JobSlot(done, job, rest);
    SliceIn(T, n, job.tensors);
  }

  /** The next `_write_shard` call of the run `plan`, for a job with
      tensors after the jobs `done`: its file and its shard are written. */
  method WriteNext(job: Job, out: OutputDir, blake3: seq<byte> -> string, shards: seq<Shard>,
                   ghost raw: TensorProto -> seq<byte>, ghost files0: map<string, seq<byte>>,
                   ghost plan: seq<Job>, ghost done: seq<Job>, ghost rest: seq<Job>)
    returns (shards': seq<Shard>)
    requires job.tensors != [] && plan == done + [job] + rest
    requires Distinct(AllTensors(plan)) && NamesDistinct(plan) && job.fileName !in out.unwritable
    requires out.files == Stored(files0, done, raw) && shards == ShardsOf(done, raw, blake3)
    requires Progress(out.files, AllTensors(plan), Locations(plan), |AllTensors(done)|, raw)
    modifies out, AllTensors(plan)
    ensures out.files == Stored(files0, done + [job], raw)
    ensures shards' == ShardsOf(done + [job], raw, blake3)
    ensures Progress(out.files, AllTensors(plan), Locations(plan), |AllTensors(done + [job])|, raw)
  {
    ghost var T, L, n := AllTensors(plan), Locations(plan), |AllTensors(done)|;
    JobPlace(done, job, rest, T, L, n);
    StoredSnoc(files0, done, job, raw);
    ShardsSnoc(done, job, raw, blake3);
    shards' := WriteJob(job, out, blake3, shards, raw, T, L, n);
  }

  /** Before and after a loop over `jobs`. */
  lemma CutEnds(done: seq<Job>, jobs: seq<Job>)
    ensures done + jobs[..0] == done
    ensures jobs[..|jobs|] == jobs
  {
  }

  /** The plan seen around the next job, for a loop over `jobs`. */
  lemma Cut(done: seq<Job>, jobs: seq<Job>, tail: seq<Job>, plan: seq<Job>, i: nat)
    requires plan == done + jobs + tail && i < |jobs|
    ensures done + jobs[..i] + [jobs[i]] + (jobs[i + 1..] + tail) == plan
    ensures done + jobs[..i + 1] == done + jobs[..i] + [jobs[i]]
    ensures jobs[i] == plan[|done| + i]
  {
    assert jobs == jobs[..i] + [jobs[i]] + jobs[i + 1..];
    assert jobs[..i + 1] == jobs[..i] + [jobs[i]];
  }

  /** The `_write_shard` calls for the jobs `jobs`, in order, after the
      jobs `done`: each shard is appended to the shard list and every tensor
      written so far stays resolvable. */
  method WriteJobs(jobs: seq<Job>, out: OutputDir, blake3: seq<byte> -> string, shards: seq<Shard>,
                   ghost raw: TensorProto -> seq<byte>, ghost files0: map<string, seq<byte>>,
                   ghost plan: seq<Job>, ghost done: seq<Job>, ghost tail: seq<Job>)
    returns (shards': seq<Shard>)
    requires plan == done + jobs + tail
    requires forall j :: 0 <= j < |plan| ==> plan[j].tensors != []
    requires Distinct(AllTensors(plan)) && NamesDistinct(plan) && out.unwritable == {}
    requires out.files == Stored(files0, done, raw) && shards == ShardsOf(done, raw, blake3)
    requires Progress(out.files, AllTensors(plan), Locations(plan), |AllTensors(done)|, raw)
    modifies out, AllTensors(plan)
    ensures out.files == Stored(files0, done + jobs, raw) && shards' == ShardsOf(done + jobs, raw, blake3)
    ensures Progress(out.files, AllTensors(plan), Locations(plan), |AllTensors(done + jobs)|, raw)
  {
    shards' := shards;
    CutEnds(done, jobs);
    for i := 0 to |jobs|
      invariant out.files == Stored(files0, done + jobs[..i], raw) && shards' == ShardsOf(done + jobs[..i], raw, blake3)
      invariant Progress(out.files, AllTensors(plan), Locations(plan), |AllTensors(done + jobs[..i])|, raw)
    {
      Cut(done, jobs, tail, plan, i);
      shards' := WriteNext(jobs[i], out, blake3, shards', raw, files0, plan, done + jobs[..i], jobs[i + 1..] + tail);
    }
  }

  /** The inner loop of `write_shards`: the tensors of layers `w.start` to
      `w.end`, layer after layer; a layer without tensors adds none. */
  method GatherGroup(layers: map<nat, seq<TensorProto>>, w: Window) returns (group: seq<TensorProto>)
    ensures group == CollectRange(layers, w.start, w.end + 1)
  {
    group := [];
    var layer := w.start;
    while layer <= w.end
      invariant w.start <= layer <= w.end + 1 || (layer == w.start && w.end < w.start)
      invariant group == CollectRange(layers, w.start, layer)
    {
      group := group + Get(layers, layer);
      layer := layer + 1;
    }
  }

  /** One turn of `for group_start in range(0, max_layer + 1, k)`: the
      group of the window at `groupStart` unless it is empty (`continue`), as
      the first of the groups `pending` still to come, and the data index
      after it: legacy mode numbers the data file of a written group by the
      running data index and moves it on. */
  method NextGroup(r: ClassifyResult, k: nat, split: bool, groupStart: nat, idx: nat, ghost pending: seq<Job>)
    returns (next: seq<Job>, idx': nat)
    requires k >= 1 && groupStart < r.maxLayer + 1
    requires pending == LayerJobs(r.layers, WindowsFrom(groupStart, r.maxLayer + 1, k), split, idx)
    ensures |next| <= 1 && pending == next + LayerJobs(r.layers, WindowsFrom(groupStart + k, r.maxLayer + 1, k), split, idx')
  {
    var groupEnd := Min(groupStart + k, r.maxLayer + 1) - 1;
    var w := Window(groupStart, groupEnd);
    ghost var planned := LayerJob(r.layers, WindowAt(groupStart, r.maxLayer + 1, k), split, idx);
    assert w == WindowAt(groupStart, r.maxLayer + 1, k);
    LayerJobsStep(r.layers, groupStart, r.maxLayer + 1, k, split, idx);
    var group := GatherGroup(r.layers, w);
    if group == [] {
      assert NonEmpty(planned) == [] && NextIndex(planned, split, idx) == idx;
      next, idx' := [], idx;
    } else {
      var job := Job(LayerId(w, split), LayerShard, DataPrefix + NatToDecimal(if split then groupStart else idx),
                     group, Some((groupStart, groupEnd)));
      assert job == planned && NonEmpty(planned) == [job];
      next := [job];
      idx' := if split then idx else idx + 1;
    }
  }

  /** The groups of `for group_start in range(0, max_layer + 1, k)`, in
      order, with the running data index of legacy mode starting at
      `dataIdx`. */
  method LayerGroups(r: ClassifyResult, k: nat, split: bool, dataIdx: nat) returns (jobs: seq<Job>)
    requires k >= 1 && r.maxLayer >= 0
    ensures jobs == LayerJobs(r.layers, Windows(r.maxLayer + 1, k), split, dataIdx)
  {
    var groupStart: nat := 0;
    var idx: nat := dataIdx;
    ghost var all := LayerJobs(r.layers, Windows(r.maxLayer + 1, k), split, dataIdx);
    ghost var pending := all;
    jobs := [];
    while groupStart < r.maxLayer + 1
      invariant pending == LayerJobs(r.layers, WindowsFrom(groupStart, r.maxLayer + 1, k), split, idx)
      invariant jobs + pending == all
      decreases r.maxLayer + 1 - groupStart
    {
      var next;
      next, idx := NextGroup(r, k, split, groupStart, idx, pending);
      groupStart := groupStart + k;
      ghost var later := LayerJobs(r.layers, WindowsFrom(groupStart, r.maxLayer + 1, k), split, idx);
      Advance(jobs, next, later, all);
      jobs := jobs + next;
      pending := later;
    }
    LayerJobsExhausted(r.layers, groupStart, r.maxLayer + 1, k, split, idx);
    Finish(jobs, pending, all);
  }

  /** Nothing is pending: every job has been gathered. */
  lemma Finish(jobs: seq<Job>, pending: seq<Job>, all: seq<Job>)
    requires jobs + pending == all && pending == []
    ensures jobs == all
  {
  }

  /** Moving the next jobs `next` from the pending ones to the gathered ones. */
  lemma Advance(jobs: seq<Job>, next: seq<Job>, later: seq<Job>, all: seq<Job>)
    requires jobs + (next + later) == all
    ensures jobs + next + later == all
  {
  }

  /** Nothing is written yet and every tensor still holds its own bytes. */
  lemma ProgressStart(files: map<string, seq<byte>>, T: seq<TensorProto>, L: seq<string>, n: nat,
                      raw: TensorProto -> seq<byte>)
    requires n == 0 && |L| == |T| && forall x :: 0 <= x < |T| ==> RawBytes(T[x]) == raw(T[x])
    ensures Progress(files, T, L, n, raw)
  {
  }

  /** The plan as the head shards, the layer groups and the tail shards, in
      the shapes the three rounds of writing take it in. */
  lemma PlanThirds(r: ClassifyResult, k: int, split: bool)
    ensures var plan, head, tail := Plan(r, k, split), HeadJobs(r, split), TailJobs(r, split);
      var groups := LayerJobs(r.layers, GroupWindows(r.maxLayer, k), split, |head|);
      && plan == [] + head + (groups + tail) && [] + head == head
      && plan == head + groups + tail + []
      && (forall j :: 0 <= j < |plan| ==> plan[j].tensors != [])
      && NamesDistinct(plan)
  {
    PlanNamesDistinct(r, k, split);
    PlanOrder(r, k, split);
  }

  /** The head of `write_shards`: in split mode the embed shard (embed_tokens
      and norm weights) in its own data file; in legacy mode every base weight
      in data file 0, which then moves the running data index on. A shard
      with no tensors is not written. */
  method HeadShards(r: ClassifyResult, split: bool) returns (first: seq<Job>, dataIdx: nat)
    ensures first == HeadJobs(r, split) && |first| <= 1
    ensures dataIdx == if split then 0 else |first|
  {
    dataIdx := 0;
    first := [];
    if split {
      var embed := Job("embed", EmbedShard, EmbedFileName, r.embed + r.norm, None);
      if embed.tensors != [] {
        first := [embed];
      }
    } else {
      var base := Job("embed", EmbedShard, DataPrefix + NatToDecimal(dataIdx), r.embed + r.norm + r.lmHead, None);
      if base.tensors != [] {
        first := [base];
        dataIdx := dataIdx + 1;
      }
    }
  }

  /** The layer section of `write_shards` once `range()` has accepted the
      step: no group when no layer tensor was found (the warning branch) or
      the step is negative (an empty range). */
  method GroupsAfterHead(r: ClassifyResult, k: int, split: bool, dataIdx: nat) returns (groups: seq<Job>)
    requires !StepRejected(r, k)
    requires dataIdx == if split then 0 else |HeadJobs(r, split)|
    ensures groups == LayerJobs(r.layers, GroupWindows(r.maxLayer, k), split, |HeadJobs(r, split)|)
  {
    groups := [];
    if r.maxLayer >= 0 && k > 0 {
      groups := LayerGroups(r, k, split, dataIdx);
      if split {
        SplitIgnoresIndex(r.layers, GroupWindows(r.maxLayer, k), dataIdx, |HeadJobs(r, split)|);
      }
    }
  }

  /** The tail of `write_shards`: in split mode the lm_head shard in its own
      data file; none in legacy mode. */
  method TailShards(r: ClassifyResult, split: bool) returns (last: seq<Job>)
    ensures last == TailJobs(r, split) && |last| <= 1
  {
    last := [];
    if split {
      var lmHead := Job("lm_head", LmHeadShard, LmHeadFileName, r.lmHead, None);
      if lmHead.tensors != [] {
        last := [lmHead];
      }
    }
  }

  /** `write_shards`: the shards of the plan, in order, with every tensor
      moved to its data file and rewritten to point at its bytes there; with
      `layers_per_chunk` 0 and at least one layer tensor, `range()` raises
      after the head shard has been written. */
  method WriteShards(r: ClassifyResult, out: OutputDir, k: int, split: bool, blake3: seq<byte> -> string,
                     ghost raw: TensorProto -> seq<byte>, ghost tensors: seq<TensorProto>)
    returns (res: Result<seq<Shard>, WriterError>)
    requires tensors == AllTensors(Plan(r, k, split))
    requires Distinct(tensors) && out.unwritable == {}
    requires forall x :: 0 <= x < |tensors| ==> RawBytes(tensors[x]) == raw(tensors[x])
    modifies out, tensors
    ensures StepRejected(r, k) ==>
      && res == Err(ZeroLayersPerChunk)
      && out.files == Stored(old(out.files), HeadJobs(r, split), raw)
      && Progress(out.files, tensors, Locations(Plan(r, k, split)), |AllTensors(HeadJobs(r, split))|, raw)
    ensures !StepRejected(r, k) ==>
      && res == Ok(ShardsOf(Plan(r, k, split), raw, blake3))
      && out.files == Stored(old(out.files), Plan(r, k, split), raw)
      && Progress(out.files, tensors, Locations(Plan(r, k, split)), |tensors|, raw)
  {
    var first, dataIdx := HeadShards(r, split);
    var rest: seq<Job> := [];
    var rejected := r.maxLayer >= 0 && k == 0;
    if !rejected {
      var groups := GroupsAfterHead(r, k, split, dataIdx);
      var last := TailShards(r, split);
      rest := groups + last;
    }
    ghost var files0 := out.files;
    PlanThirds(r, k, split);
    ProgressStart(out.files, tensors, Locations(Plan(r, k, split)), |AllTensors([])|, raw);
    var shards := WriteJobs(first, out, blake3, [], raw, files0, Plan(r, k, split), [],
                            LayerJobs(r.layers, GroupWindows(r.maxLayer, k), split, |first|) + TailJobs(r, split));
    if rejected {
      return Err(ZeroLayersPerChunk);
    }
    shards := WriteJobs(rest, out, blake3, shards, raw, files0, Plan(r, k, split), first, []);
    res := Ok(shards);
  }
}
