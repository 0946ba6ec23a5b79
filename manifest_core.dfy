/** The chunk manifest shared by the Rust sharder and its consumers:
    the records, `validate`, and their serde JSON form, in which an empty
    `filename` or `url` is left out and an absent one reads back as empty. */
module ManifestCore {
  import opened Wrappers
  import opened Text
  import opened Json

  datatype ManifestChunk = ManifestChunk(
    id: string,
    filename: string,
    layerStart: nat,
    layerEnd: nat,
    bytes: nat,
    sha256: string,
    url: string)

  datatype ModelManifest = ModelManifest(
    modelId: string,
    version: string,
    dtype: string,
    minRunnableDepth: nat,
    chunks: seq<ManifestChunk>)

  datatype ValidationError = EmptyChunks | ZeroMinRunnableDepth

  /** `ModelManifest::validate`: the chunk list is checked first, then the
      depth; nothing else about the manifest is looked at. */
  function Validate(m: ModelManifest): (r: Result<(), ValidationError>)
    ensures r.Ok? <==> |m.chunks| > 0 && m.minRunnableDepth > 0
    ensures |m.chunks| == 0 ==> r == Err(EmptyChunks)
    ensures |m.chunks| > 0 && m.minRunnableDepth == 0 ==> r == Err(ZeroMinRunnableDepth)
  {
    if |m.chunks| == 0 then Err(EmptyChunks)
    else if m.minRunnableDepth == 0 then Err(ZeroMinRunnableDepth)
    else Ok(())
  }

  /** The verdict depends only on how many chunks there are and on the depth:
      ids, ranges, sizes and digests are never inspected. */
  lemma ValidateIgnoresChunkFields(m1: ModelManifest, m2: ModelManifest)
    requires |m1.chunks| == |m2.chunks| && m1.minRunnableDepth == m2.minRunnableDepth
    ensures Validate(m1) == Validate(m2)
  {
  }

  /** The fields fit the Rust types (`u32` layer bounds, `u64` size), which
      is what serde accepts on the way back. */
  predicate ChunkFits(c: ManifestChunk) {
    c.layerStart <= U32Max && c.layerEnd <= U32Max && c.bytes <= U64Max
  }

  predicate ManifestFits(m: ModelManifest) {
    m.minRunnableDepth <= U32Max && forall i :: 0 <= i < |m.chunks| ==> ChunkFits(m.chunks[i])
  }

  /** `skip_serializing_if = "String::is_empty"`. */
  function OptionalString(key: string, s: string): seq<(string, Value)> {
    if s == [] then [] else [(key, Str(s))]
  }

  function ChunkToJson(c: ManifestChunk): Value {
    Obj([("id", Str(c.id))]
        + OptionalString("filename", c.filename)
        + [("layer_start", Num(c.layerStart)),
           ("layer_end", Num(c.layerEnd)),
           ("bytes", Num(c.bytes)),
           ("sha256", Str(c.sha256))]
        + OptionalString("url", c.url))
  }

  function StringField(members: seq<(string, Value)>, key: string): Option<string> {
    match Lookup(members, key)
    case Some(Str(s)) => Some(s)
    case _ => None
  }

  /** `#[serde(default)]`: an absent string is empty; a present one must be
      a string. */
  function DefaultedStringField(members: seq<(string, Value)>, key: string): Option<string> {
    match Lookup(members, key)
    case None => Some("")
    case Some(Str(s)) => Some(s)
    case Some(_) => None
  }

  function NatField(members: seq<(string, Value)>, key: string, max: nat): Option<nat> {
    match Lookup(members, key)
    case Some(Num(n)) => if 0 <= n <= max then Some(n) else None
    case _ => None
  }

  function ChunkFromJson(v: Value): Option<ManifestChunk> {
    if !v.Obj? then None
    else
      var ms := v.members;
      var id := StringField(ms, "id");
      var filename := DefaultedStringField(ms, "filename");
      var layerStart := NatField(ms, "layer_start", U32Max);
      var layerEnd := NatField(ms, "layer_end", U32Max);
      var bytes := NatField(ms, "bytes", U64Max);
      var sha256 := StringField(ms, "sha256");
      var url := DefaultedStringField(ms, "url");
      if id.Some? && filename.Some? && layerStart.Some? && layerEnd.Some? && bytes.Some? && sha256.Some? && url.Some?
      then Some(ManifestChunk(id.value, filename.value, layerStart.value, layerEnd.value, bytes.value, sha256.value, url.value))
      else None
  }

  /** An empty `filename` or `url` is left out of the JSON, a non-empty one
      is written. */
  lemma ChunkJsonOmitsEmpty(c: ManifestChunk)
    ensures "filename" in Keys(ChunkToJson(c).members) <==> c.filename != ""
    ensures "url" in Keys(ChunkToJson(c).members) <==> c.url != ""
    ensures forall k :: k in ["id", "layer_start", "layer_end", "bytes", "sha256"] ==> k in Keys(ChunkToJson(c).members)
  {
    var ms := ChunkToJson(c).members;
    var ks := Keys(ms);
    var f := if c.filename == "" then 0 else 1;
    assert ks[0] == "id";
    assert ks[f + 1] == "layer_start" && ks[f + 2] == "layer_end" && ks[f + 3] == "bytes" && ks[f + 4] == "sha256";
    if c.filename != "" {
      assert ks[1] == "filename";
    } else {
      assert forall i :: 0 <= i < |ks| ==> ks[i] != "filename" by {
        forall i | 0 <= i < |ks| ensures ks[i] != "filename" {
          assert ks[i] == ms[i].0;
        }
      }
    }
    if c.url != "" {
      assert ks[f + 5] == "url";
    } else {
      assert forall i :: 0 <= i < |ks| ==> ks[i] != "url" by {
        forall i | 0 <= i < |ks| ensures ks[i] != "url" {
          assert ks[i] == ms[i].0;
        }
      }
    }
  }

  /** The members of a written chunk, with `f` and `u` telling whether
      `filename` and `url` are present. */
  lemma ChunkMembers(c: ManifestChunk, f: nat, u: nat)
    requires f == (if c.filename == "" then 0 else 1)
    requires u == (if c.url == "" then 0 else 1)
    ensures |ChunkToJson(c).members| == 5 + f + u
    ensures ChunkToJson(c).members[0] == ("id", Str(c.id))
    ensures f == 1 ==> ChunkToJson(c).members[1] == ("filename", Str(c.filename))
    ensures ChunkToJson(c).members[f + 1] == ("layer_start", Num(c.layerStart))
    ensures ChunkToJson(c).members[f + 2] == ("layer_end", Num(c.layerEnd))
    ensures ChunkToJson(c).members[f + 3] == ("bytes", Num(c.bytes))
    ensures ChunkToJson(c).members[f + 4] == ("sha256", Str(c.sha256))
    ensures u == 1 ==> ChunkToJson(c).members[f + 5] == ("url", Str(c.url))
  {
  }

  /** The required fields of a written chunk read back as their values. */
  lemma ChunkRequiredFieldsRead(c: ManifestChunk)
    requires ChunkFits(c)
    ensures StringField(ChunkToJson(c).members, "id") == Some(c.id)
    ensures NatField(ChunkToJson(c).members, "layer_start", U32Max) == Some(c.layerStart)
    ensures NatField(ChunkToJson(c).members, "layer_end", U32Max) == Some(c.layerEnd)
    ensures NatField(ChunkToJson(c).members, "bytes", U64Max) == Some(c.bytes)
    ensures StringField(ChunkToJson(c).members, "sha256") == Some(c.sha256)
  {
    var ms := ChunkToJson(c).members;
    var f := if c.filename == "" then 0 else 1;
    var u := if c.url == "" then 0 else 1;
    ChunkMembers(c, f, u);
    LookupAt(ms, "id", 0);
    LookupAt(ms, "layer_start", f + 1);
    LookupAt(ms, "layer_end", f + 2);
    LookupAt(ms, "bytes", f + 3);
    LookupAt(ms, "sha256", f + 4);
  }

  /** The optional fields of a written chunk read back as their values,
      the empty string when they were left out. */
  lemma ChunkOptionalFieldsRead(c: ManifestChunk)
    ensures DefaultedStringField(ChunkToJson(c).members, "filename") == Some(c.filename)
    ensures DefaultedStringField(ChunkToJson(c).members, "url") == Some(c.url)
  {
    var ms := ChunkToJson(c).members;
    var f := if c.filename == "" then 0 else 1;
    var u := if c.url == "" then 0 else 1;
    ChunkMembers(c, f, u);
    if f == 1 {
      LookupAt(ms, "filename", 1);
    } else {
      LookupAbsent(ms, "filename");
    }
    if u == 1 {
      LookupAt(ms, "url", f + 5);
    } else {
      LookupAbsent(ms, "url");
    }
  }

  /** Writing a chunk and reading it back gives the same chunk, empty
      `filename` and `url` included. */
  lemma ChunkRoundTrip(c: ManifestChunk)
    requires ChunkFits(c)
    ensures ChunkFromJson(ChunkToJson(c)) == Some(c)
  {
    ChunkRequiredFieldsRead(c);
    ChunkOptionalFieldsRead(c);
  }

  function ChunksToJson(cs: seq<ManifestChunk>): (items: seq<Value>)
    ensures |items| == |cs|
    ensures forall i :: 0 <= i < |cs| ==> items[i] == ChunkToJson(cs[i])
  {
    if cs == [] then [] else [ChunkToJson(cs[0])] + ChunksToJson(cs[1..])
  }

  function ChunksFromJson(items: seq<Value>): Option<seq<ManifestChunk>> {
    if items == [] then Some([])
    else
      var c := ChunkFromJson(items[0]);
      var rest := ChunksFromJson(items[1..]);
      if c.Some? && rest.Some? then Some([c.value] + rest.value) else None
  }

  function ManifestToJson(m: ModelManifest): Value {
    Obj([("model_id", Str(m.modelId)),
         ("version", Str(m.version)),
         ("dtype", Str(m.dtype)),
         ("min_runnable_depth", Num(m.minRunnableDepth)),
         ("chunks", Arr(ChunksToJson(m.chunks)))])
  }

  function ArrayField(members: seq<(string, Value)>, key: string): Option<seq<Value>> {
    match Lookup(members, key)
    case Some(Arr(items)) => Some(items)
    case _ => None
  }

  function ManifestFromJson(v: Value): Option<ModelManifest> {
    if !v.Obj? then None
    else
      var ms := v.members;
      var modelId := StringField(ms, "model_id");
      var version := StringField(ms, "version");
      var dtype := StringField(ms, "dtype");
      var depth := NatField(ms, "min_runnable_depth", U32Max);
      var items := ArrayField(ms, "chunks");
      if modelId.Some? && version.Some? && dtype.Some? && depth.Some? && items.Some?
      then
        var chunks := ChunksFromJson(items.value);
        if chunks.Some?
        then Some(ModelManifest(modelId.value, version.value, dtype.value, depth.value, chunks.value))
        else None
      else None
  }

  /** Every field of a written manifest reads back as its own value. */
  lemma ManifestFieldsRead(m: ModelManifest)
    requires ManifestFits(m)
    ensures StringField(ManifestToJson(m).members, "model_id") == Some(m.modelId)
    ensures StringField(ManifestToJson(m).members, "version") == Some(m.version)
    ensures StringField(ManifestToJson(m).members, "dtype") == Some(m.dtype)
    ensures NatField(ManifestToJson(m).members, "min_runnable_depth", U32Max) == Some(m.minRunnableDepth)
    ensures ArrayField(ManifestToJson(m).members, "chunks") == Some(ChunksToJson(m.chunks))
  {
    var ms := ManifestToJson(m).members;
    LookupAt(ms, "model_id", 0);
    LookupAt(ms, "version", 1);
    LookupAt(ms, "dtype", 2);
    LookupAt(ms, "min_runnable_depth", 3);
    LookupAt(ms, "chunks", 4);
  }

  lemma {:induction false} ChunksRoundTrip(cs: seq<ManifestChunk>)
    requires forall i :: 0 <= i < |cs| ==> ChunkFits(cs[i])
    ensures ChunksFromJson(ChunksToJson(cs)) == Some(cs)
  {
    if cs != [] {
      var items := ChunksToJson(cs);
      ChunkRoundTrip(cs[0]);
      ChunksRoundTrip(cs[1..]);
      assert items[1..] == ChunksToJson(cs[1..]);
      assert [cs[0]] + cs[1..] == cs;
    }
  }

  /** The persisted manifest reads back as the manifest that was written. */
  lemma ManifestRoundTrip(m: ModelManifest)
    requires ManifestFits(m)
    ensures ManifestFromJson(ManifestToJson(m)) == Some(m)
  {
    ManifestFieldsRead(m);
    ChunksRoundTrip(m.chunks);
  }
}
