/** The ONNX sharder's manifest (schema v0.2) and its dictionary form. */
module OnnxManifest {
  import opened Wrappers
  import opened Text
  import opened Json

  datatype ShardKind = EmbedShard | LayerShard | LmHeadShard

  function KindName(k: ShardKind): string {
    match k
    case EmbedShard => "embed"
    case LayerShard => "layer"
    case LmHeadShard => "lm_head"
  }

  function KindFromName(s: string): Option<ShardKind> {
    if s == "embed" then Some(EmbedShard)
    else if s == "layer" then Some(LayerShard)
    else if s == "lm_head" then Some(LmHeadShard)
    else None
  }

  /** `Shard`; `hash` is the bare BLAKE3 hex digest. */
  datatype Shard = Shard(
    id: string,
    kind: ShardKind,
    filename: string,
    bytes: int,
    hash: string,
    layerRange: Option<(int, int)>)

  const HashPrefix: string := "blake3:"
  const DefaultVersion: string := "0.2"

  /** `Shard.to_dict`. */
  function ShardToDict(s: Shard): Value {
    Obj([("id", Str(s.id)),
         ("kind", Str(KindName(s.kind))),
         ("filename", Str(s.filename)),
         ("bytes", Num(s.bytes)),
         ("hash", Str(HashPrefix + s.hash))]
        + match s.layerRange
          case None => []
          case Some((a, b)) => [("layer_range", Arr([Num(a), Num(b)]))])
  }

  /** The five keys always present, then `layer_range` exactly when the
      shard has a range; the hash is written with its `blake3:` prefix. */
  lemma ShardDictShape(s: Shard)
    ensures Keys(ShardToDict(s).members) ==
      ["id", "kind", "filename", "bytes", "hash"] + (if s.layerRange.Some? then ["layer_range"] else [])
    ensures Lookup(ShardToDict(s).members, "hash") == Some(Str(HashPrefix + s.hash))
    ensures s.layerRange.None? ==> Lookup(ShardToDict(s).members, "layer_range") == None
    ensures s.layerRange.Some? ==>
      Lookup(ShardToDict(s).members, "layer_range") == Some(Arr([Num(s.layerRange.value.0), Num(s.layerRange.value.1)]))
  {
    var ms := ShardToDict(s).members;
    LookupAt(ms, "hash", 4);
    if s.layerRange.Some? {
      LookupAt(ms, "layer_range", 5);
    } else {
      LookupAbsent(ms, "layer_range");
    }
  }

  /** The required fields of a shard dictionary read back as their values. */
  lemma ShardFieldsRead(s: Shard)
    ensures Lookup(ShardToDict(s).members, "id") == Some(Str(s.id))
    ensures Lookup(ShardToDict(s).members, "kind") == Some(Str(KindName(s.kind)))
    ensures Lookup(ShardToDict(s).members, "filename") == Some(Str(s.filename))
    ensures Lookup(ShardToDict(s).members, "bytes") == Some(Num(s.bytes))
  {
    var ms := ShardToDict(s).members;
    LookupAt(ms, "id", 0);
    LookupAt(ms, "kind", 1);
    LookupAt(ms, "filename", 2);
    LookupAt(ms, "bytes", 3);
  }

  function StrOf(v: Option<Value>): Option<string> {
    match v
    case Some(Str(s)) => Some(s)
    case _ => None
  }

  function NumOf(v: Option<Value>): Option<int> {
    match v
    case Some(Num(n)) => Some(n)
    case _ => None
  }

  function RangeOf(v: Option<Value>): Option<Option<(int, int)>> {
    match v
    case None => Some(None)
    case Some(Arr(items)) =>
      if |items| == 2 && items[0].Num? && items[1].Num? then Some(Some((items[0].n, items[1].n))) else None
    case _ => None
  }

  /** Reading a shard dictionary back: the inverse of `Shard.to_dict`. */
  function ShardFromDict(v: Value): Option<Shard> {
    if !v.Obj? then None
    else
      var ms := v.members;
      var id := StrOf(Lookup(ms, "id"));
      var kind := StrOf(Lookup(ms, "kind"));
      var filename := StrOf(Lookup(ms, "filename"));
      var bytes := NumOf(Lookup(ms, "bytes"));
      var hash := StrOf(Lookup(ms, "hash"));
      var range := RangeOf(Lookup(ms, "layer_range"));
      if id.Some? && kind.Some? && KindFromName(kind.value).Some? && filename.Some? && bytes.Some?
         && hash.Some? && StartsWith(hash.value, HashPrefix) && range.Some?
      then Some(Shard(id.value, KindFromName(kind.value).value, filename.value, bytes.value,
                      hash.value[|HashPrefix|..], range.value))
      else None
  }

  /** A shard dictionary determines its shard. */
  lemma ShardRoundTrip(s: Shard)
    ensures ShardFromDict(ShardToDict(s)) == Some(s)
  {
    ShardDictShape(s);
    ShardFieldsRead(s);
    var h := HashPrefix + s.hash;
    assert h[..|HashPrefix|] == HashPrefix && h[|HashPrefix|..] == s.hash;
    assert KindFromName(KindName(s.kind)) == Some(s.kind);
  }

  /** `ModelManifest`. */
  datatype ModelManifest = ModelManifest(
    modelId: string,
    variant: string,
    framework: string,
    dtype: string,
    totalLayers: int,
    shards: seq<Shard>,
    version: string)

  /** The dataclass constructor without an explicit version. */
  function NewManifest(modelId: string, variant: string, framework: string, dtype: string,
                       totalLayers: int, shards: seq<Shard>): (m: ModelManifest)
    ensures m.version == DefaultVersion
    ensures m.modelId == modelId && m.variant == variant && m.framework == framework
    ensures m.dtype == dtype && m.totalLayers == totalLayers && m.shards == shards
  {
    ModelManifest(modelId, variant, framework, dtype, totalLayers, shards, DefaultVersion)
  }

  /** `[s.to_dict() for s in self.shards]`. */
  function ShardDicts(shards: seq<Shard>): (items: seq<Value>)
    ensures |items| == |shards|
    ensures forall i :: 0 <= i < |shards| ==> items[i] == ShardToDict(shards[i])
  {
    if shards == [] then [] else [ShardToDict(shards[0])] + ShardDicts(shards[1..])
  }

  /** `ModelManifest.to_dict`. */
  function ManifestToDict(m: ModelManifest): Value {
    Obj([("version", Str(m.version)),
         ("model_id", Str(m.modelId)),
         ("variant", Str(m.variant)),
         ("framework", Str(m.framework)),
         ("dtype", Str(m.dtype)),
         ("total_layers", Num(m.totalLayers)),
         ("shards", Arr(ShardDicts(m.shards)))])
  }

  /** Exactly seven keys in this order, and one dictionary per shard in
      list order. */
  lemma ManifestDictShape(m: ModelManifest)
    ensures Keys(ManifestToDict(m).members) ==
      ["version", "model_id", "variant", "framework", "dtype", "total_layers", "shards"]
    ensures Lookup(ManifestToDict(m).members, "shards") == Some(Arr(ShardDicts(m.shards)))
  {
    LookupAt(ManifestToDict(m).members, "shards", 6);
  }

  function ShardsFromDicts(items: seq<Value>): Option<seq<Shard>> {
    if items == [] then Some([])
    else
      var s := ShardFromDict(items[0]);
      var rest := ShardsFromDicts(items[1..]);
      if s.Some? && rest.Some? then Some([s.value] + rest.value) else None
  }

  lemma {:induction false} ShardsRoundTrip(shards: seq<Shard>)
    ensures ShardsFromDicts(ShardDicts(shards)) == Some(shards)
  {
    if shards != [] {
      ShardRoundTrip(shards[0]);
      ShardsRoundTrip(shards[1..]);
      assert ShardDicts(shards)[1..] == ShardDicts(shards[1..]);
      assert [shards[0]] + shards[1..] == shards;
    }
  }

  /** Reading a manifest dictionary back. */
  function ManifestFromDict(v: Value): Option<ModelManifest> {
    if !v.Obj? then None
    else
      var ms := v.members;
      var version := StrOf(Lookup(ms, "version"));
      var modelId := StrOf(Lookup(ms, "model_id"));
      var variant := StrOf(Lookup(ms, "variant"));
      var framework := StrOf(Lookup(ms, "framework"));
      var dtype := StrOf(Lookup(ms, "dtype"));
      var totalLayers := NumOf(Lookup(ms, "total_layers"));
      var shards := match Lookup(ms, "shards")
        case Some(Arr(items)) => ShardsFromDicts(items)
        case _ => None;
      if version.Some? && modelId.Some? && variant.Some? && framework.Some? && dtype.Some?
         && totalLayers.Some? && shards.Some?
      then Some(ModelManifest(modelId.value, variant.value, framework.value, dtype.value,
                              totalLayers.value, shards.value, version.value))
      else None
  }

  /** Every field of a manifest dictionary reads back as its own value. */
  lemma ManifestFieldsRead(m: ModelManifest)
    ensures Lookup(ManifestToDict(m).members, "version") == Some(Str(m.version))
    ensures Lookup(ManifestToDict(m).members, "model_id") == Some(Str(m.modelId))
    ensures Lookup(ManifestToDict(m).members, "variant") == Some(Str(m.variant))
    ensures Lookup(ManifestToDict(m).members, "framework") == Some(Str(m.framework))
    ensures Lookup(ManifestToDict(m).members, "dtype") == Some(Str(m.dtype))
    ensures Lookup(ManifestToDict(m).members, "total_layers") == Some(Num(m.totalLayers))
  {
    var ms := ManifestToDict(m).members;
    LookupAt(ms, "version", 0);
    LookupAt(ms, "model_id", 1);
    LookupAt(ms, "variant", 2);
    LookupAt(ms, "framework", 3);
    LookupAt(ms, "dtype", 4);
    LookupAt(ms, "total_layers", 5);
  }

  /** The manifest dictionary loses nothing. */
  lemma ManifestRoundTrip(m: ModelManifest)
    ensures ManifestFromDict(ManifestToDict(m)) == Some(m)
  {
    ManifestFieldsRead(m);
    ManifestDictShape(m);
    ShardsRoundTrip(m.shards);
  }
}
