/** The parts of an ONNX `TensorProto` the ONNX sharder reads and rewrites.
    The writer updates tensors in place, so a tensor is an object. */
module OnnxProto {
  import opened Seqs
  import opened Storage

  datatype DataLocation = Default | External

  class TensorProto {
    /** The initializer's name; never rewritten. */
    const name: string
    /** `raw_data`. */
    var rawData: seq<byte>
    /** The bytes `numpy_helper.to_array(t).tobytes()` gives for the typed
        fields the writer clears (`float_data`, `int32_data`, `int64_data`,
        `double_data`). Data held in `uint64_data` or `string_data` is not
        represented. */
    var typedBytes: seq<byte>
    var dataLocation: DataLocation
    /** `external_data`, as key/value entries in order. */
    var externalData: seq<(string, string)>

    constructor (name: string, rawData: seq<byte>, typedBytes: seq<byte>)
      ensures this.name == name && this.rawData == rawData && this.typedBytes == typedBytes
      ensures dataLocation == Default && externalData == []
    {
      this.name := name;
      this.rawData := rawData;
      this.typedBytes := typedBytes;
      dataLocation := Default;
      externalData := [];
    }
  }

  /** `_tensor_raw_bytes`: the inline raw bytes when there are any, otherwise
      the bytes of the typed fields. */
  function RawBytes(t: TensorProto): seq<byte>
    reads t
  {
    if |t.rawData| > 0 then t.rawData else t.typedBytes
  }

  /** The raw bytes of each tensor of a list, in order. */
  function Pieces(ts: seq<TensorProto>): (ps: seq<seq<byte>>)
    reads set t | t in ts
    ensures |ps| == |ts| && forall i :: 0 <= i < |ts| ==> ps[i] == RawBytes(ts[i])
  {
    if ts == [] then [] else Pieces(ts[..|ts| - 1]) + [RawBytes(ts[|ts| - 1])]
  }

  /** What a data file holding `ts` back to back contains. */
  function Contents(ts: seq<TensorProto>): seq<byte>
    reads set t | t in ts
  {
    Concat(Pieces(ts))
  }

  /** No tensor object occurs twice. */
  predicate Distinct(ts: seq<TensorProto>) {
    forall i, j :: 0 <= i < j < |ts| ==> ts[i] != ts[j]
  }

  /** No tensor object occurs twice exactly when each occurs at most once. */
  lemma {:induction false} DistinctCounts(ts: seq<TensorProto>)
    ensures Distinct(ts) <==> forall t :: multiset(ts)[t] <= 1
  {
    if ts != [] {
      var init, last := ts[..|ts| - 1], ts[|ts| - 1];
      assert ts == init + [last];
      assert multiset(ts) == multiset(init) + multiset{last};
      assert forall i :: 0 <= i < |init| ==> init[i] == ts[i];
      DistinctCounts(init);
      if forall t :: multiset(ts)[t] <= 1 {
        forall t: TensorProto
          ensures multiset(init)[t] <= 1
        {
          assert multiset(init)[t] <= multiset(ts)[t];
        }
        assert Distinct(init);
        forall i, j | 0 <= i < j < |ts|
          ensures ts[i] != ts[j]
        {
          if j == |ts| - 1 {
            assert ts[i] in init;
            assert multiset(ts)[last] == multiset(init)[last] + 1;
          } else {
            assert init[i] != init[j];
          }
        }
      }
    }
  }

  function Objects(ts: seq<TensorProto>): set<TensorProto> {
    set t | t in ts
  }
}
