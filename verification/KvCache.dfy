/** The key/value cache of attention: one flat array of keys and one of values
    per layer, laid out `[max_seq_len, n_head_kv, head_dim]`. */
module KvCache {
  import opened Prelude
  import opened TensorIndex

  datatype KvError =
    | NoSuchLayer
    | ShapesDiffer
    | WrongRank
    | WrongHeads
    | NotOneToken
    | NoRoom
    | BeyondLength

  datatype Dims = Dims(maxSeqLen: nat, nLayer: nat, nHeadKv: nat, headDim: nat) {
    function HeadSize(): nat {
      nHeadKv * headDim
    }

    function Shape(rows: nat): seq<nat> {
      [rows, nHeadKv, headDim]
    }
  }

  /** What a caller sees of the cache without touching its data. */
  datatype Snapshot = Snapshot(len: nat, version: nat)

  /** The contents of a cache, as a value. */
  datatype Cache<E> = Cache(dims: Dims, keys: seq<seq<E>>, values: seq<seq<E>>, len: nat, snapshot: Snapshot)

  predicate Sized<E>(layers: seq<seq<E>>, count: nat, size: nat) {
    |layers| == count && forall l :: 0 <= l < count ==> |layers[l]| == size
  }

  predicate WellFormed<E>(c: Cache<E>) {
    && Sized(c.keys, c.dims.nLayer, c.dims.maxSeqLen * c.dims.HeadSize())
    && Sized(c.values, c.dims.nLayer, c.dims.maxSeqLen * c.dims.HeadSize())
    && c.len <= c.dims.maxSeqLen
  }

  predicate Mirrors<E>(c: Cache<E>) {
    c.snapshot == Snapshot(c.len, c.len)
  }

  /** `part` laid over `s` from position `at`. */
  function Splice<E>(s: seq<E>, at: nat, part: seq<E>): (r: seq<E>)
    requires at + |part| <= |s|
    ensures |r| == |s|
  {
    s[..at] + part + s[at + |part|..]
  }

  function Validate<E>(d: Dims, layer: nat, k: Tensor<E>, v: Tensor<E>): Result<(), KvError> {
    if layer >= d.nLayer then Err(NoSuchLayer)
    else if k.shape != v.shape then Err(ShapesDiffer)
    else if |k.shape| != 3 then Err(WrongRank)
    else if k.shape[1..] != [d.nHeadKv, d.headDim] then Err(WrongHeads)
    else Ok(())
  }

  /** States are taken exactly for a layer of the cache, keys and values alike, as
      rows of its heads. */
  lemma ValidatesExactly<E>(d: Dims, layer: nat, k: Tensor<E>, v: Tensor<E>)
    ensures Validate(d, layer, k, v).Ok? <==>
      layer < d.nLayer && exists rows :: k.shape == [rows, d.nHeadKv, d.headDim] && v.shape == [rows, d.nHeadKv, d.headDim]
    ensures Validate(d, layer, k, v) == Err(NoSuchLayer) <==> layer >= d.nLayer
    ensures Validate(d, layer, k, v) == Err(ShapesDiffer) <==> layer < d.nLayer && k.shape != v.shape
    ensures Validate(d, layer, k, v) == Err(WrongRank) <==> layer < d.nLayer && k.shape == v.shape && |k.shape| != 3
  {
    if |k.shape| == 3 {
      assert k.shape == [k.shape[0], k.shape[1], k.shape[2]] && k.shape[1..] == [k.shape[1], k.shape[2]];
    }
  }

  /** A tensor whose data fill its shape, which `Tensor::new` checks. */
  predicate Filled<E>(t: Tensor<E>) {
    |t.data| == Product(t.shape)
  }

  lemma ProductOfThree(a: nat, b: nat, c: nat)
    ensures Product([a, b, c]) == a * (b * c)
  {
    assert [a, b, c][1..] == [b, c] && [b, c][1..] == [c] && [c][1..] == [];
    assert Product([c]) == c;
    assert Product([b, c]) == b * c;
  }

  lemma RowsFit(rows: nat, max: nat, size: nat)
    requires rows <= max
    ensures rows * size <= max * size
  {
  }

  lemma StatesFilled<E>(d: Dims, layer: nat, k: Tensor<E>, v: Tensor<E>)
    requires Validate(d, layer, k, v).Ok? && Filled(k) && Filled(v)
    ensures k.shape == d.Shape(k.shape[0])
    ensures |k.data| == |v.data| == k.shape[0] * d.HeadSize()
  {
    assert k.shape == [k.shape[0]] + k.shape[1..];
    ProductOfThree(k.shape[0], d.nHeadKv, d.headDim);
  }

  lemma WritesFit(d: Dims, len: nat, rows: nat)
    requires len + rows <= d.maxSeqLen
    ensures len * d.HeadSize() + rows * d.HeadSize() <= d.maxSeqLen * d.HeadSize()
  {
    RowsFit(len + rows, d.maxSeqLen, d.HeadSize());
    assert (len + rows) * d.HeadSize() == len * d.HeadSize() + rows * d.HeadSize();
  }

  /** One layer of the new states written after the committed positions. */
  function Written<E>(c: Cache<E>, layer: nat, k: seq<E>, v: seq<E>): (r: Cache<E>)
    requires WellFormed(c) && layer < c.dims.nLayer && |k| == |v|
    requires c.len * c.dims.HeadSize() + |k| <= c.dims.maxSeqLen * c.dims.HeadSize()
    ensures WellFormed(r)
  {
    var at := c.len * c.dims.HeadSize();
    c.(keys := c.keys[layer := Splice(c.keys[layer], at, k)],
       values := c.values[layer := Splice(c.values[layer], at, v)])
  }

  function Prefilled<E>(c: Cache<E>, layer: nat, k: Tensor<E>, v: Tensor<E>): (r: Result<Cache<E>, KvError>)
    requires WellFormed(c) && Filled(k) && Filled(v)
    ensures r.Ok? ==> WellFormed(r.value) && r.value.dims == c.dims
  {
    var valid := Validate(c.dims, layer, k, v);
    if valid.Err? then Err(valid.error)
    else if c.len + k.shape[0] > c.dims.maxSeqLen then Err(NoRoom)
    else
      StatesFilled(c.dims, layer, k, v);
      WritesFit(c.dims, c.len, k.shape[0]);
      Ok(Written(c, layer, k.data, v.data))
  }

  function Appended<E>(c: Cache<E>, layer: nat, k: Tensor<E>, v: Tensor<E>): (r: Result<Cache<E>, KvError>)
    requires WellFormed(c) && Filled(k) && Filled(v)
    ensures r.Ok? ==> WellFormed(r.value) && r.value.dims == c.dims
  {
    var valid := Validate(c.dims, layer, k, v);
    if valid.Err? then Err(valid.error)
    else if k.shape[0] != 1 then Err(NotOneToken)
    else if c.len >= c.dims.maxSeqLen then Err(NoRoom)
    else
      StatesFilled(c.dims, layer, k, v);
      WritesFit(c.dims, c.len, 1);
      Ok(Written(c, layer, k.data, v.data))
  }

  /** The length moves on after every layer has been written. */
  function Advance<E>(c: Cache<E>, rows: nat): Cache<E> {
    c.(len := c.len + rows, snapshot := Snapshot(c.len + rows, c.len + rows))
  }

  function PrefillDone<E>(c: Cache<E>, rows: nat): Result<Cache<E>, KvError> {
    if c.len + rows > c.dims.maxSeqLen then Err(NoRoom) else Ok(Advance(c, rows))
  }

  function DecodeDone<E>(c: Cache<E>): Result<Cache<E>, KvError> {
    if c.len >= c.dims.maxSeqLen then Err(NoRoom) else Ok(Advance(c, 1))
  }

  function Truncated<E>(c: Cache<E>, len: nat): Result<Cache<E>, KvError> {
    if len > c.len then Err(BeyondLength) else Ok(c.(len := len))
  }

  function Cleared<E>(c: Cache<E>): Cache<E> {
    c.(len := 0, snapshot := Snapshot(0, 0))
  }

  /** The committed part of one layer's data. */
  function Committed<E>(c: Cache<E>, data: seq<E>): seq<E>
    requires |data| == c.dims.maxSeqLen * c.dims.HeadSize() && c.len <= c.dims.maxSeqLen
  {
    RowsFit(c.len, c.dims.maxSeqLen, c.dims.HeadSize());
    data[..c.len * c.dims.HeadSize()]
  }

  function LayerRead<E>(c: Cache<E>, layer: nat): Result<(Tensor<E>, Tensor<E>), KvError>
    requires WellFormed(c)
  {
    if layer >= c.dims.nLayer then Err(NoSuchLayer)
    else Ok((Tensor(Committed(c, c.keys[layer]), c.dims.Shape(c.len)),
             Tensor(Committed(c, c.values[layer]), c.dims.Shape(c.len))))
  }

  // --- The cache in place -------------------------------------------------

  lemma SpliceMore<E>(s: seq<E>, at: nat, part: seq<E>, m: nat)
    requires m < |part| && at + |part| <= |s|
    ensures Splice(s, at, part[..m])[at + m := part[m]] == Splice(s, at, part[..m + 1])
  {
  }

  lemma SpliceNone<E>(s: seq<E>, at: nat, part: seq<E>)
    requires at + |part| <= |s|
    ensures Splice(s, at, part[..0]) == s
  {
  }

  lemma OffsetsAgree(start: nat, row: nat, size: nat)
    ensures (start + row) * size == start * size + row * size
    ensures (row + 1) * size == row * size + size
  {
  }

  /** One row of the new states, element by element. */
  method CopyRow<E>(target: array<E>, states: seq<E>, start: nat, row: nat, rows: nat, size: nat, ghost was: seq<E>)
    requires row < rows && |states| == rows * size
    requires |was| == target.Length && start * size + |states| <= target.Length
    requires row * size <= |states| && target[..] == Splice(was, start * size, states[..row * size])
    modifies target
    ensures (row + 1) * size <= |states| && target[..] == Splice(was, start * size, states[..(row + 1) * size])
  {
    OffsetsAgree(start, row, size);
    RowsFit(row + 1, rows, size);
    var source, destination := row * size, (start + row) * size;
    for i := 0 to size
      invariant target[..] == Splice(was, start * size, states[..source + i])
    {
      SpliceMore(was, start * size, states, source + i);
      target[destination + i] := states[source + i];
    }
  }

  method Allocate<E>(count: nat, size: nat, zero: E) returns (layers: seq<array<E>>)
    ensures |layers| == count && NoDuplicates(layers)
    ensures forall l :: 0 <= l < count ==> fresh(layers[l]) && layers[l].Length == size
    ensures forall l :: 0 <= l < count ==> forall i :: 0 <= i < size ==> layers[l][i] == zero
  {
    layers := [];
    while |layers| < count
      invariant |layers| <= count && NoDuplicates(layers)
      invariant forall l :: 0 <= l < |layers| ==> fresh(layers[l]) && layers[l].Length == size
      invariant forall l :: 0 <= l < |layers| ==> forall i :: 0 <= i < size ==> layers[l][i] == zero
    {
      var layer := new E[size](i => zero);
      layers := layers + [layer];
    }
  }

  class KvCache<E> {
    const dims: Dims
    const keyCache: seq<array<E>>
    const valueCache: seq<array<E>>
    var currentLen: nat
    var snapshot: Snapshot

    constructor (d: Dims, zero: E)
      ensures Valid() && dims == d && fresh(keyCache) && fresh(valueCache)
      ensures Contents().len == 0 && Mirrors(Contents())
    {
      var keys := Allocate(d.nLayer, d.maxSeqLen * d.HeadSize(), zero);
      var values := Allocate(d.nLayer, d.maxSeqLen * d.HeadSize(), zero);
      dims := d;
      keyCache := keys;
      valueCache := values;
      currentLen := 0;
      snapshot := Snapshot(0, 0);
    }

    ghost predicate Valid()
      reads this
    {
      && |keyCache| == |valueCache| == dims.nLayer
      && NoDuplicates(keyCache + valueCache)
      && (forall l :: 0 <= l < dims.nLayer ==>
            keyCache[l].Length == valueCache[l].Length == dims.maxSeqLen * dims.HeadSize())
      && currentLen <= dims.maxSeqLen
    }

    ghost function Contents(): (c: Cache<E>)
      requires Valid()
      reads this, keyCache, valueCache
      ensures WellFormed(c)
    {
      Cache(dims,
            seq(dims.nLayer, l requires 0 <= l < dims.nLayer && Valid() reads this, keyCache => keyCache[l][..]),
            seq(dims.nLayer, l requires 0 <= l < dims.nLayer && Valid() reads this, valueCache => valueCache[l][..]),
            currentLen, snapshot)
    }

    lemma Apart(layer: nat)
      requires Valid() && layer < dims.nLayer
      ensures keyCache[layer] != valueCache[layer]
      ensures forall l :: 0 <= l < dims.nLayer && l != layer ==>
        keyCache[l] !in {keyCache[layer], valueCache[layer]} && valueCache[l] !in {keyCache[layer], valueCache[layer]}
    {
      var all := keyCache + valueCache;
      var n := dims.nLayer;
      assert all[layer] == keyCache[layer] && all[n + layer] == valueCache[layer];
      forall l | 0 <= l < n && l != layer
        ensures keyCache[l] !in {keyCache[layer], valueCache[layer]}
        ensures valueCache[l] !in {keyCache[layer], valueCache[layer]}
      {
        assert all[l] == keyCache[l] && all[n + l] == valueCache[l];
      }
    }

    /** Rows of keys and values, interleaved row by row. */
    method CopyToCache(layer: nat, k: seq<E>, v: seq<E>, start: nat, rows: nat)
      requires Valid() && layer < dims.nLayer && |k| == |v| == rows * dims.HeadSize()
      requires start * dims.HeadSize() + |k| <= dims.maxSeqLen * dims.HeadSize()
      modifies keyCache[layer], valueCache[layer]
      ensures keyCache[layer][..] == Splice(old(keyCache[layer][..]), start * dims.HeadSize(), k)
      ensures valueCache[layer][..] == Splice(old(valueCache[layer][..]), start * dims.HeadSize(), v)
    {
      Apart(layer);
      var size := dims.HeadSize();
      var keys, values := keyCache[layer], valueCache[layer];
      SpliceNone(keys[..], start * size, k);
      SpliceNone(values[..], start * size, v);
      for row := 0 to rows
        invariant row * size <= |k|
        invariant keys[..] == Splice(old(keys[..]), start * size, k[..row * size])
        invariant values[..] == Splice(old(values[..]), start * size, v[..row * size])
      {
        CopyRow(keys, k, start, row, rows, size, old(keys[..]));
        CopyRow(values, v, start, row, rows, size, old(values[..]));
      }
      assert k[..rows * size] == k && v[..rows * size] == v;
    }

    method WriteLayer(layer: nat, k: Tensor<E>, v: Tensor<E>)
      requires Valid() && Filled(k) && Filled(v) && Validate(dims, layer, k, v).Ok?
      requires currentLen + k.shape[0] <= dims.maxSeqLen
      requires |k.data| == |v.data| && currentLen * dims.HeadSize() + |k.data| <= dims.maxSeqLen * dims.HeadSize()
      modifies keyCache[layer], valueCache[layer]
      ensures Valid() && Contents() == Written(old(Contents()), layer, k.data, v.data)
    {
      StatesFilled(dims, layer, k, v);
      Apart(layer);
      CopyToCache(layer, k.data, v.data, currentLen, k.shape[0]);
      ghost var after := Written(old(Contents()), layer, k.data, v.data);
      assert Contents().keys == after.keys;
      assert Contents().values == after.values;
    }

    /** An accepted call gives the computed cache, a refused one leaves it alone. */
    ghost predicate Follows(was: Cache<E>, next: Result<Cache<E>, KvError>, r: Result<(), KvError>)
      reads this, keyCache, valueCache
    {
      && Valid()
      && (next.Ok? ==> r.Ok? && Contents() == next.value)
      && (next.Err? ==> r == Err(next.error) && Contents() == was)
    }

    method PrefillLayer(layer: nat, k: Tensor<E>, v: Tensor<E>) returns (r: Result<(), KvError>)
      requires Valid() && Filled(k) && Filled(v)
      modifies keyCache, valueCache
      ensures Follows(old(Contents()), Prefilled(old(Contents()), layer, k, v), r)
    {
      var valid := Validate(dims, layer, k, v);
      if valid.Err? {
        r := Err(valid.error);
      } else if currentLen + k.shape[0] > dims.maxSeqLen {
        r := Err(NoRoom);
      } else {
        StatesFilled(dims, layer, k, v);
        WritesFit(dims, currentLen, k.shape[0]);
        WriteLayer(layer, k, v);
        r := Ok(());
      }
    }

    method CompletePrefill(rows: nat) returns (r: Result<(), KvError>)
      requires Valid()
      modifies this
      ensures Follows(old(Contents()), PrefillDone(old(Contents()), rows), r)
    {
      if currentLen + rows > dims.maxSeqLen {
        r := Err(NoRoom);
      } else {
        currentLen := currentLen + rows;
        snapshot := Snapshot(currentLen, currentLen);
        r := Ok(());
      }
    }

    method AppendLayer(layer: nat, k: Tensor<E>, v: Tensor<E>) returns (r: Result<(), KvError>)
      requires Valid() && Filled(k) && Filled(v)
      modifies keyCache, valueCache
      ensures Follows(old(Contents()), Appended(old(Contents()), layer, k, v), r)
    {
      var valid := Validate(dims, layer, k, v);
      if valid.Err? {
        r := Err(valid.error);
      } else if k.shape[0] != 1 {
        r := Err(NotOneToken);
      } else if currentLen >= dims.maxSeqLen {
        r := Err(NoRoom);
      } else {
        StatesFilled(dims, layer, k, v);
        WritesFit(dims, currentLen, 1);
        WriteLayer(layer, k, v);
        r := Ok(());
      }
    }

    method CompleteDecode() returns (r: Result<(), KvError>)
      requires Valid()
      modifies this
      ensures Follows(old(Contents()), DecodeDone(old(Contents())), r)
    {
      if currentLen >= dims.maxSeqLen {
        r := Err(NoRoom);
      } else {
        currentLen := currentLen + 1;
        snapshot := Snapshot(currentLen, currentLen);
        r := Ok(());
      }
    }

    method GetLayerCache(layer: nat) returns (r: Result<(Tensor<E>, Tensor<E>), KvError>)
      requires Valid()
      ensures r == LayerRead(Contents(), layer)
    {
      if layer >= dims.nLayer {
        r := Err(NoSuchLayer);
      } else if currentLen == 0 {
        r := Ok((Tensor([], dims.Shape(0)), Tensor([], dims.Shape(0))));
      } else {
        var size := currentLen * dims.HeadSize();
        RowsFit(currentLen, dims.maxSeqLen, dims.HeadSize());
        r := Ok((Tensor(keyCache[layer][..size], dims.Shape(currentLen)),
                 Tensor(valueCache[layer][..size], dims.Shape(currentLen))));
      }
    }

    method Truncate(len: nat) returns (r: Result<(), KvError>)
      requires Valid()
      modifies this
      ensures Follows(old(Contents()), Truncated(old(Contents()), len), r)
    {
      if len > currentLen {
        r := Err(BeyondLength);
      } else {
        currentLen := len;
        r := Ok(());
      }
    }

    method Reset()
      requires Valid()
      modifies this
      ensures Valid() && Contents() == Cleared(old(Contents()))
    {
      currentLen := 0;
      snapshot := Snapshot(0, 0);
    }
  }

  // --- What the cache keeps -----------------------------------------------

  /** Where row `s`, head `h`, element `d` of a write at the current length lands. */
  lemma OffsetIsFlat(d: Dims, position: nat, head: nat, element: nat)
    ensures Flat([position, head, element], d.Shape(d.maxSeqLen))
         == position * d.HeadSize() + (head * d.headDim + element)
  {
    var shape := d.Shape(d.maxSeqLen);
    var index := [position, head, element];
    assert shape[1..] == [d.nHeadKv, d.headDim] && shape[1..][1..] == [d.headDim] && shape[1..][1..][1..] == [];
    assert index[1..] == [head, element] && index[1..][1..] == [element] && index[1..][1..][1..] == [];
    assert Product([d.headDim]) == d.headDim;
    assert Product([d.nHeadKv, d.headDim]) == d.HeadSize();
    assert Flat([element], [d.headDim]) == element;
    assert Flat([head, element], [d.nHeadKv, d.headDim]) == head * d.headDim + element;
  }

  lemma InRow(d: Dims, head: nat, element: nat)
    requires head < d.nHeadKv && element < d.headDim
    ensures head * d.headDim + element < d.HeadSize()
  {
    BlockBound(head, d.nHeadKv, d.headDim, element);
  }

  lemma SpliceElement<E>(s: seq<E>, at: nat, part: seq<E>, i: nat)
    requires at + |part| <= |s| && i < |s|
    ensures Splice(s, at, part)[i] == if at <= i < at + |part| then part[i - at] else s[i]
  {
  }

  /** Which rows an offset belongs to. */
  lemma RowOf(size: nat, len: nat, rows: nat, position: nat, inRow: nat)
    requires inRow < size
    ensures len * size <= position * size + inRow < len * size + rows * size <==> len <= position < len + rows
    ensures len <= position ==> position * size + inRow - len * size == (position - len) * size + inRow
  {
    OffsetsAgree(len, rows, size);
    if position < len {
      BlockBound(position, len, size, inRow);
    } else {
      RowsFit(len, position, size);
      OffsetsAgree(len, position - len, size);
      if position < len + rows {
        BlockBound(position, len + rows, size, inRow);
      } else {
        RowsFit(len + rows, position, size);
      }
    }
  }

  lemma RowLands<E>(size: nat, was: seq<E>, max: nat, len: nat, rows: nat, part: seq<E>, position: nat, inRow: nat)
    requires |was| == max * size && |part| == rows * size && len * size + |part| <= |was|
    requires position < max && inRow < size
    ensures position * size + inRow < |was|
    ensures if len <= position < len + rows then
        var from := (position - len) * size + inRow;
        from < |part| && Splice(was, len * size, part)[position * size + inRow] == part[from]
      else Splice(was, len * size, part)[position * size + inRow] == was[position * size + inRow]
  {
    BlockBound(position, max, size, inRow);
    RowOf(size, len, rows, position, inRow);
    SpliceElement(was, len * size, part, position * size + inRow);
  }

  /** A write of rows puts element `[s, h, e]` of the new states at
      `[len + s, h, e]` of the layer, and touches no other position. */
  lemma WriteLands<E>(d: Dims, was: seq<E>, len: nat, rows: nat, part: seq<E>, position: nat, head: nat, element: nat)
    requires |was| == d.maxSeqLen * d.HeadSize() && |part| == rows * d.HeadSize()
    requires len * d.HeadSize() + |part| <= |was|
    requires position < d.maxSeqLen && head < d.nHeadKv && element < d.headDim
    ensures var at := Flat([position, head, element], d.Shape(d.maxSeqLen));
      && at < |was|
      && (if len <= position < len + rows then
            var from := Flat([position - len, head, element], d.Shape(d.maxSeqLen));
            from < |part| && Splice(was, len * d.HeadSize(), part)[at] == part[from]
          else Splice(was, len * d.HeadSize(), part)[at] == was[at])
  {
    var size, inRow := d.HeadSize(), head * d.headDim + element;
    InRow(d, head, element);
    OffsetIsFlat(d, position, head, element);
    if len <= position {
      OffsetIsFlat(d, position - len, head, element);
    }
    RowLands(size, was, d.maxSeqLen, len, rows, part, position, inRow);
  }

  /** What a layer reads has the data its shape asks for, so both tensors can be
      made. */
  lemma ReadsAreTensors<E>(c: Cache<E>, layer: nat)
    requires WellFormed(c) && layer < c.dims.nLayer
    ensures var (k, v) := LayerRead(c, layer).value;
      NewTensor(k.data, k.shape) == Ok(k) && NewTensor(v.data, v.shape) == Ok(v)
  {
    RowsFit(c.len, c.dims.maxSeqLen, c.dims.HeadSize());
    ProductOfThree(c.len, c.dims.nHeadKv, c.dims.headDim);
  }

  /** The states of a stretch of positions for every layer, the order in which
      the layers are written, and whether they come from a decode step. */
  datatype Chunk<E> = Chunk(rows: nat, decode: bool, keys: seq<seq<E>>, values: seq<seq<E>>, order: seq<nat>)

  /** Each layer has its rows and is written; a decode step holds one token. */
  ghost predicate Suits<E>(ch: Chunk<E>, d: Dims) {
    && Sized(ch.keys, d.nLayer, ch.rows * d.HeadSize())
    && Sized(ch.values, d.nLayer, ch.rows * d.HeadSize())
    && (ch.decode ==> ch.rows == 1)
    && (forall i :: 0 <= i < |ch.order| ==> ch.order[i] < d.nLayer)
    && (forall l :: 0 <= l < d.nLayer ==> l in ch.order)
  }

  ghost predicate AllSuit<E>(chunks: seq<Chunk<E>>, d: Dims) {
    forall i :: 0 <= i < |chunks| ==> Suits(chunks[i], d)
  }

  function Write<E>(c: Cache<E>, decode: bool, layer: nat, k: Tensor<E>, v: Tensor<E>): (r: Result<Cache<E>, KvError>)
    requires WellFormed(c) && Filled(k) && Filled(v)
    ensures r.Ok? ==> WellFormed(r.value) && r.value.dims == c.dims
  {
    if decode then Appended(c, layer, k, v) else Prefilled(c, layer, k, v)
  }

  function States<E>(data: seq<E>, rows: nat, d: Dims): (t: Tensor<E>)
    requires |data| == rows * d.HeadSize()
    ensures Filled(t)
  {
    ProductOfThree(rows, d.nHeadKv, d.headDim);
    Tensor(data, d.Shape(rows))
  }

  /** The layers of a chunk, one after the other. */
  ghost function WriteLayers<E>(c: Cache<E>, ch: Chunk<E>, done: nat): (r: Result<Cache<E>, KvError>)
    requires WellFormed(c) && Suits(ch, c.dims) && done <= |ch.order|
    ensures r.Ok? ==> WellFormed(r.value) && r.value.dims == c.dims
    decreases |ch.order| - done
  {
    if done == |ch.order| then Ok(c)
    else
      var layer := ch.order[done];
      var next := Write(c, ch.decode, layer,
                        States(ch.keys[layer], ch.rows, c.dims), States(ch.values[layer], ch.rows, c.dims));
      if next.Err? then next else WriteLayers(next.value, ch, done + 1)
  }

  ghost function Feed<E>(c: Cache<E>, ch: Chunk<E>): (r: Result<Cache<E>, KvError>)
    requires WellFormed(c) && Suits(ch, c.dims)
    ensures r.Ok? ==> WellFormed(r.value) && r.value.dims == c.dims
  {
    var written := WriteLayers(c, ch, 0);
    if written.Err? then written
    else if ch.decode then DecodeDone(written.value)
    else PrefillDone(written.value, ch.rows)
  }

  ghost function FeedAll<E>(c: Cache<E>, chunks: seq<Chunk<E>>): (r: Result<Cache<E>, KvError>)
    requires WellFormed(c) && AllSuit(chunks, c.dims)
    ensures r.Ok? ==> WellFormed(r.value) && r.value.dims == c.dims
    decreases |chunks|
  {
    if chunks == [] then Ok(c)
    else
      var next := Feed(c, chunks[0]);
      if next.Err? then next
      else FeedAll(next.value, chunks[1..])
  }

  /** The rows of every chunk together, and their data for one layer. */
  function TotalRows<E>(chunks: seq<Chunk<E>>): nat {
    if chunks == [] then 0 else chunks[0].rows + TotalRows(chunks[1..])
  }

  ghost function AllKeys<E>(chunks: seq<Chunk<E>>, d: Dims, layer: nat): (r: seq<E>)
    requires AllSuit(chunks, d) && layer < d.nLayer
  {
    if chunks == [] then [] else chunks[0].keys[layer] + AllKeys(chunks[1..], d, layer)
  }

  ghost function AllValues<E>(chunks: seq<Chunk<E>>, d: Dims, layer: nat): (r: seq<E>)
    requires AllSuit(chunks, d) && layer < d.nLayer
  {
    if chunks == [] then [] else chunks[0].values[layer] + AllValues(chunks[1..], d, layer)
  }

  /** The layer's array after a chunk, with `done` of its writes made. */
  ghost predicate LayersHold<E>(c: Cache<E>, ch: Chunk<E>, now: Cache<E>, done: nat)
    requires WellFormed(c) && Suits(ch, c.dims) && WellFormed(now) && now.dims == c.dims
    requires c.len + ch.rows <= c.dims.maxSeqLen && done <= |ch.order|
  {
    WritesFit(c.dims, c.len, ch.rows);
    var at := c.len * c.dims.HeadSize();
    && now.len == c.len && now.snapshot == c.snapshot
    && forall l :: 0 <= l < c.dims.nLayer ==>
      && now.keys[l] == (if l in ch.order[..done] then Splice(c.keys[l], at, ch.keys[l]) else c.keys[l])
      && now.values[l] == (if l in ch.order[..done] then Splice(c.values[l], at, ch.values[l]) else c.values[l])
  }

  lemma SpliceAgain<E>(s: seq<E>, at: nat, part: seq<E>)
    requires at + |part| <= |s|
    ensures Splice(Splice(s, at, part), at, part) == Splice(s, at, part)
  {
  }

  /** One more layer written. */
  lemma LayerWritten<E>(c: Cache<E>, ch: Chunk<E>, now: Cache<E>, done: nat)
    requires WellFormed(c) && Suits(ch, c.dims) && WellFormed(now) && now.dims == c.dims
    requires c.len + ch.rows <= c.dims.maxSeqLen && done < |ch.order|
    requires LayersHold(c, ch, now, done)
    ensures var layer := ch.order[done];
            var next := Write(now, ch.decode, layer, States(ch.keys[layer], ch.rows, c.dims),
                              States(ch.values[layer], ch.rows, c.dims));
            next.Ok? && next.value.dims == c.dims && LayersHold(c, ch, next.value, done + 1)
  {
    var layer, at := ch.order[done], c.len * c.dims.HeadSize();
    var k, v := States(ch.keys[layer], ch.rows, c.dims), States(ch.values[layer], ch.rows, c.dims);
    WritesFit(c.dims, c.len, ch.rows);
    var next := Write(now, ch.decode, layer, k, v);
    assert next.Ok? && next.value == Written(now, layer, k.data, v.data);
    SpliceAgain(c.keys[layer], at, ch.keys[layer]);
    SpliceAgain(c.values[layer], at, ch.values[layer]);
    assert ch.order[..done + 1] == ch.order[..done] + [layer];
  }

  lemma {:induction false} LayersWritten<E>(c: Cache<E>, ch: Chunk<E>, now: Cache<E>, done: nat)
    requires WellFormed(c) && Suits(ch, c.dims) && WellFormed(now) && now.dims == c.dims
    requires c.len + ch.rows <= c.dims.maxSeqLen && done <= |ch.order|
    requires LayersHold(c, ch, now, done)
    ensures var r := WriteLayers(now, ch, done); r.Ok? && LayersHold(c, ch, r.value, |ch.order|)
    decreases |ch.order| - done
  {
    if done < |ch.order| {
      var layer := ch.order[done];
      LayerWritten(c, ch, now, done);
      var next := Write(now, ch.decode, layer, States(ch.keys[layer], ch.rows, c.dims),
                        States(ch.values[layer], ch.rows, c.dims));
      LayersWritten(c, ch, next.value, done + 1);
    }
  }

  lemma WritesNeedRoom<E>(c: Cache<E>, ch: Chunk<E>)
    requires WellFormed(c) && Suits(ch, c.dims) && c.len + ch.rows > c.dims.maxSeqLen
    ensures Feed(c, ch).Err?
  {
    if ch.order != [] {
      var layer := ch.order[0];
      var k, v := States(ch.keys[layer], ch.rows, c.dims), States(ch.values[layer], ch.rows, c.dims);
      assert Write(c, ch.decode, layer, k, v).Err?;
    }
  }

  lemma SpliceCommits<E>(s: seq<E>, at: nat, part: seq<E>)
    requires at + |part| <= |s|
    ensures Splice(s, at, part)[..at + |part|] == s[..at] + part
  {
  }

  lemma LayerLands<E>(c: Cache<E>, end: Cache<E>, rows: nat, was: seq<E>, now: seq<E>, part: seq<E>)
    requires c.len + rows <= c.dims.maxSeqLen && end.dims == c.dims && end.len == c.len + rows
    requires |was| == |now| == c.dims.maxSeqLen * c.dims.HeadSize() && |part| == rows * c.dims.HeadSize()
    requires c.len * c.dims.HeadSize() + |part| <= |was| && now == Splice(was, c.len * c.dims.HeadSize(), part)
    ensures Committed(end, now) == Committed(c, was) + part
  {
    OffsetsAgree(c.len, rows, c.dims.HeadSize());
    SpliceCommits(was, c.len * c.dims.HeadSize(), part);
  }

  /** The committed data of every layer grow by the rows of the chunk. */
  lemma ChunkLands<E>(c: Cache<E>, ch: Chunk<E>)
    requires WellFormed(c) && Suits(ch, c.dims) && c.len + ch.rows <= c.dims.maxSeqLen
    ensures Feed(c, ch).Ok? && Feed(c, ch).value.len == c.len + ch.rows && Mirrors(Feed(c, ch).value)
    ensures forall l :: 0 <= l < c.dims.nLayer ==>
      && Committed(Feed(c, ch).value, Feed(c, ch).value.keys[l]) == Committed(c, c.keys[l]) + ch.keys[l]
      && Committed(Feed(c, ch).value, Feed(c, ch).value.values[l]) == Committed(c, c.values[l]) + ch.values[l]
  {
    WritesFit(c.dims, c.len, ch.rows);
    LayersWritten(c, ch, c, 0);
    assert ch.order[..|ch.order|] == ch.order;
    var written := WriteLayers(c, ch, 0).value;
    var end := Feed(c, ch).value;
    assert end == Advance(written, ch.rows);
    forall l | 0 <= l < c.dims.nLayer
      ensures Committed(end, end.keys[l]) == Committed(c, c.keys[l]) + ch.keys[l]
      ensures Committed(end, end.values[l]) == Committed(c, c.values[l]) + ch.values[l]
    {
      LayerLands(c, end, ch.rows, c.keys[l], end.keys[l], ch.keys[l]);
      LayerLands(c, end, ch.rows, c.values[l], end.values[l], ch.values[l]);
    }
  }

  /** Any way of cutting positions into prefill chunks and decode steps succeeds
      exactly when all of them fit, and leaves every layer holding what it held
      followed by the rows of the chunks in order. */
  lemma {:induction false} ChunksLand<E>(c: Cache<E>, chunks: seq<Chunk<E>>)
    requires WellFormed(c) && AllSuit(chunks, c.dims)
    ensures FeedAll(c, chunks).Ok? <==> c.len + TotalRows(chunks) <= c.dims.maxSeqLen
    ensures FeedAll(c, chunks).Ok? ==>
      var end := FeedAll(c, chunks).value;
      && end.len == c.len + TotalRows(chunks)
      && forall l :: 0 <= l < c.dims.nLayer ==>
        && Committed(end, end.keys[l]) == Committed(c, c.keys[l]) + AllKeys(chunks, c.dims, l)
        && Committed(end, end.values[l]) == Committed(c, c.values[l]) + AllValues(chunks, c.dims, l)
    decreases |chunks|
  {
    if chunks == [] {
      return;
    }
    var ch, rest := chunks[0], chunks[1..];
    if c.len + ch.rows > c.dims.maxSeqLen {
      WritesNeedRoom(c, ch);
      return;
    }
    ChunkLands(c, ch);
    var next := Feed(c, ch).value;
    ChunksLand(next, rest);
    if FeedAll(next, rest).Ok? {
      forall l | 0 <= l < c.dims.nLayer
        ensures Committed(next, next.keys[l]) + AllKeys(rest, c.dims, l)
             == Committed(c, c.keys[l]) + AllKeys(chunks, c.dims, l)
        ensures Committed(next, next.values[l]) + AllValues(rest, c.dims, l)
             == Committed(c, c.values[l]) + AllValues(chunks, c.dims, l)
      {
        AppendAssociates(Committed(c, c.keys[l]), ch.keys[l], AllKeys(rest, c.dims, l));
        AppendAssociates(Committed(c, c.values[l]), ch.values[l], AllValues(rest, c.dims, l));
      }
    }
  }

  lemma ReadsAlike<E>(x: Cache<E>, y: Cache<E>, layer: nat)
    requires WellFormed(x) && WellFormed(y) && x.dims == y.dims && x.len == y.len && layer < x.dims.nLayer
    requires Committed(x, x.keys[layer]) == Committed(y, y.keys[layer])
    requires Committed(x, x.values[layer]) == Committed(y, y.values[layer])
    ensures LayerRead(x, layer) == LayerRead(y, layer)
  {
  }

  /** What a layer holds after the chunks: what it held and then their rows. */
  lemma LayerHolds<E>(c: Cache<E>, chunks: seq<Chunk<E>>, layer: nat)
    requires WellFormed(c) && AllSuit(chunks, c.dims) && layer < c.dims.nLayer && FeedAll(c, chunks).Ok?
    ensures var end := FeedAll(c, chunks).value;
      && end.len == c.len + TotalRows(chunks)
      && Committed(end, end.keys[layer]) == Committed(c, c.keys[layer]) + AllKeys(chunks, c.dims, layer)
      && Committed(end, end.values[layer]) == Committed(c, c.values[layer]) + AllValues(chunks, c.dims, layer)
  {
    ChunksLand(c, chunks);
  }

  /** Two ways of cutting the same positions read back alike, whatever the
      order in which each chunk visits the layers. */
  lemma SplitsAgree<E>(c: Cache<E>, a: seq<Chunk<E>>, b: seq<Chunk<E>>, layer: nat)
    requires WellFormed(c) && AllSuit(a, c.dims) && AllSuit(b, c.dims) && TotalRows(a) == TotalRows(b)
    requires layer < c.dims.nLayer
    requires AllKeys(a, c.dims, layer) == AllKeys(b, c.dims, layer) && AllValues(a, c.dims, layer) == AllValues(b, c.dims, layer)
    ensures FeedAll(c, a).Ok? <==> FeedAll(c, b).Ok?
    ensures FeedAll(c, a).Ok? ==> LayerRead(FeedAll(c, a).value, layer) == LayerRead(FeedAll(c, b).value, layer)
  {
    ChunksFit(c, a);
    ChunksFit(c, b);
    if FeedAll(c, a).Ok? {
      LayerHolds(c, a, layer);
      LayerHolds(c, b, layer);
      ReadsAlike(FeedAll(c, a).value, FeedAll(c, b).value, layer);
    }
  }

  lemma ChunksFit<E>(c: Cache<E>, chunks: seq<Chunk<E>>)
    requires WellFormed(c) && AllSuit(chunks, c.dims)
    ensures FeedAll(c, chunks).Ok? <==> c.len + TotalRows(chunks) <= c.dims.maxSeqLen
  {
    ChunksLand(c, chunks);
  }

  // --- Any run of the cache -----------------------------------------------

  datatype Op<E> =
    | PrefillOf(layer: nat, k: Tensor<E>, v: Tensor<E>)
    | AppendOf(layer: nat, k: Tensor<E>, v: Tensor<E>)
    | EndPrefill(rows: nat)
    | EndDecode
    | Cut(len: nat)
    | Clear

  predicate Sound<E>(op: Op<E>) {
    (op.PrefillOf? || op.AppendOf?) ==> Filled(op.k) && Filled(op.v)
  }

  predicate AllSound<E>(ops: seq<Op<E>>) {
    forall i :: 0 <= i < |ops| ==> Sound(ops[i])
  }

  /** A refused call changes nothing. */
  function Else<E>(r: Result<Cache<E>, KvError>, c: Cache<E>): Cache<E> {
    if r.Ok? then r.value else c
  }

  function Apply<E>(c: Cache<E>, op: Op<E>): (r: Cache<E>)
    requires WellFormed(c) && Sound(op)
    ensures WellFormed(r) && r.dims == c.dims
  {
    match op
    case PrefillOf(layer, k, v) => Else(Prefilled(c, layer, k, v), c)
    case AppendOf(layer, k, v) => Else(Appended(c, layer, k, v), c)
    case EndPrefill(rows) => Else(PrefillDone(c, rows), c)
    case EndDecode => Else(DecodeDone(c), c)
    case Cut(len) => Else(Truncated(c, len), c)
    case Clear => Cleared(c)
  }

  function ApplyAll<E>(c: Cache<E>, ops: seq<Op<E>>): (r: Cache<E>)
    requires WellFormed(c) && AllSound(ops)
    ensures WellFormed(r) && r.dims == c.dims
    decreases |ops|
  {
    if ops == [] then c else ApplyAll(Apply(c, ops[0]), ops[1..])
  }

  /** No call takes the cache below `low` positions. */
  predicate StaysAbove<E>(ops: seq<Op<E>>, low: nat) {
    forall i :: 0 <= i < |ops| ==> Sound(ops[i]) && !ops[i].Clear? && (ops[i].Cut? ==> low <= ops[i].len)
  }

  lemma PrefixStays<E>(s: seq<E>, at: nat, part: seq<E>, low: nat)
    requires at + |part| <= |s| && low <= at
    ensures Splice(s, at, part)[..low] == s[..low]
  {
  }

  lemma WriteKeeps<E>(c: Cache<E>, layer: nat, k: seq<E>, v: seq<E>, low: nat)
    requires WellFormed(c) && layer < c.dims.nLayer && |k| == |v| && low <= c.len
    requires c.len * c.dims.HeadSize() + |k| <= c.dims.maxSeqLen * c.dims.HeadSize()
    ensures var size := low * c.dims.HeadSize(); var next := Written(c, layer, k, v);
      && size <= c.dims.maxSeqLen * c.dims.HeadSize()
      && next.keys[layer][..size] == c.keys[layer][..size] && next.values[layer][..size] == c.values[layer][..size]
  {
    RowsFit(low, c.len, c.dims.HeadSize());
    PrefixStays(c.keys[layer], c.len * c.dims.HeadSize(), k, low * c.dims.HeadSize());
    PrefixStays(c.values[layer], c.len * c.dims.HeadSize(), v, low * c.dims.HeadSize());
  }

  lemma StepKeeps<E>(c: Cache<E>, op: Op<E>, low: nat, layer: nat)
    requires WellFormed(c) && StaysAbove([op], low) && low <= c.len && layer < c.dims.nLayer
    requires low * c.dims.HeadSize() <= c.dims.maxSeqLen * c.dims.HeadSize()
    ensures Sound(op) && low <= Apply(c, op).len
    ensures var size := low * c.dims.HeadSize();
      && Apply(c, op).keys[layer][..size] == c.keys[layer][..size]
      && Apply(c, op).values[layer][..size] == c.values[layer][..size]
  {
    assert [op][0] == op;
    var d := c.dims;
    if (op.PrefillOf? || op.AppendOf?) && op.layer == layer && Apply(c, op) != c {
      var next := Apply(c, op);
      StatesFilled(d, layer, op.k, op.v);
      WritesFit(d, c.len, op.k.shape[0]);
      assert next == Written(c, layer, op.k.data, op.v.data);
      WriteKeeps(c, layer, op.k.data, op.v.data, low);
    }
  }

  /** No run of calls that stays above `low` positions changes any of them, in
      any layer, whether its calls are accepted or refused. */
  lemma {:induction false} CommittedStays<E>(c: Cache<E>, ops: seq<Op<E>>, low: nat, layer: nat)
    requires WellFormed(c) && StaysAbove(ops, low) && low <= c.len && layer < c.dims.nLayer
    ensures low * c.dims.HeadSize() <= c.dims.maxSeqLen * c.dims.HeadSize()
    ensures var size := low * c.dims.HeadSize();
      && ApplyAll(c, ops).keys[layer][..size] == c.keys[layer][..size]
      && ApplyAll(c, ops).values[layer][..size] == c.values[layer][..size]
    decreases |ops|
  {
    RowsFit(low, c.dims.maxSeqLen, c.dims.HeadSize());
    if ops != [] {
      StepKeeps(c, ops[0], low, layer);
      CommittedStays(Apply(c, ops[0]), ops[1..], low, layer);
    }
  }

  // --- The snapshot -------------------------------------------------------

  lemma {:induction false} ApplyLast<E>(c: Cache<E>, ops: seq<Op<E>>, op: Op<E>)
    requires WellFormed(c) && AllSound(ops) && Sound(op)
    ensures ApplyAll(c, ops + [op]) == Apply(ApplyAll(c, ops), op)
    decreases |ops|
  {
    if ops == [] {
      assert [] + [op] == [op] && [op][1..] == [];
    } else {
      assert (ops + [op])[1..] == ops[1..] + [op];
      ApplyLast(Apply(c, ops[0]), ops[1..], op);
    }
  }

  /** The call cuts the cache to fewer positions. */
  predicate Shrinks<E>(c: Cache<E>, op: Op<E>) {
    op.Cut? && op.len < c.len
  }

  /** The call sets length and snapshot together. */
  predicate Settles<E>(c: Cache<E>, op: Op<E>) {
    || op.Clear?
    || (op.EndPrefill? && c.len + op.rows <= c.dims.maxSeqLen)
    || (op.EndDecode? && c.len < c.dims.maxSeqLen)
  }

  /** Of the calls that move the length, the last was a cut to fewer positions. */
  predicate LeftBehind<E>(c: Cache<E>, ops: seq<Op<E>>)
    requires WellFormed(c) && AllSound(ops)
  {
    ops != [] &&
    var before, op := ApplyAll(c, ops[..|ops| - 1]), ops[|ops| - 1];
    if Settles(before, op) then false
    else Shrinks(before, op) || LeftBehind(c, ops[..|ops| - 1])
  }

  /** Over every run of calls on a cache whose snapshot mirrors its length, as a
      new one's does, it mirrors it at the end if and only if no cut to fewer
      positions was the last to move the length. */
  lemma {:induction false} SnapshotMirrors<E>(c: Cache<E>, ops: seq<Op<E>>)
    requires WellFormed(c) && AllSound(ops) && Mirrors(c)
    ensures var end := ApplyAll(c, ops);
      && end.len <= end.snapshot.len && (Mirrors(end) <==> end.len == end.snapshot.len)
      && (Mirrors(end) <==> !LeftBehind(c, ops))
  {
    if ops != [] {
      var init, op := ops[..|ops| - 1], ops[|ops| - 1];
      assert ops == init + [op];
      SnapshotMirrors(c, init);
      ApplyLast(c, init, op);
      CallMirrors(ApplyAll(c, init), op);
    }
  }

  lemma CallMirrors<E>(c: Cache<E>, op: Op<E>)
    requires WellFormed(c) && Sound(op)
    ensures var next := Apply(c, op);
      if Settles(c, op) then Mirrors(next)
      else next.snapshot == c.snapshot && if Shrinks(c, op) then next.len < c.len else next.len == c.len
  {
  }

  /** The call lowers the version: a reset, or an accepted completion that ends
      short of it, which takes a cut beforehand. */
  predicate Lowers<E>(c: Cache<E>, op: Op<E>) {
    match op
    case Clear => c.snapshot.version > 0
    case EndPrefill(rows) => c.len + rows <= c.dims.maxSeqLen && c.len + rows < c.snapshot.version
    case EndDecode => c.len < c.dims.maxSeqLen && c.len + 1 < c.snapshot.version
    case _ => false
  }

  lemma VersionFalls<E>(c: Cache<E>, op: Op<E>)
    requires WellFormed(c) && Sound(op)
    ensures Apply(c, op).snapshot.version < c.snapshot.version <==> Lowers(c, op)
  {
  }

  ghost function VersionAt<E>(c: Cache<E>, ops: seq<Op<E>>, i: nat): nat
    requires WellFormed(c) && AllSound(ops) && i <= |ops|
  {
    ApplyAll(c, ops[..i]).snapshot.version
  }

  ghost predicate NeverFalls<E>(c: Cache<E>, ops: seq<Op<E>>)
    requires WellFormed(c) && AllSound(ops)
  {
    forall i, j :: 0 <= i <= j <= |ops| ==> VersionAt(c, ops, i) <= VersionAt(c, ops, j)
  }

  ghost predicate LowersAt<E>(c: Cache<E>, ops: seq<Op<E>>, i: nat)
    requires WellFormed(c) && AllSound(ops)
  {
    i < |ops| && Lowers(ApplyAll(c, ops[..i]), ops[i])
  }

  lemma NextVersion<E>(c: Cache<E>, ops: seq<Op<E>>, i: nat)
    requires WellFormed(c) && AllSound(ops) && i < |ops|
    ensures VersionAt(c, ops, i + 1) < VersionAt(c, ops, i) <==> LowersAt(c, ops, i)
  {
    assert ops[..i + 1] == ops[..i] + [ops[i]];
    ApplyLast(c, ops[..i], ops[i]);
    VersionFalls(ApplyAll(c, ops[..i]), ops[i]);
  }

  lemma {:induction false} VersionClimbs<E>(c: Cache<E>, ops: seq<Op<E>>, i: nat, j: nat)
    requires WellFormed(c) && AllSound(ops) && i <= j <= |ops| && forall k: nat :: !LowersAt(c, ops, k)
    ensures VersionAt(c, ops, i) <= VersionAt(c, ops, j)
    decreases j
  {
    if i < j {
      VersionClimbs(c, ops, i, j - 1);
      NextVersion(c, ops, j - 1);
    }
  }

  /** Over every run of calls, from any cache, the version is monotonic if and only
      if no call of the run meets its lowering condition. */
  lemma VersionIsMonotonic<E>(c: Cache<E>, ops: seq<Op<E>>)
    requires WellFormed(c) && AllSound(ops)
    ensures NeverFalls(c, ops) <==> forall i: nat :: !LowersAt(c, ops, i)
  {
    if forall i: nat :: !LowersAt(c, ops, i) {
      forall i, j | 0 <= i <= j <= |ops|
        ensures VersionAt(c, ops, i) <= VersionAt(c, ops, j)
      {
        VersionClimbs(c, ops, i, j);
      }
    }
    if i: nat :| LowersAt(c, ops, i) {
      NextVersion(c, ops, i);
      assert VersionAt(c, ops, i + 1) < VersionAt(c, ops, i);
    }
  }

  /** Runs without cuts and resets are monotonic from a mirrored start. */
  lemma {:induction false} VersionRises<E>(c: Cache<E>, ops: seq<Op<E>>)
    requires WellFormed(c) && AllSound(ops) && Mirrors(c)
    requires forall i :: 0 <= i < |ops| ==> !ops[i].Cut? && !ops[i].Clear?
    ensures NeverFalls(c, ops)
  {
    forall i: nat
      ensures !LowersAt(c, ops, i)
    {
      if i < |ops| {
        SnapshotMirrors(c, ops[..i]);
        NeverBehind(c, ops[..i]);
      }
    }
    VersionIsMonotonic(c, ops);
  }

  lemma {:induction false} NeverBehind<E>(c: Cache<E>, ops: seq<Op<E>>)
    requires WellFormed(c) && AllSound(ops) && forall i :: 0 <= i < |ops| ==> !ops[i].Cut? && !ops[i].Clear?
    ensures !LeftBehind(c, ops)
  {
    if ops != [] {
      NeverBehind(c, ops[..|ops| - 1]);
    }
  }

  /** Positions completed, cut and completed again: the version falls from `n` to
      `m + 1` without any reset. */
  lemma VersionFallsAfterCut<E>(c: Cache<E>, n: nat, m: nat)
    requires WellFormed(c) && c.len == 0 && m + 1 < n <= c.dims.maxSeqLen
    ensures var ops := [EndPrefill(n), Cut(m), EndDecode];
      && AllSound<E>(ops) && VersionAt(c, ops, 1) == n && VersionAt(c, ops, 3) == m + 1
      && !NeverFalls(c, ops)
  {
    var ops: seq<Op<E>> := [EndPrefill(n), Cut(m), EndDecode];
    OneCall(c, EndPrefill(n));
    assert ops[..1] == [EndPrefill(n)] && ops[..2] == ops[..1] + [Cut(m)] && ops[..3] == ops[..2] + [EndDecode];
    ApplyLast(c, ops[..1], Cut(m));
    ApplyLast(c, ops[..2], EndDecode);
    assert VersionAt(c, ops, 3) < VersionAt(c, ops, 1);
  }

  /** Positions completed and reset: the version falls to zero. */
  lemma VersionFallsOnReset<E>(c: Cache<E>, n: nat)
    requires WellFormed(c) && c.len == 0 && 0 < n <= c.dims.maxSeqLen
    ensures var ops := [EndPrefill(n), Clear];
      && AllSound<E>(ops) && VersionAt(c, ops, 1) == n && VersionAt(c, ops, 2) == 0
      && !NeverFalls(c, ops)
  {
    var ops: seq<Op<E>> := [EndPrefill(n), Clear];
    OneCall(c, EndPrefill(n));
    assert ops[..1] == [EndPrefill(n)] && ops[..2] == ops[..1] + [Clear];
    ApplyLast(c, ops[..1], Clear);
    assert VersionAt(c, ops, 2) < VersionAt(c, ops, 1);
  }

  lemma OneCall<E>(c: Cache<E>, op: Op<E>)
    requires WellFormed(c) && Sound(op)
    ensures ApplyAll(c, [op]) == Apply(c, op)
  {
    assert [op][1..] == [];
  }
}
