/**
 * Host-side guards and kernel dispatch of the paged-attention custom op
 * (mistralrs-paged-attn/src/backend/paged_attention.rs).
 *
 * Every entry point is a straight sequence of checks with an early error
 * return, followed by exactly one call into an opaque kernel.  The model
 * returns the arguments of that kernel call on success (`AttentionLaunch`,
 * `CacheWrite`) and an `AttnError` otherwise, so an error is by construction
 * returned before any kernel runs.  Tensors are reduced to what the guards
 * look at: element type, dimensions and storage device.
 */
module PagedAttention {
  import opened Results

  /** Element types of the tensor library. */
  datatype DType = U8 | U32 | I16 | I32 | I64 | BF16 | F16 | F32 | F64 | F8E4M3

  datatype Device = Cpu | Cuda

  /** A tensor as the guards see it; its rank is `|dims|` (a scalar has no dims). */
  datatype Tensor = Tensor(dtype: DType, dims: seq<nat>, device: Device)

  /** The tensor an error is about. */
  datatype Operand =
    | Query | Key | Value | KeyCache | ValueCache
    | BlockTables | ContextLens | SlotMapping | KeyScale | ValueScale

  /** The explicit rank guards. */
  datatype RankCheck = QueryRank3 | KeyCacheRank5 | ValueCacheRank4 | KeyValueRank3

  /** The shape-consistency guards. */
  datatype ShapeCheck =
    | BlockTablesRows     // block_tables must have num_seqs rows
    | KeyCacheHeadSplit   // key_cache dims 1 and 2 against num_heads and head_size / x
    | CacheShapes         // value_cache == (num_blocks, heads, head_size, block_size)
    | ContextLensLength   // context_lens has num_seqs entries
    | KeyValueShapes      // key and value shapes agree
    | SlotMappingLength   // slot_mapping has num_tokens entries

  /** Integer divisions by zero that abort the process instead of returning an error. */
  datatype PanicCause = HeadSizeDividedByZeroX | PartitionSizeModuloZeroBlockSize

  datatype AttnError =
    | UnsupportedDType(dtype: DType)
    | UnsupportedPair(input: DType, cache: DType)
    | NotCudaTensor(operand: Operand)
    | NonScalarScale(operand: Operand)
    | WrongRank(rankCheck: RankCheck)
    | SliceDTypeMismatch(operand: Operand, expected: DType)
    | UnexpectedRank(operand: Operand, rank: nat)
    | UnsupportedHeadSize(headSize: nat)
    | ShapeMismatch(check: ShapeCheck)
    | NoCpuSupport
    | Panic(cause: PanicCause)

  // ---------------------------------------------------------------------
  // Dtype codes passed to the kernels
  // ---------------------------------------------------------------------

  /** The wide floating formats a query or a new key/value may have. */
  predicate IsWideFloat(d: DType) {
    d == F16 || d == BF16 || d == F32
  }

  /** How a kernel reads the `internal_type` tag back. */
  function WideFloatOfCode(code: int): DType {
    if code == 0 then F16 else if code == 1 then BF16 else F32
  }

  /** The `internal_type` tag of a query or key dtype. */
  function InputTypeCode(d: DType): (r: Result<int, AttnError>)
    ensures r.Ok? <==> IsWideFloat(d)
    ensures r.Ok? ==> 0 <= r.value <= 2 && WideFloatOfCode(r.value) == d
    ensures r.Err? ==> r.error == UnsupportedDType(d)
  {
    match d
    case F16 => Ok(0)
    case BF16 => Ok(1)
    case F32 => Ok(2)
    case _ => Err(UnsupportedDType(d))
  }

  /** The `cache_type` tag of a cache dtype: 0 for a wide cache, 1 for an 8-bit float cache. */
  function CacheTypeCode(d: DType): (r: Result<int, AttnError>)
    ensures r.Ok? <==> IsWideFloat(d) || d == F8E4M3
    ensures r.Ok? ==> (r.value == 0 || r.value == 1) && (r.value == 1 <==> d == F8E4M3)
    ensures r.Err? ==> r.error == UnsupportedDType(d)
  {
    match d
    case F16 | BF16 | F32 => Ok(0)
    case F8E4M3 => Ok(1)
    case _ => Err(UnsupportedDType(d))
  }

  /** The supported (input, cache) pairs: a wide format with itself or with F8E4M3. */
  predicate SupportedPair(input: DType, cache: DType) {
    IsWideFloat(input) && (cache == input || cache == F8E4M3)
  }

  const SupportedPairs: set<(DType, DType)> :=
    {(F32, F8E4M3), (F16, F8E4M3), (BF16, F8E4M3), (F32, F32), (F16, F16), (BF16, BF16)}

  lemma SupportedPairsAreExactlySix()
    ensures forall i: DType, c: DType :: SupportedPair(i, c) <==> (i, c) in SupportedPairs
    ensures |SupportedPairs| == 6
  {
    var s1 := {(F32, F8E4M3)};
    var s2 := s1 + {(F16, F8E4M3)};
    var s3 := s2 + {(BF16, F8E4M3)};
    var s4 := s3 + {(F32, F32)};
    var s5 := s4 + {(F16, F16)};
    var s6 := s5 + {(BF16, BF16)};
    assert |s2| == 2;
    assert |s3| == 3;
    assert |s4| == 4;
    assert |s5| == 5;
    assert |s6| == 6;
    assert s6 == SupportedPairs;
  }

  /** A supported pair always has both tags, so the tag guards after dispatch never fire. */
  lemma SupportedPairHasCodes(input: DType, cache: DType)
    requires SupportedPair(input, cache)
    ensures InputTypeCode(input).Ok? && CacheTypeCode(cache).Ok?
    ensures CacheTypeCode(cache).value == (if cache == F8E4M3 then 1 else 0)
  {
  }

  // ---------------------------------------------------------------------
  // Attention
  // ---------------------------------------------------------------------

  const SupportedHeadSizes: set<nat> := {64, 80, 96, 112, 128, 256}

  const PartitionSize: nat := 512

  /** The number of 512-token partitions of the longest context, rounded up. */
  function MaxNumPartitions(maxContextLen: nat): (p: nat)
    ensures p * PartitionSize >= maxContextLen
    ensures p > 0 ==> (p - 1) * PartitionSize < maxContextLen
    ensures p == 0 <==> maxContextLen == 0
  {
    (maxContextLen + PartitionSize - 1) / PartitionSize
  }

  /**
   * The single-pass test.  `&&` short-circuits, so `512 % block_size` is
   * evaluated, and panics for a zero block size, only when the first
   * conjunct holds.
   */
  function UseV1(maxNumPartitions: nat, numSeqs: nat, numHeads: nat, blockSize: nat): (r: Result<bool, AttnError>)
    ensures r.Err? <==> (maxNumPartitions == 1 || numSeqs * numHeads > 512) && blockSize == 0
    ensures r.Err? ==> r.error == Panic(PartitionSizeModuloZeroBlockSize)
    ensures r.Ok? ==> (r.value <==> (maxNumPartitions == 1 || numSeqs * numHeads > 512)
                                     && blockSize > 0 && PartitionSize % blockSize == 0)
  {
    if maxNumPartitions == 1 || numSeqs * numHeads > 512 then
      if blockSize == 0 then Err(Panic(PartitionSizeModuloZeroBlockSize))
      else Ok(PartitionSize % blockSize == 0)
    else
      Ok(false)
  }

  /** Single-pass kernel, or two-pass kernel with the shapes of its three scratch buffers. */
  datatype Kernel =
    | V1
    | V2(tmpOutShape: seq<nat>, expSumsShape: seq<nat>, maxLogitsShape: seq<nat>)

  /** The arguments the guards hand to `paged_attention_v1` / `paged_attention_v2`. */
  datatype AttentionLaunch = AttentionLaunch(
    kernel: Kernel,
    internalType: int,
    cacheType: int,
    numKvHeads: nat,
    blockSize: nat,
    maxContextLen: nat,
    numSeqs: nat,
    numHeads: nat,
    headSize: nat,
    maxNumBlocksPerSeq: nat,
    outShape: seq<nat>)

  /** The state of the `PagedAttention` op besides the query (float parameters left out). */
  datatype PagedAttentionOp = PagedAttentionOp(
    keyCache: Tensor,
    valueCache: Tensor,
    blockTables: Tensor,
    contextLens: Tensor,
    maxContextLen: nat,
    keyScale: Tensor,
    valueScale: Tensor)

  /**
   * `PagedAttention::cuda_fwd_t::<T, CacheT>`: the guards in source order, then
   * the kernel choice.  `t` and `cacheT` are the type parameters the dispatch
   * chose; the typed device views check the storage dtype against them.
   */
  function CudaFwdT(t: DType, cacheT: DType, q: Tensor, op: PagedAttentionOp): (r: Result<AttentionLaunch, AttnError>)
    ensures r.Err? ==> !r.error.UnsupportedPair?
    ensures r.Ok? ==> && q.dtype == t && op.keyCache.dtype == cacheT && op.valueCache.dtype == cacheT
                      && r.value.outShape == q.dims && |q.dims| == 3 && r.value.maxContextLen == op.maxContextLen
                      && r.value.headSize == q.dims[2] && r.value.headSize in SupportedHeadSizes
                      && InputTypeCode(t) == Ok(r.value.internalType)
                      && CacheTypeCode(cacheT) == Ok(r.value.cacheType)
  {
    var kc, vc, bt, cl, ks, vs := op.keyCache, op.valueCache, op.blockTables, op.contextLens, op.keyScale, op.valueScale;
    var internalType :- InputTypeCode(q.dtype);
    var cacheType :- CacheTypeCode(kc.dtype);
    if kc.device != Cuda then Err(NotCudaTensor(KeyCache))
    else if vc.device != Cuda then Err(NotCudaTensor(ValueCache))
    else if bt.device != Cuda then Err(NotCudaTensor(BlockTables))
    else if cl.device != Cuda then Err(NotCudaTensor(ContextLens))
    else if ks.device != Cuda then Err(NotCudaTensor(KeyScale))
    else if ks.dims != [] then Err(NonScalarScale(KeyScale))
    else if vs.device != Cuda then Err(NotCudaTensor(ValueScale))
    else if vs.dims != [] then Err(NonScalarScale(ValueScale))
    else if |q.dims| != 3 then Err(WrongRank(QueryRank3))
    else if |kc.dims| != 5 then Err(WrongRank(KeyCacheRank5))
    else if |vc.dims| != 4 then Err(WrongRank(ValueCacheRank4))
    else if q.dtype != t then Err(SliceDTypeMismatch(Query, t))
    else if kc.dtype != cacheT then Err(SliceDTypeMismatch(KeyCache, cacheT))
    else if vc.dtype != cacheT then Err(SliceDTypeMismatch(ValueCache, cacheT))
    else if cl.dtype != U32 then Err(SliceDTypeMismatch(ContextLens, U32))
    else if bt.dtype != U32 then Err(SliceDTypeMismatch(BlockTables, U32))
    else if ks.dtype != F32 then Err(SliceDTypeMismatch(KeyScale, F32))
    else if vs.dtype != F32 then Err(SliceDTypeMismatch(ValueScale, F32))
    else
      var numSeqs, numHeads, headSize := q.dims[0], q.dims[1], q.dims[2];
      if headSize !in SupportedHeadSizes then Err(UnsupportedHeadSize(headSize))
      else if |bt.dims| != 2 then Err(UnexpectedRank(BlockTables, 2))
      else if bt.dims[0] != numSeqs then Err(ShapeMismatch(BlockTablesRows))
      else
        var numBlocks, numKvHeads, headSizeKc, blockSize, x := kc.dims[0], kc.dims[1], kc.dims[2], kc.dims[3], kc.dims[4];
        if x == 0 then Err(Panic(HeadSizeDividedByZeroX))
        else if headSizeKc != headSize / x then Err(ShapeMismatch(KeyCacheHeadSplit))
        else if [numBlocks, numKvHeads, headSize, blockSize] != vc.dims then Err(ShapeMismatch(CacheShapes))
        else if |cl.dims| != 1 then Err(UnexpectedRank(ContextLens, 1))
        else if numSeqs != cl.dims[0] then Err(ShapeMismatch(ContextLensLength))
        else
          var maxNumPartitions := MaxNumPartitions(op.maxContextLen);
          var useV1 :- UseV1(maxNumPartitions, numSeqs, numHeads, blockSize);
          var kernel :=
            if useV1 then V1
            else V2([numSeqs, numHeads, maxNumPartitions, headSize],
                    [numSeqs, numHeads, maxNumPartitions],
                    [numSeqs, numHeads, maxNumPartitions]);
          Ok(AttentionLaunch(kernel, internalType, cacheType, numKvHeads, blockSize, op.maxContextLen,
                             numSeqs, numHeads, headSize, bt.dims[1], q.dims))
  }

  /** `cuda_fwd`: the six-arm dtype dispatch in front of `cuda_fwd_t`. */
  function CudaFwd(q: Tensor, op: PagedAttentionOp): (r: Result<AttentionLaunch, AttnError>)
    ensures !SupportedPair(q.dtype, op.keyCache.dtype) ==> r == Err(UnsupportedPair(q.dtype, op.keyCache.dtype))
    ensures SupportedPair(q.dtype, op.keyCache.dtype) ==> !(r.Err? && r.error.UnsupportedPair?)
    ensures r.Ok? ==> && r.value.outShape == q.dims && r.value.maxContextLen == op.maxContextLen
                      && r.value.headSize in SupportedHeadSizes
                      && InputTypeCode(q.dtype) == Ok(r.value.internalType)
                      && CacheTypeCode(op.keyCache.dtype) == Ok(r.value.cacheType)
  {
    match (q.dtype, op.keyCache.dtype)
    case (F32, F8E4M3) => CudaFwdT(F32, F8E4M3, q, op)
    case (F16, F8E4M3) => CudaFwdT(F16, F8E4M3, q, op)
    case (BF16, F8E4M3) => CudaFwdT(BF16, F8E4M3, q, op)
    case (F32, F32) => CudaFwdT(F32, F32, q, op)
    case (F16, F16) => CudaFwdT(F16, F16, q, op)
    case (BF16, BF16) => CudaFwdT(BF16, BF16, q, op)
    case (dt, cacheDt) => Err(UnsupportedPair(dt, cacheDt))
  }

  /** `cpu_fwd`: there is no CPU implementation. */
  function CpuFwd(q: Tensor, op: PagedAttentionOp): (r: Result<AttentionLaunch, AttnError>)
    ensures r == Err(NoCpuSupport)
  {
    Err(NoCpuSupport)
  }

  /** `paged_attention`: package the op and run it on the query's device. */
  function PagedAttentionForward(q: Tensor, keyCache: Tensor, valueCache: Tensor, blockTables: Tensor,
                                 contextLens: Tensor, maxContextLen: nat, keyScale: Tensor,
                                 valueScale: Tensor): (r: Result<AttentionLaunch, AttnError>)
    ensures q.device == Cpu ==> r == Err(NoCpuSupport)
    ensures r.Ok? ==> q.device == Cuda && r.value.outShape == q.dims && r.value.maxContextLen == maxContextLen
  {
    var op := PagedAttentionOp(keyCache, valueCache, blockTables, contextLens, maxContextLen, keyScale, valueScale);
    if q.device == Cpu then CpuFwd(q, op) else CudaFwd(q, op)
  }

  /** Order-free statement of everything the attention guards demand. */
  predicate AttentionAdmissible(q: Tensor, op: PagedAttentionOp) {
    var kc, vc, bt, cl, ks, vs := op.keyCache, op.valueCache, op.blockTables, op.contextLens, op.keyScale, op.valueScale;
    && SupportedPair(q.dtype, kc.dtype)
    && kc.device == Cuda && vc.device == Cuda && bt.device == Cuda && cl.device == Cuda
    && ks.device == Cuda && vs.device == Cuda
    && ks.dims == [] && vs.dims == []
    && |q.dims| == 3 && |kc.dims| == 5 && |vc.dims| == 4
    && vc.dtype == kc.dtype && cl.dtype == U32 && bt.dtype == U32 && ks.dtype == F32 && vs.dtype == F32
    && q.dims[2] in SupportedHeadSizes
    && |bt.dims| == 2 && bt.dims[0] == q.dims[0]
    && kc.dims[4] > 0 && kc.dims[2] == q.dims[2] / kc.dims[4]
    && vc.dims == [kc.dims[0], kc.dims[1], q.dims[2], kc.dims[3]]
    && cl.dims == [q.dims[0]]
    && ((MaxNumPartitions(op.maxContextLen) == 1 || q.dims[0] * q.dims[1] > 512) ==> kc.dims[3] > 0)
  }

  /** The single-pass rule over the four values it may depend on. */
  predicate UsesSinglePass(maxContextLen: nat, numSeqs: nat, numHeads: nat, blockSize: nat) {
    (MaxNumPartitions(maxContextLen) == 1 || numSeqs * numHeads > 512)
    && blockSize > 0 && PartitionSize % blockSize == 0
  }

  /** The guards reject a CUDA query exactly when the admissibility conditions fail. */
  lemma CudaFwdOkIffAdmissible(q: Tensor, op: PagedAttentionOp)
    ensures CudaFwd(q, op).Ok? <==> AttentionAdmissible(q, op)
  {
    if SupportedPair(q.dtype, op.keyCache.dtype) {
      SupportedPairHasCodes(q.dtype, op.keyCache.dtype);
      assert CudaFwd(q, op) == CudaFwdT(q.dtype, op.keyCache.dtype, q, op);
    }
  }

  /** The attention op accepts exactly the supported pairs: the dispatch rejects all others. */
  lemma CudaFwdPairRejection(q: Tensor, op: PagedAttentionOp)
    ensures CudaFwd(q, op) == Err(UnsupportedPair(q.dtype, op.keyCache.dtype))
            <==> !SupportedPair(q.dtype, op.keyCache.dtype)
  {
  }

  /** What a successful guard run launches: the kernel rule, its buffers and the output shape. */
  lemma AttentionLaunchOnSuccess(q: Tensor, op: PagedAttentionOp)
    requires CudaFwd(q, op).Ok?
    ensures var l := CudaFwd(q, op).value;
      && l.outShape == q.dims
      && |q.dims| == 3 && l.numSeqs == q.dims[0] && l.numHeads == q.dims[1] && l.headSize == q.dims[2]
      && l.headSize in SupportedHeadSizes
      && l.numKvHeads == op.keyCache.dims[1] && l.blockSize == op.keyCache.dims[3]
      && l.maxNumBlocksPerSeq == op.blockTables.dims[1]
      && l.maxContextLen == op.maxContextLen
      && InputTypeCode(q.dtype) == Ok(l.internalType)
      && CacheTypeCode(op.keyCache.dtype) == Ok(l.cacheType)
      && (l.kernel.V1? <==> UsesSinglePass(op.maxContextLen, l.numSeqs, l.numHeads, l.blockSize))
      && (l.kernel.V2? ==>
            var p := MaxNumPartitions(op.maxContextLen);
            && l.kernel.tmpOutShape == [l.numSeqs, l.numHeads, p, l.headSize]
            && l.kernel.expSumsShape == [l.numSeqs, l.numHeads, p]
            && l.kernel.maxLogitsShape == [l.numSeqs, l.numHeads, p])
  {
    CudaFwdOkIffAdmissible(q, op);
    SupportedPairHasCodes(q.dtype, op.keyCache.dtype);
    assert CudaFwd(q, op) == CudaFwdT(q.dtype, op.keyCache.dtype, q, op);
  }

  /**
   * The cache dtype does not influence the kernel choice: two ops that differ
   * only in the caches' element type (both supported) pick the same kernel.
   */
  lemma KernelChoiceIgnoresCacheDType(q: Tensor, op: PagedAttentionOp, cacheDt: DType)
    requires CudaFwd(q, op).Ok?
    requires SupportedPair(q.dtype, cacheDt)
    ensures var op' := op.(keyCache := op.keyCache.(dtype := cacheDt),
                          valueCache := op.valueCache.(dtype := cacheDt));
      && CudaFwd(q, op').Ok?
      && CudaFwd(q, op').value == CudaFwd(q, op).value.(cacheType := CacheTypeCode(cacheDt).value)
  {
    var op' := op.(keyCache := op.keyCache.(dtype := cacheDt),
                   valueCache := op.valueCache.(dtype := cacheDt));
    CudaFwdOkIffAdmissible(q, op);
    CudaFwdOkIffAdmissible(q, op');
    SupportedPairHasCodes(q.dtype, op.keyCache.dtype);
    SupportedPairHasCodes(q.dtype, cacheDt);
    assert CudaFwd(q, op) == CudaFwdT(q.dtype, op.keyCache.dtype, q, op);
    assert CudaFwd(q, op') == CudaFwdT(q.dtype, cacheDt, q, op');
  }

  /** A query on the CPU always fails, with no fallback. */
  lemma CpuQueryAlwaysFails(q: Tensor, keyCache: Tensor, valueCache: Tensor, blockTables: Tensor,
                            contextLens: Tensor, maxContextLen: nat, keyScale: Tensor, valueScale: Tensor)
    requires q.device == Cpu
    ensures PagedAttentionForward(q, keyCache, valueCache, blockTables, contextLens, maxContextLen,
                                  keyScale, valueScale) == Err(NoCpuSupport)
  {
  }

  /**
   * The guards do not check that the query heads are a multiple of the KV
   * heads: eight query heads over three KV heads pass.
   */
  lemma GroupedQueryRatioNotChecked()
    ensures var q := Tensor(F16, [1, 8, 128], Cuda);
      var op := PagedAttentionOp(Tensor(F16, [4, 3, 16, 16, 8], Cuda), Tensor(F16, [4, 3, 128, 16], Cuda),
                                 Tensor(U32, [1, 1], Cuda), Tensor(U32, [1], Cuda), 16,
                                 Tensor(F32, [], Cuda), Tensor(F32, [], Cuda));
      CudaFwd(q, op).Ok? && q.dims[1] % op.keyCache.dims[1] != 0
  {
    var q := Tensor(F16, [1, 8, 128], Cuda);
    var op := PagedAttentionOp(Tensor(F16, [4, 3, 16, 16, 8], Cuda), Tensor(F16, [4, 3, 128, 16], Cuda),
                               Tensor(U32, [1, 1], Cuda), Tensor(U32, [1], Cuda), 16,
                               Tensor(F32, [], Cuda), Tensor(F32, [], Cuda));
    assert AttentionAdmissible(q, op);
    CudaFwdOkIffAdmissible(q, op);
  }

  /** Block size 16, head size 128, eight heads, one sequence of 16 tokens: single pass. */
  lemma ShortContextUsesSinglePass()
    ensures var q := Tensor(F16, [1, 8, 128], Cuda);
      var op := PagedAttentionOp(Tensor(F16, [4, 8, 16, 16, 8], Cuda), Tensor(F16, [4, 8, 128, 16], Cuda),
                                 Tensor(U32, [1, 1], Cuda), Tensor(U32, [1], Cuda), 16,
                                 Tensor(F32, [], Cuda), Tensor(F32, [], Cuda));
      CudaFwd(q, op).Ok? && CudaFwd(q, op).value.kernel == V1 && CudaFwd(q, op).value.outShape == [1, 8, 128]
  {
    var q := Tensor(F16, [1, 8, 128], Cuda);
    var op := PagedAttentionOp(Tensor(F16, [4, 8, 16, 16, 8], Cuda), Tensor(F16, [4, 8, 128, 16], Cuda),
                               Tensor(U32, [1, 1], Cuda), Tensor(U32, [1], Cuda), 16,
                               Tensor(F32, [], Cuda), Tensor(F32, [], Cuda));
    assert AttentionAdmissible(q, op);
    AttentionLaunchOnSuccess(q, op);
  }

  /** The same configuration with a 4096-token context: eight partitions, two passes. */
  lemma LongContextUsesTwoPasses()
    ensures var q := Tensor(F16, [1, 8, 128], Cuda);
      var op := PagedAttentionOp(Tensor(F16, [256, 8, 16, 16, 8], Cuda), Tensor(F16, [256, 8, 128, 16], Cuda),
                                 Tensor(U32, [1, 256], Cuda), Tensor(U32, [1], Cuda), 4096,
                                 Tensor(F32, [], Cuda), Tensor(F32, [], Cuda));
      CudaFwd(q, op).Ok? && CudaFwd(q, op).value.kernel == V2([1, 8, 8, 128], [1, 8, 8], [1, 8, 8])
  {
    var q := Tensor(F16, [1, 8, 128], Cuda);
    var op := PagedAttentionOp(Tensor(F16, [256, 8, 16, 16, 8], Cuda), Tensor(F16, [256, 8, 128, 16], Cuda),
                               Tensor(U32, [1, 256], Cuda), Tensor(U32, [1], Cuda), 4096,
                               Tensor(F32, [], Cuda), Tensor(F32, [], Cuda));
    assert MaxNumPartitions(4096) == 8;
    assert AttentionAdmissible(q, op);
    AttentionLaunchOnSuccess(q, op);
  }

  // ---------------------------------------------------------------------
  // Cache update
  // ---------------------------------------------------------------------

  /** The arguments the guards hand to the `reshape_and_cache` kernel. */
  datatype CacheWrite = CacheWrite(
    numTokens: nat, numHeads: nat, headSize: nat, blockSize: nat, x: nat,
    internalType: int, cacheType: int)

  /** `update_cache::<T, CacheT>`: the guards in source order. */
  function UpdateCache(t: DType, cacheT: DType, key: Tensor, value: Tensor, keyCache: Tensor,
                       valueCache: Tensor, slotMapping: Tensor, keyScale: Tensor,
                       valueScale: Tensor): (r: Result<CacheWrite, AttnError>)
    ensures r.Err? ==> !r.error.UnsupportedPair?
    ensures r.Ok? ==> && key.dtype == t && value.dtype == t && keyCache.dtype == cacheT && valueCache.dtype == cacheT
                      && [r.value.numTokens, r.value.numHeads, r.value.headSize] == key.dims && value.dims == key.dims
                      && |keyCache.dims| == 5 && r.value.blockSize == keyCache.dims[3]
                      && r.value.x == keyCache.dims[4] && r.value.x > 0
                      && slotMapping.dims == [r.value.numTokens]
  {
    var internalType :- InputTypeCode(key.dtype);
    var cacheType :- CacheTypeCode(keyCache.dtype);
    if key.device != Cuda then Err(NotCudaTensor(Key))
    else if value.device != Cuda then Err(NotCudaTensor(Value))
    else if keyCache.device != Cuda then Err(NotCudaTensor(KeyCache))
    else if valueCache.device != Cuda then Err(NotCudaTensor(ValueCache))
    else if slotMapping.device != Cuda then Err(NotCudaTensor(SlotMapping))
    else if keyScale.device != Cuda then Err(NotCudaTensor(KeyScale))
    else if keyScale.dims != [] then Err(NonScalarScale(KeyScale))
    else if valueScale.device != Cuda then Err(NotCudaTensor(ValueScale))
    else if valueScale.dims != [] then Err(NonScalarScale(ValueScale))
    else if |key.dims| != 3 || |value.dims| != 3 then Err(WrongRank(KeyValueRank3))
    else if |keyCache.dims| != 5 then Err(WrongRank(KeyCacheRank5))
    else if |valueCache.dims| != 4 then Err(WrongRank(ValueCacheRank4))
    else if key.dtype != t then Err(SliceDTypeMismatch(Key, t))
    else if value.dtype != t then Err(SliceDTypeMismatch(Value, t))
    else if keyCache.dtype != cacheT then Err(SliceDTypeMismatch(KeyCache, cacheT))
    else if valueCache.dtype != cacheT then Err(SliceDTypeMismatch(ValueCache, cacheT))
    else if slotMapping.dtype != I64 then Err(SliceDTypeMismatch(SlotMapping, I64))
    else if keyScale.dtype != F32 then Err(SliceDTypeMismatch(KeyScale, F32))
    else if valueScale.dtype != F32 then Err(SliceDTypeMismatch(ValueScale, F32))
    else
      var numTokens, numHeads, headSize := key.dims[0], key.dims[1], key.dims[2];
      if [numTokens, numHeads, headSize] != value.dims then Err(ShapeMismatch(KeyValueShapes))
      else
        var numBlocks, numHeadsKc, headSizeKc, blockSize, x :=
          keyCache.dims[0], keyCache.dims[1], keyCache.dims[2], keyCache.dims[3], keyCache.dims[4];
        // `||` short-circuits: the division runs only when the head counts agree
        if numHeadsKc != numHeads then Err(ShapeMismatch(KeyCacheHeadSplit))
        else if x == 0 then Err(Panic(HeadSizeDividedByZeroX))
        else if headSizeKc != headSize / x then Err(ShapeMismatch(KeyCacheHeadSplit))
        else if [numBlocks, numHeads, headSize, blockSize] != valueCache.dims then Err(ShapeMismatch(CacheShapes))
        else if |slotMapping.dims| != 1 then Err(UnexpectedRank(SlotMapping, 1))
        else if numTokens != slotMapping.dims[0] then Err(ShapeMismatch(SlotMappingLength))
        else Ok(CacheWrite(numTokens, numHeads, headSize, blockSize, x, internalType, cacheType))
  }

  /** `reshape_and_cache`: the six-arm dtype dispatch in front of `update_cache`. */
  function ReshapeAndCache(key: Tensor, value: Tensor, keyCache: Tensor, valueCache: Tensor,
                           slotMapping: Tensor, keyScale: Tensor, valueScale: Tensor): (r: Result<CacheWrite, AttnError>)
    ensures !SupportedPair(key.dtype, keyCache.dtype) ==> r == Err(UnsupportedPair(key.dtype, keyCache.dtype))
    ensures SupportedPair(key.dtype, keyCache.dtype) ==> !(r.Err? && r.error.UnsupportedPair?)
    ensures r.Ok? ==> && [r.value.numTokens, r.value.numHeads, r.value.headSize] == key.dims
                      && value.dims == key.dims && slotMapping.dims == [r.value.numTokens]
  {
    match (key.dtype, keyCache.dtype)
    case (F16, F8E4M3) => UpdateCache(F16, F8E4M3, key, value, keyCache, valueCache, slotMapping, keyScale, valueScale)
    case (BF16, F8E4M3) => UpdateCache(BF16, F8E4M3, key, value, keyCache, valueCache, slotMapping, keyScale, valueScale)
    case (F32, F8E4M3) => UpdateCache(F32, F8E4M3, key, value, keyCache, valueCache, slotMapping, keyScale, valueScale)
    case (F16, F16) => UpdateCache(F16, F16, key, value, keyCache, valueCache, slotMapping, keyScale, valueScale)
    case (BF16, BF16) => UpdateCache(BF16, BF16, key, value, keyCache, valueCache, slotMapping, keyScale, valueScale)
    case (F32, F32) => UpdateCache(F32, F32, key, value, keyCache, valueCache, slotMapping, keyScale, valueScale)
    case (dt, cacheDt) => Err(UnsupportedPair(dt, cacheDt))
  }

  /** Order-free statement of everything the cache-update guards demand. */
  predicate UpdateAdmissible(key: Tensor, value: Tensor, keyCache: Tensor, valueCache: Tensor,
                             slotMapping: Tensor, keyScale: Tensor, valueScale: Tensor) {
    && SupportedPair(key.dtype, keyCache.dtype)
    && key.device == Cuda && value.device == Cuda && keyCache.device == Cuda && valueCache.device == Cuda
    && slotMapping.device == Cuda && keyScale.device == Cuda && valueScale.device == Cuda
    && keyScale.dims == [] && valueScale.dims == []
    && |key.dims| == 3 && |keyCache.dims| == 5 && |valueCache.dims| == 4
    && value.dtype == key.dtype && valueCache.dtype == keyCache.dtype
    && slotMapping.dtype == I64 && keyScale.dtype == F32 && valueScale.dtype == F32
    && value.dims == key.dims
    && keyCache.dims[1] == key.dims[1]
    && keyCache.dims[4] > 0 && keyCache.dims[2] == key.dims[2] / keyCache.dims[4]
    && valueCache.dims == [keyCache.dims[0], key.dims[1], key.dims[2], keyCache.dims[3]]
    && slotMapping.dims == [key.dims[0]]
  }

  /** The cache-update guards pass exactly when the admissibility conditions hold. */
  lemma ReshapeAndCacheOkIffAdmissible(key: Tensor, value: Tensor, keyCache: Tensor, valueCache: Tensor,
                                       slotMapping: Tensor, keyScale: Tensor, valueScale: Tensor)
    ensures ReshapeAndCache(key, value, keyCache, valueCache, slotMapping, keyScale, valueScale).Ok?
            <==> UpdateAdmissible(key, value, keyCache, valueCache, slotMapping, keyScale, valueScale)
  {
    if SupportedPair(key.dtype, keyCache.dtype) {
      SupportedPairHasCodes(key.dtype, keyCache.dtype);
      assert ReshapeAndCache(key, value, keyCache, valueCache, slotMapping, keyScale, valueScale)
          == UpdateCache(key.dtype, keyCache.dtype, key, value, keyCache, valueCache, slotMapping, keyScale, valueScale);
    }
  }

  /** The cache update rejects exactly the unsupported pairs at dispatch, like the attention op. */
  lemma ReshapeAndCachePairRejection(key: Tensor, value: Tensor, keyCache: Tensor, valueCache: Tensor,
                                     slotMapping: Tensor, keyScale: Tensor, valueScale: Tensor)
    ensures ReshapeAndCache(key, value, keyCache, valueCache, slotMapping, keyScale, valueScale)
              == Err(UnsupportedPair(key.dtype, keyCache.dtype))
            <==> !SupportedPair(key.dtype, keyCache.dtype)
  {
  }

  /** What a successful cache-update guard run passes to the kernel. */
  lemma CacheWriteOnSuccess(key: Tensor, value: Tensor, keyCache: Tensor, valueCache: Tensor,
                            slotMapping: Tensor, keyScale: Tensor, valueScale: Tensor)
    requires ReshapeAndCache(key, value, keyCache, valueCache, slotMapping, keyScale, valueScale).Ok?
    ensures var w := ReshapeAndCache(key, value, keyCache, valueCache, slotMapping, keyScale, valueScale).value;
      && [w.numTokens, w.numHeads, w.headSize] == key.dims
      && w.blockSize == keyCache.dims[3] && w.x == keyCache.dims[4]
      && slotMapping.dims == [w.numTokens] && value.dims == key.dims
      && keyCache.dims[1] == w.numHeads && keyCache.dims[2] == w.headSize / w.x
      && InputTypeCode(key.dtype) == Ok(w.internalType)
      && CacheTypeCode(keyCache.dtype) == Ok(w.cacheType)
  {
    ReshapeAndCacheOkIffAdmissible(key, value, keyCache, valueCache, slotMapping, keyScale, valueScale);
    SupportedPairHasCodes(key.dtype, keyCache.dtype);
    assert ReshapeAndCache(key, value, keyCache, valueCache, slotMapping, keyScale, valueScale)
        == UpdateCache(key.dtype, keyCache.dtype, key, value, keyCache, valueCache, slotMapping, keyScale, valueScale);
  }

  /**
   * The cache update applied to a cache state: the opaque scatter kernel runs
   * only when every guard passed, so a rejected call leaves the cache as it was.
   */
  function ReshapeAndCacheInto<S>(key: Tensor, value: Tensor, keyCache: Tensor, valueCache: Tensor,
                                  slotMapping: Tensor, keyScale: Tensor, valueScale: Tensor,
                                  cache: S, scatter: (CacheWrite, S) -> S): (r: (Result<(), AttnError>, S))
    ensures var w := ReshapeAndCache(key, value, keyCache, valueCache, slotMapping, keyScale, valueScale);
      && (r.0.Ok? <==> w.Ok?)
      && (w.Err? ==> r.0 == Err(w.error) && r.1 == cache)
      && (w.Ok? ==> r.1 == scatter(w.value, cache))
  {
    match ReshapeAndCache(key, value, keyCache, valueCache, slotMapping, keyScale, valueScale)
    case Ok(w) => (Ok(()), scatter(w, cache))
    case Err(e) => (Err(e), cache)
  }

  /** Whatever the kernel does, an inadmissible update fails and the cache is untouched. */
  lemma RejectedUpdateLeavesCacheUntouched<S>(key: Tensor, value: Tensor, keyCache: Tensor, valueCache: Tensor,
                                              slotMapping: Tensor, keyScale: Tensor, valueScale: Tensor,
                                              cache: S, scatter: (CacheWrite, S) -> S)
    requires !UpdateAdmissible(key, value, keyCache, valueCache, slotMapping, keyScale, valueScale)
    ensures var r := ReshapeAndCacheInto(key, value, keyCache, valueCache, slotMapping, keyScale, valueScale,
                                         cache, scatter);
      r.0.Err? && r.1 == cache
  {
    ReshapeAndCacheOkIffAdmissible(key, value, keyCache, valueCache, slotMapping, keyScale, valueScale);
  }
}
