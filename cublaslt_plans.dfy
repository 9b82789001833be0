/**
 * What the two matmul plans promise, read off the calls they make: which
 * objects are created and with what shapes, which attributes are written,
 * what the launch sees, that the launch happens only after every earlier call
 * succeeded, and that every object created is destroyed exactly once.
 */
module CublasLtPlans {
  import opened Results
  import opened CublasLtVendor
  import opened CublasLtMatmul

  /** The kinds of call a plan is read by. */
  datatype Kind = Creation | LayoutSetting | DescSetting | PrefSetting | Launching

  predicate OfKind(c: Call, k: Kind) {
    match k
    case Creation => IsCreation(c)
    case LayoutSetting => c.SetLayoutAttribute?
    case DescSetting => c.SetDescAttribute?
    case PrefSetting => c.SetPrefAttribute?
    case Launching => c.Launch?
  }

  /** The calls of `plan` of kind `k`, in order. */
  function Filter(plan: seq<Call>, k: Kind): (kept: seq<Call>)
    ensures |kept| <= |plan|
    decreases |plan|
  {
    if plan == [] then []
    else (if OfKind(plan[0], k) then [plan[0]] else []) + Filter(plan[1..], k)
  }

  /** `Filter` keeps exactly the calls of kind `k`. */
  lemma {:induction false} FilterKeeps(plan: seq<Call>, k: Kind)
    ensures forall c :: c in Filter(plan, k) <==> c in plan && OfKind(c, k)
    decreases |plan|
  {
    if plan != [] {
      FilterKeeps(plan[1..], k);
      assert plan == [plan[0]] + plan[1..];
    }
  }

  lemma {:induction false} FilterAppend(x: seq<Call>, y: seq<Call>, k: Kind)
    ensures Filter(x + y, k) == Filter(x, k) + Filter(y, k)
    decreases |x|
  {
    if x == [] {
      assert x + y == y;
    } else {
      var head := if OfKind(x[0], k) then [x[0]] else [];
      assert (x + y)[0] == x[0] && (x + y)[1..] == x[1..] + y;
      assert Filter(x + y, k) == head + Filter(x[1..] + y, k);
      FilterAppend(x[1..], y, k);
      AppendAssoc(head, Filter(x[1..], k), Filter(y, k));
    }
  }

  lemma FilterSingle(c: Call, k: Kind)
    ensures Filter([c], k) == if OfKind(c, k) then [c] else []
  {
    assert [c][1..] == [];
  }

  lemma FilterPair(c0: Call, c1: Call, k: Kind)
    ensures Filter([c0, c1], k) == (if OfKind(c0, k) then [c0] else []) + (if OfKind(c1, k) then [c1] else [])
  {
    assert [c0, c1] == [c0] + [c1];
    FilterAppend([c0], [c1], k);
    FilterSingle(c0, k);
    FilterSingle(c1, k);
  }

  /** The batch attributes of a layout: both, exactly when the batch size and the stride are given. */
  function Batching(h: nat, batch: Option<int>, stride: Option<int>): seq<Call> {
    if batch.Some? && stride.Some? then BatchPlan(h, batch.value, stride.value) else []
  }

  /** One layout: its creation, then its batch attributes. */
  lemma LayoutPlanParts(h: nat, t: DataType, stored: (nat, nat), ld: int, batch: Option<int>, stride: Option<int>, k: Kind)
    ensures Filter(LayoutPlan(h, t, stored, ld, batch, stride), k) ==
      match k
      case Creation => [CreateLayout(h, t, stored.0, stored.1, ld)]
      case LayoutSetting => Batching(h, batch, stride)
      case _ => []
  {
    var create := CreateLayout(h, t, stored.0, stored.1, ld);
    var rest := Batching(h, batch, stride);
    assert LayoutPlan(h, t, stored, ld, batch, stride) == [create] + rest;
    FilterAppend([create], rest, k);
    FilterSingle(create, k);
    if batch.Some? && stride.Some? {
      FilterPair(rest[0], rest[1], k);
      assert rest == [rest[0], rest[1]];
    } else {
      assert Filter(rest, k) == [];
    }
  }

  /** The descriptor: its creation, then the two transposes. */
  lemma DescPlanParts(h: nat, compute: ComputeType, transa: bool, transb: bool, k: Kind)
    ensures Filter(DescPlan(h, compute, transa, transb), k) ==
      match k
      case Creation => [CreateDesc(h, compute, R32F)]
      case DescSetting => TransposePlan(h, transa, transb)
      case _ => []
  {
    var t := TransposePlan(h, transa, transb);
    FilterAppend([CreateDesc(h, compute, R32F)], t, k);
    FilterSingle(CreateDesc(h, compute, R32F), k);
    FilterPair(t[0], t[1], k);
    assert t == [t[0], t[1]];
  }

  /** The epilogue writes descriptor attributes only. */
  lemma EpiloguePlanParts(h: nat, act: Option<Activation>, biasPtr: Option<nat>, strideBias: Option<int>, k: Kind)
    ensures Filter(EpiloguePlan(h, act, biasPtr, strideBias), k) ==
      if k == DescSetting then EpiloguePlan(h, act, biasPtr, strideBias) else []
  {
    var b := BiasPlan(h, biasPtr, strideBias);
    var last := SetDescAttribute(h, EpilogueKind(EpilogueFor(biasPtr.Some?, act)));
    FilterAppend(b, [last], k);
    FilterSingle(last, k);
    var none: seq<Call> := [];
    assert none + none == none;
    if biasPtr.None? {
      assert Filter(b, k) == [];
    } else if strideBias.None? {
      FilterSingle(b[0], k);
      assert b == [b[0]];
    } else {
      FilterPair(b[0], b[1], k);
      assert b == [b[0], b[1]];
    }
  }

  /** The preferences: their creation, then the workspace limit. */
  lemma PrefPlanParts(h: nat, ws: nat, k: Kind)
    ensures Filter(PrefPlan(h, ws), k) ==
      match k
      case Creation => [CreatePref(h)]
      case PrefSetting => [SetPrefAttribute(h, MaxWorkspaceBytes(ws))]
      case _ => []
  {
    FilterPair(CreatePref(h), SetPrefAttribute(h, MaxWorkspaceBytes(ws)), k);
  }

  /** The query and the launch: only the launch is of a kind. */
  lemma LaunchPlanParts(lt: nat, h: Handles, args: LaunchArgs, k: Kind)
    ensures Filter(LaunchPlan(lt, h, args), k) == if k == Launching then [Launch(args)] else []
  {
    FilterPair(QueryHeuristic(lt, h.desc, h.a, h.b, h.c, h.d, h.pref), Launch(args), k);
  }

  lemma OneOneOne(a: Call, b: Call, c: Call)
    ensures [a] + ([b] + [c]) == [a, b, c]
  {
  }

  /** `matmul`'s three layouts. */
  lemma GeneralLayoutsParts(t: DataType, cfg: MatmulConfig, at: nat, k: Kind)
    ensures var hb := at + LayoutSpan(cfg.batchSize, cfg.strideA);
      var hc := hb + LayoutSpan(cfg.batchSize, cfg.strideB);
      Filter(GeneralLayoutsPlan(t, cfg, at), k) ==
        match k
        case Creation =>
          [CreateLayout(at, t, ShapeA(cfg).0, ShapeA(cfg).1, cfg.lda),
           CreateLayout(hb, t, ShapeB(cfg).0, ShapeB(cfg).1, cfg.ldb),
           CreateLayout(hc, t, cfg.m, cfg.n, cfg.ldc)]
        case LayoutSetting =>
          Batching(at, cfg.batchSize, cfg.strideA)
          + (Batching(hb, cfg.batchSize, cfg.strideB) + Batching(hc, cfg.batchSize, cfg.strideC))
        case _ => []
  {
    var hb := at + LayoutSpan(cfg.batchSize, cfg.strideA);
    var hc := hb + LayoutSpan(cfg.batchSize, cfg.strideB);
    var la := LayoutPlan(at, t, ShapeA(cfg), cfg.lda, cfg.batchSize, cfg.strideA);
    var lb := LayoutPlan(hb, t, ShapeB(cfg), cfg.ldb, cfg.batchSize, cfg.strideB);
    var lc := LayoutPlan(hc, t, (cfg.m, cfg.n), cfg.ldc, cfg.batchSize, cfg.strideC);
    FilterAppend(la, lb + lc, k);
    FilterAppend(lb, lc, k);
    LayoutPlanParts(at, t, ShapeA(cfg), cfg.lda, cfg.batchSize, cfg.strideA, k);
    LayoutPlanParts(hb, t, ShapeB(cfg), cfg.ldb, cfg.batchSize, cfg.strideB, k);
    LayoutPlanParts(hc, t, (cfg.m, cfg.n), cfg.ldc, cfg.batchSize, cfg.strideC, k);
    var none: seq<Call> := [];
    assert none + (none + none) == none;
    OneOneOne(CreateLayout(at, t, ShapeA(cfg).0, ShapeA(cfg).1, cfg.lda),
              CreateLayout(hb, t, ShapeB(cfg).0, ShapeB(cfg).1, cfg.ldb),
              CreateLayout(hc, t, cfg.m, cfg.n, cfg.ldc));
  }

  /** The descriptor with its transposes and its epilogue. */
  lemma ConfiguredDescParts(h: nat, compute: ComputeType, transa: bool, transb: bool,
                            act: Option<Activation>, biasPtr: Option<nat>, strideBias: Option<int>, k: Kind)
    ensures Filter(ConfiguredDescPlan(h, compute, transa, transb, act, biasPtr, strideBias), k) ==
      match k
      case Creation => [CreateDesc(h, compute, R32F)]
      case DescSetting => TransposePlan(h, transa, transb) + EpiloguePlan(h, act, biasPtr, strideBias)
      case _ => []
  {
    FilterAppend(DescPlan(h, compute, transa, transb), EpiloguePlan(h, act, biasPtr, strideBias), k);
    DescPlanParts(h, compute, transa, transb, k);
    EpiloguePlanParts(h, act, biasPtr, strideBias, k);
  }

  /** The common tail: the preferences with their workspace limit, the query, the launch. */
  lemma TailParts(lt: nat, ws: nat, h: Handles, args: LaunchArgs, k: Kind)
    ensures Filter(TailPlan(lt, ws, h, args), k) ==
      match k
      case Creation => [CreatePref(h.pref)]
      case PrefSetting => [SetPrefAttribute(h.pref, MaxWorkspaceBytes(ws))]
      case Launching => [Launch(args)]
      case _ => []
  {
    FilterAppend(PrefPlan(h.pref, ws), LaunchPlan(lt, h, args), k);
    PrefPlanParts(h.pref, ws, k);
    LaunchPlanParts(lt, h, args, k);
  }

  /** `matmul`'s plan read by kind: its layouts, its descriptor, then the tail. */
  lemma GeneralPlanSplit(lt: nat, elem: ElemType, cfg: MatmulConfig, biasPtr: Option<nat>, act: Option<Activation>,
                         ws: nat, at: nat, k: Kind)
    ensures var h := GeneralHandles(cfg, biasPtr, act, at);
      Filter(GeneralPlan(lt, elem, cfg, biasPtr, act, ws, at), k) ==
        Filter(GeneralLayoutsPlan(MatrixType(elem), cfg, at), k)
        + (Filter(ConfiguredDescPlan(h.desc, ComputeTypeOf(elem), cfg.transa, cfg.transb, act, biasPtr, cfg.strideBias), k)
           + Filter(TailPlan(lt, ws, h, GeneralLaunchArgs(lt, elem, cfg, biasPtr, act, ws, h)), k))
  {
    var h := GeneralHandles(cfg, biasPtr, act, at);
    var gl := GeneralLayoutsPlan(MatrixType(elem), cfg, at);
    var cd := ConfiguredDescPlan(h.desc, ComputeTypeOf(elem), cfg.transa, cfg.transb, act, biasPtr, cfg.strideBias);
    var tp := TailPlan(lt, ws, h, GeneralLaunchArgs(lt, elem, cfg, biasPtr, act, ws, h));
    FilterAppend(gl, cd + tp, k);
    FilterAppend(cd, tp, k);
  }

  lemma ThreeOneOne(a: Call, b: Call, c: Call, d: Call, y: Call)
    ensures [a, b, c] + ([d] + [y]) == [a, b, c, d, y]
  {
  }

  /**
   * `matmul` creates, in order, A, B and C with the stored shapes the
   * transposes fix, the descriptor, and the preferences; nothing else.
   */
  lemma GeneralPlanCreations(lt: nat, elem: ElemType, cfg: MatmulConfig, biasPtr: Option<nat>, act: Option<Activation>,
                             ws: nat, at: nat)
    ensures var h := GeneralHandles(cfg, biasPtr, act, at);
      var t := MatrixType(elem);
      Filter(GeneralPlan(lt, elem, cfg, biasPtr, act, ws, at), Creation) ==
        [CreateLayout(h.a, t, ShapeA(cfg).0, ShapeA(cfg).1, cfg.lda),
         CreateLayout(h.b, t, ShapeB(cfg).0, ShapeB(cfg).1, cfg.ldb),
         CreateLayout(h.c, t, cfg.m, cfg.n, cfg.ldc),
         CreateDesc(h.desc, ComputeTypeOf(elem), R32F),
         CreatePref(h.pref)]
  {
    var h := GeneralHandles(cfg, biasPtr, act, at);
    GeneralPlanSplit(lt, elem, cfg, biasPtr, act, ws, at, Creation);
    GeneralLayoutsParts(MatrixType(elem), cfg, at, Creation);
    ConfiguredDescParts(h.desc, ComputeTypeOf(elem), cfg.transa, cfg.transb, act, biasPtr, cfg.strideBias, Creation);
    TailParts(lt, ws, h, GeneralLaunchArgs(lt, elem, cfg, biasPtr, act, ws, h), Creation);
    ThreeOneOne(CreateLayout(h.a, MatrixType(elem), ShapeA(cfg).0, ShapeA(cfg).1, cfg.lda),
                CreateLayout(h.b, MatrixType(elem), ShapeB(cfg).0, ShapeB(cfg).1, cfg.ldb),
                CreateLayout(h.c, MatrixType(elem), cfg.m, cfg.n, cfg.ldc),
                CreateDesc(h.desc, ComputeTypeOf(elem), R32F),
                CreatePref(h.pref));
  }

  /** The only layout attributes `matmul` writes are each operand's batch count and stride, when batched. */
  lemma GeneralPlanLayoutSettings(lt: nat, elem: ElemType, cfg: MatmulConfig, biasPtr: Option<nat>, act: Option<Activation>,
                                  ws: nat, at: nat)
    ensures var h := GeneralHandles(cfg, biasPtr, act, at);
      Filter(GeneralPlan(lt, elem, cfg, biasPtr, act, ws, at), LayoutSetting) ==
        Batching(h.a, cfg.batchSize, cfg.strideA)
        + (Batching(h.b, cfg.batchSize, cfg.strideB) + Batching(h.c, cfg.batchSize, cfg.strideC))
  {
    var h := GeneralHandles(cfg, biasPtr, act, at);
    GeneralPlanSplit(lt, elem, cfg, biasPtr, act, ws, at, LayoutSetting);
    GeneralLayoutsParts(MatrixType(elem), cfg, at, LayoutSetting);
    ConfiguredDescParts(h.desc, ComputeTypeOf(elem), cfg.transa, cfg.transb, act, biasPtr, cfg.strideBias, LayoutSetting);
    TailParts(lt, ws, h, GeneralLaunchArgs(lt, elem, cfg, biasPtr, act, ws, h), LayoutSetting);
  }

  /** `matmul` writes the two transposes, then the bias attributes and the epilogue, all on its descriptor. */
  lemma GeneralPlanDescSettings(lt: nat, elem: ElemType, cfg: MatmulConfig, biasPtr: Option<nat>, act: Option<Activation>,
                                ws: nat, at: nat)
    ensures var h := GeneralHandles(cfg, biasPtr, act, at);
      Filter(GeneralPlan(lt, elem, cfg, biasPtr, act, ws, at), DescSetting) ==
        TransposePlan(h.desc, cfg.transa, cfg.transb) + EpiloguePlan(h.desc, act, biasPtr, cfg.strideBias)
  {
    var h := GeneralHandles(cfg, biasPtr, act, at);
    GeneralPlanSplit(lt, elem, cfg, biasPtr, act, ws, at, DescSetting);
    GeneralLayoutsParts(MatrixType(elem), cfg, at, DescSetting);
    ConfiguredDescParts(h.desc, ComputeTypeOf(elem), cfg.transa, cfg.transb, act, biasPtr, cfg.strideBias, DescSetting);
    TailParts(lt, ws, h, GeneralLaunchArgs(lt, elem, cfg, biasPtr, act, ws, h), DescSetting);
  }

  /** The one preference `matmul` sets is the workspace limit, to the workspace size. */
  lemma GeneralPlanPrefSettings(lt: nat, elem: ElemType, cfg: MatmulConfig, biasPtr: Option<nat>, act: Option<Activation>,
                                ws: nat, at: nat)
    ensures var h := GeneralHandles(cfg, biasPtr, act, at);
      Filter(GeneralPlan(lt, elem, cfg, biasPtr, act, ws, at), PrefSetting) == [SetPrefAttribute(h.pref, MaxWorkspaceBytes(ws))]
  {
    var h := GeneralHandles(cfg, biasPtr, act, at);
    GeneralPlanSplit(lt, elem, cfg, biasPtr, act, ws, at, PrefSetting);
    GeneralLayoutsParts(MatrixType(elem), cfg, at, PrefSetting);
    ConfiguredDescParts(h.desc, ComputeTypeOf(elem), cfg.transa, cfg.transb, act, biasPtr, cfg.strideBias, PrefSetting);
    TailParts(lt, ws, h, GeneralLaunchArgs(lt, elem, cfg, biasPtr, act, ws, h), PrefSetting);
  }

  /** `matmul` launches once, with the descriptor and layouts as configured. */
  lemma GeneralPlanLaunches(lt: nat, elem: ElemType, cfg: MatmulConfig, biasPtr: Option<nat>, act: Option<Activation>,
                            ws: nat, at: nat)
    ensures var h := GeneralHandles(cfg, biasPtr, act, at);
      Filter(GeneralPlan(lt, elem, cfg, biasPtr, act, ws, at), Launching) == [Launch(GeneralLaunchArgs(lt, elem, cfg, biasPtr, act, ws, h))]
  {
    var h := GeneralHandles(cfg, biasPtr, act, at);
    GeneralPlanSplit(lt, elem, cfg, biasPtr, act, ws, at, Launching);
    GeneralLayoutsParts(MatrixType(elem), cfg, at, Launching);
    ConfiguredDescParts(h.desc, ComputeTypeOf(elem), cfg.transa, cfg.transb, act, biasPtr, cfg.strideBias, Launching);
    TailParts(lt, ws, h, GeneralLaunchArgs(lt, elem, cfg, biasPtr, act, ws, h), Launching);
  }

  // ---------------------------------------------------------------------
  // Which attributes `matmul` writes
  // ---------------------------------------------------------------------

  lemma BatchingHas(h: nat, batch: Option<int>, stride: Option<int>, g: nat, attr: LayoutAttr)
    ensures SetLayoutAttribute(g, attr) in Batching(h, batch, stride) <==>
      && g == h && batch.Some? && stride.Some?
      && (attr == BatchCount(batch.value) || attr == StridedBatchOffset(stride.value))
  {
    if batch.Some? && stride.Some? {
      assert Batching(h, batch, stride) == [SetLayoutAttribute(h, BatchCount(batch.value)),
                                            SetLayoutAttribute(h, StridedBatchOffset(stride.value))];
    }
  }

  /**
   * An operand's layout gets the batch count `s` exactly when the batch size
   * is `s` and that operand's stride is given, and the stride `x` exactly when
   * a batch size is given and that operand's stride is `x`.
   */
  lemma GeneralBatchAttributes(lt: nat, elem: ElemType, cfg: MatmulConfig, biasPtr: Option<nat>, act: Option<Activation>,
                               ws: nat, at: nat, s: int, x: int)
    ensures var h := GeneralHandles(cfg, biasPtr, act, at);
      var settings := Filter(GeneralPlan(lt, elem, cfg, biasPtr, act, ws, at), LayoutSetting);
      && (SetLayoutAttribute(h.a, BatchCount(s)) in settings <==> cfg.batchSize == Some(s) && cfg.strideA.Some?)
      && (SetLayoutAttribute(h.a, StridedBatchOffset(x)) in settings <==> cfg.batchSize.Some? && cfg.strideA == Some(x))
      && (SetLayoutAttribute(h.b, BatchCount(s)) in settings <==> cfg.batchSize == Some(s) && cfg.strideB.Some?)
      && (SetLayoutAttribute(h.b, StridedBatchOffset(x)) in settings <==> cfg.batchSize.Some? && cfg.strideB == Some(x))
      && (SetLayoutAttribute(h.c, BatchCount(s)) in settings <==> cfg.batchSize == Some(s) && cfg.strideC.Some?)
      && (SetLayoutAttribute(h.c, StridedBatchOffset(x)) in settings <==> cfg.batchSize.Some? && cfg.strideC == Some(x))
  {
    var h := GeneralHandles(cfg, biasPtr, act, at);
    GeneralPlanLayoutSettings(lt, elem, cfg, biasPtr, act, ws, at);
    assert h.a < h.b < h.c;
    BatchingHas(h.a, cfg.batchSize, cfg.strideA, h.a, BatchCount(s));
    BatchingHas(h.b, cfg.batchSize, cfg.strideB, h.a, BatchCount(s));
    BatchingHas(h.c, cfg.batchSize, cfg.strideC, h.a, BatchCount(s));
    BatchingHas(h.a, cfg.batchSize, cfg.strideA, h.a, StridedBatchOffset(x));
    BatchingHas(h.b, cfg.batchSize, cfg.strideB, h.a, StridedBatchOffset(x));
    BatchingHas(h.c, cfg.batchSize, cfg.strideC, h.a, StridedBatchOffset(x));
    BatchingHas(h.a, cfg.batchSize, cfg.strideA, h.b, BatchCount(s));
    BatchingHas(h.b, cfg.batchSize, cfg.strideB, h.b, BatchCount(s));
    BatchingHas(h.c, cfg.batchSize, cfg.strideC, h.b, BatchCount(s));
    BatchingHas(h.a, cfg.batchSize, cfg.strideA, h.b, StridedBatchOffset(x));
    BatchingHas(h.b, cfg.batchSize, cfg.strideB, h.b, StridedBatchOffset(x));
    BatchingHas(h.c, cfg.batchSize, cfg.strideC, h.b, StridedBatchOffset(x));
    BatchingHas(h.a, cfg.batchSize, cfg.strideA, h.c, BatchCount(s));
    BatchingHas(h.b, cfg.batchSize, cfg.strideB, h.c, BatchCount(s));
    BatchingHas(h.c, cfg.batchSize, cfg.strideC, h.c, BatchCount(s));
    BatchingHas(h.a, cfg.batchSize, cfg.strideA, h.c, StridedBatchOffset(x));
    BatchingHas(h.b, cfg.batchSize, cfg.strideB, h.c, StridedBatchOffset(x));
    BatchingHas(h.c, cfg.batchSize, cfg.strideC, h.c, StridedBatchOffset(x));
  }

  /**
   * The descriptor attributes a matmul writes on descriptor `h`: the
   * transposes of A and B as 1 or 0 (never that of C), the bias pointer
   * exactly when there is a bias, the bias batch stride exactly when there is
   * a bias and a stride, and exactly the epilogue that matches the bias and
   * the activation.
   */
  lemma DescriptorAttributes(h: nat, transa: bool, transb: bool, act: Option<Activation>, biasPtr: Option<nat>,
                             strideBias: Option<int>, code: int, p: nat, x: int, e: Epilogue)
    ensures var d := TransposePlan(h, transa, transb) + EpiloguePlan(h, act, biasPtr, strideBias);
      && (SetDescAttribute(h, TransA(code)) in d <==> code == TransposeCode(transa))
      && (SetDescAttribute(h, TransB(code)) in d <==> code == TransposeCode(transb))
      && SetDescAttribute(h, TransC(code)) !in d
      && (SetDescAttribute(h, BiasPointer(p)) in d <==> biasPtr == Some(p))
      && (SetDescAttribute(h, BiasBatchStride(x)) in d <==> biasPtr.Some? && strideBias == Some(x))
      && (SetDescAttribute(h, EpilogueKind(e)) in d <==> e == EpilogueFor(biasPtr.Some?, act))
  {
    var b := BiasPlan(h, biasPtr, strideBias);
    var last := SetDescAttribute(h, EpilogueKind(EpilogueFor(biasPtr.Some?, act)));
    var d := TransposePlan(h, transa, transb) + (b + [last]);
    if biasPtr.None? {
      assert d == TransposePlan(h, transa, transb) + [last];
    } else if strideBias.None? {
      assert d == TransposePlan(h, transa, transb) + [SetDescAttribute(h, BiasPointer(biasPtr.value)), last];
    } else {
      assert d == TransposePlan(h, transa, transb) + [SetDescAttribute(h, BiasPointer(biasPtr.value)),
                                                      SetDescAttribute(h, BiasBatchStride(strideBias.value)), last];
    }
  }

  // ---------------------------------------------------------------------
  // The launch comes last
  // ---------------------------------------------------------------------

  lemma {:induction false} FilterEmpty(p: seq<Call>, k: Kind)
    requires Filter(p, k) == []
    ensures forall i :: 0 <= i < |p| ==> !OfKind(p[i], k)
    decreases |p|
  {
    if p != [] {
      FilterEmpty(p[1..], k);
      forall i | 1 <= i < |p| ensures !OfKind(p[i], k) {
        assert p[i] == p[1..][i - 1];
      }
    }
  }

  /**
   * In a plan whose one launch is its last call, the launch is issued exactly
   * when every earlier call succeeds: any failure before it, of a creation, a
   * setter or the heuristic query, is returned without launching.
   */
  lemma LaunchOnlyAfterSuccess(plan: seq<Call>, at: nat, fails: nat -> bool)
    requires plan != [] && plan[|plan| - 1].Launch? && |Filter(plan, Launching)| == 1
    ensures var e := Execute(plan, at, fails);
      (exists i :: 0 <= i < |e| && e[i].call.Launch?) <==> (forall j :: at <= j < at + |plan| - 1 ==> !fails(j))
  {
    var n := |plan| - 1;
    var e := Execute(plan, at, fails);
    assert plan == plan[..n] + [plan[n]];
    FilterAppend(plan[..n], [plan[n]], Launching);
    FilterSingle(plan[n], Launching);
    FilterEmpty(plan[..n], Launching);
    assert forall i :: 0 <= i < n ==> !plan[i].Launch? by {
      forall i | 0 <= i < n ensures !plan[i].Launch? {
        assert plan[i] == plan[..n][i];
      }
    }
    ExecuteIsPrefixUntilFailure(plan, at, fails);
    if forall j :: at <= j < at + n ==> !fails(j) {
      assert |e| == |plan|;
      assert e[n].call.Launch?;
    } else {
      var j :| at <= j < at + n && fails(j);
      assert j - at < |e| ==> !e[j - at].ok;
    }
  }

  /**
   * `matmul` launches, with C's layout passed as both C and D, exactly when
   * every call before the launch succeeded.
   */
  lemma GeneralLaunchOnlyAfterSuccess(lt: nat, elem: ElemType, cfg: MatmulConfig, biasPtr: Option<nat>,
                                      act: Option<Activation>, ws: nat, at: nat, fails: nat -> bool)
    ensures var plan := GeneralPlan(lt, elem, cfg, biasPtr, act, ws, at);
      var args := GeneralLaunchArgs(lt, elem, cfg, biasPtr, act, ws, GeneralHandles(cfg, biasPtr, act, at));
      var e := Execute(plan, at, fails);
      && plan[|plan| - 1] == Launch(args) && args.c == args.d
      && ((exists i :: 0 <= i < |e| && e[i].call.Launch?) <==> (forall j :: at <= j < at + |plan| - 1 ==> !fails(j)))
  {
    var plan := GeneralPlan(lt, elem, cfg, biasPtr, act, ws, at);
    var h := GeneralHandles(cfg, biasPtr, act, at);
    var tail := TailPlan(lt, ws, h, GeneralLaunchArgs(lt, elem, cfg, biasPtr, act, ws, h));
    assert tail[|tail| - 1] == Launch(GeneralLaunchArgs(lt, elem, cfg, biasPtr, act, ws, h));
    assert plan[|plan| - 1] == tail[|tail| - 1];
    GeneralPlanLaunches(lt, elem, cfg, biasPtr, act, ws, at);
    LaunchOnlyAfterSuccess(plan, at, fails);
  }

  // ---------------------------------------------------------------------
  // Handles and teardown
  // ---------------------------------------------------------------------

  lemma OrdinalsAppend(x: seq<Call>, y: seq<Call>, at: nat)
    requires HandlesAreOrdinals(x, at) && HandlesAreOrdinals(y, at + |x|)
    ensures HandlesAreOrdinals(x + y, at)
  {
    forall i | 0 <= i < |x + y| && IsCreation((x + y)[i]) ensures (x + y)[i].h == at + i {
      if i >= |x| {
        assert (x + y)[i] == y[i - |x|];
      }
    }
  }

  lemma NoCreationOrdinals(p: seq<Call>, at: nat)
    requires NoCreations(p)
    ensures HandlesAreOrdinals(p, at)
  {
  }

  lemma LayoutOrdinals(h: nat, t: DataType, stored: (nat, nat), ld: int, batch: Option<int>, stride: Option<int>)
    ensures HandlesAreOrdinals(LayoutPlan(h, t, stored, ld, batch, stride), h)
  {
  }

  lemma GeneralLayoutsOrdinals(t: DataType, cfg: MatmulConfig, at: nat)
    ensures HandlesAreOrdinals(GeneralLayoutsPlan(t, cfg, at), at)
  {
    var b := at + LayoutSpan(cfg.batchSize, cfg.strideA);
    var c := b + LayoutSpan(cfg.batchSize, cfg.strideB);
    var la := LayoutPlan(at, t, ShapeA(cfg), cfg.lda, cfg.batchSize, cfg.strideA);
    var lb := LayoutPlan(b, t, ShapeB(cfg), cfg.ldb, cfg.batchSize, cfg.strideB);
    var lc := LayoutPlan(c, t, (cfg.m, cfg.n), cfg.ldc, cfg.batchSize, cfg.strideC);
    LayoutOrdinals(at, t, ShapeA(cfg), cfg.lda, cfg.batchSize, cfg.strideA);
    LayoutOrdinals(b, t, ShapeB(cfg), cfg.ldb, cfg.batchSize, cfg.strideB);
    LayoutOrdinals(c, t, (cfg.m, cfg.n), cfg.ldc, cfg.batchSize, cfg.strideC);
    OrdinalsAppend(lb, lc, b);
    OrdinalsAppend(la, lb + lc, at);
  }

  lemma ConfiguredDescOrdinals(h: nat, compute: ComputeType, transa: bool, transb: bool,
                               act: Option<Activation>, biasPtr: Option<nat>, strideBias: Option<int>)
    ensures var p := ConfiguredDescPlan(h, compute, transa, transb, act, biasPtr, strideBias);
      HandlesAreOrdinals(p, h) && |p| == 3 + |EpiloguePlan(h, act, biasPtr, strideBias)|
  {
    var pd := DescPlan(h, compute, transa, transb);
    var pe := EpiloguePlan(h, act, biasPtr, strideBias);
    NoCreationOrdinals(pe, h + 3);
    OrdinalsAppend(pd, pe, h);
  }

  lemma TailOrdinals(lt: nat, ws: nat, h: Handles, args: LaunchArgs)
    ensures HandlesAreOrdinals(TailPlan(lt, ws, h, args), h.pref)
  {
    NoCreationOrdinals(LaunchPlan(lt, h, args), h.pref + 2);
    OrdinalsAppend(PrefPlan(h.pref, ws), LaunchPlan(lt, h, args), h.pref);
  }

  /** Every object `matmul` creates is named by the ordinal of the call that creates it. */
  lemma GeneralOrdinals(lt: nat, elem: ElemType, cfg: MatmulConfig, biasPtr: Option<nat>, act: Option<Activation>,
                        ws: nat, at: nat)
    ensures HandlesAreOrdinals(GeneralPlan(lt, elem, cfg, biasPtr, act, ws, at), at)
  {
    var h := GeneralHandles(cfg, biasPtr, act, at);
    var gl := GeneralLayoutsPlan(MatrixType(elem), cfg, at);
    var cd := ConfiguredDescPlan(h.desc, ComputeTypeOf(elem), cfg.transa, cfg.transb, act, biasPtr, cfg.strideBias);
    var tp := TailPlan(lt, ws, h, GeneralLaunchArgs(lt, elem, cfg, biasPtr, act, ws, h));
    GeneralLayoutsOrdinals(MatrixType(elem), cfg, at);
    ConfiguredDescOrdinals(h.desc, ComputeTypeOf(elem), cfg.transa, cfg.transb, act, biasPtr, cfg.strideBias);
    TailOrdinals(lt, ws, h, GeneralLaunchArgs(lt, elem, cfg, biasPtr, act, ws, h));
    assert |gl| == h.desc - at;
    OrdinalsAppend(cd, tp, h.desc);
    OrdinalsAppend(gl, cd + tp, at);
  }

  /**
   * Whatever fails, `matmul`'s drops destroy every object it created exactly
   * once, newest first.
   */
  lemma GeneralReleasedExactlyOnce(lt: nat, elem: ElemType, cfg: MatmulConfig, biasPtr: Option<nat>,
                                   act: Option<Activation>, ws: nat, at: nat, fails: nat -> bool)
    ensures var e := Execute(GeneralPlan(lt, elem, cfg, biasPtr, act, ws, at), at, fails);
      Destroyed(Releases(e)) == Reverse(Created(e)) && Increasing(Created(e))
  {
    GeneralOrdinals(lt, elem, cfg, biasPtr, act, ws, at);
    ReleasedExactlyOnce(GeneralPlan(lt, elem, cfg, biasPtr, act, ws, at), at, fails);
  }

  // ---------------------------------------------------------------------
  // `matmul_fp8_like`
  // ---------------------------------------------------------------------

  /** `matmul_fp8_like`'s plan in its parts: the descriptor, the four layouts, the epilogue, the tail. */
  lemma Fp8PlanShape(lt: nat, elem: ElemType, cfg: MatmulConfig, biasPtr: Option<nat>, act: Option<Activation>,
                     ws: nat, at: nat)
    ensures var t := MatrixType(elem);
      var desc := TransposedDesc(at, Compute32F, cfg.transa, cfg.transb);
      var pe := EpiloguePlan(at, act, biasPtr, cfg.strideBias);
      Fp8Plan(lt, elem, cfg, biasPtr, act, ws, at) ==
        DescPlan(at, Compute32F, cfg.transa, cfg.transb)
        + (Fp8LayoutsPlan(t, cfg, at + 3)
           + (pe + TailPlan(lt, ws, Fp8Handles(at, pe, at + 3), Fp8LaunchArgs(lt, ws, t, cfg, act, biasPtr, desc, at + 3))))
  {
  }

  lemma LayoutPairParts(at: nat, t1: DataType, stored1: (nat, nat), ld1: int,
                        t2: DataType, stored2: (nat, nat), ld2: int, k: Kind)
    ensures Filter(LayoutPairPlan(at, t1, stored1, ld1, t2, stored2, ld2), k) ==
      if k == Creation then [CreateLayout(at, t1, stored1.0, stored1.1, ld1), CreateLayout(at + 1, t2, stored2.0, stored2.1, ld2)]
      else []
  {
    var c1 := CreateLayout(at, t1, stored1.0, stored1.1, ld1);
    var c2 := CreateLayout(at + 1, t2, stored2.0, stored2.1, ld2);
    assert LayoutPlan(at, t1, stored1, ld1, None, None) == [c1];
    assert LayoutPlan(at + 1, t2, stored2, ld2, None, None) == [c2];
    FilterPair(c1, c2, k);
  }

  /** The fp8 layouts are four creations and no attribute: none of them is batched. */
  lemma Fp8LayoutsParts(t: DataType, cfg: MatmulConfig, at: nat, k: Kind)
    ensures Filter(Fp8LayoutsPlan(t, cfg, at), k) ==
      if k == Creation then
        [CreateLayout(at, t, Fp8ShapeA(cfg).0, Fp8ShapeA(cfg).1, cfg.lda),
         CreateLayout(at + 1, t, Fp8ShapeB(cfg).0, Fp8ShapeB(cfg).1, cfg.ldb),
         CreateLayout(at + 2, R16BF, cfg.m, cfg.n, cfg.ldc),
         CreateLayout(at + 3, t, cfg.m, cfg.n, cfg.ldc)]
      else []
  {
    var p1 := LayoutPairPlan(at, t, Fp8ShapeA(cfg), cfg.lda, t, Fp8ShapeB(cfg), cfg.ldb);
    var p2 := LayoutPairPlan(at + 2, R16BF, (cfg.m, cfg.n), cfg.ldc, t, (cfg.m, cfg.n), cfg.ldc);
    FilterAppend(p1, p2, k);
    LayoutPairParts(at, t, Fp8ShapeA(cfg), cfg.lda, t, Fp8ShapeB(cfg), cfg.ldb, k);
    LayoutPairParts(at + 2, R16BF, (cfg.m, cfg.n), cfg.ldc, t, (cfg.m, cfg.n), cfg.ldc, k);
  }

  /** `matmul_fp8_like`'s plan read by kind, part by part. */
  lemma Fp8PlanSplit(lt: nat, elem: ElemType, cfg: MatmulConfig, biasPtr: Option<nat>, act: Option<Activation>,
                     ws: nat, at: nat, k: Kind)
    ensures var t := MatrixType(elem);
      var desc := TransposedDesc(at, Compute32F, cfg.transa, cfg.transb);
      var pe := EpiloguePlan(at, act, biasPtr, cfg.strideBias);
      Filter(Fp8Plan(lt, elem, cfg, biasPtr, act, ws, at), k) ==
        Filter(DescPlan(at, Compute32F, cfg.transa, cfg.transb), k)
        + (Filter(Fp8LayoutsPlan(t, cfg, at + 3), k)
           + (Filter(pe, k)
              + Filter(TailPlan(lt, ws, Fp8Handles(at, pe, at + 3), Fp8LaunchArgs(lt, ws, t, cfg, act, biasPtr, desc, at + 3)), k)))
  {
    var t := MatrixType(elem);
    var desc := TransposedDesc(at, Compute32F, cfg.transa, cfg.transb);
    var pd := DescPlan(at, Compute32F, cfg.transa, cfg.transb);
    var pl := Fp8LayoutsPlan(t, cfg, at + 3);
    var pe := EpiloguePlan(at, act, biasPtr, cfg.strideBias);
    var pt := TailPlan(lt, ws, Fp8Handles(at, pe, at + 3), Fp8LaunchArgs(lt, ws, t, cfg, act, biasPtr, desc, at + 3));
    Fp8PlanShape(lt, elem, cfg, biasPtr, act, ws, at);
    FilterAppend(pd, pl + (pe + pt), k);
    FilterAppend(pl, pe + pt, k);
    FilterAppend(pe, pt, k);
  }

  lemma OneFourOne(x: Call, a: Call, b: Call, c: Call, d: Call, y: Call)
    ensures [x] + ([a, b, c, d] + ([] + [y])) == [x, a, b, c, d, y]
  {
    assert [] + [y] == [y];
  }

  /** Reading `matmul_fp8_like`'s plan by kind once each part has been read. */
  lemma Fp8PlanByKind(lt: nat, elem: ElemType, cfg: MatmulConfig, biasPtr: Option<nat>, act: Option<Activation>,
                      ws: nat, at: nat, k: Kind, fd: seq<Call>, fl: seq<Call>, fe: seq<Call>, ft: seq<Call>)
    requires var t := MatrixType(elem);
      var desc := TransposedDesc(at, Compute32F, cfg.transa, cfg.transb);
      var pe := EpiloguePlan(at, act, biasPtr, cfg.strideBias);
      && Filter(DescPlan(at, Compute32F, cfg.transa, cfg.transb), k) == fd
      && Filter(Fp8LayoutsPlan(t, cfg, at + 3), k) == fl
      && Filter(pe, k) == fe
      && Filter(TailPlan(lt, ws, Fp8Handles(at, pe, at + 3), Fp8LaunchArgs(lt, ws, t, cfg, act, biasPtr, desc, at + 3)), k) == ft
    ensures Filter(Fp8Plan(lt, elem, cfg, biasPtr, act, ws, at), k) == fd + (fl + (fe + ft))
  {
    Fp8PlanSplit(lt, elem, cfg, biasPtr, act, ws, at, k);
  }

  /**
   * `matmul_fp8_like` creates, in order, the descriptor with 32-bit float
   * compute, A and B as stored for fp8, the bf16 C, D in the input type, and
   * the preferences; nothing else.
   */
  lemma Fp8PlanCreations(lt: nat, elem: ElemType, cfg: MatmulConfig, biasPtr: Option<nat>, act: Option<Activation>,
                         ws: nat, at: nat)
    ensures var t := MatrixType(elem);
      var pe := EpiloguePlan(at, act, biasPtr, cfg.strideBias);
      Filter(Fp8Plan(lt, elem, cfg, biasPtr, act, ws, at), Creation) ==
        [CreateDesc(at, Compute32F, R32F),
         CreateLayout(at + 3, t, Fp8ShapeA(cfg).0, Fp8ShapeA(cfg).1, cfg.lda),
         CreateLayout(at + 4, t, Fp8ShapeB(cfg).0, Fp8ShapeB(cfg).1, cfg.ldb),
         CreateLayout(at + 5, R16BF, cfg.m, cfg.n, cfg.ldc),
         CreateLayout(at + 6, t, cfg.m, cfg.n, cfg.ldc),
         CreatePref(at + 7 + |pe|)]
  {
    var t := MatrixType(elem);
    var desc := TransposedDesc(at, Compute32F, cfg.transa, cfg.transb);
    var pe := EpiloguePlan(at, act, biasPtr, cfg.strideBias);
    var h := Fp8Handles(at, pe, at + 3);
    var args := Fp8LaunchArgs(lt, ws, t, cfg, act, biasPtr, desc, at + 3);
    DescPlanParts(at, Compute32F, cfg.transa, cfg.transb, Creation);
    Fp8LayoutsParts(t, cfg, at + 3, Creation);
    EpiloguePlanParts(at, act, biasPtr, cfg.strideBias, Creation);
    TailParts(lt, ws, h, args, Creation);
    Fp8PlanByKind(lt, elem, cfg, biasPtr, act, ws, at, Creation,
                  [CreateDesc(at, Compute32F, R32F)],
                  [CreateLayout(at + 3, t, Fp8ShapeA(cfg).0, Fp8ShapeA(cfg).1, cfg.lda),
                   CreateLayout(at + 4, t, Fp8ShapeB(cfg).0, Fp8ShapeB(cfg).1, cfg.ldb),
                   CreateLayout(at + 5, R16BF, cfg.m, cfg.n, cfg.ldc),
                   CreateLayout(at + 6, t, cfg.m, cfg.n, cfg.ldc)],
                  [], [CreatePref(h.pref)]);
    OneFourOne(CreateDesc(at, Compute32F, R32F),
               CreateLayout(at + 3, t, Fp8ShapeA(cfg).0, Fp8ShapeA(cfg).1, cfg.lda),
               CreateLayout(at + 4, t, Fp8ShapeB(cfg).0, Fp8ShapeB(cfg).1, cfg.ldb),
               CreateLayout(at + 5, R16BF, cfg.m, cfg.n, cfg.ldc),
               CreateLayout(at + 6, t, cfg.m, cfg.n, cfg.ldc),
               CreatePref(h.pref));
  }

  /** `matmul_fp8_like` writes no layout attribute. */
  lemma Fp8PlanLayoutSettings(lt: nat, elem: ElemType, cfg: MatmulConfig, biasPtr: Option<nat>, act: Option<Activation>,
                              ws: nat, at: nat)
    ensures Filter(Fp8Plan(lt, elem, cfg, biasPtr, act, ws, at), LayoutSetting) == []
  {
    var t := MatrixType(elem);
    var desc := TransposedDesc(at, Compute32F, cfg.transa, cfg.transb);
    var pe := EpiloguePlan(at, act, biasPtr, cfg.strideBias);
    var h := Fp8Handles(at, pe, at + 3);
    var args := Fp8LaunchArgs(lt, ws, t, cfg, act, biasPtr, desc, at + 3);
    DescPlanParts(at, Compute32F, cfg.transa, cfg.transb, LayoutSetting);
    Fp8LayoutsParts(t, cfg, at + 3, LayoutSetting);
    EpiloguePlanParts(at, act, biasPtr, cfg.strideBias, LayoutSetting);
    TailParts(lt, ws, h, args, LayoutSetting);
    Fp8PlanByKind(lt, elem, cfg, biasPtr, act, ws, at, LayoutSetting,
                  [],
                  [],
                  [], []);
  }

  /** `matmul_fp8_like` writes the two transposes, then the bias attributes and the epilogue, on its descriptor. */
  lemma Fp8PlanDescSettings(lt: nat, elem: ElemType, cfg: MatmulConfig, biasPtr: Option<nat>, act: Option<Activation>,
                            ws: nat, at: nat)
    ensures Filter(Fp8Plan(lt, elem, cfg, biasPtr, act, ws, at), DescSetting) ==
      TransposePlan(at, cfg.transa, cfg.transb) + EpiloguePlan(at, act, biasPtr, cfg.strideBias)
  {
    var t := MatrixType(elem);
    var desc := TransposedDesc(at, Compute32F, cfg.transa, cfg.transb);
    var pe := EpiloguePlan(at, act, biasPtr, cfg.strideBias);
    var h := Fp8Handles(at, pe, at + 3);
    var args := Fp8LaunchArgs(lt, ws, t, cfg, act, biasPtr, desc, at + 3);
    DescPlanParts(at, Compute32F, cfg.transa, cfg.transb, DescSetting);
    Fp8LayoutsParts(t, cfg, at + 3, DescSetting);
    EpiloguePlanParts(at, act, biasPtr, cfg.strideBias, DescSetting);
    TailParts(lt, ws, h, args, DescSetting);
    Fp8PlanByKind(lt, elem, cfg, biasPtr, act, ws, at, DescSetting,
                  TransposePlan(at, cfg.transa, cfg.transb),
                  [],
                  pe, []);
    assert [] + (pe + []) == pe;
  }

  /** The one preference `matmul_fp8_like` sets is the workspace limit, to the workspace size. */
  lemma Fp8PlanPrefSettings(lt: nat, elem: ElemType, cfg: MatmulConfig, biasPtr: Option<nat>, act: Option<Activation>,
                            ws: nat, at: nat)
    ensures var pe := EpiloguePlan(at, act, biasPtr, cfg.strideBias);
      Filter(Fp8Plan(lt, elem, cfg, biasPtr, act, ws, at), PrefSetting) == [SetPrefAttribute(at + 7 + |pe|, MaxWorkspaceBytes(ws))]
  {
    var t := MatrixType(elem);
    var desc := TransposedDesc(at, Compute32F, cfg.transa, cfg.transb);
    var pe := EpiloguePlan(at, act, biasPtr, cfg.strideBias);
    var h := Fp8Handles(at, pe, at + 3);
    var args := Fp8LaunchArgs(lt, ws, t, cfg, act, biasPtr, desc, at + 3);
    DescPlanParts(at, Compute32F, cfg.transa, cfg.transb, PrefSetting);
    Fp8LayoutsParts(t, cfg, at + 3, PrefSetting);
    EpiloguePlanParts(at, act, biasPtr, cfg.strideBias, PrefSetting);
    TailParts(lt, ws, h, args, PrefSetting);
    Fp8PlanByKind(lt, elem, cfg, biasPtr, act, ws, at, PrefSetting,
                  [],
                  [],
                  [], [SetPrefAttribute(h.pref, MaxWorkspaceBytes(ws))]);
  }

  /** `matmul_fp8_like` launches once. */
  lemma Fp8PlanLaunches(lt: nat, elem: ElemType, cfg: MatmulConfig, biasPtr: Option<nat>, act: Option<Activation>,
                        ws: nat, at: nat)
    ensures var desc := TransposedDesc(at, Compute32F, cfg.transa, cfg.transb);
      Filter(Fp8Plan(lt, elem, cfg, biasPtr, act, ws, at), Launching) ==
        [Launch(Fp8LaunchArgs(lt, ws, MatrixType(elem), cfg, act, biasPtr, desc, at + 3))]
  {
    var t := MatrixType(elem);
    var desc := TransposedDesc(at, Compute32F, cfg.transa, cfg.transb);
    var pe := EpiloguePlan(at, act, biasPtr, cfg.strideBias);
    var h := Fp8Handles(at, pe, at + 3);
    var args := Fp8LaunchArgs(lt, ws, t, cfg, act, biasPtr, desc, at + 3);
    DescPlanParts(at, Compute32F, cfg.transa, cfg.transb, Launching);
    Fp8LayoutsParts(t, cfg, at + 3, Launching);
    EpiloguePlanParts(at, act, biasPtr, cfg.strideBias, Launching);
    TailParts(lt, ws, h, args, Launching);
    Fp8PlanByKind(lt, elem, cfg, biasPtr, act, ws, at, Launching,
                  [],
                  [],
                  [], [Launch(args)]);
  }

  /**
   * `matmul_fp8_like` queries the heuristic with D's layout as D, but launches
   * with the bf16 C layout as both C and D, and launches exactly when every
   * call before the launch succeeded.  The launch sees the descriptor as
   * `matmul` would configure it with 32-bit float compute.
   */
  lemma Fp8LaunchOnlyAfterSuccess(lt: nat, elem: ElemType, cfg: MatmulConfig, biasPtr: Option<nat>,
                                  act: Option<Activation>, ws: nat, at: nat, fails: nat -> bool)
    ensures var plan := Fp8Plan(lt, elem, cfg, biasPtr, act, ws, at);
      var desc := TransposedDesc(at, Compute32F, cfg.transa, cfg.transb);
      var args := Fp8LaunchArgs(lt, ws, MatrixType(elem), cfg, act, biasPtr, desc, at + 3);
      var e := Execute(plan, at, fails);
      && |plan| >= 2 && plan[|plan| - 1] == Launch(args)
      && plan[|plan| - 2].QueryHeuristic? && plan[|plan| - 2].c == at + 5 && plan[|plan| - 2].d == at + 6
      && args.c == args.d && args.c.handle == at + 5 && args.c.dataType == R16BF
      && args.desc == DescAfter(at, Compute32F, cfg.transa, cfg.transb, act, biasPtr, cfg.strideBias)
      && ((exists i :: 0 <= i < |e| && e[i].call.Launch?) <==> (forall j :: at <= j < at + |plan| - 1 ==> !fails(j)))
  {
    var plan := Fp8Plan(lt, elem, cfg, biasPtr, act, ws, at);
    var t := MatrixType(elem);
    var desc := TransposedDesc(at, Compute32F, cfg.transa, cfg.transb);
    var pe := EpiloguePlan(at, act, biasPtr, cfg.strideBias);
    var args := Fp8LaunchArgs(lt, ws, t, cfg, act, biasPtr, desc, at + 3);
    var tail := TailPlan(lt, ws, Fp8Handles(at, pe, at + 3), args);
    Fp8PlanShape(lt, elem, cfg, biasPtr, act, ws, at);
    assert plan[|plan| - 1] == tail[|tail| - 1] == Launch(args);
    assert plan[|plan| - 2] == tail[|tail| - 2];
    Fp8PlanLaunches(lt, elem, cfg, biasPtr, act, ws, at);
    LaunchOnlyAfterSuccess(plan, at, fails);
  }

  lemma Fp8Ordinals(lt: nat, elem: ElemType, cfg: MatmulConfig, biasPtr: Option<nat>, act: Option<Activation>,
                    ws: nat, at: nat)
    ensures HandlesAreOrdinals(Fp8Plan(lt, elem, cfg, biasPtr, act, ws, at), at)
  {
    var t := MatrixType(elem);
    var desc := TransposedDesc(at, Compute32F, cfg.transa, cfg.transb);
    var pd := DescPlan(at, Compute32F, cfg.transa, cfg.transb);
    var pl := Fp8LayoutsPlan(t, cfg, at + 3);
    var pe := EpiloguePlan(at, act, biasPtr, cfg.strideBias);
    var h := Fp8Handles(at, pe, at + 3);
    var pt := TailPlan(lt, ws, h, Fp8LaunchArgs(lt, ws, t, cfg, act, biasPtr, desc, at + 3));
    Fp8PlanShape(lt, elem, cfg, biasPtr, act, ws, at);
    assert HandlesAreOrdinals(pl, at + 3);
    NoCreationOrdinals(pe, at + 7);
    TailOrdinals(lt, ws, h, Fp8LaunchArgs(lt, ws, t, cfg, act, biasPtr, desc, at + 3));
    OrdinalsAppend(pe, pt, at + 7);
    OrdinalsAppend(pl, pe + pt, at + 3);
    OrdinalsAppend(pd, pl + (pe + pt), at);
  }

  /**
   * Whatever fails, `matmul_fp8_like`'s drops destroy every object it
   * created exactly once, newest first.
   */
  lemma Fp8ReleasedExactlyOnce(lt: nat, elem: ElemType, cfg: MatmulConfig, biasPtr: Option<nat>,
                               act: Option<Activation>, ws: nat, at: nat, fails: nat -> bool)
    ensures var e := Execute(Fp8Plan(lt, elem, cfg, biasPtr, act, ws, at), at, fails);
      Destroyed(Releases(e)) == Reverse(Created(e)) && Increasing(Created(e))
  {
    Fp8Ordinals(lt, elem, cfg, biasPtr, act, ws, at);
    ReleasedExactlyOnce(Fp8Plan(lt, elem, cfg, biasPtr, act, ws, at), at, fails);
  }
}
