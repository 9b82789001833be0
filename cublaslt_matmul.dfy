/**
 * The cuBLASLt matmul wrapper: the library handle and its workspace, the
 * RAII helpers for layouts, descriptors and preferences, and the two matmul
 * entry points.  Each entry point is specified by a plan, the list of library
 * calls it makes when nothing fails; the wrapper's behaviour under any
 * failure pattern is then `Run` of that plan (stop at the first failure, then
 * destroy what was created, newest first) and its result is the plan's
 * `Verdict`.
 */
module CublasLtMatmul {
  import opened Results
  import opened CublasLtVendor

  const MiB: nat := 1_048_576

  // ---------------------------------------------------------------------
  // Workspace and the library handle
  // ---------------------------------------------------------------------

  /** Workspace bytes for a device of compute capability `major`. */
  function WorkspaceSize(major: int): (size: nat)
    ensures major >= 9 ==> size == 32 * MiB
    ensures major < 9 ==> size == 4 * MiB
  {
    if major >= 9 then 33_554_432 else 4_194_304
  }

  /** The device buffer itself is not modelled, only its size. */
  datatype Workspace = Workspace(size: nat)

  class CudaBlasLt {
    /** The library handle; `None` once the object has been dropped. */
    var handle: Option<nat>
    const workspace: Workspace

    constructor (h: nat, workspace: Workspace)
      ensures handle == Some(h) && this.workspace == workspace
    {
      handle := Some(h);
      this.workspace := workspace;
    }

    /** Takes the handle out and destroys it if there was one. */
    method Drop(lib: Vendor)
      modifies this, lib
      ensures handle == None
      ensures lib.log == old(lib.log) + (if old(handle).Some? then [Event(DestroyHandle(old(handle).value), true)] else [])
    {
      var h := handle;
      handle := None;
      if h.Some? {
        lib.Release(DestroyHandle(h.value));
      }
    }
  }

  datatype NewOutcome = Built(blas: CudaBlasLt) | Failed(error: CublasError) | WorkspacePanic

  /**
   * Creates the handle, then the workspace.  `deviceMajor` is the device's
   * compute capability, or `None` when binding the device, querying it or
   * allocating the buffer fails, which panics with the handle already created.
   */
  method NewCudaBlasLt(lib: Vendor, deviceMajor: Option<int>) returns (out: NewOutcome)
    modifies lib
    ensures lib.log == old(lib.log) + Execute([CreateHandle(|old(lib.log)|)], |old(lib.log)|, lib.fails)
    ensures lib.fails(|old(lib.log)|) ==> out == Failed(CublasError(CreateHandle(|old(lib.log)|)))
    ensures !lib.fails(|old(lib.log)|) && deviceMajor.None? ==> out == WorkspacePanic
    ensures !lib.fails(|old(lib.log)|) && deviceMajor.Some? ==>
              && out.Built? && fresh(out.blas)
              && out.blas.handle == Some(|old(lib.log)|)
              && out.blas.workspace == Workspace(WorkspaceSize(deviceMajor.value))
  {
    var h := |lib.log|;
    var ok := lib.Invoke(CreateHandle(h));
    if !ok {
      out := Failed(CublasError(CreateHandle(h)));
    } else if deviceMajor.None? {
      out := WorkspacePanic;
    } else {
      var blas := new CudaBlasLt(h, Workspace(WorkspaceSize(deviceMajor.value)));
      out := Built(blas);
    }
  }

  // ---------------------------------------------------------------------
  // Element types, transposes and epilogues
  // ---------------------------------------------------------------------

  datatype ElemType = ElemF32 | ElemF16 | ElemBF16 | ElemF8E4M3

  datatype Activation = Relu | Gelu

  datatype Matrix = A | B | C

  /** The library data type of a matrix of `elem`: each element type has its own. */
  function MatrixType(elem: ElemType): DataType {
    match elem
    case ElemF32 => R32F
    case ElemF16 => R16F
    case ElemBF16 => R16BF
    case ElemF8E4M3 => R8FE4M3
  }

  lemma MatrixTypeInjective(x: ElemType, y: ElemType)
    ensures MatrixType(x) == MatrixType(y) ==> x == y
  {
  }

  /** Only f32 matrices allow TF32 arithmetic; all others compute in plain f32. */
  function ComputeTypeOf(elem: ElemType): (c: ComputeType)
    ensures c == Compute32FFastTf32 <==> elem == ElemF32
  {
    if elem == ElemF32 then Compute32FFastTf32 else Compute32F
  }

  /** The transpose flag as the library reads it. */
  function TransposeCode(transpose: bool): (code: int)
    ensures 0 <= code <= 1
    ensures code != 0 <==> transpose
  {
    if transpose then 1 else 0
  }

  function TransposeAttr(transpose: bool, matrix: Matrix): DescAttr {
    match matrix
    case A => TransA(TransposeCode(transpose))
    case B => TransB(TransposeCode(transpose))
    case C => TransC(TransposeCode(transpose))
  }

  predicate HasBias(e: Epilogue) {
    e.EpilogueBias? || e.EpilogueReluBias? || e.EpilogueGeluBias?
  }

  function ActivationOf(e: Epilogue): Option<Activation> {
    match e
    case EpilogueRelu | EpilogueReluBias => Some(Relu)
    case EpilogueGelu | EpilogueGeluBias => Some(Gelu)
    case _ => None
  }

  /** The fused epilogue: adds the bias exactly when there is one and applies exactly the requested activation. */
  function EpilogueFor(hasBias: bool, act: Option<Activation>): (e: Epilogue)
    ensures HasBias(e) == hasBias
    ensures ActivationOf(e) == act
  {
    if hasBias then
      match act
      case Some(Relu) => EpilogueReluBias
      case Some(Gelu) => EpilogueGeluBias
      case None => EpilogueBias
    else
      match act
      case Some(Relu) => EpilogueRelu
      case Some(Gelu) => EpilogueGelu
      case None => EpilogueDefault
  }

  /** Every epilogue is reached, from its own bias flag and activation. */
  lemma EpilogueForIsOnto(e: Epilogue)
    ensures EpilogueFor(HasBias(e), ActivationOf(e)) == e
  {
  }

  // ---------------------------------------------------------------------
  // Operand shapes
  // ---------------------------------------------------------------------

  /** The shape of op(X) for a stored `rows` x `cols` matrix. */
  function OpShape(stored: (nat, nat), transpose: bool): (nat, nat) {
    if transpose then (stored.1, stored.0) else stored
  }

  datatype MatmulConfig = MatmulConfig(
    transa: bool, transb: bool, m: nat, n: nat, k: nat,
    lda: int, ldb: int, ldc: int,
    strideA: Option<int>, strideB: Option<int>, strideC: Option<int>, strideBias: Option<int>,
    batchSize: Option<int>)

  /** The stored shape of A: after the configured transpose it is m x k. */
  function ShapeA(cfg: MatmulConfig): (stored: (nat, nat))
    ensures OpShape(stored, cfg.transa) == (cfg.m, cfg.k)
  {
    if cfg.transa then (cfg.k, cfg.m) else (cfg.m, cfg.k)
  }

  /** The stored shape of B: after the configured transpose it is k x n. */
  function ShapeB(cfg: MatmulConfig): (stored: (nat, nat))
    ensures OpShape(stored, cfg.transb) == (cfg.k, cfg.n)
  {
    if cfg.transb then (cfg.n, cfg.k) else (cfg.k, cfg.n)
  }

  /** op(A) * op(B) is defined and has the shape of C. */
  lemma GeneralOperandsConform(cfg: MatmulConfig)
    ensures OpShape(ShapeA(cfg), cfg.transa).1 == OpShape(ShapeB(cfg), cfg.transb).0
    ensures (OpShape(ShapeA(cfg), cfg.transa).0, OpShape(ShapeB(cfg), cfg.transb).1) == (cfg.m, cfg.n)
  {
  }

  /** The fp8 path stores A as k x m and B as n x k whatever the flags say. */
  function Fp8ShapeA(cfg: MatmulConfig): (nat, nat) { (cfg.k, cfg.m) }

  function Fp8ShapeB(cfg: MatmulConfig): (nat, nat) { (cfg.n, cfg.k) }

  /**
   * Under the only flags the fp8 path accepts, its A agrees with the general
   * path; its B agrees with it exactly when n == k.
   */
  lemma Fp8ShapesAgainstGeneral(cfg: MatmulConfig)
    requires cfg.transa && !cfg.transb
    ensures Fp8ShapeA(cfg) == ShapeA(cfg)
    ensures OpShape(Fp8ShapeA(cfg), cfg.transa) == (cfg.m, cfg.k)
    ensures Fp8ShapeB(cfg) == ShapeB(cfg) <==> cfg.n == cfg.k
  {
  }

  // ---------------------------------------------------------------------
  // The RAII helpers.  Each class holds the handle of a library object and,
  // as one field, the attributes the library holds for that object.
  // ---------------------------------------------------------------------

  class MatrixLayout {
    const handle: nat
    /** The attributes the library holds for this layout, as last set. */
    var attrs: LayoutAttrs

    constructor (h: nat, t: DataType, rows: nat, cols: nat, ld: int)
      ensures handle == h
      ensures attrs == LayoutAttrs(h, t, rows, cols, ld, None, None)
    {
      handle := h;
      attrs := LayoutAttrs(h, t, rows, cols, ld, None, None);
    }

    static method New(lib: Vendor, t: DataType, rows: nat, cols: nat, ld: int) returns (r: Result<MatrixLayout, CublasError>)
      modifies lib
      ensures lib.log == old(lib.log) + Execute([CreateLayout(|old(lib.log)|, t, rows, cols, ld)], |old(lib.log)|, lib.fails)
      ensures r.Err? <==> lib.fails(|old(lib.log)|)
      ensures r.Err? ==> r.error == CublasError(CreateLayout(|old(lib.log)|, t, rows, cols, ld))
      ensures r.Ok? ==> && fresh(r.value) && r.value.handle == |old(lib.log)|
                        && r.value.attrs == LayoutAttrs(|old(lib.log)|, t, rows, cols, ld, None, None)
    {
      var h := |lib.log|;
      var ok := lib.Invoke(CreateLayout(h, t, rows, cols, ld));
      if ok {
        var layout := new MatrixLayout(h, t, rows, cols, ld);
        r := Ok(layout);
      } else {
        r := Err(CublasError(CreateLayout(h, t, rows, cols, ld)));
      }
    }

    /** Sets the batch count, then the batch stride, stopping at the first failure. */
    method SetBatch(lib: Vendor, size: int, stride: int) returns (r: Result<(), CublasError>)
      modifies this, lib
      ensures var n := |old(lib.log)|; var e := Execute(BatchPlan(handle, size, stride), n, lib.fails);
        && lib.log == old(lib.log) + e
        && r == Verdict(e)
        && attrs == old(attrs).(batchCount := if lib.fails(n) then old(attrs.batchCount) else Some(size),
                                batchStride := if r.Ok? then Some(stride) else old(attrs.batchStride))
    {
      ghost var n := |lib.log|;
      ExecuteCons(SetLayoutAttribute(handle, BatchCount(size)), [SetLayoutAttribute(handle, StridedBatchOffset(stride))], n, lib.fails);
      ExecuteCons(SetLayoutAttribute(handle, StridedBatchOffset(stride)), [], n + 1, lib.fails);
      var ok := lib.Invoke(SetLayoutAttribute(handle, BatchCount(size)));
      if !ok {
        return Err(CublasError(SetLayoutAttribute(handle, BatchCount(size))));
      }
      attrs := attrs.(batchCount := Some(size));
      ok := lib.Invoke(SetLayoutAttribute(handle, StridedBatchOffset(stride)));
      if !ok {
        return Err(CublasError(SetLayoutAttribute(handle, StridedBatchOffset(stride))));
      }
      attrs := attrs.(batchStride := Some(stride));
      r := Ok(());
    }

    method Drop(lib: Vendor)
      modifies lib
      ensures lib.log == old(lib.log) + [Event(DestroyLayout(handle), true)]
    {
      lib.Release(DestroyLayout(handle));
    }
  }

  /** A descriptor's attributes after the transpose of `matrix` is set. */
  function WithTranspose(attrs: DescAttrs, transpose: bool, matrix: Matrix): DescAttrs {
    match matrix
    case A => attrs.(transA := Some(TransposeCode(transpose)))
    case B => attrs.(transB := Some(TransposeCode(transpose)))
    case C => attrs.(transC := Some(TransposeCode(transpose)))
  }

  /** A descriptor's attributes after a successful bias setup: the pointer, and the stride when there is a bias. */
  function WithBias(attrs: DescAttrs, biasPtr: Option<nat>, strideBias: Option<int>): DescAttrs {
    attrs.(biasPointer := if biasPtr.Some? then biasPtr else attrs.biasPointer,
           biasBatchStride := if biasPtr.Some? && strideBias.Some? then strideBias else attrs.biasBatchStride)
  }

  /** A descriptor's attributes after a successful `set_epilogue`: the epilogue, and the bias attributes it sets. */
  function WithEpilogue(attrs: DescAttrs, act: Option<Activation>, biasPtr: Option<nat>, strideBias: Option<int>): DescAttrs {
    WithBias(attrs, biasPtr, strideBias).(epilogue := Some(EpilogueFor(biasPtr.Some?, act)))
  }

  class MatmulDesc {
    const handle: nat
    /** The attributes the library holds for this descriptor, as last set. */
    var attrs: DescAttrs

    /** The attributes recorded are this descriptor's own. */
    predicate Valid()
      reads this
    {
      attrs.handle == handle
    }

    constructor (h: nat, compute: ComputeType, scale: DataType)
      ensures handle == h
      ensures attrs == DescAttrs(h, compute, scale, None, None, None, None, None, None)
      ensures Valid()
    {
      handle := h;
      attrs := DescAttrs(h, compute, scale, None, None, None, None, None, None);
    }

    static method New(lib: Vendor, compute: ComputeType, scale: DataType) returns (r: Result<MatmulDesc, CublasError>)
      modifies lib
      ensures lib.log == old(lib.log) + Execute([CreateDesc(|old(lib.log)|, compute, scale)], |old(lib.log)|, lib.fails)
      ensures r.Err? <==> lib.fails(|old(lib.log)|)
      ensures r.Err? ==> r.error == CublasError(CreateDesc(|old(lib.log)|, compute, scale))
      ensures r.Ok? ==> && fresh(r.value) && r.value.handle == |old(lib.log)|
                        && r.value.attrs == DescAttrs(|old(lib.log)|, compute, scale, None, None, None, None, None, None)
                        && r.value.Valid()
    {
      var h := |lib.log|;
      var ok := lib.Invoke(CreateDesc(h, compute, scale));
      if ok {
        var desc := new MatmulDesc(h, compute, scale);
        r := Ok(desc);
      } else {
        r := Err(CublasError(CreateDesc(h, compute, scale)));
      }
    }

    /** Writes code 1 (transposed) or 0 into the TRANSA, TRANSB or TRANSC attribute. */
    method SetTranspose(lib: Vendor, transpose: bool, matrix: Matrix) returns (r: Result<(), CublasError>)
      modifies this, lib
      ensures var n := |old(lib.log)|; var c := SetDescAttribute(handle, TransposeAttr(transpose, matrix));
        && lib.log == old(lib.log) + Execute([c], n, lib.fails)
        && r == Verdict(Execute([c], n, lib.fails))
      ensures attrs == if r.Ok? then WithTranspose(old(attrs), transpose, matrix) else old(attrs)
      ensures old(Valid()) ==> Valid()
    {
      var c := SetDescAttribute(handle, TransposeAttr(transpose, matrix));
      ExecuteSingle(c, |lib.log|, lib.fails);
      var ok := lib.Invoke(c);
      if !ok {
        return Err(CublasError(c));
      }
      attrs := WithTranspose(attrs, transpose, matrix);
      r := Ok(());
    }

    /** With a bias: sets the bias pointer, then the bias batch stride if one is given. */
    method SetBias(lib: Vendor, biasPtr: Option<nat>, strideBias: Option<int>) returns (r: Result<(), CublasError>)
      modifies this, lib
      ensures var n := |old(lib.log)|; var e := Execute(BiasPlan(handle, biasPtr, strideBias), n, lib.fails);
        && lib.log == old(lib.log) + e
        && r == Verdict(e)
        && attrs == old(attrs).(
             biasPointer := if biasPtr.Some? && !lib.fails(n) then biasPtr else old(attrs.biasPointer),
             biasBatchStride := if biasPtr.Some? && strideBias.Some? && !lib.fails(n) && !lib.fails(n + 1)
                                then strideBias else old(attrs.biasBatchStride))
      ensures r.Ok? ==> attrs == WithBias(old(attrs), biasPtr, strideBias)
      ensures old(Valid()) ==> Valid()
    {
      if biasPtr.None? {
        return Ok(());
      }
      ghost var n := |lib.log|;
      var first := SetDescAttribute(handle, BiasPointer(biasPtr.value));
      var rest: seq<Call> := if strideBias.Some? then [SetDescAttribute(handle, BiasBatchStride(strideBias.value))] else [];
      assert BiasPlan(handle, biasPtr, strideBias) == [first] + rest;
      ExecuteCons(first, rest, n, lib.fails);
      var ok := lib.Invoke(first);
      if !ok {
        return Err(CublasError(first));
      }
      attrs := attrs.(biasPointer := biasPtr);
      if strideBias.Some? {
        assert rest == [rest[0]] + [];
        ExecuteCons(rest[0], [], n + 1, lib.fails);
        ok := lib.Invoke(rest[0]);
        if !ok {
          return Err(CublasError(rest[0]));
        }
        attrs := attrs.(biasBatchStride := strideBias);
      }
      r := Ok(());
    }

    /** Sets the bias attributes, then the epilogue that matches the bias and the activation. */
    method SetEpilogue(lib: Vendor, act: Option<Activation>, biasPtr: Option<nat>, strideBias: Option<int>)
      returns (r: Result<(), CublasError>)
      modifies this, lib
      ensures var n := |old(lib.log)|; var e := Execute(EpiloguePlan(handle, act, biasPtr, strideBias), n, lib.fails);
        && lib.log == old(lib.log) + e
        && r == Verdict(e)
        && attrs == old(attrs).(
             biasPointer := if biasPtr.Some? && !lib.fails(n) then biasPtr else old(attrs.biasPointer),
             biasBatchStride := if biasPtr.Some? && strideBias.Some? && !lib.fails(n) && !lib.fails(n + 1)
                                then strideBias else old(attrs.biasBatchStride),
             epilogue := if r.Ok? then Some(EpilogueFor(biasPtr.Some?, act)) else old(attrs.epilogue))
      ensures r.Ok? ==> attrs == WithEpilogue(old(attrs), act, biasPtr, strideBias)
      ensures old(Valid()) ==> Valid()
    {
      ghost var n := |lib.log|;
      ghost var f := lib.fails;
      ghost var log0 := lib.log;
      ghost var bias := BiasPlan(handle, biasPtr, strideBias);
      ghost var plan := EpiloguePlan(handle, act, biasPtr, strideBias);
      var last := SetDescAttribute(handle, EpilogueKind(EpilogueFor(biasPtr.Some?, act)));
      assert plan == bias + [last];
      ghost var eb := Execute(bias, n, f);
      ghost var el := Execute([last], n + |bias|, f);
      var rb := SetBias(lib, biasPtr, strideBias);
      assert (rb.Ok? <==> AllOk(eb)) && (rb.Ok? ==> |eb| == |bias|) by {
        assert [] + bias == bias;
        Advance([], bias, n, f);
      }
      if rb.Err? {
        assert Execute(plan, n, f) == eb && Verdict(Execute(plan, n, f)) == rb by {
          assert [] + bias == bias;
          StopsIn([], bias, [last], plan, n, f);
        }
        return rb;
      }
      var ok := lib.Invoke(last);
      assert el == [Event(last, ok)] && Verdict(el) == (if ok then Ok(()) else Err(CublasError(last))) by {
        ExecuteCons(last, [], n + |bias|, f);
        assert [last] + [] == [last];
      }
      assert Execute(plan, n, f) == eb + el && (ok ==> AllOk(Execute(plan, n, f))) by {
        Advance(bias, [last], n, f);
      }
      assert lib.log == log0 + Execute(plan, n, f) by {
        AppendAssoc(log0, eb, el);
      }
      if !ok {
        assert Verdict(Execute(plan, n, f)) == Err(CublasError(last)) by {
          StopsIn(bias, [last], [], plan, n, f);
        }
        return Err(CublasError(last));
      }
      attrs := attrs.(epilogue := Some(last.descAttr.epilogue));
      VerdictOfAllOk(Execute(plan, n, f));
      r := Ok(());
    }

    method Drop(lib: Vendor)
      modifies lib
      ensures lib.log == old(lib.log) + [Event(DestroyDesc(handle), true)]
    {
      lib.Release(DestroyDesc(handle));
    }
  }

  class MatmulPref {
    const handle: nat
    var maxWorkspaceBytes: Option<nat>

    constructor (h: nat)
      ensures handle == h && maxWorkspaceBytes == None
    {
      handle := h;
      maxWorkspaceBytes := None;
    }

    static method New(lib: Vendor) returns (r: Result<MatmulPref, CublasError>)
      modifies lib
      ensures lib.log == old(lib.log) + Execute([CreatePref(|old(lib.log)|)], |old(lib.log)|, lib.fails)
      ensures r.Err? <==> lib.fails(|old(lib.log)|)
      ensures r.Err? ==> r.error == CublasError(CreatePref(|old(lib.log)|))
      ensures r.Ok? ==> fresh(r.value) && r.value.handle == |old(lib.log)| && r.value.maxWorkspaceBytes == None
    {
      var h := |lib.log|;
      var ok := lib.Invoke(CreatePref(h));
      if ok {
        var pref := new MatmulPref(h);
        r := Ok(pref);
      } else {
        r := Err(CublasError(CreatePref(h)));
      }
    }

    method SetWorkspaceSize(lib: Vendor, size: nat) returns (r: Result<(), CublasError>)
      modifies this, lib
      ensures var n := |old(lib.log)|; var c := SetPrefAttribute(handle, MaxWorkspaceBytes(size));
        && lib.log == old(lib.log) + Execute([c], n, lib.fails)
        && r == Verdict(Execute([c], n, lib.fails))
      ensures maxWorkspaceBytes == (if r.Ok? then Some(size) else old(maxWorkspaceBytes))
    {
      var c := SetPrefAttribute(handle, MaxWorkspaceBytes(size));
      ExecuteSingle(c, |lib.log|, lib.fails);
      var ok := lib.Invoke(c);
      if !ok {
        return Err(CublasError(c));
      }
      maxWorkspaceBytes := Some(size);
      r := Ok(());
    }

    method Drop(lib: Vendor)
      modifies lib
      ensures lib.log == old(lib.log) + [Event(DestroyPref(handle), true)]
    {
      lib.Release(DestroyPref(handle));
    }
  }

  // ---------------------------------------------------------------------
  // Objects awaiting their drop at scope exit
  // ---------------------------------------------------------------------

  datatype Owned = OwnedLayout(layout: MatrixLayout) | OwnedDesc(desc: MatmulDesc) | OwnedPref(pref: MatmulPref)

  function DestroyCall(o: Owned): Call {
    match o
    case OwnedLayout(l) => DestroyLayout(l.handle)
    case OwnedDesc(d) => DestroyDesc(d.handle)
    case OwnedPref(p) => DestroyPref(p.handle)
  }

  /** The destroy calls of scope exit: the newest object first. */
  function DropEvents(live: seq<Owned>): seq<Event>
    decreases |live|
  {
    if live == [] then []
    else [Event(DestroyCall(live[|live| - 1]), true)] + DropEvents(live[..|live| - 1])
  }

  lemma {:induction false} DropEventsCons(o: Owned, live: seq<Owned>)
    ensures DropEvents([o] + live) == DropEvents(live) + [Event(DestroyCall(o), true)]
    decreases |live|
  {
    if live == [] {
      assert [o] + live == [o];
      assert [o][..0] == [];
    } else {
      var all := [o] + live;
      assert all[|all| - 1] == live[|live| - 1];
      assert all[..|all| - 1] == [o] + live[..|live| - 1];
      DropEventsCons(o, live[..|live| - 1]);
    }
  }

  lemma DropEventsPush(live: seq<Owned>, o: Owned)
    ensures DropEvents(live + [o]) == [Event(DestroyCall(o), true)] + DropEvents(live)
  {
    var all := live + [o];
    assert all[|all| - 1] == o;
    assert all[..|all| - 1] == live;
  }

  /** Drops every live object, the newest first. */
  method DropAll(lib: Vendor, live: seq<Owned>)
    modifies lib
    ensures lib.log == old(lib.log) + DropEvents(live)
  {
    var i := |live|;
    while i > 0
      invariant 0 <= i <= |live|
      invariant lib.log == old(lib.log) + DropEvents(live[i..])
    {
      i := i - 1;
      var o := live[i];
      match o {
        case OwnedLayout(l) => l.Drop(lib);
        case OwnedDesc(d) => d.Drop(lib);
        case OwnedPref(p) => p.Drop(lib);
      }
      assert live[i..] == [o] + live[i + 1..];
      DropEventsCons(o, live[i + 1..]);
    }
  }

  // ---------------------------------------------------------------------
  // Plans
  // ---------------------------------------------------------------------

  function BatchPlan(h: nat, size: int, stride: int): seq<Call> {
    [SetLayoutAttribute(h, BatchCount(size)), SetLayoutAttribute(h, StridedBatchOffset(stride))]
  }

  /** The number of calls a layout takes: its creation, then the two batch attributes when batched. */
  function LayoutSpan(batch: Option<int>, stride: Option<int>): nat {
    if batch.Some? && stride.Some? then 3 else 1
  }

  /** A layout, batched only when both a batch size and a stride are given. */
  function LayoutPlan(h: nat, t: DataType, stored: (nat, nat), ld: int, batch: Option<int>, stride: Option<int>)
    : (plan: seq<Call>)
    ensures |plan| == LayoutSpan(batch, stride)
  {
    [CreateLayout(h, t, stored.0, stored.1, ld)]
    + (if batch.Some? && stride.Some? then BatchPlan(h, batch.value, stride.value) else [])
  }

  function LayoutAfter(h: nat, t: DataType, stored: (nat, nat), ld: int, batch: Option<int>, stride: Option<int>): LayoutAttrs {
    var batched := batch.Some? && stride.Some?;
    LayoutAttrs(h, t, stored.0, stored.1, ld, if batched then batch else None, if batched then stride else None)
  }

  function TransposePlan(h: nat, transa: bool, transb: bool): seq<Call> {
    [SetDescAttribute(h, TransposeAttr(transa, A)), SetDescAttribute(h, TransposeAttr(transb, B))]
  }

  function DescPlan(h: nat, compute: ComputeType, transa: bool, transb: bool): seq<Call> {
    [CreateDesc(h, compute, R32F)] + TransposePlan(h, transa, transb)
  }

  /** The bias attributes are set only with a bias, the stride only with a bias and a stride. */
  function BiasPlan(h: nat, biasPtr: Option<nat>, strideBias: Option<int>): seq<Call> {
    if biasPtr.Some? then
      [SetDescAttribute(h, BiasPointer(biasPtr.value))]
      + (if strideBias.Some? then [SetDescAttribute(h, BiasBatchStride(strideBias.value))] else [])
    else []
  }

  function EpiloguePlan(h: nat, act: Option<Activation>, biasPtr: Option<nat>, strideBias: Option<int>): seq<Call> {
    BiasPlan(h, biasPtr, strideBias) + [SetDescAttribute(h, EpilogueKind(EpilogueFor(biasPtr.Some?, act)))]
  }

  function DescAfter(h: nat, compute: ComputeType, transa: bool, transb: bool,
                     act: Option<Activation>, biasPtr: Option<nat>, strideBias: Option<int>): DescAttrs {
    DescAttrs(h, compute, R32F, Some(TransposeCode(transa)), Some(TransposeCode(transb)), None,
              Some(EpilogueFor(biasPtr.Some?, act)), biasPtr, if biasPtr.Some? then strideBias else None)
  }

  function PrefPlan(h: nat, ws: nat): seq<Call> {
    [CreatePref(h), SetPrefAttribute(h, MaxWorkspaceBytes(ws))]
  }

  /** The objects one matmul call creates, named by their handles. */
  datatype Handles = Handles(a: nat, b: nat, c: nat, d: nat, desc: nat, pref: nat)

  /** A, B and C for `matmul`, each batched when the batch size and its own stride are given. */
  function GeneralLayoutsPlan(t: DataType, cfg: MatmulConfig, at: nat): seq<Call> {
    var b := at + LayoutSpan(cfg.batchSize, cfg.strideA);
    var c := b + LayoutSpan(cfg.batchSize, cfg.strideB);
    LayoutPlan(at, t, ShapeA(cfg), cfg.lda, cfg.batchSize, cfg.strideA)
    + (LayoutPlan(b, t, ShapeB(cfg), cfg.ldb, cfg.batchSize, cfg.strideB)
    + LayoutPlan(c, t, (cfg.m, cfg.n), cfg.ldc, cfg.batchSize, cfg.strideC))
  }

  /** The descriptor with both transposes, then its epilogue. */
  function ConfiguredDescPlan(h: nat, compute: ComputeType, transa: bool, transb: bool,
                              act: Option<Activation>, biasPtr: Option<nat>, strideBias: Option<int>): seq<Call> {
    DescPlan(h, compute, transa, transb) + EpiloguePlan(h, act, biasPtr, strideBias)
  }

  /** The heuristic query over the objects `h`, then the launch. */
  function LaunchPlan(lt: nat, h: Handles, args: LaunchArgs): seq<Call> {
    [QueryHeuristic(lt, h.desc, h.a, h.b, h.c, h.d, h.pref), Launch(args)]
  }

  /** The common tail of both entry points: the preferences, then the query and the launch. */
  function TailPlan(lt: nat, ws: nat, h: Handles, args: LaunchArgs): seq<Call> {
    PrefPlan(h.pref, ws) + LaunchPlan(lt, h, args)
  }

  /** The handles of `matmul`'s objects when its first call gets ordinal `at`; C doubles as D. */
  function GeneralHandles(cfg: MatmulConfig, biasPtr: Option<nat>, act: Option<Activation>, at: nat): Handles {
    var b := at + LayoutSpan(cfg.batchSize, cfg.strideA);
    var c := b + LayoutSpan(cfg.batchSize, cfg.strideB);
    var desc := c + LayoutSpan(cfg.batchSize, cfg.strideC);
    var pref := desc + 3 + |EpiloguePlan(desc, act, biasPtr, cfg.strideBias)|;
    Handles(at, b, c, c, desc, pref)
  }

  /** What the launch of `matmul` sees: the descriptor and the A, B, C layouts as configured, C also as D. */
  function GeneralLaunchArgs(lt: nat, elem: ElemType, cfg: MatmulConfig, biasPtr: Option<nat>, act: Option<Activation>,
                             ws: nat, h: Handles): LaunchArgs {
    var t := MatrixType(elem);
    var cLayout := LayoutAfter(h.c, t, (cfg.m, cfg.n), cfg.ldc, cfg.batchSize, cfg.strideC);
    LaunchArgs(lt,
               DescAfter(h.desc, ComputeTypeOf(elem), cfg.transa, cfg.transb, act, biasPtr, cfg.strideBias),
               LayoutAfter(h.a, t, ShapeA(cfg), cfg.lda, cfg.batchSize, cfg.strideA),
               LayoutAfter(h.b, t, ShapeB(cfg), cfg.ldb, cfg.batchSize, cfg.strideB),
               cLayout, cLayout, ws)
  }

  /** The calls `matmul` makes when nothing fails; its first call gets ordinal `at`. */
  function GeneralPlan(lt: nat, elem: ElemType, cfg: MatmulConfig, biasPtr: Option<nat>, act: Option<Activation>,
                       ws: nat, at: nat): seq<Call> {
    var h := GeneralHandles(cfg, biasPtr, act, at);
    GeneralLayoutsPlan(MatrixType(elem), cfg, at)
    + (ConfiguredDescPlan(h.desc, ComputeTypeOf(elem), cfg.transa, cfg.transb, act, biasPtr, cfg.strideBias)
    + TailPlan(lt, ws, h, GeneralLaunchArgs(lt, elem, cfg, biasPtr, act, ws, h)))
  }

  /** Two unbatched layouts, created one after the other. */
  function LayoutPairPlan(at: nat, t1: DataType, stored1: (nat, nat), ld1: int,
                          t2: DataType, stored2: (nat, nat), ld2: int): (plan: seq<Call>)
    ensures |plan| == 2
  {
    LayoutPlan(at, t1, stored1, ld1, None, None) + LayoutPlan(at + 1, t2, stored2, ld2, None, None)
  }

  /** A and B as stored for fp8, the bf16 output C, then D, none of them batched. */
  function Fp8LayoutsPlan(t: DataType, cfg: MatmulConfig, at: nat): seq<Call> {
    LayoutPairPlan(at, t, Fp8ShapeA(cfg), cfg.lda, t, Fp8ShapeB(cfg), cfg.ldb)
    + LayoutPairPlan(at + 2, R16BF, (cfg.m, cfg.n), cfg.ldc, t, (cfg.m, cfg.n), cfg.ldc)
  }

  /** A descriptor's attributes once it is created and both transposes are set. */
  function TransposedDesc(h: nat, compute: ComputeType, transa: bool, transb: bool): DescAttrs {
    DescAttrs(h, compute, R32F, Some(TransposeCode(transa)), Some(TransposeCode(transb)), None, None, None, None)
  }

  /**
   * The objects `matmul_fp8_like` queries the heuristic over: the four
   * layouts from ordinal `at`, its descriptor, and the preferences created
   * after the `pe` epilogue calls.
   */
  function Fp8Handles(desc: nat, pe: seq<Call>, at: nat): Handles {
    Handles(at, at + 1, at + 2, at + 3, desc, at + 4 + |pe|)
  }

  /** What `matmul_fp8_like` launches with: the bf16 C layout is passed as both C and D. */
  function Fp8LaunchArgs(lt: nat, ws: nat, t: DataType, cfg: MatmulConfig, act: Option<Activation>,
                         biasPtr: Option<nat>, desc: DescAttrs, at: nat): LaunchArgs {
    var cLayout := LayoutAfter(at + 2, R16BF, (cfg.m, cfg.n), cfg.ldc, None, None);
    LaunchArgs(lt, WithEpilogue(desc, act, biasPtr, cfg.strideBias),
               LayoutAfter(at, t, Fp8ShapeA(cfg), cfg.lda, None, None),
               LayoutAfter(at + 1, t, Fp8ShapeB(cfg), cfg.ldb, None, None),
               cLayout, cLayout, ws)
  }

  /**
   * What `matmul_fp8_like` does once its descriptor `desc` exists: the four
   * layouts from ordinal `at`, the epilogue on `desc`, the preferences, then
   * the query over A, B, C, D and the launch.
   */
  function Fp8AfterDescPlan(lt: nat, ws: nat, t: DataType, cfg: MatmulConfig, act: Option<Activation>,
                            biasPtr: Option<nat>, desc: DescAttrs, at: nat): seq<Call> {
    var pe := EpiloguePlan(desc.handle, act, biasPtr, cfg.strideBias);
    Fp8LayoutsPlan(t, cfg, at)
    + (pe + TailPlan(lt, ws, Fp8Handles(desc.handle, pe, at), Fp8LaunchArgs(lt, ws, t, cfg, act, biasPtr, desc, at)))
  }

  /** The calls `matmul_fp8_like` makes when nothing fails and its asserts hold: the descriptor comes first. */
  function Fp8Plan(lt: nat, elem: ElemType, cfg: MatmulConfig, biasPtr: Option<nat>, act: Option<Activation>,
                   ws: nat, at: nat): seq<Call> {
    DescPlan(at, Compute32F, cfg.transa, cfg.transb)
    + Fp8AfterDescPlan(lt, ws, MatrixType(elem), cfg, act, biasPtr,
                       TransposedDesc(at, Compute32F, cfg.transa, cfg.transb), at + 3)
  }

  // ---------------------------------------------------------------------
  // Steps of a matmul call.  Each issues one part `p` of the plan, stopping at
  // its first failure, and pushes what it created onto `live`, the objects
  // to drop at scope exit.
  // ---------------------------------------------------------------------

  /** A library call whose failure is returned with `?`. */
  method CallChecked(lib: Vendor, c: Call) returns (r: Result<(), CublasError>)
    requires !IsCreation(c) && !IsDestruction(c)
    modifies lib
    ensures var n := |old(lib.log)|; var e := Execute([c], n, lib.fails);
      && lib.log == old(lib.log) + e
      && r == Verdict(e)
      && Releases(e) == []
  {
    ghost var n := |lib.log|;
    ExecuteCons(c, [], n, lib.fails);
    assert [c] + [] == [c];
    var ok := lib.Invoke(c);
    r := if ok then Ok(()) else Err(CublasError(c));
  }

  /** Creates a layout with no batch attribute set. */
  method NewLayout(lib: Vendor, live: seq<Owned>, t: DataType, stored: (nat, nat), ld: int)
    returns (live': seq<Owned>, layout: Option<MatrixLayout>, r: Result<(), CublasError>)
    modifies lib
    ensures Segment(old(lib.log), lib.log, DropEvents(live), DropEvents(live'),
                    [CreateLayout(|old(lib.log)|, t, stored.0, stored.1, ld)], |old(lib.log)|, lib.fails, r)
    ensures r.Ok? ==> && layout.Some? && fresh(layout.value) && layout.value.handle == |old(lib.log)|
                      && layout.value.attrs == LayoutAttrs(|old(lib.log)|, t, stored.0, stored.1, ld, None, None)
  {
    ghost var n := |lib.log|;
    var created := MatrixLayout.New(lib, t, stored.0, stored.1, ld);
    ExecuteSingle(CreateLayout(n, t, stored.0, stored.1, ld), n, lib.fails);
    if created.Err? {
      return live, None, Err(created.error);
    }
    live' := live + [OwnedLayout(created.value)];
    DropEventsPush(live, OwnedLayout(created.value));
    layout := Some(created.value);
    r := Ok(());
  }

  /** Creates a layout and batches it when both a batch size and a stride are given. */
  method NewOperandLayout(lib: Vendor, live: seq<Owned>, t: DataType, stored: (nat, nat), ld: int,
                          batch: Option<int>, stride: Option<int>)
    returns (live': seq<Owned>, layout: Option<MatrixLayout>, r: Result<(), CublasError>)
    modifies lib
    ensures Segment(old(lib.log), lib.log, DropEvents(live), DropEvents(live'),
                    LayoutPlan(|old(lib.log)|, t, stored, ld, batch, stride), |old(lib.log)|, lib.fails, r)
    ensures r.Ok? ==> && layout.Some? && fresh(layout.value) && layout.value.handle == |old(lib.log)|
                      && layout.value.attrs == LayoutAfter(|old(lib.log)|, t, stored, ld, batch, stride)
  {
    ghost var n := |lib.log|;
    ghost var f := lib.fails;
    ghost var log0 := lib.log;
    ghost var d0 := DropEvents(live);
    ghost var create := CreateLayout(n, t, stored.0, stored.1, ld);
    ghost var batching: seq<Call> := if batch.Some? && stride.Some? then BatchPlan(n, batch.value, stride.value) else [];
    assert LayoutPlan(n, t, stored, ld, batch, stride) == [create] + batching;
    live', layout, r := NewLayout(lib, live, t, stored, ld);
    ghost var log1 := lib.log;
    ghost var d1 := DropEvents(live');
    if r.Err? {
      SegmentStops(log0, log1, d0, d1, [create], batching, n, f, r);
      return;
    }
    if !(batch.Some? && stride.Some?) {
      assert [create] + batching == [create];
      return;
    }
    SegmentLength(log0, log1, d0, d1, [create], n, f, r);
    var rb := layout.value.SetBatch(lib, batch.value, stride.value);
    ConfigReleases(batching, n + 1, f);
    SegmentThen(log0, log1, lib.log, d0, d1, d1, [create], batching, n, n + 1, f, r, rb);
    r := rb;
  }


  /** Creates a descriptor with a 32-bit float scale type and no attribute set. */
  method NewDesc(lib: Vendor, live: seq<Owned>, compute: ComputeType)
    returns (live': seq<Owned>, desc: Option<MatmulDesc>, r: Result<(), CublasError>)
    modifies lib
    ensures Segment(old(lib.log), lib.log, DropEvents(live), DropEvents(live'),
                    [CreateDesc(|old(lib.log)|, compute, R32F)], |old(lib.log)|, lib.fails, r)
    ensures r.Ok? ==> && desc.Some? && fresh(desc.value) && desc.value.handle == |old(lib.log)|
                      && desc.value.attrs == DescAttrs(|old(lib.log)|, compute, R32F, None, None, None, None, None, None)
  {
    ghost var n := |lib.log|;
    var created := MatmulDesc.New(lib, compute, R32F);
    ExecuteSingle(CreateDesc(n, compute, R32F), n, lib.fails);
    if created.Err? {
      return live, None, Err(created.error);
    }
    live' := live + [OwnedDesc(created.value)];
    DropEventsPush(live, OwnedDesc(created.value));
    desc := Some(created.value);
    r := Ok(());
  }

  /** Creates a descriptor and sets the transposes of A and B. */
  method NewTransposedDesc(lib: Vendor, live: seq<Owned>, compute: ComputeType, transa: bool, transb: bool)
    returns (live': seq<Owned>, desc: Option<MatmulDesc>, r: Result<(), CublasError>)
    modifies lib
    ensures Segment(old(lib.log), lib.log, DropEvents(live), DropEvents(live'),
                    DescPlan(|old(lib.log)|, compute, transa, transb), |old(lib.log)|, lib.fails, r)
    ensures r.Ok? ==> && desc.Some? && fresh(desc.value) && desc.value.handle == |old(lib.log)|
                      && desc.value.attrs == TransposedDesc(|old(lib.log)|, compute, transa, transb)
                      && desc.value.Valid()
  {
    ghost var n := |lib.log|;
    ghost var f := lib.fails;
    ghost var log0 := lib.log;
    ghost var d0 := DropEvents(live);
    ghost var create := CreateDesc(n, compute, R32F);
    ghost var sets := TransposePlan(n, transa, transb);
    live', desc, r := NewDesc(lib, live, compute);
    ghost var log1 := lib.log;
    ghost var d1 := DropEvents(live');
    if r.Err? {
      SegmentStops(log0, log1, d0, d1, [create], sets, n, f, r);
      return;
    }
    SegmentLength(log0, log1, d0, d1, [create], n, f, r);
    assert WithTranspose(WithTranspose(desc.value.attrs, transa, A), transb, B) == TransposedDesc(n, compute, transa, transb);
    var rt := SetTransposes(lib, desc.value, transa, transb);
    SegmentThen(log0, log1, lib.log, d0, d1, d1, [create], sets, n, n + 1, f, r, rt);
    r := rt;
  }

  /** Sets the transpose of A, then that of B, stopping at the first failure. */
  method SetTransposes(lib: Vendor, desc: MatmulDesc, transa: bool, transb: bool) returns (r: Result<(), CublasError>)
    modifies lib, desc
    ensures var e := Execute(TransposePlan(desc.handle, transa, transb), |old(lib.log)|, lib.fails);
      && lib.log == old(lib.log) + e
      && r == Verdict(e)
      && Releases(e) == []
    ensures desc.attrs == if r.Ok? then WithTranspose(WithTranspose(old(desc.attrs), transa, A), transb, B)
                          else if lib.fails(|old(lib.log)|) then old(desc.attrs)
                          else WithTranspose(old(desc.attrs), transa, A)
  {
    ghost var n := |lib.log|;
    ghost var f := lib.fails;
    ghost var log0 := lib.log;
    ghost var setA := SetDescAttribute(desc.handle, TransposeAttr(transa, A));
    ghost var setB := SetDescAttribute(desc.handle, TransposeAttr(transb, B));
    assert TransposePlan(desc.handle, transa, transb) == [setA] + [setB];
    ConfigReleases(TransposePlan(desc.handle, transa, transb), n, f);
    r := desc.SetTranspose(lib, transa, A);
    ExecuteSingle(setA, n, f);
    ghost var log1 := lib.log;
    if r.Err? {
      SegmentStops(log0, log1, [], [], [setA], [setB], n, f, r);
      return;
    }
    ghost var ra := r;
    r := desc.SetTranspose(lib, transb, B);
    ExecuteSingle(setB, n + 1, f);
    SegmentThen(log0, log1, lib.log, [], [], [], [setA], [setB], n, n + 1, f, ra, r);
  }

  /** Creates the heuristic preferences with no attribute set. */
  method NewPref(lib: Vendor, live: seq<Owned>)
    returns (live': seq<Owned>, pref: Option<MatmulPref>, r: Result<(), CublasError>)
    modifies lib
    ensures Segment(old(lib.log), lib.log, DropEvents(live), DropEvents(live'),
                    [CreatePref(|old(lib.log)|)], |old(lib.log)|, lib.fails, r)
    ensures r.Ok? ==> && pref.Some? && fresh(pref.value)
                      && pref.value.handle == |old(lib.log)| && pref.value.maxWorkspaceBytes == None
  {
    ghost var n := |lib.log|;
    var created := MatmulPref.New(lib);
    ExecuteSingle(CreatePref(n), n, lib.fails);
    if created.Err? {
      return live, None, Err(created.error);
    }
    live' := live + [OwnedPref(created.value)];
    DropEventsPush(live, OwnedPref(created.value));
    pref := Some(created.value);
    r := Ok(());
  }

  /** Creates the heuristic preferences and sets the workspace limit. */
  method NewWorkspacePref(lib: Vendor, live: seq<Owned>, ws: nat)
    returns (live': seq<Owned>, pref: Option<MatmulPref>, r: Result<(), CublasError>)
    modifies lib
    ensures Segment(old(lib.log), lib.log, DropEvents(live), DropEvents(live'),
                    PrefPlan(|old(lib.log)|, ws), |old(lib.log)|, lib.fails, r)
    ensures r.Ok? ==> && pref.Some? && fresh(pref.value)
                      && pref.value.handle == |old(lib.log)| && pref.value.maxWorkspaceBytes == Some(ws)
  {
    ghost var n := |lib.log|;
    ghost var f := lib.fails;
    ghost var log0 := lib.log;
    ghost var d0 := DropEvents(live);
    ghost var create := CreatePref(n);
    ghost var setWs := SetPrefAttribute(n, MaxWorkspaceBytes(ws));
    assert PrefPlan(n, ws) == [create] + [setWs];
    live', pref, r := NewPref(lib, live);
    ghost var log1 := lib.log;
    ghost var d1 := DropEvents(live');
    if r.Err? {
      SegmentStops(log0, log1, d0, d1, [create], [setWs], n, f, r);
      return;
    }
    SegmentLength(log0, log1, d0, d1, [create], n, f, r);
    var rw := pref.value.SetWorkspaceSize(lib, ws);
    ConfigReleases([setWs], n + 1, f);
    SegmentThen(log0, log1, lib.log, d0, d1, d1, [create], [setWs], n, n + 1, f, r, rw);
    r := rw;
  }

  /** Sets the epilogue on a live descriptor; nothing is created. */
  method ConfigureEpilogue(lib: Vendor, desc: MatmulDesc, act: Option<Activation>, biasPtr: Option<nat>, strideBias: Option<int>)
    returns (r: Result<(), CublasError>)
    modifies lib, desc
    ensures var n := |old(lib.log)|; var e := Execute(EpiloguePlan(desc.handle, act, biasPtr, strideBias), n, lib.fails);
      && lib.log == old(lib.log) + e
      && r == Verdict(e)
      && Releases(e) == []
    ensures r.Ok? ==> desc.attrs == WithEpilogue(old(desc.attrs), act, biasPtr, strideBias)
  {
    ghost var n := |lib.log|;
    r := desc.SetEpilogue(lib, act, biasPtr, strideBias);
    ConfigReleases(EpiloguePlan(desc.handle, act, biasPtr, strideBias), n, lib.fails);
  }


  // ---------------------------------------------------------------------
  // Composing the steps
  // ---------------------------------------------------------------------

  /**
   * What a stretch of a matmul call does: it issues the plan part `p` from
   * ordinal `n` until the first failure, taking the library log from `log0`
   * to `log1`; the releases of what it created go on top of the pending
   * drops `d0`, giving `d1`; and `r` is the verdict of its calls.
   */
  ghost predicate Segment(log0: seq<Event>, log1: seq<Event>, d0: seq<Event>, d1: seq<Event>,
                          p: seq<Call>, n: nat, fails: nat -> bool, r: Result<(), CublasError>)
  {
    var e := Execute(p, n, fails);
    log1 == log0 + e && d1 == Releases(e) + d0 && r == Verdict(e)
  }

  /** A failed stretch ends the call: whatever was planned after it never runs. */
  lemma SegmentStops(log0: seq<Event>, log1: seq<Event>, d0: seq<Event>, d1: seq<Event>,
                     p: seq<Call>, q: seq<Call>, n: nat, fails: nat -> bool, r: Result<(), CublasError>)
    requires Segment(log0, log1, d0, d1, p, n, fails, r) && r.Err?
    ensures Segment(log0, log1, d0, d1, p + q, n, fails, r)
  {
    Then(p, q, n, fails);
  }

  /** After a stretch that succeeded from `n == |log0|`, the next call gets ordinal `n + |p|`. */
  lemma SegmentLength(log0: seq<Event>, log1: seq<Event>, d0: seq<Event>, d1: seq<Event>,
                      p: seq<Call>, n: nat, fails: nat -> bool, r: Result<(), CublasError>)
    requires Segment(log0, log1, d0, d1, p, n, fails, r) && r.Ok? && |log0| == n
    ensures |log1| == n + |p|
  {
    Then(p, [], n, fails);
  }

  /** A succeeded stretch followed by the next one is one stretch over both parts. */
  lemma SegmentThen(log0: seq<Event>, log1: seq<Event>, log2: seq<Event>,
                    d0: seq<Event>, d1: seq<Event>, d2: seq<Event>,
                    p: seq<Call>, q: seq<Call>, n: nat, m: nat, fails: nat -> bool,
                    r1: Result<(), CublasError>, r2: Result<(), CublasError>)
    requires Segment(log0, log1, d0, d1, p, n, fails, r1) && r1.Ok?
    requires m == n + |p| && Segment(log1, log2, d1, d2, q, m, fails, r2)
    ensures Segment(log0, log2, d0, d2, p + q, n, fails, r2)
  {
    Then(p, q, n, fails);
    AppendAssoc(log0, Execute(p, n, fails), Execute(q, n + |p|, fails));
    AppendAssoc(Releases(Execute(q, n + |p|, fails)), Releases(Execute(p, n, fails)), d0);
  }

  /** The layouts of A, B and C for `matmul`, each with its batch attributes. */
  method NewGeneralLayouts(lib: Vendor, live: seq<Owned>, t: DataType, cfg: MatmulConfig)
    returns (live': seq<Owned>, a: Option<MatrixLayout>, b: Option<MatrixLayout>, c: Option<MatrixLayout>,
             r: Result<(), CublasError>)
    modifies lib
    ensures Segment(old(lib.log), lib.log, DropEvents(live), DropEvents(live'),
                    GeneralLayoutsPlan(t, cfg, |old(lib.log)|), |old(lib.log)|, lib.fails, r)
    ensures r.Ok? ==>
      var hb := |old(lib.log)| + LayoutSpan(cfg.batchSize, cfg.strideA);
      var hc := hb + LayoutSpan(cfg.batchSize, cfg.strideB);
      && a.Some? && b.Some? && c.Some? && fresh(a.value) && fresh(b.value) && fresh(c.value)
      && a.value.handle == |old(lib.log)| && b.value.handle == hb && c.value.handle == hc
      && a.value.attrs == LayoutAfter(|old(lib.log)|, t, ShapeA(cfg), cfg.lda, cfg.batchSize, cfg.strideA)
      && b.value.attrs == LayoutAfter(hb, t, ShapeB(cfg), cfg.ldb, cfg.batchSize, cfg.strideB)
      && c.value.attrs == LayoutAfter(hc, t, (cfg.m, cfg.n), cfg.ldc, cfg.batchSize, cfg.strideC)
  {
    ghost var n := |lib.log|;
    ghost var f := lib.fails;
    ghost var log0 := lib.log;
    ghost var hb := n + LayoutSpan(cfg.batchSize, cfg.strideA);
    ghost var hc := hb + LayoutSpan(cfg.batchSize, cfg.strideB);
    ghost var pa := LayoutPlan(n, t, ShapeA(cfg), cfg.lda, cfg.batchSize, cfg.strideA);
    ghost var pb := LayoutPlan(hb, t, ShapeB(cfg), cfg.ldb, cfg.batchSize, cfg.strideB);
    ghost var pc := LayoutPlan(hc, t, (cfg.m, cfg.n), cfg.ldc, cfg.batchSize, cfg.strideC);
    var liveA, liveB, rb, rc;
    liveA, a, r := NewOperandLayout(lib, live, t, ShapeA(cfg), cfg.lda, cfg.batchSize, cfg.strideA);
    ghost var log1 := lib.log;
    if r.Err? {
      SegmentStops(log0, log1, DropEvents(live), DropEvents(liveA), pa, pb + pc, n, f, r);
      return liveA, a, None, None, r;
    }
    SegmentLength(log0, log1, DropEvents(live), DropEvents(liveA), pa, n, f, r);
    liveB, b, rb := NewOperandLayout(lib, liveA, t, ShapeB(cfg), cfg.ldb, cfg.batchSize, cfg.strideB);
    ghost var log2 := lib.log;
    if rb.Err? {
      SegmentStops(log1, log2, DropEvents(liveA), DropEvents(liveB), pb, pc, hb, f, rb);
      SegmentThen(log0, log1, log2, DropEvents(live), DropEvents(liveA), DropEvents(liveB), pa, pb + pc, n, hb, f, r, rb);
      return liveB, a, b, None, rb;
    }
    SegmentLength(log1, log2, DropEvents(liveA), DropEvents(liveB), pb, hb, f, rb);
    live', c, rc := NewOperandLayout(lib, liveB, t, (cfg.m, cfg.n), cfg.ldc, cfg.batchSize, cfg.strideC);
    SegmentThen(log1, log2, lib.log, DropEvents(liveA), DropEvents(liveB), DropEvents(live'), pb, pc, hb, hc, f, rb, rc);
    SegmentThen(log0, log1, lib.log, DropEvents(live), DropEvents(liveA), DropEvents(live'), pa, pb + pc, n, hb, f, r, rc);
    r := rc;
  }

  /** Two unbatched layouts, the second created only when the first was. */
  method NewLayoutPair(lib: Vendor, live: seq<Owned>, t1: DataType, stored1: (nat, nat), ld1: int,
                       t2: DataType, stored2: (nat, nat), ld2: int)
    returns (live': seq<Owned>, x: Option<MatrixLayout>, y: Option<MatrixLayout>, r: Result<(), CublasError>)
    modifies lib
    ensures Segment(old(lib.log), lib.log, DropEvents(live), DropEvents(live'),
                    LayoutPairPlan(|old(lib.log)|, t1, stored1, ld1, t2, stored2, ld2), |old(lib.log)|, lib.fails, r)
    ensures r.Ok? ==>
      var n := |old(lib.log)|;
      && x.Some? && y.Some? && fresh(x.value) && fresh(y.value)
      && x.value.handle == n && y.value.handle == n + 1
      && x.value.attrs == LayoutAfter(n, t1, stored1, ld1, None, None)
      && y.value.attrs == LayoutAfter(n + 1, t2, stored2, ld2, None, None)
  {
    ghost var n := |lib.log|;
    ghost var f := lib.fails;
    ghost var log0 := lib.log;
    ghost var d0 := DropEvents(live);
    ghost var px := LayoutPlan(n, t1, stored1, ld1, None, None);
    ghost var py := LayoutPlan(n + 1, t2, stored2, ld2, None, None);
    var liveX, ry;
    liveX, x, r := NewOperandLayout(lib, live, t1, stored1, ld1, None, None);
    ghost var log1 := lib.log;
    ghost var d1 := DropEvents(liveX);
    if r.Err? {
      SegmentStops(log0, log1, d0, d1, px, py, n, f, r);
      return liveX, x, None, r;
    }
    SegmentLength(log0, log1, d0, d1, px, n, f, r);
    live', y, ry := NewOperandLayout(lib, liveX, t2, stored2, ld2, None, None);
    SegmentThen(log0, log1, lib.log, d0, d1, DropEvents(live'), px, py, n, n + 1, f, r, ry);
    r := ry;
  }

  /** The four layouts of `matmul_fp8_like`: A and B of the element type, C in bf16, D of the element type. */
  method NewFp8Layouts(lib: Vendor, live: seq<Owned>, t: DataType, cfg: MatmulConfig)
    returns (live': seq<Owned>, a: Option<MatrixLayout>, b: Option<MatrixLayout>, c: Option<MatrixLayout>,
             d: Option<MatrixLayout>, r: Result<(), CublasError>)
    modifies lib
    ensures Segment(old(lib.log), lib.log, DropEvents(live), DropEvents(live'),
                    Fp8LayoutsPlan(t, cfg, |old(lib.log)|), |old(lib.log)|, lib.fails, r)
    ensures r.Ok? ==>
      var n := |old(lib.log)|;
      && a.Some? && b.Some? && c.Some? && d.Some?
      && fresh(a.value) && fresh(b.value) && fresh(c.value) && fresh(d.value)
      && a.value.handle == n && b.value.handle == n + 1 && c.value.handle == n + 2 && d.value.handle == n + 3
      && a.value.attrs == LayoutAfter(n, t, Fp8ShapeA(cfg), cfg.lda, None, None)
      && b.value.attrs == LayoutAfter(n + 1, t, Fp8ShapeB(cfg), cfg.ldb, None, None)
      && c.value.attrs == LayoutAfter(n + 2, R16BF, (cfg.m, cfg.n), cfg.ldc, None, None)
      && d.value.attrs == LayoutAfter(n + 3, t, (cfg.m, cfg.n), cfg.ldc, None, None)
  {
    ghost var n := |lib.log|;
    ghost var f := lib.fails;
    ghost var log0 := lib.log;
    ghost var d0 := DropEvents(live);
    ghost var inputs := LayoutPairPlan(n, t, Fp8ShapeA(cfg), cfg.lda, t, Fp8ShapeB(cfg), cfg.ldb);
    ghost var outputs := LayoutPairPlan(n + 2, R16BF, (cfg.m, cfg.n), cfg.ldc, t, (cfg.m, cfg.n), cfg.ldc);
    var liveAB, ro;
    liveAB, a, b, r := NewLayoutPair(lib, live, t, Fp8ShapeA(cfg), cfg.lda, t, Fp8ShapeB(cfg), cfg.ldb);
    ghost var log1 := lib.log;
    ghost var d1 := DropEvents(liveAB);
    if r.Err? {
      SegmentStops(log0, log1, d0, d1, inputs, outputs, n, f, r);
      return liveAB, a, b, None, None, r;
    }
    SegmentLength(log0, log1, d0, d1, inputs, n, f, r);
    live', c, d, ro := NewLayoutPair(lib, liveAB, R16BF, (cfg.m, cfg.n), cfg.ldc, t, (cfg.m, cfg.n), cfg.ldc);
    SegmentThen(log0, log1, lib.log, d0, d1, DropEvents(live'), inputs, outputs, n, n + 2, f, r, ro);
    r := ro;
  }


  /** The descriptor of `matmul`: created, both transposes set, then the epilogue. */
  method NewConfiguredDesc(lib: Vendor, live: seq<Owned>, compute: ComputeType, transa: bool, transb: bool,
                           act: Option<Activation>, biasPtr: Option<nat>, strideBias: Option<int>)
    returns (live': seq<Owned>, desc: Option<MatmulDesc>, r: Result<(), CublasError>)
    modifies lib
    ensures Segment(old(lib.log), lib.log, DropEvents(live), DropEvents(live'),
                    ConfiguredDescPlan(|old(lib.log)|, compute, transa, transb, act, biasPtr, strideBias),
                    |old(lib.log)|, lib.fails, r)
    ensures r.Ok? ==> && desc.Some? && fresh(desc.value) && desc.value.handle == |old(lib.log)|
                      && desc.value.attrs == DescAfter(|old(lib.log)|, compute, transa, transb, act, biasPtr, strideBias)
  {
    ghost var n := |lib.log|;
    ghost var f := lib.fails;
    ghost var log0 := lib.log;
    ghost var pd := DescPlan(n, compute, transa, transb);
    ghost var pe := EpiloguePlan(n, act, biasPtr, strideBias);
    live', desc, r := NewTransposedDesc(lib, live, compute, transa, transb);
    ghost var log1 := lib.log;
    if r.Err? {
      SegmentStops(log0, log1, DropEvents(live), DropEvents(live'), pd, pe, n, f, r);
      return;
    }
    SegmentLength(log0, log1, DropEvents(live), DropEvents(live'), pd, n, f, r);
    var re := ConfigureEpilogue(lib, desc.value, act, biasPtr, strideBias);
    SegmentThen(log0, log1, lib.log, DropEvents(live), DropEvents(live'), DropEvents(live'), pd, pe, n, n + 3, f, r, re);
    r := re;
  }

  /** The heuristic query over the objects `h`, then the launch, each failure returned. */
  method QueryAndLaunch(lib: Vendor, lt: nat, h: Handles, args: LaunchArgs) returns (r: Result<(), CublasError>)
    modifies lib
    ensures var e := Execute(LaunchPlan(lt, h, args), |old(lib.log)|, lib.fails);
      && lib.log == old(lib.log) + e
      && r == Verdict(e)
      && Releases(e) == []
  {
    ghost var n := |lib.log|;
    ghost var f := lib.fails;
    ghost var log0 := lib.log;
    var query := QueryHeuristic(lt, h.desc, h.a, h.b, h.c, h.d, h.pref);
    assert LaunchPlan(lt, h, args) == [query] + [Launch(args)];
    var rq := CallChecked(lib, query);
    if rq.Err? {
      SegmentStops(log0, lib.log, [], [], [query], [Launch(args)], n, f, rq);
      return rq;
    }
    ghost var log1 := lib.log;
    SegmentLength(log0, log1, [], [], [query], n, f, rq);
    r := CallChecked(lib, Launch(args));
    SegmentThen(log0, log1, lib.log, [], [], [], [query], [Launch(args)], n, n + 1, f, rq, r);
  }

  /**
   * The common tail of both entry points: the preferences with the
   * workspace limit, the heuristic query over `desc` and the layouts `a`,
   * `b`, `c`, `d`, and the launch, which reads C's layout as C and as D.
   */
  method PrefQueryLaunch(lib: Vendor, live: seq<Owned>, lt: nat, ws: nat, desc: MatmulDesc,
                         a: MatrixLayout, b: MatrixLayout, c: MatrixLayout, d: MatrixLayout)
    returns (live': seq<Owned>, r: Result<(), CublasError>)
    modifies lib
    ensures Segment(old(lib.log), lib.log, DropEvents(live), DropEvents(live'),
                    TailPlan(lt, ws, Handles(a.handle, b.handle, c.handle, d.handle, desc.handle, |old(lib.log)|),
                             LaunchArgs(lt, desc.attrs, a.attrs, b.attrs, c.attrs, c.attrs, ws)),
                    |old(lib.log)|, lib.fails, r)
  {
    ghost var n := |lib.log|;
    ghost var f := lib.fails;
    ghost var log0 := lib.log;
    ghost var pp := PrefPlan(n, ws);
    var pref, rp;
    live', pref, rp := NewWorkspacePref(lib, live, ws);
    ghost var log1 := lib.log;
    var args := LaunchArgs(lt, desc.attrs, a.attrs, b.attrs, c.attrs, c.attrs, ws);
    ghost var pq := LaunchPlan(lt, Handles(a.handle, b.handle, c.handle, d.handle, desc.handle, n), args);
    if rp.Err? {
      SegmentStops(log0, log1, DropEvents(live), DropEvents(live'), pp, pq, n, f, rp);
      return live', rp;
    }
    SegmentLength(log0, log1, DropEvents(live), DropEvents(live'), pp, n, f, rp);
    var objects := Handles(a.handle, b.handle, c.handle, d.handle, desc.handle, pref.value.handle);
    r := QueryAndLaunch(lib, lt, objects, args);
    SegmentThen(log0, log1, lib.log, DropEvents(live), DropEvents(live'), DropEvents(live'), pp, pq, n, n + 2, f, rp, r);
  }

  /** The fp8 path after its layouts: the epilogue on `desc`, then the common tail. */
  method Fp8EpilogueAndTail(lib: Vendor, live: seq<Owned>, lt: nat, ws: nat, desc: MatmulDesc,
                            act: Option<Activation>, biasPtr: Option<nat>, strideBias: Option<int>,
                            a: MatrixLayout, b: MatrixLayout, c: MatrixLayout, d: MatrixLayout)
    returns (live': seq<Owned>, r: Result<(), CublasError>)
    modifies lib, desc
    ensures var pe := EpiloguePlan(desc.handle, act, biasPtr, strideBias);
      var objects := Handles(a.handle, b.handle, c.handle, d.handle, desc.handle, |old(lib.log)| + |pe|);
      var args := LaunchArgs(lt, WithEpilogue(old(desc.attrs), act, biasPtr, strideBias),
                             a.attrs, b.attrs, c.attrs, c.attrs, ws);
      Segment(old(lib.log), lib.log, DropEvents(live), DropEvents(live'),
              pe + TailPlan(lt, ws, objects, args), |old(lib.log)|, lib.fails, r)
  {
    ghost var n := |lib.log|;
    ghost var f := lib.fails;
    ghost var log0 := lib.log;
    ghost var d0 := DropEvents(live);
    ghost var pe := EpiloguePlan(desc.handle, act, biasPtr, strideBias);
    ghost var pt := TailPlan(lt, ws, Handles(a.handle, b.handle, c.handle, d.handle, desc.handle, n + |pe|),
                             LaunchArgs(lt, WithEpilogue(desc.attrs, act, biasPtr, strideBias),
                                        a.attrs, b.attrs, c.attrs, c.attrs, ws));
    var re := ConfigureEpilogue(lib, desc, act, biasPtr, strideBias);
    ghost var log1 := lib.log;
    assert Segment(log0, log1, d0, d0, pe, n, f, re);
    if re.Err? {
      SegmentStops(log0, log1, d0, d0, pe, pt, n, f, re);
      return live, re;
    }
    SegmentLength(log0, log1, d0, d0, pe, n, f, re);
    live', r := PrefQueryLaunch(lib, live, lt, ws, desc, a, b, c, d);
    SegmentThen(log0, log1, lib.log, d0, d0, DropEvents(live'), pe, pt, n, n + |pe|, f, re, r);
  }

  // ---------------------------------------------------------------------
  // The matmul entry points
  // ---------------------------------------------------------------------

  /**
   * The body of `matmul` up to its scope exit: layouts for A, B and C, the
   * descriptor with transposes and epilogue, then the common tail, each
   * failure returned with `?`.  `live'` holds the objects still to be dropped.
   */
  method MatmulBody(lib: Vendor, lt: nat, ws: nat, elem: ElemType, cfg: MatmulConfig,
                    biasPtr: Option<nat>, act: Option<Activation>)
    returns (live': seq<Owned>, r: Result<(), CublasError>)
    modifies lib
    ensures Segment(old(lib.log), lib.log, [], DropEvents(live'),
                    GeneralPlan(lt, elem, cfg, biasPtr, act, ws, |old(lib.log)|), |old(lib.log)|, lib.fails, r)
  {
    ghost var n := |lib.log|;
    ghost var f := lib.fails;
    ghost var log0 := lib.log;
    var t := MatrixType(elem);
    ghost var h := GeneralHandles(cfg, biasPtr, act, n);
    ghost var pl := GeneralLayoutsPlan(t, cfg, n);
    ghost var pd := ConfiguredDescPlan(h.desc, ComputeTypeOf(elem), cfg.transa, cfg.transb, act, biasPtr, cfg.strideBias);
    ghost var pt := TailPlan(lt, ws, h, GeneralLaunchArgs(lt, elem, cfg, biasPtr, act, ws, h));
    assert GeneralPlan(lt, elem, cfg, biasPtr, act, ws, n) == pl + (pd + pt);

    var live1, a, b, c, rl := NewGeneralLayouts(lib, [], t, cfg);
    ghost var log1 := lib.log;
    ghost var d1 := DropEvents(live1);
    if rl.Err? {
      SegmentStops(log0, log1, [], d1, pl, pd + pt, n, f, rl);
      return live1, rl;
    }
    SegmentLength(log0, log1, [], d1, pl, n, f, rl);
    assert |log1| == h.desc;

    var live2, desc, rd := NewConfiguredDesc(lib, live1, ComputeTypeOf(elem), cfg.transa, cfg.transb,
                                             act, biasPtr, cfg.strideBias);
    ghost var log2 := lib.log;
    ghost var d2 := DropEvents(live2);
    if rd.Err? {
      SegmentStops(log1, log2, d1, d2, pd, pt, h.desc, f, rd);
      SegmentThen(log0, log1, log2, [], d1, d2, pl, pd + pt, n, h.desc, f, rl, rd);
      return live2, rd;
    }
    SegmentLength(log1, log2, d1, d2, pd, h.desc, f, rd);
    assert |log2| == h.pref;

    live', r := PrefQueryLaunch(lib, live2, lt, ws, desc.value, a.value, b.value, c.value, c.value);
    assert Handles(a.value.handle, b.value.handle, c.value.handle, c.value.handle, desc.value.handle, |log2|) == h;
    assert LaunchArgs(lt, desc.value.attrs, a.value.attrs, b.value.attrs, c.value.attrs, c.value.attrs, ws)
           == GeneralLaunchArgs(lt, elem, cfg, biasPtr, act, ws, h);
    SegmentThen(log1, log2, lib.log, d1, d2, DropEvents(live'), pd, pt, h.desc, h.pref, f, rd, r);
    SegmentThen(log0, log1, lib.log, [], d1, DropEvents(live'), pl, pd + pt, n, h.desc, f, rl, r);
  }

  /**
   * `matmul`: the body, then the scope exit, where the objects created so
   * far are dropped, newest first, whichever way the body returned.
   */
  method Matmul(blas: CudaBlasLt, lib: Vendor, elem: ElemType, cfg: MatmulConfig,
                biasPtr: Option<nat>, act: Option<Activation>) returns (r: Result<(), CublasError>)
    requires blas.handle.Some?
    modifies lib
    ensures var at := |old(lib.log)|;
      var plan := GeneralPlan(blas.handle.value, elem, cfg, biasPtr, act, blas.workspace.size, at);
      && lib.log == old(lib.log) + Run(plan, at, lib.fails)
      && r == Verdict(Execute(plan, at, lib.fails))
  {
    ghost var log0 := lib.log;
    ghost var plan := GeneralPlan(blas.handle.value, elem, cfg, biasPtr, act, blas.workspace.size, |log0|);
    var live;
    live, r := MatmulBody(lib, blas.handle.value, blas.workspace.size, elem, cfg, biasPtr, act);
    ghost var e := Execute(plan, |log0|, lib.fails);
    DropAll(lib, live);
    AppendAssoc(log0, e, Releases(e));
  }

  /** Why `matmul_fp8_like` panics: one of its two asserts, or an `unwrap` of a failed call. */
  datatype PanicReason = TransposeANotSet | TransposeBSet | Unwrapped(error: CublasError)

  datatype Fp8Outcome = Returned(result: Result<(), CublasError>) | Panicked(reason: PanicReason)

  /**
   * Every call of `matmul_fp8_like` but the launch is unwrapped: only a failed
   * launch comes back as an error, any other failure is a panic.
   */
  function Fp8Result(v: Result<(), CublasError>): (out: Fp8Outcome)
    ensures out.Returned? <==> v.Ok? || v.error.failed.Launch?
    ensures out.Returned? ==> out.result == v
    ensures out.Panicked? ==> out.reason == Unwrapped(v.error)
  {
    if v.Err? && !v.error.failed.Launch? then Panicked(Unwrapped(v.error)) else Returned(v)
  }

  /** `matmul_fp8_like` once its descriptor exists: the four layouts, then the epilogue and the common tail. */
  method Fp8AfterDesc(lib: Vendor, live: seq<Owned>, lt: nat, ws: nat, t: DataType, cfg: MatmulConfig,
                      act: Option<Activation>, biasPtr: Option<nat>, desc: MatmulDesc)
    returns (live': seq<Owned>, r: Result<(), CublasError>)
    requires desc.Valid()
    modifies lib, desc
    ensures Segment(old(lib.log), lib.log, DropEvents(live), DropEvents(live'),
                    Fp8AfterDescPlan(lt, ws, t, cfg, act, biasPtr, old(desc.attrs), |old(lib.log)|),
                    |old(lib.log)|, lib.fails, r)
  {
    ghost var n := |lib.log|;
    ghost var f := lib.fails;
    ghost var log0 := lib.log;
    ghost var d0 := DropEvents(live);
    ghost var before := desc.attrs;
    ghost var pl := Fp8LayoutsPlan(t, cfg, n);
    ghost var pe := EpiloguePlan(desc.handle, act, biasPtr, cfg.strideBias);
    ghost var pt := TailPlan(lt, ws, Fp8Handles(desc.handle, pe, n), Fp8LaunchArgs(lt, ws, t, cfg, act, biasPtr, before, n));
    var live1, a, b, c, d, rl := NewFp8Layouts(lib, live, t, cfg);
    ghost var log1 := lib.log;
    ghost var d1 := DropEvents(live1);
    if rl.Err? {
      SegmentStops(log0, log1, d0, d1, pl, pe + pt, n, f, rl);
      return live1, rl;
    }
    SegmentLength(log0, log1, d0, d1, pl, n, f, rl);
    live', r := Fp8EpilogueAndTail(lib, live1, lt, ws, desc, act, biasPtr, cfg.strideBias,
                                   a.value, b.value, c.value, d.value);
    SegmentThen(log0, log1, lib.log, d0, d1, DropEvents(live'), pl, pe + pt, n, n + 4, f, rl, r);
  }

  /**
   * The body of `matmul_fp8_like` past its asserts: the descriptor with both
   * transposes, then the rest.  `r` is the first failure, before `unwrap`
   * sees it.
   */
  method MatmulFp8LikeBody(lib: Vendor, lt: nat, ws: nat, elem: ElemType, cfg: MatmulConfig,
                           biasPtr: Option<nat>, act: Option<Activation>)
    returns (live': seq<Owned>, r: Result<(), CublasError>)
    modifies lib
    ensures Segment(old(lib.log), lib.log, [], DropEvents(live'),
                    Fp8Plan(lt, elem, cfg, biasPtr, act, ws, |old(lib.log)|), |old(lib.log)|, lib.fails, r)
  {
    ghost var n := |lib.log|;
    ghost var f := lib.fails;
    ghost var log0 := lib.log;
    var t := MatrixType(elem);
    ghost var pd := DescPlan(n, Compute32F, cfg.transa, cfg.transb);
    ghost var pr := Fp8AfterDescPlan(lt, ws, t, cfg, act, biasPtr, TransposedDesc(n, Compute32F, cfg.transa, cfg.transb), n + 3);
    var live1, desc, rd := NewTransposedDesc(lib, [], Compute32F, cfg.transa, cfg.transb);
    ghost var log1 := lib.log;
    ghost var d1 := DropEvents(live1);
    if rd.Err? {
      SegmentStops(log0, log1, [], d1, pd, pr, n, f, rd);
      return live1, rd;
    }
    SegmentLength(log0, log1, [], d1, pd, n, f, rd);
    live', r := Fp8AfterDesc(lib, live1, lt, ws, t, cfg, act, biasPtr, desc.value);
    SegmentThen(log0, log1, lib.log, [], d1, DropEvents(live'), pd, pr, n, n + 3, f, rd, r);
  }

  /**
   * `matmul_fp8_like`: the asserts on the transposes panic before any
   * library call; otherwise the body runs, its objects are dropped at scope
   * exit (also while a panic unwinds), and a failure panics unless it was
   * the launch's.
   */
  method MatmulFp8Like(blas: CudaBlasLt, lib: Vendor, elem: ElemType, cfg: MatmulConfig,
                       biasPtr: Option<nat>, act: Option<Activation>) returns (out: Fp8Outcome)
    requires blas.handle.Some?
    modifies lib
    ensures !cfg.transa ==> out == Panicked(TransposeANotSet) && lib.log == old(lib.log)
    ensures cfg.transa && cfg.transb ==> out == Panicked(TransposeBSet) && lib.log == old(lib.log)
    ensures cfg.transa && !cfg.transb ==>
      var at := |old(lib.log)|;
      var plan := Fp8Plan(blas.handle.value, elem, cfg, biasPtr, act, blas.workspace.size, at);
      && lib.log == old(lib.log) + Run(plan, at, lib.fails)
      && out == Fp8Result(Verdict(Execute(plan, at, lib.fails)))
  {
    if !cfg.transa {
      return Panicked(TransposeANotSet);
    }
    if cfg.transb {
      return Panicked(TransposeBSet);
    }
    ghost var log0 := lib.log;
    ghost var plan := Fp8Plan(blas.handle.value, elem, cfg, biasPtr, act, blas.workspace.size, |log0|);
    var live, r := MatmulFp8LikeBody(lib, blas.handle.value, blas.workspace.size, elem, cfg, biasPtr, act);
    ghost var e := Execute(plan, |log0|, lib.fails);
    DropAll(lib, live);
    AppendAssoc(log0, e, Releases(e));
    out := Fp8Result(r);
  }
}
