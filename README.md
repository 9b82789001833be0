# Paged attention guards and the cuBLASLt matmul wrapper

This project is a Dafny model of two pieces of mistral.rs. It proves properties of that model.

**Paged attention** (`mistralrs-paged-attn/src/backend/paged_attention.rs`) is modelled as pure
functions. This is module `PagedAttention` in `paged_attention.dfy`.
- The attention custom op runs a chain of checks before it launches a kernel. These are the
  device, dtype, rank, head-size, block-table, cache-shape and context-length checks.
- The op dispatches on the (query, cache) dtype pair and sets the `internal_type` and `cache_type`
  tags.
- It picks between the single-pass (v1) and two-pass (v2) kernels by the 512-token partition rule.
- The cache update `reshape_and_cache` runs its own chain of checks.

Each entry point returns either the first error the code would raise or a record of what the kernel
would be given: its shapes, tags, kernel variant and scratch-buffer shapes. Rust panics reachable
from the checks are error values. These are a zero `x` in `head_size / x`, and a zero block size in
`512 % block_size`, which `&&` evaluates only when its left side holds. Order-free "admissible"
predicates give both directions of every accept/reject decision.

**The cuBLASLt wrapper** (`mistralrs-core/src/cublaslt/matmul.rs`) is modelled imperatively.
- The cuBLASLt library is a `Vendor` object (module `CublasLtVendor`). It records every call in a
  `log`, and a failure oracle `fails(i)` decides whether the call with ordinal `i` fails. Every
  combination of failures is covered by quantifying over `fails`. An object's handle is the ordinal
  of the call that created it.
- The RAII wrappers `CudaBlasLT`, `MatrixLayout`, `MatmulDesc` and `MatmulPref` are Dafny classes
  (module `CublasLtMatmul`). Their methods append calls to the log and update the attributes the
  library holds for them.
- Their `Drop` impls are `Drop` methods. The drops at scope exit, including after an early `?`
  return, are a `DropAll` over the live objects, newest first.
- `matmul` and `matmul_fp8_like` are methods. Each is proved against a pure *plan*: the list of
  library calls the code makes, in order. On any failure pattern:
  - the log grows by exactly `Execute(plan)`, which is the calls up to and including the first
    failure;
  - then by the drops of the objects created so far;
  - the result is the first failure, or success.

Module `CublasLtPlans` (`cublaslt_plans.dfy`) reads the two plans call by call. It states:
- which objects they create and with which types and shapes;
- which attributes they write, each in both directions;
- what the kernel launch is given;
- that the launch happens exactly when every earlier call succeeded;
- that every object created is destroyed exactly once, newest first.

`results.dfy` holds the `Result` and `Option` datatypes.

## Model

| member | source | states |
|---|---|---|
| PagedAttention.InputTypeCode | mistralrs-paged-attn/src/backend/paged_attention.rs:36-41 | A query dtype has an `internal_type` tag iff it is F16, BF16 or F32. The tag is 0, 1 or 2 and decodes back to the dtype. Any other dtype is an unsupported-dtype error. |
| PagedAttention.CacheTypeCode | mistralrs-paged-attn/src/backend/paged_attention.rs:42-47 | A cache dtype has a `cache_type` tag iff it is a wide float or F8E4M3. The tag is 1 exactly for F8E4M3 and 0 otherwise. |
| PagedAttention.SupportedPairsAreExactlySix | mistralrs-paged-attn/src/backend/paged_attention.rs:285-295 | The accepted (query, cache) dtype pairs are exactly the six dispatch arms. |
| PagedAttention.SupportedPairHasCodes | mistralrs-paged-attn/src/backend/paged_attention.rs:36-47 | Every dispatched pair has both tags, so the tag guards inside the typed body never fire after dispatch. |
| PagedAttention.MaxNumPartitions | mistralrs-paged-attn/src/backend/paged_attention.rs:185-186 | The partition count is the ceiling of the context length over 512. It is zero only for an empty context. |
| PagedAttention.UseV1 | mistralrs-paged-attn/src/backend/paged_attention.rs:187-188 | The single-pass test, with `&&` short-circuit. It panics on a zero block size only when its left side holds. Otherwise v1 is used iff there is one partition or more than 512 sequence-heads, and 512 is a multiple of the block size. |
| PagedAttention.CudaFwdT | mistralrs-paged-attn/src/backend/paged_attention.rs:27-273 | The typed guard chain never raises the pair error. On success the query and cache dtypes are the dispatched ones, the output shape is the query's, the head size is supported and both tags are those of the dtypes. The full accept/reject condition is `CudaFwdOkIffAdmissible` and the full launch is `AttentionLaunchOnSuccess`. |
| PagedAttention.CudaFwd | mistralrs-paged-attn/src/backend/paged_attention.rs:285-295 | An unsupported pair is rejected with the pair error, and a supported pair never is. On success the output shape is the query's and both tags come from the dtypes. See also `CudaFwdOkIffAdmissible`, `AttentionLaunchOnSuccess` and `KernelChoiceIgnoresCacheDType`. |
| PagedAttention.PagedAttentionForward | mistralrs-paged-attn/src/backend/paged_attention.rs:320-344 | A CPU query fails with the no-CPU-support error. A success is on CUDA, with the query's shape as output and the given maximum context length. |
| PagedAttention.CpuFwd | mistralrs-paged-attn/src/backend/paged_attention.rs:281-283 | The CPU path always fails with the no-CPU-support error. |
| PagedAttention.CpuQueryAlwaysFails | mistralrs-paged-attn/src/backend/paged_attention.rs:320-344 | `paged_attention` on a CPU query fails whatever the other arguments are. |
| PagedAttention.CudaFwdOkIffAdmissible | mistralrs-paged-attn/src/backend/paged_attention.rs:52-188 | The guard chain accepts a CUDA query exactly when the order-free admissibility predicate holds. This covers devices, dtypes, scalar scales, ranks, head sizes, block tables, the key-cache split, the cache shapes, the context lengths and the nonzero block size. |
| PagedAttention.CudaFwdPairRejection | mistralrs-paged-attn/src/backend/paged_attention.rs:294 | The op returns the unsupported-pair error exactly for the pairs outside the six arms. |
| PagedAttention.AttentionLaunchOnSuccess | mistralrs-paged-attn/src/backend/paged_attention.rs:128-272 | On success the launch has the query's shape as output shape, the supported head size, the cache's KV heads and block size, the block-table width and both tags. v1 is chosen exactly under the single-pass rule. v2's scratch buffers are (seqs, heads, partitions[, head size]). |
| PagedAttention.KernelChoiceIgnoresCacheDType | mistralrs-paged-attn/src/backend/paged_attention.rs:185-268 | Changing only the caches' dtype to another supported one keeps the launch identical except for the `cache_type` tag. |
| PagedAttention.GroupedQueryRatioNotChecked | mistralrs-paged-attn/src/backend/paged_attention.rs:128-179 | Eight query heads over three KV heads pass all guards: the head ratio is not checked. |
| PagedAttention.ShortContextUsesSinglePass | mistralrs-paged-attn/src/backend/paged_attention.rs:185-228 | A 16-token context with block size 16 is accepted and uses v1 with output shape [1, 8, 128]. |
| PagedAttention.LongContextUsesTwoPasses | mistralrs-paged-attn/src/backend/paged_attention.rs:185-268 | A 4096-token context gives eight partitions and v2 with scratch shapes [1,8,8,128], [1,8,8] and [1,8,8]. |
| PagedAttention.UpdateCache | mistralrs-paged-attn/src/backend/paged_attention.rs:346-522 | The typed guard chain never raises the pair error. On success the dtypes are the dispatched ones, key and value have the same shape, the kernel gets the key's tokens, heads and head size, and the cache's block size and nonzero `x`, and the slot mapping has one entry per token. The full condition is `ReshapeAndCacheOkIffAdmissible`. |
| PagedAttention.ReshapeAndCache | mistralrs-paged-attn/src/backend/paged_attention.rs:536-604 | An unsupported pair is rejected with the pair error, and a supported pair never is. On success the write has the key's shape and one slot per token. See also `ReshapeAndCacheOkIffAdmissible` and `CacheWriteOnSuccess`. |
| PagedAttention.ReshapeAndCacheInto | mistralrs-paged-attn/src/backend/paged_attention.rs:501-521 | The cache update applied to a cache state. It succeeds iff the guards pass. A rejection returns the guard's error with the cache unchanged, and an accepted write applies the scatter kernel once. |
| PagedAttention.ReshapeAndCacheOkIffAdmissible | mistralrs-paged-attn/src/backend/paged_attention.rs:346-488 | The cache update is accepted exactly when its order-free admissibility predicate holds. This covers dtypes, devices, ranks, matching key/value shapes, the key-cache split, the cache shapes and the I64 slot mapping. |
| PagedAttention.ReshapeAndCachePairRejection | mistralrs-paged-attn/src/backend/paged_attention.rs:545-603 | `reshape_and_cache` returns the unsupported-pair error exactly outside its six dispatch arms. |
| PagedAttention.CacheWriteOnSuccess | mistralrs-paged-attn/src/backend/paged_attention.rs:482-521 | On success the scatter kernel gets the key's tokens, heads and head size, the cache's block size and `x`, and both dtype tags. |
| PagedAttention.RejectedUpdateLeavesCacheUntouched | mistralrs-paged-attn/src/backend/paged_attention.rs:501-521 | Whatever the scatter kernel does, an inadmissible update fails and leaves the cache state unchanged. |
| CublasLtVendor.ExecuteIsPrefixUntilFailure | mistralrs-core/src/cublaslt/matmul.rs:345-406 | The `?` chain issues a prefix of the plan. Call `i` succeeds iff `fails(at+i)` is false. Only the last issued call can have failed, and the run stops early only on failure. |
| CublasLtVendor.NoWorkAfterFailure | mistralrs-core/src/cublaslt/matmul.rs:345-406 | After a failed call every further library call is a destroy. |
| CublasLtVendor.ReleasesMirrorCreations | mistralrs-core/src/cublaslt/matmul.rs:127-134 | The scope-exit drops destroy exactly the created objects, in reverse order. |
| CublasLtVendor.ReleasedExactlyOnce | mistralrs-core/src/cublaslt/matmul.rs:127-134 | For a plan whose handles are call ordinals, the destroyed handles are the created ones reversed, and the created ones are strictly increasing, so each is destroyed exactly once. |
| CublasLtVendor.VerdictOfEvents | mistralrs-core/src/cublaslt/matmul.rs:345-406 | A run whose calls all succeeded but the last is `Ok` iff every call succeeded. Otherwise it returns the last call's error. |
| CublasLtMatmul.WorkspaceSize | mistralrs-core/src/cublaslt/matmul.rs:66-81 | 32 MiB for compute capability 9 and above, 4 MiB below. |
| CublasLtMatmul.CudaBlasLt.constructor | mistralrs-core/src/cublaslt/matmul.rs:38-42 | The object holds the created handle and the workspace. |
| CublasLtMatmul.CudaBlasLt.Drop | mistralrs-core/src/cublaslt/matmul.rs:46-53 | Drop takes the handle out, setting it to None. It destroys the handle only if there was one, so dropping twice destroys once. |
| CublasLtMatmul.NewCudaBlasLt | mistralrs-core/src/cublaslt/matmul.rs:34-43 | It creates the handle first. A failed create returns that error. A failed workspace panics after the handle exists. Otherwise the object holds the handle and a workspace of `WorkspaceSize(major)`. |
| CublasLtMatmul.MatrixTypeInjective | mistralrs-core/src/cublaslt/matmul.rs:568-606 | Distinct element types map to distinct cuBLASLt data types. |
| CublasLtMatmul.ComputeTypeOf | mistralrs-core/src/cublaslt/matmul.rs:568-606 | f32 computes in fast TF32 and every other element type in 32F. |
| CublasLtMatmul.TransposeCode | mistralrs-core/src/cublaslt/matmul.rs:157-176 | A transpose flag is written as 1 when set and 0 when not. |
| CublasLtMatmul.EpilogueFor | mistralrs-core/src/cublaslt/matmul.rs:185-226 | The epilogue has a bias part iff a bias is given, and its activation is exactly the requested one. |
| CublasLtMatmul.EpilogueForIsOnto | mistralrs-core/src/cublaslt/matmul.rs:185-226 | Every one of the six epilogues is chosen by exactly its (bias, activation) combination. |
| CublasLtMatmul.ShapeA | mistralrs-core/src/cublaslt/matmul.rs:333-337 | A is stored so that `op(A)` is m by k, whichever way it is transposed. |
| CublasLtMatmul.ShapeB | mistralrs-core/src/cublaslt/matmul.rs:338-342 | B is stored so that `op(B)` is k by n, whichever way it is transposed. |
| CublasLtMatmul.GeneralOperandsConform | mistralrs-core/src/cublaslt/matmul.rs:333-342 | In `matmul`, `op(A)` (m by k) and `op(B)` (k by n) conform with C (m by n). |
| CublasLtMatmul.Fp8ShapesAgainstGeneral | mistralrs-core/src/cublaslt/matmul.rs:442-443 | The fp8 path stores A as in the general path with `transa` set. It stores B as (n, k), which agrees with the general shape only when n equals k. |
| CublasLtMatmul.MatrixLayout.constructor | mistralrs-core/src/cublaslt/matmul.rs:96-104 | A new layout has the handle and the type, rows, columns and leading dimension it was created with, and no batch attributes. |
| CublasLtMatmul.MatrixLayout.New | mistralrs-core/src/cublaslt/matmul.rs:96-104 | One create call. It fails iff that call fails, with that call's error. On success it returns a fresh layout with those attributes. |
| CublasLtMatmul.MatrixLayout.SetBatch | mistralrs-core/src/cublaslt/matmul.rs:106-124 | It writes the batch count and then the stride, stopping at the first failure. Each attribute changes exactly when its call succeeded. |
| CublasLtMatmul.MatrixLayout.Drop | mistralrs-core/src/cublaslt/matmul.rs:127-134 | One destroy call on the layout's handle. |
| CublasLtMatmul.MatmulDesc.constructor | mistralrs-core/src/cublaslt/matmul.rs:149-155 | A new descriptor has its handle, the given compute and scale types, and no attributes. Its recorded attributes are its own (`Valid`). |
| CublasLtMatmul.MatmulDesc.New | mistralrs-core/src/cublaslt/matmul.rs:149-155 | One create call with the given compute and scale types. It fails iff that call fails, with that call's error. On success it returns a fresh valid descriptor with no attributes set. |
| CublasLtMatmul.MatmulDesc.SetTranspose | mistralrs-core/src/cublaslt/matmul.rs:157-176 | It writes the A, B or C transpose attribute as 1 or 0. Only that attribute changes, and only on success. Validity is preserved. |
| CublasLtMatmul.MatmulDesc.SetBias | mistralrs-core/src/cublaslt/matmul.rs:185-216 | With a bias pointer it writes the pointer, then the batch stride if one is given. It writes nothing without a pointer, stops at the first failure and records each attribute that was written. Validity is preserved. |
| CublasLtMatmul.MatmulDesc.SetEpilogue | mistralrs-core/src/cublaslt/matmul.rs:179-238 | The bias attributes come first, then the epilogue matching (bias, activation), stopping at the first failure. On success the attributes are the old ones with bias and epilogue applied. Validity is preserved. |
| CublasLtMatmul.MatmulDesc.Drop | mistralrs-core/src/cublaslt/matmul.rs:241-245 | One destroy call on the descriptor's handle. |
| CublasLtMatmul.MatmulPref.constructor | mistralrs-core/src/cublaslt/matmul.rs:253-256 | A new preference has no workspace limit. |
| CublasLtMatmul.MatmulPref.New | mistralrs-core/src/cublaslt/matmul.rs:253-256 | One create call. It fails iff that call fails. On success it returns a fresh preference. |
| CublasLtMatmul.MatmulPref.SetWorkspaceSize | mistralrs-core/src/cublaslt/matmul.rs:258-269 | One attribute call. The workspace limit becomes the size exactly when it succeeds. |
| CublasLtMatmul.MatmulPref.Drop | mistralrs-core/src/cublaslt/matmul.rs:272-276 | One destroy call on the preference's handle. |
| CublasLtMatmul.DropAll | mistralrs-core/src/cublaslt/matmul.rs:127-134 | Dropping the live objects destroys each one once, newest first. |
| CublasLtMatmul.NewLayout | mistralrs-core/src/cublaslt/matmul.rs:345-358 | Creating a layout under `?` appends its create call. On failure it also appends the drops of the objects already live. On success the layout joins the live objects. |
| CublasLtMatmul.NewOperandLayout | mistralrs-core/src/cublaslt/matmul.rs:345-358 | An operand layout is created, then batched when both a batch size and its stride are given. This runs exactly `LayoutPlan`, with drops on failure. |
| CublasLtMatmul.NewDesc | mistralrs-core/src/cublaslt/matmul.rs:361 | The descriptor create under `?`, with drops on failure. |
| CublasLtMatmul.NewTransposedDesc | mistralrs-core/src/cublaslt/matmul.rs:361-366 | It creates the descriptor and writes the A then B transposes, as `DescPlan`. On success it returns a valid descriptor with the transposed attributes. |
| CublasLtMatmul.SetTransposes | mistralrs-core/src/cublaslt/matmul.rs:363-366 | It writes A's transpose, then B's, stopping at the first failure. |
| CublasLtMatmul.NewPref | mistralrs-core/src/cublaslt/matmul.rs:372 | The preference create under `?`, with drops on failure. |
| CublasLtMatmul.NewWorkspacePref | mistralrs-core/src/cublaslt/matmul.rs:372-375 | It creates the preference and sets its workspace limit, as `PrefPlan`. On success it returns a preference whose limit is the workspace size. |
| CublasLtMatmul.ConfigureEpilogue | mistralrs-core/src/cublaslt/matmul.rs:369 | The epilogue step under `?`. It runs `EpiloguePlan`, with drops on failure. |
| CublasLtMatmul.NewGeneralLayouts | mistralrs-core/src/cublaslt/matmul.rs:345-358 | It creates the A, B and C layouts with their shapes and optional batching, as `GeneralLayoutsPlan`. |
| CublasLtMatmul.NewLayoutPair | mistralrs-core/src/cublaslt/matmul.rs:461-477 | Two unbatched layouts in a row, with drops on failure. |
| CublasLtMatmul.NewFp8Layouts | mistralrs-core/src/cublaslt/matmul.rs:461-477 | It creates A and B in the fp8 type, C as BF16 and D in the fp8 type, as `Fp8LayoutsPlan`. |
| CublasLtMatmul.NewConfiguredDesc | mistralrs-core/src/cublaslt/matmul.rs:361-369 | The descriptor, its transposes and its epilogue, as `ConfiguredDescPlan`. |
| CublasLtMatmul.QueryAndLaunch | mistralrs-core/src/cublaslt/matmul.rs:378-406 | The heuristic query and then the launch, stopping at the first failure. |
| CublasLtMatmul.PrefQueryLaunch | mistralrs-core/src/cublaslt/matmul.rs:372-406 | The preference, the query and the launch, as `TailPlan`, with all live objects dropped at the end. |
| CublasLtMatmul.CallChecked | mistralrs-core/src/cublaslt/matmul.rs:378-406 | One library call under `?`: the log grows by that call, the result is its verdict, and it creates nothing to drop. |
| CublasLtMatmul.GeneralPlan | mistralrs-core/src/cublaslt/matmul.rs:345-406 | The calls of `matmul` in source order. Its properties are stated by `GeneralPlanCreations`, `GeneralPlanLayoutSettings`, `GeneralPlanDescSettings`, `GeneralPlanPrefSettings`, `GeneralPlanLaunches`, `GeneralLaunchOnlyAfterSuccess` and `GeneralReleasedExactlyOnce`, and `Matmul` is proved to run it. |
| CublasLtMatmul.Fp8Plan | mistralrs-core/src/cublaslt/matmul.rs:448-550 | The calls of `matmul_fp8_like` in source order. Its properties are stated by `Fp8PlanShape`, `Fp8PlanCreations`, `Fp8PlanLayoutSettings`, `Fp8PlanDescSettings`, `Fp8PlanPrefSettings`, `Fp8PlanLaunches`, `Fp8LaunchOnlyAfterSuccess` and `Fp8ReleasedExactlyOnce`, and `MatmulFp8Like` is proved to run it. |
| CublasLtMatmul.MatmulBody | mistralrs-core/src/cublaslt/matmul.rs:324-407 | The body of `matmul`. The log grows by exactly `Run(GeneralPlan)` and the result is the plan's verdict. |
| CublasLtMatmul.Matmul | mistralrs-core/src/cublaslt/matmul.rs:324-407 | `matmul` on any failure pattern. The log grows by the general plan's calls up to the first failure, then by the drops of everything created. The result is that failure or success. |
| CublasLtMatmul.Fp8Result | mistralrs-core/src/cublaslt/matmul.rs:448-550 | Every failure before the launch is an `unwrap` panic carrying that call's error (the last unwrap is the heuristic query at 521-530). A failed launch is returned as its error, not unwrapped (533-550). Success is returned as success. |
| CublasLtMatmul.Fp8AfterDesc | mistralrs-core/src/cublaslt/matmul.rs:461-550 | The fp8 steps after the descriptor, as `Fp8AfterDescPlan`. |
| CublasLtMatmul.Fp8EpilogueAndTail | mistralrs-core/src/cublaslt/matmul.rs:508-550 | The fp8 epilogue, preference, query and launch. |
| CublasLtMatmul.MatmulFp8LikeBody | mistralrs-core/src/cublaslt/matmul.rs:448-550 | The fp8 body runs exactly `Run(Fp8Plan)`. |
| CublasLtMatmul.MatmulFp8Like | mistralrs-core/src/cublaslt/matmul.rs:422-551 | Without `transa`, or with `transb`, it panics before any library call and leaves the log unchanged. Otherwise the log grows by `Run(Fp8Plan)` and the outcome is the `unwrap` of the plan's verdict. |
| CublasLtPlans.FilterKeeps | mistralrs-core/src/cublaslt/matmul.rs:345-406 | Reading a plan by kind keeps exactly the calls of that kind. Every per-kind statement about the plans below rests on this. |
| CublasLtPlans.GeneralPlanCreations | mistralrs-core/src/cublaslt/matmul.rs:345-375 | `matmul` creates, in order: A, B and C layouts of the element type with their stored shapes and leading dimensions; a descriptor with the element's compute type and 32F scale; a preference. |
| CublasLtPlans.GeneralPlanLayoutSettings | mistralrs-core/src/cublaslt/matmul.rs:345-358 | The only layout attributes written are each operand's batch count and stride, when batched. |
| CublasLtPlans.GeneralPlanDescSettings | mistralrs-core/src/cublaslt/matmul.rs:361-369 | The descriptor gets the two transposes, then the bias attributes and the epilogue. |
| CublasLtPlans.GeneralPlanPrefSettings | mistralrs-core/src/cublaslt/matmul.rs:372-375 | The only preference set is the workspace limit, equal to the workspace size. |
| CublasLtPlans.GeneralPlanLaunches | mistralrs-core/src/cublaslt/matmul.rs:389-406 | There is exactly one launch, with the configured descriptor and layouts and the workspace. |
| CublasLtPlans.GeneralBatchAttributes | mistralrs-core/src/cublaslt/matmul.rs:345-358 | An operand's layout gets batch count `s` iff the batch size is `s` and its stride is given. It gets stride `x` iff a batch size is given and its stride is `x`. |
| CublasLtPlans.DescriptorAttributes | mistralrs-core/src/cublaslt/matmul.rs:157-238 | Each iff holds: the A and B transposes are written with exactly their codes and C's never; the bias pointer is written iff there is a bias; the bias stride iff there is a bias and a stride; exactly the matching epilogue. |
| CublasLtPlans.LaunchOnlyAfterSuccess | mistralrs-core/src/cublaslt/matmul.rs:389-406 | In a plan whose single launch is its last call, the launch is issued iff every earlier call succeeds. |
| CublasLtPlans.GeneralLaunchOnlyAfterSuccess | mistralrs-core/src/cublaslt/matmul.rs:378-406 | `matmul` launches iff every earlier call succeeds, and it passes C's layout as both C and D. |
| CublasLtPlans.GeneralReleasedExactlyOnce | mistralrs-core/src/cublaslt/matmul.rs:324-407 | Whatever fails, every object `matmul` created is destroyed exactly once, newest first. |
| CublasLtPlans.Fp8PlanShape | mistralrs-core/src/cublaslt/matmul.rs:448-550 | The fp8 plan is the transposed descriptor, then its four layouts, its epilogue and the tail. |
| CublasLtPlans.Fp8PlanCreations | mistralrs-core/src/cublaslt/matmul.rs:448-518 | `matmul_fp8_like` creates, in order: a 32F/32F descriptor; layouts for A (k, m) and B (n, k) in the fp8 type; C as BF16 (m, n); D in the fp8 type (m, n); a preference. |
| CublasLtPlans.Fp8PlanLayoutSettings | mistralrs-core/src/cublaslt/matmul.rs:461-477 | The fp8 path writes no layout attributes, so there is no batching. |
| CublasLtPlans.Fp8PlanDescSettings | mistralrs-core/src/cublaslt/matmul.rs:448-510 | The descriptor gets the two transposes, then the bias attributes and the epilogue. |
| CublasLtPlans.Fp8PlanPrefSettings | mistralrs-core/src/cublaslt/matmul.rs:513-518 | The only preference set is the workspace limit. |
| CublasLtPlans.Fp8PlanLaunches | mistralrs-core/src/cublaslt/matmul.rs:533-550 | There is exactly one launch. |
| CublasLtPlans.Fp8LaunchOnlyAfterSuccess | mistralrs-core/src/cublaslt/matmul.rs:521-550 | The heuristic is queried with C and D. The launch comes right after it and passes the BF16 C layout as both C and D. The launch happens iff every earlier call succeeds. |
| CublasLtPlans.Fp8ReleasedExactlyOnce | mistralrs-core/src/cublaslt/matmul.rs:422-551 | Whatever fails, every object `matmul_fp8_like` created is destroyed exactly once, newest first. |

## Left out

- Tensor data, device pointers, offsets and strides are not modelled, and neither is the arithmetic of the kernels. `as_cuda_slice` is modelled only by its dtype check.
- The attention op's float parameters (`softmax_scale`, `softcapping`) and the matmul's `alpha`/`beta` are not modelled. They are passed through and are never checked.
- The choice between the CPU and CUDA paths belongs to the tensor library's `apply_op1`. The model decides it by the query's device.
- The op implements only `cpu_fwd` and `cuda_fwd`. A query on any other backend of the tensor library goes to that library's default forward, which fails. That error path is not modelled: `Device` has only `Cpu` and `Cuda`.
- Streams, `Send`/`Sync`, device binding and the FFI functions themselves are not modelled. The library is the abstract `Vendor` with a failure oracle.
- Integer widths are not modelled (`usize` to `c_int`, `u64` and `i64` casts). Sizes are unbounded integers.
- Destroy calls always succeed. In the source a failing destroy panics inside `drop`.
- Device allocation failures reported through `.w()?` are not modelled.
- Panic unwinding is modelled only as the drops at scope exit.
- NewCudaBlasLt: the workspace panic is an outcome value. The handle created before it is not dropped, as in the source.
- ConfigureEpilogue: its contract states the descriptor's attributes only on success. On failure the descriptor is dropped, so they no longer matter.
- The `MatmulShared` accessors for the handle and workspace are modelled as fields of `CudaBlasLt`.
- The `matrix_type`/`compute_type` impls are the functions `MatrixType` and `ComputeTypeOf`.
- `mistralrs-quant/src/fp8/quantize.rs`, the fp8 caller, is not part of this model.
- `matmul_fp8_like` queries the heuristic with D's layout but launches with C's layout as both C and D. The model mirrors this. Which of the two the authors intended cannot be decided from this file.
- `matmul_fp8_like` stores B as (n, k) with `transb` false. This is mirrored, and `Fp8ShapesAgainstGeneral` states when it agrees with the general path.
- The grouped-query head ratio is not checked by the attention guards. The model follows the code, and `GroupedQueryRatioNotChecked` exhibits it.
