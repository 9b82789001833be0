/**
 * The cuBLASLt library as the matmul wrapper sees it: opaque objects named by
 * handles, attribute setters, a heuristic query and the kernel launch, each
 * of which may fail.  The library is a `Vendor` object that records every call
 * in `log`; whether the call with ordinal `i` fails is fixed by `fails(i)`, so
 * every combination of failures is covered by quantifying over `fails`.
 * An object's handle is the ordinal of the call that created it.
 */
module CublasLtVendor {
  import opened Results

  datatype DataType = R32F | R16F | R16BF | R8FE4M3

  datatype ComputeType = Compute32F | Compute32FFastTf32

  datatype Epilogue =
    | EpilogueDefault | EpilogueRelu | EpilogueGelu
    | EpilogueBias | EpilogueReluBias | EpilogueGeluBias

  datatype LayoutAttr = BatchCount(count: int) | StridedBatchOffset(offset: int)

  datatype DescAttr =
    | TransA(code: int) | TransB(code: int) | TransC(code: int)
    | BiasPointer(ptr: nat) | BiasBatchStride(stride: int)
    | EpilogueKind(epilogue: Epilogue)

  datatype PrefAttr = MaxWorkspaceBytes(bytes: nat)

  /** The attributes of a matrix layout object. */
  datatype LayoutAttrs = LayoutAttrs(
    handle: nat, dataType: DataType, rows: nat, cols: nat, ld: int,
    batchCount: Option<int>, batchStride: Option<int>)

  /** The attributes of a matmul descriptor object. */
  datatype DescAttrs = DescAttrs(
    handle: nat, computeType: ComputeType, scaleType: DataType,
    transA: Option<int>, transB: Option<int>, transC: Option<int>,
    epilogue: Option<Epilogue>, biasPointer: Option<nat>, biasBatchStride: Option<int>)

  /** What the kernel launch sees: the handle, the descriptor and the A, B, C, D layouts as configured. */
  datatype LaunchArgs = LaunchArgs(
    handle: nat, desc: DescAttrs, a: LayoutAttrs, b: LayoutAttrs, c: LayoutAttrs, d: LayoutAttrs,
    workspaceSize: nat)

  datatype Call =
    | CreateHandle(h: nat)
    | DestroyHandle(h: nat)
    | CreateLayout(h: nat, dataType: DataType, rows: nat, cols: nat, ld: int)
    | SetLayoutAttribute(h: nat, layoutAttr: LayoutAttr)
    | DestroyLayout(h: nat)
    | CreateDesc(h: nat, computeType: ComputeType, scaleType: DataType)
    | SetDescAttribute(h: nat, descAttr: DescAttr)
    | DestroyDesc(h: nat)
    | CreatePref(h: nat)
    | SetPrefAttribute(h: nat, prefAttr: PrefAttr)
    | DestroyPref(h: nat)
    | QueryHeuristic(lt: nat, desc: nat, a: nat, b: nat, c: nat, d: nat, pref: nat)
    | Launch(args: LaunchArgs)

  /** One library call and whether it succeeded. */
  datatype Event = Event(call: Call, ok: bool)

  /** A failed library call, as the wrapper returns it. */
  datatype CublasError = CublasError(failed: Call)

  predicate IsCreation(c: Call) {
    c.CreateHandle? || c.CreateLayout? || c.CreateDesc? || c.CreatePref?
  }

  predicate IsDestruction(c: Call) {
    c.DestroyHandle? || c.DestroyLayout? || c.DestroyDesc? || c.DestroyPref?
  }

  /** The call that releases what `c` created. */
  function DestroyOf(c: Call): (d: Call)
    requires IsCreation(c)
    ensures IsDestruction(d) && d.h == c.h
  {
    match c
    case CreateHandle(h) => DestroyHandle(h)
    case CreateLayout(h, _, _, _, _) => DestroyLayout(h)
    case CreateDesc(h, _, _) => DestroyDesc(h)
    case CreatePref(h) => DestroyPref(h)
  }

  predicate AllOk(events: seq<Event>) {
    forall i :: 0 <= i < |events| ==> events[i].ok
  }

  predicate NoCreations(plan: seq<Call>) {
    forall i :: 0 <= i < |plan| ==> !IsCreation(plan[i])
  }

  /** Every creation in `plan` names the object by the ordinal the call will get. */
  predicate HandlesAreOrdinals(plan: seq<Call>, at: nat) {
    forall i :: 0 <= i < |plan| && IsCreation(plan[i]) ==> plan[i].h == at + i
  }

  /**
   * The wrapper's `?` discipline: issue the calls of `plan` in order, the first
   * with ordinal `at`, and stop right after the first one that fails.
   */
  function Execute(plan: seq<Call>, at: nat, fails: nat -> bool): seq<Event>
    decreases |plan|
  {
    if plan == [] then []
    else if fails(at) then [Event(plan[0], false)]
    else [Event(plan[0], true)] + Execute(plan[1..], at + 1, fails)
  }

  /** The drops at scope exit: every object created by `events` is destroyed, newest first. */
  function Releases(events: seq<Event>): seq<Event>
    decreases |events|
  {
    if events == [] then []
    else
      var last := events[|events| - 1];
      (if last.ok && IsCreation(last.call) then [Event(DestroyOf(last.call), true)] else [])
      + Releases(events[..|events| - 1])
  }

  /** A whole call of the wrapper: the calls until the first failure, then the drops. */
  function Run(plan: seq<Call>, at: nat, fails: nat -> bool): seq<Event> {
    var e := Execute(plan, at, fails);
    e + Releases(e)
  }

  /** The wrapper's result: the first failed call, or success. */
  function Verdict(events: seq<Event>): Result<(), CublasError>
    decreases |events|
  {
    if events == [] then Ok(())
    else if !events[0].ok then Err(CublasError(events[0].call))
    else Verdict(events[1..])
  }

  /** Handles created (successfully) by `events`, oldest first. */
  function Created(events: seq<Event>): seq<nat>
    decreases |events|
  {
    if events == [] then []
    else
      var last := events[|events| - 1];
      Created(events[..|events| - 1]) + (if last.ok && IsCreation(last.call) then [last.call.h] else [])
  }

  /** Handles released by the destruction calls in `events`, in order. */
  function Destroyed(events: seq<Event>): seq<nat>
    decreases |events|
  {
    if events == [] then []
    else (if IsDestruction(events[0].call) then [events[0].call.h] else []) + Destroyed(events[1..])
  }

  function Reverse(s: seq<nat>): seq<nat>
    decreases |s|
  {
    if s == [] then [] else [s[|s| - 1]] + Reverse(s[..|s| - 1])
  }

  predicate Increasing(s: seq<nat>) {
    forall i, j :: 0 <= i < j < |s| ==> s[i] < s[j]
  }

  // ---------------------------------------------------------------------
  // Lemmas about running a plan
  // ---------------------------------------------------------------------

  /**
   * A run issues a prefix of the plan; call `i` succeeds exactly when
   * `fails(at + i)` is false; only the last issued call can have failed, and
   * the run stops early only because of a failure.
   */
  lemma {:induction false} ExecuteIsPrefixUntilFailure(plan: seq<Call>, at: nat, fails: nat -> bool)
    ensures var e := Execute(plan, at, fails);
      && |e| <= |plan|
      && (forall i :: 0 <= i < |e| ==> e[i].call == plan[i] && (e[i].ok <==> !fails(at + i)))
      && (forall i :: 0 <= i < |e| - 1 ==> e[i].ok)
      && (|e| < |plan| ==> |e| > 0 && !e[|e| - 1].ok)
      && (AllOk(e) ==> |e| == |plan|)
      && (plan != [] ==> e != [])
    decreases |plan|
  {
    if plan != [] && !fails(at) {
      var e := Execute(plan, at, fails);
      var rest := Execute(plan[1..], at + 1, fails);
      ExecuteIsPrefixUntilFailure(plan[1..], at + 1, fails);
      assert e == [Event(plan[0], true)] + rest;
      forall i | 0 <= i < |e|
        ensures e[i].call == plan[i] && (e[i].ok <==> !fails(at + i))
      {
        if i > 0 {
          assert e[i] == rest[i - 1];
        }
      }
      if AllOk(e) {
        forall i | 0 <= i < |rest| ensures rest[i].ok { assert rest[i] == e[i + 1]; }
      }
    }
  }

  /** Running two plans back to back is running the second only if the first fully succeeded. */
  lemma {:induction false} ExecuteAppend(x: seq<Call>, y: seq<Call>, at: nat, fails: nat -> bool)
    ensures Execute(x + y, at, fails)
            == Execute(x, at, fails) + (if AllOk(Execute(x, at, fails)) then Execute(y, at + |x|, fails) else [])
    decreases |x|
  {
    if x == [] {
      assert x + y == y;
    } else if fails(at) {
      assert (x + y)[0] == x[0];
    } else {
      assert (x + y)[0] == x[0];
      assert (x + y)[1..] == x[1..] + y;
      ExecuteAppend(x[1..], y, at + 1, fails);
      var ex := Execute(x, at, fails);
      var ex1 := Execute(x[1..], at + 1, fails);
      assert ex == [Event(x[0], true)] + ex1;
      assert AllOk(ex) <==> AllOk(ex1) by {
        if AllOk(ex1) {
          forall i | 0 <= i < |ex| ensures ex[i].ok { if i > 0 { assert ex[i] == ex1[i - 1]; } }
        }
        if AllOk(ex) {
          forall i | 0 <= i < |ex1| ensures ex1[i].ok { assert ex1[i] == ex[i + 1]; }
        }
      }
    }
  }

  lemma {:induction false} ReleasesAppend(x: seq<Event>, y: seq<Event>)
    ensures Releases(x + y) == Releases(y) + Releases(x)
    decreases |y|
  {
    if y == [] {
      assert x + y == x;
    } else {
      var last := y[|y| - 1];
      assert (x + y)[|x + y| - 1] == last;
      assert (x + y)[..|x + y| - 1] == x + y[..|y| - 1];
      ReleasesAppend(x, y[..|y| - 1]);
    }
  }

  lemma {:induction false} VerdictAppend(x: seq<Event>, y: seq<Event>)
    ensures Verdict(x + y) == if Verdict(x).Ok? then Verdict(y) else Verdict(x)
    decreases |x|
  {
    if x == [] {
      assert x + y == y;
    } else {
      assert (x + y)[0] == x[0];
      assert (x + y)[1..] == x[1..] + y;
      VerdictAppend(x[1..], y);
    }
  }

  lemma {:induction false} ReleasesOfNoCreations(events: seq<Event>)
    requires forall i :: 0 <= i < |events| ==> !IsCreation(events[i].call)
    ensures Releases(events) == []
    decreases |events|
  {
    if events != [] {
      ReleasesOfNoCreations(events[..|events| - 1]);
    }
  }

  /** The verdict of a run is success exactly when every issued call succeeded, and names the failed call otherwise. */
  lemma VerdictOfExecute(plan: seq<Call>, at: nat, fails: nat -> bool)
    ensures var e := Execute(plan, at, fails);
      && (Verdict(e).Ok? <==> AllOk(e))
      && (Verdict(e).Ok? ==> |e| == |plan|)
      && (Verdict(e).Err? ==> |e| > 0 && Verdict(e).error == CublasError(e[|e| - 1].call))
  {
    var e := Execute(plan, at, fails);
    ExecuteIsPrefixUntilFailure(plan, at, fails);
    VerdictOfEvents(e);
  }

  lemma {:induction false} VerdictOfEvents(e: seq<Event>)
    requires forall i :: 0 <= i < |e| - 1 ==> e[i].ok
    ensures Verdict(e).Ok? <==> AllOk(e)
    ensures Verdict(e).Err? ==> |e| > 0 && Verdict(e).error == CublasError(e[|e| - 1].call)
    decreases |e|
  {
    if e != [] && e[0].ok {
      forall i | 0 <= i < |e[1..]| - 1 ensures e[1..][i].ok { assert e[1..][i] == e[i + 1]; }
      VerdictOfEvents(e[1..]);
      if AllOk(e[1..]) {
        forall i | 0 <= i < |e| ensures e[i].ok { if i > 0 { assert e[i] == e[1..][i - 1]; } }
      }
      if AllOk(e) {
        forall i | 0 <= i < |e[1..]| ensures e[1..][i].ok { assert e[1..][i] == e[i + 1]; }
      }
    }
  }

  /** A plan step that creates nothing leaves nothing to release. */
  lemma ConfigReleases(p: seq<Call>, at: nat, fails: nat -> bool)
    requires NoCreations(p)
    ensures Releases(Execute(p, at, fails)) == []
  {
    var e := Execute(p, at, fails);
    ExecuteIsPrefixUntilFailure(p, at, fails);
    ReleasesOfNoCreations(e);
  }

  /** Continuing after a fully successful prefix `done` with the step `p`. */
  lemma Continue(done: seq<Call>, p: seq<Call>, at: nat, fails: nat -> bool)
    requires AllOk(Execute(done, at, fails))
    ensures Execute(done + p, at, fails) == Execute(done, at, fails) + Execute(p, at + |done|, fails)
    ensures Verdict(Execute(done + p, at, fails)) == Verdict(Execute(p, at + |done|, fails))
    ensures AllOk(Execute(done + p, at, fails)) <==> AllOk(Execute(p, at + |done|, fails))
    ensures Releases(Execute(done + p, at, fails))
            == Releases(Execute(p, at + |done|, fails)) + Releases(Execute(done, at, fails))
  {
    var ed := Execute(done, at, fails);
    var ep := Execute(p, at + |done|, fails);
    ExecuteAppend(done, p, at, fails);
    assert Execute(done + p, at, fails) == ed + ep;
    AllOkAppend(ed, ep);
    VerdictOfAllOk(ed);
    VerdictAppend(ed, ep);
    ReleasesAppend(ed, ep);
  }

  lemma AllOkAppend(x: seq<Event>, y: seq<Event>)
    requires AllOk(x)
    ensures AllOk(x + y) <==> AllOk(y)
  {
    if AllOk(y) {
      forall i | 0 <= i < |x + y| ensures (x + y)[i].ok {
        if i >= |x| { assert (x + y)[i] == y[i - |x|]; }
      }
    }
    if AllOk(x + y) {
      forall i | 0 <= i < |y| ensures y[i].ok { assert y[i] == (x + y)[|x| + i]; }
    }
  }

  lemma {:induction false} VerdictOfAllOk(e: seq<Event>)
    requires AllOk(e)
    ensures Verdict(e) == Ok(())
    decreases |e|
  {
    if e != [] {
      assert forall i :: 0 <= i < |e[1..]| ==> e[1..][i] == e[i + 1];
      VerdictOfAllOk(e[1..]);
    }
  }

  /**
   * One step `p` after a prefix `done` that fully succeeded: the events and
   * the pending releases compose.
   */
  lemma Advance(done: seq<Call>, p: seq<Call>, at: nat, fails: nat -> bool)
    requires AllOk(Execute(done, at, fails))
    ensures |Execute(done, at, fails)| == |done|
    ensures Execute(done + p, at, fails) == Execute(done, at, fails) + Execute(p, at + |done|, fails)
    ensures Releases(Execute(done + p, at, fails))
            == Releases(Execute(p, at + |done|, fails)) + Releases(Execute(done, at, fails))
    ensures Verdict(Execute(p, at + |done|, fails)).Ok? <==> AllOk(Execute(p, at + |done|, fails))
    ensures AllOk(Execute(p, at + |done|, fails)) ==>
              AllOk(Execute(done + p, at, fails)) && |Execute(done + p, at, fails)| == |done + p|
  {
    var ed := Execute(done, at, fails);
    var ep := Execute(p, at + |done|, fails);
    assert |ed| == |done| by { AllOkLength(done, at, fails); }
    assert Verdict(ep).Ok? <==> AllOk(ep) by { VerdictOfExecute(p, at + |done|, fails); }
    assert Execute(done + p, at, fails) == ed + ep
        && Releases(Execute(done + p, at, fails)) == Releases(ep) + Releases(ed)
        && (AllOk(Execute(done + p, at, fails)) <==> AllOk(ep)) by {
      Continue(done, p, at, fails);
    }
    if AllOk(ep) {
      assert |ep| == |p| by { AllOkLength(p, at + |done|, fails); }
    }
  }

  /** If the step `p` fails, the rest of the plan never runs and the step decides the verdict. */
  lemma StopsIn(done: seq<Call>, p: seq<Call>, rest: seq<Call>, plan: seq<Call>, at: nat, fails: nat -> bool)
    requires AllOk(Execute(done, at, fails))
    requires !AllOk(Execute(p, at + |done|, fails))
    requires plan == done + p + rest
    ensures Execute(plan, at, fails) == Execute(done + p, at, fails)
    ensures Verdict(Execute(plan, at, fails)) == Verdict(Execute(p, at + |done|, fails))
  {
    Continue(done, p, at, fails);
    ExecuteAppend(done + p, rest, at, fails);
  }

  /**
   * Two plans back to back: a failing first plan is the whole story; a
   * succeeding one ran in full and the second decides the verdict.
   */
  lemma Then(p: seq<Call>, q: seq<Call>, at: nat, fails: nat -> bool)
    ensures var ep := Execute(p, at, fails);
      Verdict(ep).Err? ==> Execute(p + q, at, fails) == ep
    ensures var ep := Execute(p, at, fails); var eq := Execute(q, at + |p|, fails);
      Verdict(ep).Ok? ==>
        && |ep| == |p|
        && Execute(p + q, at, fails) == ep + eq
        && Verdict(Execute(p + q, at, fails)) == Verdict(eq)
        && Releases(Execute(p + q, at, fails)) == Releases(eq) + Releases(ep)
  {
    var ep := Execute(p, at, fails);
    assert Verdict(ep).Ok? <==> AllOk(ep) by { VerdictOfExecute(p, at, fails); }
    if AllOk(ep) {
      assert |ep| == |p| by { AllOkLength(p, at, fails); }
      Continue(p, q, at, fails);
    } else {
      ExecuteAppend(p, q, at, fails);
      assert ep + [] == ep;
    }
  }

  lemma {:induction false} AllOkLength(plan: seq<Call>, at: nat, fails: nat -> bool)
    ensures AllOk(Execute(plan, at, fails)) ==> |Execute(plan, at, fails)| == |plan|
    decreases |plan|
  {
    if plan != [] && !fails(at) {
      var e := Execute(plan, at, fails);
      var rest := Execute(plan[1..], at + 1, fails);
      assert e == [Event(plan[0], true)] + rest;
      if AllOk(e) {
        assert AllOk(rest) by {
          forall i | 0 <= i < |rest| ensures rest[i].ok { assert rest[i] == e[i + 1]; }
        }
        AllOkLength(plan[1..], at + 1, fails);
      }
    }
  }

  lemma ExecuteSingle(c: Call, at: nat, fails: nat -> bool)
    ensures Execute([c], at, fails) == [Event(c, !fails(at))]
    ensures Verdict(Execute([c], at, fails)) == if fails(at) then Err(CublasError(c)) else Ok(())
  {
    ExecuteCons(c, [], at, fails);
    assert [c] + [] == [c];
    VerdictSingle(Event(c, !fails(at)));
  }

  lemma VerdictSingle(e: Event)
    ensures Verdict([e]) == if e.ok then Ok(()) else Err(CublasError(e.call))
  {
    VerdictCons(e, []);
    assert [e] + [] == [e];
  }

  lemma VerdictCons(e: Event, rest: seq<Event>)
    ensures Verdict([e] + rest) == if !e.ok then Err(CublasError(e.call)) else Verdict(rest)
  {
    assert ([e] + rest)[0] == e;
    assert ([e] + rest)[1..] == rest;
  }

  lemma AppendAssoc<T>(x: seq<T>, y: seq<T>, z: seq<T>)
    ensures (x + y) + z == x + (y + z)
  {
  }

  /** The first call of a plan runs by itself. */
  lemma ExecuteCons(c: Call, rest: seq<Call>, at: nat, fails: nat -> bool)
    ensures Execute([c] + rest, at, fails)
            == if fails(at) then [Event(c, false)] else [Event(c, true)] + Execute(rest, at + 1, fails)
    ensures Verdict(Execute([c] + rest, at, fails))
            == if fails(at) then Err(CublasError(c)) else Verdict(Execute(rest, at + 1, fails))
  {
    assert ([c] + rest)[0] == c;
    assert ([c] + rest)[1..] == rest;
    if !fails(at) {
      VerdictCons(Event(c, true), Execute(rest, at + 1, fails));
    }
  }

  /** After a failed call the wrapper makes no further library call except releasing objects. */
  lemma NoWorkAfterFailure(plan: seq<Call>, at: nat, fails: nat -> bool)
    ensures var r := Run(plan, at, fails);
      forall i, j :: 0 <= i < j < |r| && !r[i].ok ==> IsDestruction(r[j].call)
  {
    var e := Execute(plan, at, fails);
    var r := Run(plan, at, fails);
    ExecuteIsPrefixUntilFailure(plan, at, fails);
    ReleasesAreDestructions(e);
    forall i, j | 0 <= i < j < |r| && !r[i].ok ensures IsDestruction(r[j].call) {
      assert i == |e| - 1;
      assert r[j] == Releases(e)[j - |e|];
    }
  }

  lemma {:induction false} ReleasesAreDestructions(events: seq<Event>)
    ensures forall i :: 0 <= i < |Releases(events)| ==> Releases(events)[i].ok && IsDestruction(Releases(events)[i].call)
    decreases |events|
  {
    if events != [] {
      ReleasesAreDestructions(events[..|events| - 1]);
    }
  }

  lemma {:induction false} DestroyedAppend(x: seq<Event>, y: seq<Event>)
    ensures Destroyed(x + y) == Destroyed(x) + Destroyed(y)
    decreases |x|
  {
    if x == [] {
      assert x + y == y;
    } else {
      assert (x + y)[0] == x[0];
      assert (x + y)[1..] == x[1..] + y;
      DestroyedAppend(x[1..], y);
    }
  }

  /** The drops release exactly the created objects, newest first. */
  lemma {:induction false} ReleasesMirrorCreations(events: seq<Event>)
    ensures Destroyed(Releases(events)) == Reverse(Created(events))
    decreases |events|
  {
    if events != [] {
      var front := events[..|events| - 1];
      var last := events[|events| - 1];
      var mine := if last.ok && IsCreation(last.call) then [Event(DestroyOf(last.call), true)] else [];
      ReleasesMirrorCreations(front);
      DestroyedAppend(mine, Releases(front));
      var cs := Created(front) + (if last.ok && IsCreation(last.call) then [last.call.h] else []);
      if last.ok && IsCreation(last.call) {
        assert cs[..|cs| - 1] == Created(front);
        assert Destroyed(mine) == [last.call.h];
      } else {
        assert cs == Created(front);
        assert Destroyed(mine) == [];
      }
    }
  }

  /** Created handles are call ordinals, so they are increasing and lie within the run. */
  lemma {:induction false} CreatedAreOrdinals(events: seq<Event>, at: nat)
    requires forall i :: 0 <= i < |events| && IsCreation(events[i].call) ==> events[i].call.h == at + i
    ensures Increasing(Created(events))
    ensures forall k :: 0 <= k < |Created(events)| ==> at <= Created(events)[k] < at + |events|
    decreases |events|
  {
    if events != [] {
      var front := events[..|events| - 1];
      CreatedAreOrdinals(front, at);
    }
  }

  /**
   * Every object a call creates is destroyed exactly once, in reverse order of
   * creation, and nothing else is destroyed.
   */
  lemma ReleasedExactlyOnce(plan: seq<Call>, at: nat, fails: nat -> bool)
    requires HandlesAreOrdinals(plan, at)
    ensures var e := Execute(plan, at, fails);
      && Destroyed(Releases(e)) == Reverse(Created(e))
      && Increasing(Created(e))
  {
    var e := Execute(plan, at, fails);
    ExecuteIsPrefixUntilFailure(plan, at, fails);
    ReleasesMirrorCreations(e);
    CreatedAreOrdinals(e, at);
  }

  // ---------------------------------------------------------------------
  // The library object
  // ---------------------------------------------------------------------

  class Vendor {
    /** Every call made so far, with its outcome. */
    var log: seq<Event>
    /** Whether the call with a given ordinal fails. */
    const fails: nat -> bool

    constructor (fails: nat -> bool)
      ensures log == [] && this.fails == fails
    {
      log := [];
      this.fails := fails;
    }

    /** A library call that may fail. */
    method Invoke(c: Call) returns (ok: bool)
      requires !IsDestruction(c)
      modifies this
      ensures log == old(log) + Execute([c], |old(log)|, fails)
      ensures ok == !fails(|old(log)|)
    {
      ok := !fails(|log|);
      log := log + [Event(c, ok)];
    }

    /** A destroy call; a failing destroy panics in the wrapper, which is not modelled. */
    method Release(c: Call)
      requires IsDestruction(c)
      modifies this
      ensures log == old(log) + [Event(c, true)]
    {
      log := log + [Event(c, true)];
    }
  }
}
