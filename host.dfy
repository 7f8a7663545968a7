/**
 * The host program, shared by its three variants: find a device, then issue
 * the OpenCL calls that compile the kernel, size and fill the buffers,
 * launch the kernel over the global work size and read the result back.
 * The OpenCL runtime itself is not modelled; what it does is reduced to
 * which calls it rejects by throwing `cl::Error`.
 */
module Host {
  import opened Options
  import opened SizeTypes
  import opened Platforms
  import opened Selection
  import opened WorkSize

  /** Where the global work size comes from. */
  datatype WorkSizeRule = DeviceMaximum | Fixed(n: SizeT)

  /** What distinguishes the three programs. */
  datatype Variant = Variant(
    kernelName: string,
    sourcePath: string,
    announcesDevice: bool,
    workSize: WorkSizeRule)

  /** src/hello/hello.cpp */
  const HelloProgram: Variant := Variant("hello_kernel", "src/hello/hello.cl", true, DeviceMaximum)
  /** src/sandbox/main.cpp */
  const SandboxProgram: Variant := Variant("sandbox", "src/sandbox/sandbox.cl", true, DeviceMaximum)
  /** The fixed element count of main.cpp. */
  const N: SizeT := 32
  /** main.cpp */
  const VectorAddProgram: Variant := Variant("main_kernel", "main.cl", false, Fixed(N))

  /** The three operands `a`, `b`, `c` (host vectors) and `A`, `B`, `C` (device buffers). */
  datatype Operand = A | B | C

  datatype MemFlags = ReadOnlyCopyHostPtr | ReadWrite

  /** A step of the host program after the search, with the arguments that matter. */
  datatype Call =
    | QueryDeviceName(device: Device)
    | QueryMaxWorkItemSizes(device: Device)
    | CreateCommandQueue(context: seq<Device>, device: Device)
    | CreateProgram(context: seq<Device>, sourcePath: string)
    | BuildProgram(devices: seq<Device>)
    | QueryBuildLog(device: Device)
    | CreateKernel(kernelName: string)
    | AllocateHostVector(vector: Operand, length: SizeT, fill: int)
    | CreateBuffer(buffer: Operand, flags: MemFlags, bytes: SizeT)
    | SetKernelArg(index: nat, buffer: Operand)
    | EnqueueKernel(global: Extent3)
    | ReadBuffer(buffer: Operand, bytes: SizeT)

  /** Whether a call throws `cl::Error` given the calls the runtime rejects; host allocation is not an OpenCL call. */
  predicate Throws(rejects: set<Call>, c: Call) {
    !c.AllocateHostVector? && c in rejects
  }

  /** How a run ends, or that it never does because the result loop does not exit. */
  datatype Status = Completed | NoPlatforms | NoDevice | CompilationError | RuntimeError | ResultLoopNeverExits

  /**
   * The process exit status: `main` falls off its end on success and returns
   * 1 on every failure. A run whose result loop never exits has none.
   */
  function ExitCode(s: Status): int
    requires !s.ResultLoopNeverExits?
  {
    if s.Completed? then 0 else 1
  }

  /** A run: how it ends, the calls issued in order, and the indices the result loop visits. */
  datatype Run = Run(status: Status, calls: seq<Call>, checked: seq<SizeT>)

  /** The global work size a variant uses on device `d`. */
  function WorkSizeFor(v: Variant, d: Device): SizeT {
    match v.workSize
    case Fixed(n) => n
    case DeviceMaximum => GlobalDim(d.maxWorkItemSizes)
  }

  /** The queries made of the selected device before the command queue is created. */
  function Preamble(v: Variant, d: Device): seq<Call> {
    (if v.announcesDevice then [QueryDeviceName(d)] else [])
    + (if v.workSize.DeviceMaximum? then [QueryMaxWorkItemSizes(d)] else [])
  }

  /** The command queue and the program object, both over the context of `[d]`. */
  function Setup(v: Variant, d: Device): seq<Call> {
    [CreateCommandQueue([d], d), CreateProgram([d], v.sourcePath)]
  }

  /** The kernel, the host vectors and the device buffers, for global work size `g`. */
  function Prepare(v: Variant, g: SizeT): seq<Call> {
    [CreateKernel(v.kernelName),
     AllocateHostVector(A, g, 1),
     AllocateHostVector(B, g, 2),
     AllocateHostVector(C, g, 0),
     CreateBuffer(A, ReadOnlyCopyHostPtr, BufferBytes(g)),
     CreateBuffer(B, ReadOnlyCopyHostPtr, BufferBytes(g)),
     CreateBuffer(C, ReadWrite, BufferBytes(g))]
  }

  /** The kernel arguments, the launch over `NDRange(g, 1, 1)` and the blocking read-back. */
  function Dispatch(g: SizeT): seq<Call> {
    [SetKernelArg(0, A),
     SetKernelArg(1, B),
     SetKernelArg(2, C),
     EnqueueKernel(Extent3(g, 1, 1)),
     ReadBuffer(C, BufferBytes(g))]
  }

  /** Every call a successful run on device `d` issues, in order. */
  function Planned(v: Variant, d: Device): seq<Call> {
    var g := WorkSizeFor(v, d);
    Preamble(v, d) + Setup(v, d) + [BuildProgram([d])] + Prepare(v, g) + Dispatch(g)
  }

  /** The position of the first call from `from` on that throws. */
  function FirstThrow(rejects: set<Call>, cs: seq<Call>, from: nat): (r: Option<nat>)
    requires from <= |cs|
    decreases |cs| - from
    ensures r.Some? ==> from <= r.value < |cs| && Throws(rejects, cs[r.value])
    ensures r.Some? ==> forall j :: from <= j < r.value ==> !Throws(rejects, cs[j])
    ensures r.None? ==> forall j :: from <= j < |cs| ==> !Throws(rejects, cs[j])
  {
    if from == |cs| then None
    else if Throws(rejects, cs[from]) then Some(from)
    else FirstThrow(rejects, cs, from + 1)
  }

  /**
   * The run on the selected device `d`: the planned calls are issued until
   * the first one that throws. A failed build is followed by the query of
   * its build log. When none throws, the result loop runs with its `uint`
   * counter: it checks every index below a global work size under 2^32, and
   * never exits for a larger one.
   */
  function Execute(v: Variant, d: Device, rejects: set<Call>): Run {
    var plan := Planned(v, d);
    match FirstThrow(rejects, plan, 0)
    case None =>
      if WorkSizeFor(v, d) < UintModulus then Run(Completed, plan, Indices(WorkSizeFor(v, d)))
      else Run(ResultLoopNeverExits, plan, [])
    case Some(k) =>
      if plan[k].BuildProgram? then
        var log := QueryBuildLog(d);
        Run(if Throws(rejects, log) then RuntimeError else CompilationError, plan[..k + 1] + [log], [])
      else
        Run(RuntimeError, plan[..k + 1], [])
  }

  /** The run the host program makes: no platform or no device ends it before any call. */
  function Expected(v: Variant, ps: seq<Platform>, rejects: set<Call>): Run {
    if ps == [] then Run(NoPlatforms, [], [])
    else match FirstMatch(ps, 0)
      case None => Run(NoDevice, [], [])
      case Some(s) => Execute(v, s.device, rejects)
  }

  /**
   * `calls` is what issuing `plan` until the first throw issues, and `failed`
   * says whether a call threw.
   */
  predicate Issues(rejects: set<Call>, plan: seq<Call>, calls: seq<Call>, failed: bool) {
    match FirstThrow(rejects, plan, 0)
    case None => !failed && calls == plan
    case Some(k) => failed && calls == plan[..k + 1]
  }

  /** Issuing two stretches of calls one after the other issues their concatenation. */
  lemma IssuesConcat(rejects: set<Call>, p1: seq<Call>, p2: seq<Call>,
                     c1: seq<Call>, f1: bool, c2: seq<Call>, f2: bool)
    requires Issues(rejects, p1, c1, f1)
    requires !f1 ==> Issues(rejects, p2, c2, f2)
    ensures Issues(rejects, p1 + p2, if f1 then c1 else c1 + c2, f1 || f2)
  {
    var p := p1 + p2;
    if f1 {
      var k := FirstThrow(rejects, p1, 0).value;
      assert p[k] == p1[k];
      assert forall j :: 0 <= j < k ==> p[j] == p1[j];
      assert FirstThrow(rejects, p, 0) == Some(k);
      assert p[..k + 1] == p1[..k + 1];
    } else {
      assert forall j :: 0 <= j < |p1| ==> p[j] == p1[j];
      match FirstThrow(rejects, p2, 0)
      case None =>
        assert forall j :: |p1| <= j < |p| ==> p[j] == p2[j - |p1|];
        assert FirstThrow(rejects, p, 0).None?;
      case Some(k) =>
        assert p[|p1| + k] == p2[k];
        assert forall j :: |p1| <= j < |p1| + k ==> p[j] == p2[j - |p1|];
        assert FirstThrow(rejects, p, 0) == Some(|p1| + k);
        assert p[..|p1| + k + 1] == p1 + p2[..k + 1];
    }
  }

  /** One OpenCL call, issued as the next call of `plan`. */
  method Issue(rejects: set<Call>, ghost plan: seq<Call>, calls: seq<Call>, c: Call)
    returns (issued: seq<Call>, failed: bool)
    requires |calls| < |plan| && calls == plan[..|calls|] && plan[|calls|] == c
    requires FirstThrow(rejects, plan, 0).None? || FirstThrow(rejects, plan, 0).value >= |calls|
    ensures issued == calls + [c] && issued == plan[..|issued|]
    ensures failed == Throws(rejects, c)
    ensures failed ==> FirstThrow(rejects, plan, 0) == Some(|calls|)
    ensures !failed ==> FirstThrow(rejects, plan, 0).None? || FirstThrow(rejects, plan, 0).value >= |issued|
  {
    issued := calls + [c];
    failed := Throws(rejects, c);
    assert plan[..|issued|] == plan[..|calls|] + [plan[|calls|]];
  }

  /**
   * `devices[0].getInfo<CL_DEVICE_NAME>()` when the program prints the
   * device, then `CL_DEVICE_MAX_WORK_ITEM_SIZES` and their product when the
   * work size is the device maximum.
   */
  method QueryDevice(v: Variant, d: Device, rejects: set<Call>) returns (calls: seq<Call>, failed: bool, g: SizeT)
    ensures Issues(rejects, Preamble(v, d), calls, failed)
    ensures !failed ==> g == WorkSizeFor(v, d)
  {
    ghost var plan := Preamble(v, d);
    calls, failed, g := [], false, 0;
    if v.announcesDevice {
      calls, failed := Issue(rejects, plan, calls, QueryDeviceName(d));
      if failed {
        return;
      }
    }
    match v.workSize {
      case Fixed(n) =>
        g := n;
      case DeviceMaximum =>
        calls, failed := Issue(rejects, plan, calls, QueryMaxWorkItemSizes(d));
        if failed {
          return;
        }
        g := GlobalDim(d.maxWorkItemSizes);
    }
  }

  /** `cl::CommandQueue queue(context, devices[0])` and `cl::Program program(context, ...)`. */
  method CreateQueueAndProgram(v: Variant, d: Device, ctx: seq<Device>, rejects: set<Call>)
    returns (calls: seq<Call>, failed: bool)
    requires ctx == [d]
    ensures Issues(rejects, Setup(v, d), calls, failed)
  {
    ghost var plan := Setup(v, d);
    calls := [];
    calls, failed := Issue(rejects, plan, calls, CreateCommandQueue(ctx, d));
    if failed {
      return;
    }
    calls, failed := Issue(rejects, plan, calls, CreateProgram(ctx, v.sourcePath));
  }

  /** The kernel object, the host vectors `a`, `b`, `c` of length `g`, and the buffers over them. */
  method PrepareBuffers(v: Variant, g: SizeT, rejects: set<Call>) returns (calls: seq<Call>, failed: bool)
    ensures Issues(rejects, Prepare(v, g), calls, failed)
  {
    ghost var plan := Prepare(v, g);
    calls := [];
    calls, failed := Issue(rejects, plan, calls, CreateKernel(v.kernelName));
    if failed {
      return;
    }
    // std::vector allocations: not OpenCL calls, so never a cl::Error.
    calls, failed := Issue(rejects, plan, calls, AllocateHostVector(A, g, 1));
    calls, failed := Issue(rejects, plan, calls, AllocateHostVector(B, g, 2));
    calls, failed := Issue(rejects, plan, calls, AllocateHostVector(C, g, 0));
    calls, failed := Issue(rejects, plan, calls, CreateBuffer(A, ReadOnlyCopyHostPtr, MulSize(g, SizeOfDouble)));
    if failed {
      return;
    }
    calls, failed := Issue(rejects, plan, calls, CreateBuffer(B, ReadOnlyCopyHostPtr, MulSize(g, SizeOfDouble)));
    if failed {
      return;
    }
    calls, failed := Issue(rejects, plan, calls, CreateBuffer(C, ReadWrite, MulSize(g, SizeOfDouble)));
  }

  /** `setArg` for the three buffers, the launch over `NDRange(g, 1, 1)`, and the blocking read of `C`. */
  method LaunchKernel(g: SizeT, rejects: set<Call>) returns (calls: seq<Call>, failed: bool)
    ensures Issues(rejects, Dispatch(g), calls, failed)
  {
    ghost var plan := Dispatch(g);
    calls := [];
    calls, failed := Issue(rejects, plan, calls, SetKernelArg(0, A));
    if failed {
      return;
    }
    calls, failed := Issue(rejects, plan, calls, SetKernelArg(1, B));
    if failed {
      return;
    }
    calls, failed := Issue(rejects, plan, calls, SetKernelArg(2, C));
    if failed {
      return;
    }
    calls, failed := Issue(rejects, plan, calls, EnqueueKernel(Extent3(g, 1, 1)));
    if failed {
      return;
    }
    calls, failed := Issue(rejects, plan, calls, ReadBuffer(C, MulSize(g, SizeOfDouble)));
  }

  /**
   * The body of `main`, shared by the three programs: the platform list is
   * checked, the search runs, and the rest of the run uses the one device
   * and the context it found.
   */
  method RunHost(v: Variant, ps: seq<Platform>, rejects: set<Call>) returns (run: Run)
    ensures run == Expected(v, ps, rejects)
  {
    if ps == [] {
      return Run(NoPlatforms, [], []);
    }
    var devices, context, _ := SelectDevice(ps);
    if devices == [] {
      return Run(NoDevice, [], []);
    }
    run := RunOnDevice(v, devices[0], context.value, devices, rejects);
  }

  /** The build is not among the calls that follow it. */
  lemma NoBuildAfterProgram(v: Variant, g: SizeT)
    ensures forall j :: 0 <= j < |Prepare(v, g) + Dispatch(g)| ==> !(Prepare(v, g) + Dispatch(g))[j].BuildProgram?
  {
    var t := Prepare(v, g) + Dispatch(g);
    assert forall j :: 0 <= j < |Prepare(v, g)| ==> t[j] == Prepare(v, g)[j];
    assert forall j :: |Prepare(v, g)| <= j < |t| ==> t[j] == Dispatch(g)[j - |Prepare(v, g)|];
  }

  /**
   * A throw inside stretch `mid` of the plan, none of whose calls is the
   * build, ends the run with a runtime error after exactly the calls issued.
   */
  lemma FailedStretch(v: Variant, d: Device, rejects: set<Call>,
                      pre: seq<Call>, mid: seq<Call>, rest: seq<Call>, c0: seq<Call>, calls: seq<Call>)
    requires Planned(v, d) == pre + mid + rest
    requires Issues(rejects, pre, c0, false) && Issues(rejects, pre + mid, calls, true)
    requires forall j :: 0 <= j < |mid| ==> !mid[j].BuildProgram?
    ensures Execute(v, d, rejects) == Run(RuntimeError, calls, [])
  {
    var upTo := pre + mid;
    IssuesConcat(rejects, upTo, rest, calls, true, [], false);
    var k := FirstThrow(rejects, upTo, 0).value;
    assert forall j :: 0 <= j < |pre| ==> upTo[j] == pre[j];
    assert upTo[k] == mid[k - |pre|];
  }

  /**
   * The part of `main` from the kernel object to the result loop, for global
   * work size `g`: a throw from any call ends it at once. The result loop
   * `for (uint i = 0; i < global_dim; ++i)` then runs with a 32-bit counter;
   * `hangs` reports that it never exits, which happens exactly when `g` is
   * 2^32 or more.
   */
  method PrepareAndLaunch(v: Variant, g: SizeT, rejects: set<Call>)
    returns (calls: seq<Call>, failed: bool, checked: seq<SizeT>, hangs: bool)
    ensures Issues(rejects, Prepare(v, g) + Dispatch(g), calls, failed)
    ensures hangs <==> !failed && g >= UintModulus
    ensures checked == if failed || hangs then [] else Indices(g)
    ensures hangs ==> forall n: nat :: UintAfter(n) < g
  {
    calls, failed := PrepareBuffers(v, g, rejects);
    if failed {
      IssuesConcat(rejects, Prepare(v, g), Dispatch(g), calls, true, [], false);
      return calls, failed, [], false;
    }
    var more;
    more, failed := LaunchKernel(g, rejects);
    IssuesConcat(rejects, Prepare(v, g), Dispatch(g), calls, false, more, failed);
    calls := calls + more;
    if failed {
      return calls, failed, [], false;
    }
    if g >= UintModulus {
      // The `uint` counter wraps before it reaches `g`: the loop never exits.
      UintCheckLoopNeverExits(g);
      return calls, failed, [], true;
    }
    checked := VisitIndicesUint(g);
    hangs := false;
  }

  /**
   * The part of `main` after the search, on device `d` with context `ctx`
   * and device list `devices`: the OpenCL calls are made in turn, and a
   * throw from any of them reaches the outer `catch` and ends the run with
   * exit status 1.
   */
  method RunOnDevice(v: Variant, d: Device, ctx: seq<Device>, devices: seq<Device>, rejects: set<Call>)
    returns (run: Run)
    requires ctx == [d] && devices == [d]
    ensures run == Execute(v, d, rejects)
  {
    ghost var rest := [BuildProgram([d])] + Prepare(v, WorkSizeFor(v, d)) + Dispatch(WorkSizeFor(v, d));
    assert Planned(v, d) == Preamble(v, d) + Setup(v, d) + rest;
    var calls, failed, g := QueryDevice(v, d, rejects);
    if failed {
      assert Planned(v, d) == [] + Preamble(v, d) + (Setup(v, d) + rest);
      assert [] + Preamble(v, d) == Preamble(v, d) && Issues(rejects, [], [], false);
      FailedStretch(v, d, rejects, [], Preamble(v, d), Setup(v, d) + rest, [], calls);
      return Run(RuntimeError, calls, []);
    }
    var more;
    more, failed := CreateQueueAndProgram(v, d, ctx, rejects);
    IssuesConcat(rejects, Preamble(v, d), Setup(v, d), calls, false, more, failed);
    if failed {
      FailedStretch(v, d, rejects, Preamble(v, d), Setup(v, d), rest, calls, calls + more);
      return Run(RuntimeError, calls + more, []);
    }
    run := BuildAndRun(v, d, devices, g, rejects, calls + more);
  }

  /**
   * `program.build(devices)` and the rest of `main`: a failed build is
   * caught on the spot, its build log queried (a throw from that query
   * reaches the outer `catch`), and the run ended with exit status 1.
   */
  method BuildAndRun(v: Variant, d: Device, devices: seq<Device>, g: SizeT, rejects: set<Call>, calls: seq<Call>)
    returns (run: Run)
    requires devices == [d] && g == WorkSizeFor(v, d)
    requires Issues(rejects, Preamble(v, d) + Setup(v, d), calls, false)
    ensures run == Execute(v, d, rejects)
  {
    ghost var done := Preamble(v, d) + Setup(v, d);
    var build := [BuildProgram(devices)];
    ghost var tail := Prepare(v, g) + Dispatch(g);
    assert Planned(v, d) == done + build + tail;
    if Throws(rejects, BuildProgram(devices)) {
      IssuesConcat(rejects, done, build, calls, false, build, true);
      IssuesConcat(rejects, done + build, tail, calls + build, true, [], false);
      assert FirstThrow(rejects, done + build, 0) == Some(|done|);
      var log := QueryBuildLog(d);
      return Run(if Throws(rejects, log) then RuntimeError else CompilationError, calls + build + [log], []);
    }
    IssuesConcat(rejects, done, build, calls, false, build, false);
    var more, failed, checked, hangs := PrepareAndLaunch(v, g, rejects);
    IssuesConcat(rejects, done + build, tail, calls + build, false, more, failed);
    if failed {
      NoBuildAfterProgram(v, g);
      assert Planned(v, d) == done + build + tail + [];
      FailedStretch(v, d, rejects, done + build, tail, [], calls + build, calls + build + more);
      return Run(RuntimeError, calls + build + more, []);
    }
    if hangs {
      return Run(ResultLoopNeverExits, calls + build + more, []);
    }
    return Run(Completed, calls + build + more, checked);
  }
}
