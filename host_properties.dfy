/**
 * What the host programs promise about a run, stated over the model of
 * module Host: how discovery failures end, where a run stops, how every
 * call of a run is sized from the global work size, and the constants of
 * each program.
 */
module HostProperties {
  import opened Options
  import opened SizeTypes
  import opened Platforms
  import opened Selection
  import opened WorkSize
  import opened Host

  /**
   * No platform, or no platform offering a device, ends the run with exit
   * status 1 before any queue, program, kernel or buffer is created.
   */
  lemma DiscoveryFailure(v: Variant, ps: seq<Platform>, rejects: set<Call>)
    ensures Expected(v, ps, rejects).status == NoPlatforms <==> ps == []
    ensures Expected(v, ps, rejects).status == NoDevice <==>
      (ps != [] && forall q, k :: 0 <= q < |ps| ==> !Offers(ps[q], k))
    ensures Expected(v, ps, rejects).status in {NoPlatforms, NoDevice} ==>
      Expected(v, ps, rejects).calls == [] && ExitCode(Expected(v, ps, rejects).status) == 1
  {
    NoMatchIffNoOffer(ps);
  }

  /**
   * A run on device `d` completes exactly when none of its planned calls
   * throws and the global work size is below 2^32, so that the `uint`
   * counter of the result loop can reach it; it has then issued every
   * planned call and checked every index below the global work size.
   */
  lemma ExecuteCompletes(v: Variant, d: Device, rejects: set<Call>)
    ensures Execute(v, d, rejects).status == Completed <==>
      (forall i :: 0 <= i < |Planned(v, d)| ==> !Throws(rejects, Planned(v, d)[i]))
      && WorkSizeFor(v, d) < UintModulus
    ensures Execute(v, d, rejects).status == Completed ==>
      Execute(v, d, rejects).calls == Planned(v, d)
      && Execute(v, d, rejects).checked == Indices(WorkSizeFor(v, d))
      && ExitCode(Completed) == 0
  {
    var P := Planned(v, d);
    if FirstThrow(rejects, P, 0).Some? {
      var k := FirstThrow(rejects, P, 0).value;
      assert Throws(rejects, P[k]);
    }
  }

  /**
   * When no planned call throws but the global work size is 2^32 or more,
   * the run issues every planned call and then never leaves the result
   * loop: its `uint` counter stays below the bound forever.
   */
  lemma ExecuteNeverExits(v: Variant, d: Device, rejects: set<Call>)
    ensures Execute(v, d, rejects).status == ResultLoopNeverExits <==>
      (forall i :: 0 <= i < |Planned(v, d)| ==> !Throws(rejects, Planned(v, d)[i]))
      && WorkSizeFor(v, d) >= UintModulus
    ensures Execute(v, d, rejects).status == ResultLoopNeverExits ==>
      Execute(v, d, rejects).calls == Planned(v, d)
      && forall n: nat :: UintAfter(n) < WorkSizeFor(v, d)
  {
    var P := Planned(v, d);
    if FirstThrow(rejects, P, 0).Some? {
      var k := FirstThrow(rejects, P, 0).value;
      assert Throws(rejects, P[k]);
    } else if WorkSizeFor(v, d) >= UintModulus {
      UintCheckLoopNeverExits(WorkSizeFor(v, d));
    }
  }

  /**
   * The hello program never finishes on a device with maximum work-item
   * sizes 1024 x 1024 x 4096 even when every OpenCL call succeeds: the
   * global work size is 2^32.
   */
  lemma HelloNeverExitsOnLargeDevice(d: Device)
    requires d.maxWorkItemSizes == Extent3(1024, 1024, 4096)
    ensures WorkSizeFor(HelloProgram, d) == UintModulus
    ensures Execute(HelloProgram, d, {}).status == ResultLoopNeverExits
  {
    GlobalDimExact(d.maxWorkItemSizes);
    ExecuteNeverExits(HelloProgram, d, {});
  }

  /**
   * When call `k` of the plan is the first to throw, the run stops right
   * after it with exit status 1; if it is the build, the build log is
   * queried first, and the run reports a compilation error unless that
   * query throws too.
   */
  lemma ExecuteFails(v: Variant, d: Device, rejects: set<Call>, k: nat)
    requires k < |Planned(v, d)| && Throws(rejects, Planned(v, d)[k])
    requires forall i :: 0 <= i < k ==> !Throws(rejects, Planned(v, d)[i])
    ensures !Planned(v, d)[k].BuildProgram? ==>
      Execute(v, d, rejects) == Run(RuntimeError, Planned(v, d)[..k + 1], [])
    ensures Planned(v, d)[k].BuildProgram? ==>
      Planned(v, d)[k] == BuildProgram([d])
      && Execute(v, d, rejects).calls == Planned(v, d)[..k + 1] + [QueryBuildLog(d)]
      && (Execute(v, d, rejects).status == CompilationError <==> !Throws(rejects, QueryBuildLog(d)))
      && (Execute(v, d, rejects).status == RuntimeError <==> Throws(rejects, QueryBuildLog(d)))
    ensures Execute(v, d, rejects).status in {RuntimeError, CompilationError}
    ensures Execute(v, d, rejects).checked == [] && ExitCode(Execute(v, d, rejects).status) == 1
  {
    var P := Planned(v, d);
    var j := FirstThrow(rejects, P, 0);
    assert j == Some(k);
    if P[k].BuildProgram? {
      var g := WorkSizeFor(v, d);
      var pre := Preamble(v, d) + Setup(v, d);
      assert P == pre + [BuildProgram([d])] + (Prepare(v, g) + Dispatch(g));
      assert forall i :: 0 <= i < |pre| ==> !P[i].BuildProgram?;
      assert forall i :: |pre| < i < |P| ==> !P[i].BuildProgram?;
    }
  }

  /** A call that, if it carries a size or a device list, carries `g` or `[d]`. */
  predicate SizedBy(c: Call, v: Variant, d: Device, g: SizeT) {
    (c.AllocateHostVector? ==> c.length == g)
    && (c.CreateBuffer? ==> c.bytes == BufferBytes(g))
    && (c.ReadBuffer? ==> c.bytes == BufferBytes(g))
    && (c.EnqueueKernel? ==> c.global == Extent3(g, 1, 1))
    && (c.CreateCommandQueue? ==> c.context == [d] && c.device == d)
    && (c.CreateProgram? ==> c.context == [d] && c.sourcePath == v.sourcePath)
    && (c.BuildProgram? ==> c.devices == [d])
    && (c.QueryDeviceName? || c.QueryMaxWorkItemSizes? ==> c.device == d)
  }

  /**
   * Every call of a run on device `d` is sized from one global work size
   * `g`: the host vectors have `g` elements, each buffer and the read-back
   * hold `g` doubles, the kernel is launched over `NDRange(g, 1, 1)`, and
   * the queue, program and build all use the one-device list `[d]`.
   */
  lemma PlanSizing(v: Variant, d: Device)
    ensures forall i :: 0 <= i < |Planned(v, d)| ==> SizedBy(Planned(v, d)[i], v, d, WorkSizeFor(v, d))
  {
    var g := WorkSizeFor(v, d);
    var front := Preamble(v, d) + Setup(v, d) + [BuildProgram([d])];
    var back := Prepare(v, g) + Dispatch(g);
    assert forall i :: 0 <= i < |front| ==> SizedBy(front[i], v, d, g);
    assert forall i :: 0 <= i < |back| ==> SizedBy(back[i], v, d, g);
    SizedConcat(front, back, v, d, g);
    assert Planned(v, d) == front + back;
  }

  lemma SizedConcat(s: seq<Call>, t: seq<Call>, v: Variant, d: Device, g: SizeT)
    requires forall i :: 0 <= i < |s| ==> SizedBy(s[i], v, d, g)
    requires forall i :: 0 <= i < |t| ==> SizedBy(t[i], v, d, g)
    ensures forall i :: 0 <= i < |s + t| ==> SizedBy((s + t)[i], v, d, g)
  {
  }

  /** Each of the three operands gets a host vector of `g` elements and a buffer of `g` doubles. */
  lemma EveryOperandAllocated(v: Variant, d: Device, x: Operand)
    ensures exists i :: (0 <= i < |Planned(v, d)| && Planned(v, d)[i].AllocateHostVector?
                         && Planned(v, d)[i].vector == x && Planned(v, d)[i].length == WorkSizeFor(v, d))
    ensures exists i :: (0 <= i < |Planned(v, d)| && Planned(v, d)[i].CreateBuffer?
                         && Planned(v, d)[i].buffer == x && Planned(v, d)[i].bytes == BufferBytes(WorkSizeFor(v, d)))
  {
    var g := WorkSizeFor(v, d);
    var front := Preamble(v, d) + Setup(v, d) + [BuildProgram([d])];
    var P := Planned(v, d);
    assert P == front + Prepare(v, g) + Dispatch(g);
    var n := |front|;
    var off := match x case A => 0 case B => 1 case C => 2;
    assert P[n + 1 + off] == Prepare(v, g)[1 + off];
    assert P[n + 4 + off] == Prepare(v, g)[4 + off];
  }

  /**
   * The host vectors and the result loop of the hello and sandbox programs
   * are sized by the product of the device's three maximum work-item sizes,
   * taken modulo 2^64 as `size_t` arithmetic does.
   */
  lemma DeviceMaximumWorkSize(d: Device)
    ensures var e := d.maxWorkItemSizes;
      WorkSizeFor(HelloProgram, d) == (e.x * e.y * e.z) % SizeModulus
      && WorkSizeFor(SandboxProgram, d) == (e.x * e.y * e.z) % SizeModulus
    ensures Preamble(HelloProgram, d) == [QueryDeviceName(d), QueryMaxWorkItemSizes(d)]
    ensures Preamble(SandboxProgram, d) == [QueryDeviceName(d), QueryMaxWorkItemSizes(d)]
  {
    GlobalDimIsWrappedProduct(d.maxWorkItemSizes);
  }

  /**
   * main.cpp uses the fixed size 32 on any device: vectors of 32 doubles,
   * buffers of 256 bytes, a launch over `NDRange(32, 1, 1)`, no device
   * query before the queue, and a result loop over the indices 0 to 31.
   */
  lemma VectorAddIsFixedSize(d: Device, rejects: set<Call>)
    ensures WorkSizeFor(VectorAddProgram, d) == 32 && BufferBytes(32) == 256
    ensures Preamble(VectorAddProgram, d) == []
    ensures EnqueueKernel(Extent3(32, 1, 1)) in Planned(VectorAddProgram, d)
    ensures Execute(VectorAddProgram, d, rejects).status != ResultLoopNeverExits
    ensures Execute(VectorAddProgram, d, rejects).status == Completed ==>
      var checked := Execute(VectorAddProgram, d, rejects).checked;
      |checked| == 32 && forall k :: 0 <= k < 32 ==> checked[k] == k
  {
    var P := Planned(VectorAddProgram, d);
    assert P[|P| - 2] == EnqueueKernel(Extent3(32, 1, 1));
  }
}
