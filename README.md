# OpenCL host programs: device search and work sizing

This project models the logic of three OpenCL host programs that is not a
call into the OpenCL C++ wrapper. The programs are `src/hello/hello.cpp`,
`src/sandbox/main.cpp` and `main.cpp`, and the logic has three parts:

- **The device search.** The programs walk the platforms in order, and each
  platform's GPU devices in order. They pass over a device that reports
  itself unavailable, or whose extension string contains neither
  `cl_khr_fp64` nor `cl_amd_fp64`. They keep the first qualifying device,
  provided its `cl::Context` builds. Anything thrown inside one platform's
  `try` block clears `devices` and moves on to the next platform, dropping
  the rest of that platform. The thrower may be `getDevices`, either
  `getInfo`, or the context constructor after `push_back`.
- **The work size and buffer sizes.** The hello and sandbox programs use the
  product of the device's three maximum work-item sizes, computed in `size_t`
  and so wrapping modulo 2^64. `main.cpp` uses the constant `N = 32`. The
  vectors `a`, `b` and `c` have that many doubles, and each buffer holds
  `size() * sizeof(double)` bytes.
- **The result loop.** It is meant to run over the indices
  `0 .. global_dim - 1`, but its counter is a 32-bit `uint`. It does so when
  `global_dim` is below 2^32, and never exits otherwise (see "## Findings").
  The run model keeps the loop as written.

The three programs share one body (`Host.RunHost`) and differ only in a
`Host.Variant`: kernel name, source path, whether the device name is
printed, and where the work size comes from.

The OpenCL runtime is not modelled. A platform is its answer to
`getDevices`, or a throw. A device is its answers to
`getInfo<CL_DEVICE_AVAILABLE>` and `getInfo<CL_DEVICE_EXTENSIONS>`, each of
which may be a throw, plus whether `cl::Context` throws for it and its
maximum work-item sizes. The calls made after the search are recorded as a
trace of `Host.Call` values. A runtime input `rejects` says which of those
calls throw `cl::Error`.

The search is an imperative method, `Selection.SelectDevice`, with the
programs' nested loops, their `devices.empty()` guards and the `clear()` in
the catch. It is proved equal to a functional specification,
`Selection.FirstMatch`, which in turn is proved equal to a declarative
statement, `Selection.FirstMatchIsFirstOffer`. The rest of a run is the
method `Host.RunHost`, proved equal to the specification `Host.Expected`.
The lemmas in `HostProperties` state what every run then satisfies.

A failing platform does not merely contribute zero devices. The catch-all
also fires when `getInfo` throws for one device, or when the context
constructor throws, and then the remaining devices of that platform are
dropped as well (`Selection.ThrowDiscardsPlatform`).

## Model

| member | source | states |
|---|---|---|
| Strings.FindFrom | src/hello/hello.cpp:56-57 | `find` from a position gives the first occurrence at or after it, and `npos` (None) only when there is none |
| Strings.FindMeaning | src/hello/hello.cpp:55-58 | `find` is `npos` exactly when the pattern is not a substring; otherwise it gives the first position |
| Platforms.AdvertisesFp64Meaning | src/hello/hello.cpp:53-58 | the two `find` tests pass exactly when the extension string contains `cl_khr_fp64` or `cl_amd_fp64` as a substring |
| Platforms.SubstringNotToken | src/sandbox/main.cpp:43-46 | the test is a substring test: a name inside a longer token passes |
| Platforms.Fp16IsNotFp64 | main.cpp:45-48 | an extension string naming only `cl_khr_fp16` fails the test |
| Selection.ExamineMeaning | src/hello/hello.cpp:50-61 | one inner iteration picks a device exactly when it is available, advertises fp64 and its context builds; it skips the device exactly when the device is unavailable or lacks fp64 with no query throwing |
| Selection.WalkDevices | src/hello/hello.cpp:48-62 | the inner loop ends at the first device that is picked or throws, after skipping every device before it, or runs off the end having skipped all of them |
| Selection.YieldMeaning | src/hello/hello.cpp:44-62 | a platform's block selects device k exactly when device k qualifies, its context builds, and every earlier device was passed over |
| Selection.FirstMatch | src/hello/hello.cpp:40-68 | the search selects from the first platform whose block selects a device; every earlier platform selected nothing |
| Selection.FirstMatchIsFirstOffer | src/hello/hello.cpp:40-68 | the search selects (p, k, d) if and only if platform p offers device k, d is that device, and no earlier platform offers any device |
| Selection.NoMatchIffNoOffer | src/hello/hello.cpp:70-74 | the search ends with `devices` empty if and only if no platform offers a device |
| Selection.SelectedQualifies | src/sandbox/main.cpp:38-49 | a selected device reports available, contains an fp64 name in its extensions, and its context was built |
| Selection.ThrowDiscardsPlatform | src/hello/hello.cpp:44-67 | a throw at device k of platform p (a query, or the context constructor after `push_back`) leaves the result to the platforms after p, even when a later device of p would qualify; p is never the selected platform |
| Selection.FailedQueryIsolated | main.cpp:34-57 | a platform whose `getDevices` throws contributes nothing, and the search goes on with the next one |
| Selection.QueriedExist | src/hello/hello.cpp:40-48 | every device the search queries exists and lies on the current platform or a later one |
| Selection.QueriedInOrder | src/sandbox/main.cpp:28-36 | the search queries devices in strictly increasing platform-then-device order |
| Selection.QueriedEndsAtSelection | main.cpp:30-38 | when a device is selected, it is the last device queried: both `empty()` guards stop the search after it |
| Selection.TryPlatform | src/hello/hello.cpp:44-63 | one platform's block: it selects the walk's pick with a context over exactly `[pick]`; it leaves `devices` empty when it runs off the end; on a throw it reports `threw`, leaving `devices` holding the pushed device only when the context constructor threw; it queries exactly the devices up to where the walk ended |
| Selection.SelectDevice | src/hello/hello.cpp:37-68 | `devices` has at most one element; it is empty with no context when the specification selects nothing, and otherwise it is exactly the selected device with the context built from that one-element list; the devices queried are the specification's |
| SizeTypes.MulSize | src/hello/hello.cpp:81 | `size_t` multiplication is exact below 2^64 and always congruent to the exact product modulo 2^64 |
| SizeTypes.IncUint | src/hello/hello.cpp:172 | `++i` on a `uint` adds one below 2^32 - 1 and wraps to 0 there |
| WorkSize.GlobalDimIsWrappedProduct | src/hello/hello.cpp:81 | `dims[0] * dims[1] * dims[2]` evaluated left to right in `size_t` equals the exact product modulo 2^64 |
| WorkSize.GlobalDimExact | src/sandbox/main.cpp:69 | without overflow the global work size is the plain product |
| WorkSize.GlobalDimCanWrapToZero | src/hello/hello.cpp:81 | with overflow it is not: 2^32 x 2^32 x 1 gives 0 |
| WorkSize.BufferBytes | src/hello/hello.cpp:124-131 | `size() * sizeof(double)` is 8 times the length below 2^61 and always a multiple of 8 |
| WorkSize.Indices | src/hello/hello.cpp:172 | the index range of the result loop is 0 to n - 1 in increasing order |
| WorkSize.VisitIndices | src/sandbox/main.cpp:153-156 | the corrected result loop, with a counter as wide as the bound, visits every index below the bound exactly once, in increasing order, for every bound |
| WorkSize.VisitIndicesUint | main.cpp:125-127 | the loop as written, with a `uint` counter, visits the indices 0 to n - 1 in order when n is below 2^32 (main.cpp's n = 32); the run model uses it there |
| WorkSize.UintAfterIsModular | src/hello/hello.cpp:172 | after n increments from 0 the `uint` counter is n modulo 2^32 |
| WorkSize.UintCheckLoopNeverExits | src/hello/hello.cpp:172 | for a bound of 2^32 or more the `uint` loop guard holds after every number of iterations, and the counter returns to 0 |
| Host.FirstThrow | src/hello/hello.cpp:176-184 | the first call at or after a position that throws, with none throwing before it; or none throwing at all |
| Host.IssuesConcat | src/hello/hello.cpp:84-164 | issuing two stretches of calls in sequence, each stopping at its first throw, issues their concatenation up to its first throw |
| Host.Issue | src/hello/hello.cpp:84-164 | one call appended to the trace; it throws exactly when the runtime rejects it, and then it is the plan's first throwing call |
| Host.QueryDevice | src/hello/hello.cpp:76-81 | the device name and maximum work-item sizes queries are issued up to the first throw; on success the work size is the variant's |
| Host.CreateQueueAndProgram | src/hello/hello.cpp:84-99 | the command queue and the program object are created over the context `[d]`, stopping at the first throw |
| Host.PrepareBuffers | src/hello/hello.cpp:116-131 | the kernel, the three host vectors of length g and the three buffers of `g * sizeof(double)` bytes are issued up to the first throw; host allocations never throw `cl::Error` |
| Host.LaunchKernel | src/hello/hello.cpp:134-164 | the three kernel arguments, the launch over `NDRange(g, 1, 1)` and the read-back of C are issued up to the first throw |
| Host.PrepareAndLaunch | src/sandbox/main.cpp:97-156 | after the build, the calls are issued up to the first throw; when none throws, the `uint` result loop checks 0 to g - 1 if g is below 2^32, and otherwise reports that it never exits, its counter staying below g forever |
| Host.FailedStretch | src/hello/hello.cpp:177-184 | a throw outside the build ends the run with a runtime error (exit 1) right after the throwing call |
| Host.BuildAndRun | src/hello/hello.cpp:101-112 | a failed build is followed by the build-log query and ends the run with exit 1; otherwise the run continues as planned |
| Host.RunOnDevice | src/hello/hello.cpp:76-175 | the run on the selected device equals the specification `Execute`: the planned calls up to the first throw, then the `uint` result loop, which completes below 2^32 and never exits from 2^32 on |
| Host.RunHost | src/hello/hello.cpp:23-185 | the whole program body equals the specification `Expected`: no platforms, no device, or the run on the selected device, including a result loop that never exits |
| HostProperties.DiscoveryFailure | src/hello/hello.cpp:31-35 | the run ends with no platforms exactly when the list is empty, and with no device exactly when no platform offers one; both exit with 1 before any queue, program or buffer is created |
| HostProperties.ExecuteCompletes | src/sandbox/main.cpp:64-156 | a run completes exactly when no planned call throws and the work size is below 2^32; it has then issued every planned call and checked every index below the work size, with exit 0 |
| HostProperties.ExecuteNeverExits | src/sandbox/main.cpp:153-156 | a run never ends exactly when no planned call throws and the work size is 2^32 or more; it has issued every planned call and the `uint` counter stays below the work size forever |
| HostProperties.HelloNeverExitsOnLargeDevice | src/hello/hello.cpp:79-175 | on a device with maximum sizes 1024 x 1024 x 4096 and no OpenCL call failing, the work size is 2^32 and the hello program never exits |
| HostProperties.ExecuteFails | main.cpp:75-86 | when call k is the first to throw, the run stops right after it with a runtime or compilation error and exit 1; a failed build is followed by the build-log query, and is a compilation error unless that query throws too |
| HostProperties.PlanSizing | src/hello/hello.cpp:119-152 | every call of a run is sized from one work size g: vectors of g elements, buffers and the read-back of g doubles, the launch over `NDRange(g, 1, 1)`; the queue, program and build use `[d]` |
| HostProperties.EveryOperandAllocated | src/sandbox/main.cpp:100-112 | each of a, b and c gets a host vector of g elements and a buffer of g doubles |
| HostProperties.DeviceMaximumWorkSize | src/sandbox/main.cpp:64-69 | hello and sandbox use the product of the three maximum work-item sizes modulo 2^64, after querying the device name and those sizes |
| HostProperties.VectorAddIsFixedSize | main.cpp:13 | main.cpp uses 32 on any device: 256-byte buffers, `NDRange(32, 1, 1)`, no device query before the queue, and a result loop over 0 to 31 that always exits |

## Left out

- `cl::Platform::get` is not modelled: the platform list is an input. A throw from it would reach the outer `catch` and exit with 1.
- The OpenCL runtime is not modelled. What its calls return (the context, queue, program, kernel, buffers and events) is not modelled, only whether each call throws.
- The text of the kernel sources and the reading of the `.cl` file with `std::ifstream` are left out. These are I/O, and the kernels are opaque compilation units.
- Event `wait()`, the `new`/`delete` of the event handle, and the asynchrony of the kernel and the read-back are left out. The model is sequential.
- Timing with `std::chrono` and all output to `std::cout` and `std::cerr` are left out. These are I/O, so the device name and the build log appear only as the queries that obtain them.
- The body of the result loop (`assert(c[i] == 3)`, or printing `c[i]`) is left out. It is floating point and depends on the kernel, so only its index range is modelled.
- Host allocation failure (`std::bad_alloc` from a `std::vector` of `global_dim` doubles) is not modelled. The outer `catch` only catches `cl::Error`, so such a failure would end the process rather than return 1.
- A device reporting fewer than three maximum work-item sizes is not modelled. The model takes three, as the programs index three.
- Host.Throws: any rejected OpenCL call throws `cl::Error`. Error codes and messages are not distinguished, so exit status 1 is the only outcome of a failure.
- WorkSize.VisitIndicesUint: it requires a bound below 2^32. Above that the loop does not terminate, which `WorkSize.UintCheckLoopNeverExits` states instead.

## Findings

| source | as written | input that shows it | evidently intended | confidence | as-written member | corrected member |
|---|---|---|---|---|---|---|
| src/hello/hello.cpp:172, src/sandbox/main.cpp:153 | `for (uint i = 0; i < global_dim; ++i)` compares a 32-bit counter against a 64-bit `size_t` bound | a device whose maximum work-item sizes multiply to 2^32 or more, e.g. 1024 x 1024 x 4096: the counter wraps to 0 before reaching the bound, so the loop never exits and re-reads `c` from the start | a counter as wide as `global_dim` (`size_t i`), visiting every index once | low, not executed: the loop is reached only after buffers of 2^32 doubles were allocated and filled | HostProperties.HelloNeverExitsOnLargeDevice | WorkSize.VisitIndices |
