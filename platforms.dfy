/**
 * What the device-selection search sees of the OpenCL platform layer.
 * Every query the search makes can throw `cl::Error`; a query's answer is
 * therefore either the reported value or a throw.
 */
module Platforms {
  import opened SizeTypes
  import opened Strings

  /** The outcome of one `getDevices` / `getInfo` query. */
  datatype Info<T> = Reported(value: T) | QueryThrows

  /**
   * A GPU device as the search sees it: the answers to
   * `getInfo<CL_DEVICE_AVAILABLE>` and `getInfo<CL_DEVICE_EXTENSIONS>`,
   * whether constructing a `cl::Context` over it throws, and its
   * `CL_DEVICE_MAX_WORK_ITEM_SIZES`.
   */
  datatype Device = Device(
    available: Info<bool>,
    extensions: Info<string>,
    contextFails: bool,
    maxWorkItemSizes: Extent3)

  /** A platform: the answer to `getDevices(CL_DEVICE_TYPE_GPU, ...)`. */
  datatype Platform = Platform(gpus: Info<seq<Device>>)

  const KhrFp64: string := "cl_khr_fp64"
  const AmdFp64: string := "cl_amd_fp64"

  /** The extension test as the programs write it: `find` of either name is not `npos`. */
  predicate AdvertisesFp64(ext: string) {
    Find(ext, KhrFp64).Some? || Find(ext, AmdFp64).Some?
  }

  /** The capability the search looks for, stated with substrings rather than `find`. */
  ghost predicate Qualifies(d: Device) {
    d.available == Reported(true) && d.extensions.Reported?
    && (Contains(d.extensions.value, KhrFp64) || Contains(d.extensions.value, AmdFp64))
  }

  /** A device the search passes over without any query throwing. */
  ghost predicate PassedOver(d: Device) {
    d.available == Reported(false)
    || (d.available == Reported(true) && d.extensions.Reported?
        && !Contains(d.extensions.value, KhrFp64) && !Contains(d.extensions.value, AmdFp64))
  }

  /** The `find`-based test agrees with the substring statement of double-precision support. */
  lemma AdvertisesFp64Meaning(ext: string)
    ensures AdvertisesFp64(ext) <==> Contains(ext, KhrFp64) || Contains(ext, AmdFp64)
  {
    FindMeaning(ext, KhrFp64);
    FindMeaning(ext, AmdFp64);
  }

  /** The test is a substring test: a name embedded in a longer token still counts. */
  lemma SubstringNotToken()
    ensures AdvertisesFp64("xcl_amd_fp64_extra")
  {
    var ext := "xcl_amd_fp64_extra";
    assert ext == "x" + AmdFp64 + "_extra";
    assert OccursAt(ext, AmdFp64, 1) by {
      assert ext[1..1 + |AmdFp64|] == ("x" + AmdFp64 + "_extra")[1..12];
    }
    AdvertisesFp64Meaning(ext);
  }

  /** Half precision alone does not pass the test. */
  lemma Fp16IsNotFp64()
    ensures !AdvertisesFp64("cl_khr_fp16")
  {
    var ext := "cl_khr_fp16";
    assert ext[0..11][9] != KhrFp64[9] && ext[0..11][4] != AmdFp64[4];
    assert FindFrom(ext, KhrFp64, 1).None? && FindFrom(ext, AmdFp64, 1).None?;
  }
}
