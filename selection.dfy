/**
 * The device-selection search shared by the three host programs: walk the
 * platforms in order and, on each, its GPU devices in order; pass over a
 * device that is unavailable or lacks double precision; keep the first one
 * over which a `cl::Context` can be built. Anything thrown inside one
 * platform's block empties the selection and moves on to the next platform.
 */
module Selection {
  import opened Options
  import opened Platforms

  /** What examining one device in the inner loop comes to. */
  datatype Verdict = Skip | Pick | Throw

  /** One inner-loop iteration, in the order the programs make their queries. */
  function Examine(d: Device): Verdict {
    match d.available
    case QueryThrows => Throw
    case Reported(av) =>
      if !av then Skip
      else match d.extensions
        case QueryThrows => Throw
        case Reported(ext) =>
          if !AdvertisesFp64(ext) then Skip
          else if d.contextFails then Throw
          else Pick
  }

  /** A device is picked exactly when it qualifies and its context can be built; skipped exactly when passed over. */
  lemma ExamineMeaning(d: Device)
    ensures Examine(d) == Pick <==> Qualifies(d) && !d.contextFails
    ensures Examine(d) == Skip <==> PassedOver(d)
  {
    if d.extensions.Reported? {
      AdvertisesFp64Meaning(d.extensions.value);
    }
  }

  /** How the walk over one platform's device list ends. */
  datatype Walk = Picked(at: nat) | Threw(at: nat) | Exhausted

  /** The inner loop from device `i` on. */
  function WalkDevices(ds: seq<Device>, i: nat): (w: Walk)
    requires i <= |ds|
    decreases |ds| - i
    ensures w.Picked? ==> i <= w.at < |ds| && Examine(ds[w.at]) == Pick
    ensures w.Threw? ==> i <= w.at < |ds| && Examine(ds[w.at]) == Throw
    ensures !w.Exhausted? ==> forall j :: i <= j < w.at ==> Examine(ds[j]) == Skip
    ensures w.Exhausted? ==> forall j :: i <= j < |ds| ==> Examine(ds[j]) == Skip
  {
    if i == |ds| then Exhausted
    else match Examine(ds[i])
      case Skip => WalkDevices(ds, i + 1)
      case Throw => Threw(i)
      case Pick => Picked(i)
  }

  /** The index of the device a platform's block selects, if it selects one. */
  function Yield(p: Platform): (r: Option<nat>)
    ensures r.Some? ==> p.gpus.Reported? && r.value < |p.gpus.value|
  {
    match p.gpus
    case QueryThrows => None
    case Reported(ds) =>
      match WalkDevices(ds, 0)
      case Picked(k) => Some(k)
      case _ => None
  }

  /** Declaratively: device `k` of `p` qualifies and every device before it is passed over. */
  ghost predicate Offers(p: Platform, k: nat) {
    p.gpus.Reported? && k < |p.gpus.value|
    && Qualifies(p.gpus.value[k]) && !p.gpus.value[k].contextFails
    && forall j :: 0 <= j < k ==> PassedOver(p.gpus.value[j])
  }

  /** A platform's block selects device `k` exactly when it offers device `k`. */
  lemma YieldMeaning(p: Platform, k: nat)
    ensures Yield(p) == Some(k) <==> Offers(p, k)
  {
    if p.gpus.Reported? {
      var ds := p.gpus.value;
      forall j | 0 <= j < |ds| {
        ExamineMeaning(ds[j]);
      }
    }
  }

  /** The device a search selects, with its position. */
  datatype Selection = Selection(platform: nat, index: nat, device: Device)

  /** The search from platform `from` on: the first platform whose block selects a device. */
  function FirstMatch(ps: seq<Platform>, from: nat): (r: Option<Selection>)
    requires from <= |ps|
    decreases |ps| - from
    ensures r.Some? ==> from <= r.value.platform < |ps|
    ensures r.Some? ==> (Yield(ps[r.value.platform]) == Some(r.value.index)
                         && r.value.device == ps[r.value.platform].gpus.value[r.value.index])
    ensures r.Some? ==> forall q :: from <= q < r.value.platform ==> Yield(ps[q]).None?
    ensures r.None? ==> forall q :: from <= q < |ps| ==> Yield(ps[q]).None?
  {
    if from == |ps| then None
    else match Yield(ps[from])
      case Some(k) => Some(Selection(from, k, ps[from].gpus.value[k]))
      case None => FirstMatch(ps, from + 1)
  }

  /**
   * The search selects `s` exactly when platform `s.platform` offers device
   * `s.index` and no earlier platform offers any device.
   */
  lemma FirstMatchIsFirstOffer(ps: seq<Platform>, s: Selection)
    ensures FirstMatch(ps, 0) == Some(s) <==>
      s.platform < |ps| && Offers(ps[s.platform], s.index)
      && s.device == ps[s.platform].gpus.value[s.index]
      && forall q, k :: 0 <= q < s.platform ==> !Offers(ps[q], k)
  {
    var r := FirstMatch(ps, 0);
    if r == Some(s) {
      YieldMeaning(ps[s.platform], s.index);
      forall q, k | 0 <= q < s.platform
        ensures !Offers(ps[q], k)
      {
        YieldMeaning(ps[q], k);
      }
    }
    if s.platform < |ps| && Offers(ps[s.platform], s.index)
       && s.device == ps[s.platform].gpus.value[s.index]
       && forall q, k :: 0 <= q < s.platform ==> !Offers(ps[q], k)
    {
      YieldMeaning(ps[s.platform], s.index);
      assert Yield(ps[s.platform]) == Some(s.index);
      assert r.Some?;
      var t := r.value;
      YieldMeaning(ps[t.platform], t.index);
      assert t.platform == s.platform;
    }
  }

  /** The search selects nothing exactly when no platform offers a device. */
  lemma NoMatchIffNoOffer(ps: seq<Platform>)
    ensures FirstMatch(ps, 0).None? <==> forall q, k :: 0 <= q < |ps| ==> !Offers(ps[q], k)
  {
    forall q, k | 0 <= q < |ps| {
      YieldMeaning(ps[q], k);
    }
    if FirstMatch(ps, 0).Some? {
      var t := FirstMatch(ps, 0).value;
      YieldMeaning(ps[t.platform], t.index);
    }
  }

  /** The selected device reports available and names a double-precision extension; its context was built. */
  lemma SelectedQualifies(ps: seq<Platform>)
    ensures FirstMatch(ps, 0).Some? ==>
      Qualifies(FirstMatch(ps, 0).value.device) && !FirstMatch(ps, 0).value.device.contextFails
  {
    if FirstMatch(ps, 0).Some? {
      var s := FirstMatch(ps, 0).value;
      FirstMatchIsFirstOffer(ps, s);
    }
  }

  /**
   * A throw while walking platform `p` (a device query, or the context
   * constructor after the device was pushed) discards the whole platform:
   * nothing of it is selected and the search goes on with platform `p + 1`.
   */
  lemma ThrowDiscardsPlatform(ps: seq<Platform>, p: nat, k: nat)
    requires p < |ps| && ps[p].gpus.Reported? && k < |ps[p].gpus.value|
    requires forall j :: 0 <= j < k ==> PassedOver(ps[p].gpus.value[j])
    requires !PassedOver(ps[p].gpus.value[k])
    requires !(Qualifies(ps[p].gpus.value[k]) && !ps[p].gpus.value[k].contextFails)
    ensures FirstMatch(ps, p) == FirstMatch(ps, p + 1)
    ensures FirstMatch(ps, 0).Some? ==> FirstMatch(ps, 0).value.platform != p
  {
    var ds := ps[p].gpus.value;
    forall j | 0 <= j <= k {
      ExamineMeaning(ds[j]);
    }
    assert Examine(ds[k]) == Throw;
    assert Yield(ps[p]).None?;
  }

  /** A platform whose device query throws contributes nothing and does not stop the search. */
  lemma FailedQueryIsolated(ps: seq<Platform>, p: nat)
    requires p < |ps| && ps[p].gpus.QueryThrows?
    ensures FirstMatch(ps, p) == FirstMatch(ps, p + 1)
    ensures FirstMatch(ps, 0).Some? ==> FirstMatch(ps, 0).value.platform != p
  {
  }

  /** The position of a device: platform index, then index in that platform's GPU list. */
  datatype Pos = Pos(platform: nat, device: nat)

  /** Platform-then-device order. */
  predicate Precedes(a: Pos, b: Pos) {
    a.platform < b.platform || (a.platform == b.platform && a.device < b.device)
  }

  /** The positions of devices `0 .. n - 1` of platform `p`. */
  function Row(p: nat, n: nat): (r: seq<Pos>)
    ensures |r| == n && forall j :: 0 <= j < n ==> r[j] == Pos(p, j)
  {
    seq(n, j requires 0 <= j < n => Pos(p, j))
  }

  /** How many devices the inner loop queried before it ended. */
  function Reach(w: Walk, n: nat): nat {
    match w
    case Picked(k) => k + 1
    case Threw(k) => k + 1
    case Exhausted => n
  }

  /** The devices the search queries, from platform `from` on, in the order it queries them. */
  function Queried(ps: seq<Platform>, from: nat): seq<Pos>
    requires from <= |ps|
    decreases |ps| - from
  {
    if from == |ps| then []
    else match ps[from].gpus
      case QueryThrows => Queried(ps, from + 1)
      case Reported(ds) =>
        var w := WalkDevices(ds, 0);
        Row(from, Reach(w, |ds|)) + (if w.Picked? then [] else Queried(ps, from + 1))
  }

  /** Every device the search queries exists and lies on platform `from` or later. */
  lemma {:induction false} QueriedExist(ps: seq<Platform>, from: nat)
    requires from <= |ps|
    decreases |ps| - from
    ensures forall e :: e in Queried(ps, from) ==>
      from <= e.platform < |ps| && ps[e.platform].gpus.Reported? && e.device < |ps[e.platform].gpus.value|
  {
    if from < |ps| {
      QueriedExist(ps, from + 1);
    }
  }

  /** The search queries devices in strictly increasing platform-then-device order. */
  lemma {:induction false} QueriedInOrder(ps: seq<Platform>, from: nat)
    requires from <= |ps|
    decreases |ps| - from
    ensures forall i, j :: 0 <= i < j < |Queried(ps, from)| ==> Precedes(Queried(ps, from)[i], Queried(ps, from)[j])
  {
    if from < |ps| {
      QueriedInOrder(ps, from + 1);
      QueriedExist(ps, from + 1);
      var q := Queried(ps, from);
      var rest := Queried(ps, from + 1);
      if ps[from].gpus.Reported? {
        var ds := ps[from].gpus.value;
        var w := WalkDevices(ds, 0);
        var row := Row(from, Reach(w, |ds|));
        var tail := if w.Picked? then [] else rest;
        assert q == row + tail;
        forall i, j | 0 <= i < j < |q|
          ensures Precedes(q[i], q[j])
        {
          if j < |row| {
          } else if i < |row| {
            assert q[j] == tail[j - |row|] && tail[j - |row|] in rest;
          } else {
            assert q[i] == rest[i - |row|] && q[j] == rest[j - |row|];
          }
        }
      }
    }
  }

  /**
   * When the search selects a device, the last device it queries is that
   * device, and it queries nothing after it in platform-then-device order.
   */
  lemma {:induction false} QueriedEndsAtSelection(ps: seq<Platform>, from: nat)
    requires from <= |ps|
    decreases |ps| - from
    ensures FirstMatch(ps, from).Some? ==>
      var s := FirstMatch(ps, from).value;
      var q := Queried(ps, from);
      |q| > 0 && q[|q| - 1] == Pos(s.platform, s.index)
      && forall i :: 0 <= i < |q| - 1 ==> Precedes(q[i], Pos(s.platform, s.index))
  {
    if from < |ps| && FirstMatch(ps, from).Some? {
      var s := FirstMatch(ps, from).value;
      QueriedEndsAtSelection(ps, from + 1);
      if s.platform == from {
        var ds := ps[from].gpus.value;
        assert WalkDevices(ds, 0) == Picked(s.index);
        assert Queried(ps, from) == Row(from, s.index + 1);
      } else {
        QueriedExist(ps, from + 1);
        var q := Queried(ps, from);
        var rest := Queried(ps, from + 1);
        if ps[from].gpus.Reported? {
          var ds := ps[from].gpus.value;
          var row := Row(from, Reach(WalkDevices(ds, 0), |ds|));
          assert q == row + rest;
          forall i | 0 <= i < |q| - 1
            ensures Precedes(q[i], Pos(s.platform, s.index))
          {
            if i >= |row| {
              assert q[i] == rest[i - |row|];
            }
          }
        }
      }
    }
  }

  /** A device for which the inner loop reaches `push_back`: available and advertising double precision. */
  predicate ReachesPush(d: Device) {
    d.available == Reported(true) && d.extensions.Reported? && AdvertisesFp64(d.extensions.value)
  }

  /**
   * One platform's `try` block, entered with `devices` empty: the inner loop
   * over the platform's GPU list `pldev`, guarded by `devices` being empty.
   * A throw (modelled by `threw` and a `break`) leaves the loop at once; the
   * `catch` that clears `devices` is the caller's. `queried` records the
   * devices whose `getInfo` was called.
   */
  method TryPlatform(p: nat, pldev: seq<Device>)
    returns (devices: seq<Device>, context: Option<seq<Device>>, threw: bool, queried: seq<Pos>)
    ensures threw == WalkDevices(pldev, 0).Threw?
    ensures queried == Row(p, Reach(WalkDevices(pldev, 0), |pldev|))
    ensures WalkDevices(pldev, 0).Picked? ==>
      devices == [pldev[WalkDevices(pldev, 0).at]] && context == Some(devices)
    ensures WalkDevices(pldev, 0).Exhausted? ==> devices == [] && context.None?
    ensures WalkDevices(pldev, 0).Threw? ==>
      (context.None? && devices == (var d := pldev[WalkDevices(pldev, 0).at]; if ReachesPush(d) then [d] else []))
  {
    devices, context, threw, queried := [], None, false, [];
    var d := 0;
    while devices == [] && d < |pldev|
      invariant 0 <= d <= |pldev|
      invariant devices == [] ==> context.None? && WalkDevices(pldev, 0) == WalkDevices(pldev, d)
      invariant devices != [] ==> 0 < d && WalkDevices(pldev, 0) == Picked(d - 1)
                                  && devices == [pldev[d - 1]] && context == Some(devices)
      invariant queried == Row(p, d)
    {
      queried := queried + [Pos(p, d)];
      match pldev[d].available {
        case QueryThrows =>
          threw := true;
          break;
        case Reported(av) =>
          if !av {
            d := d + 1;
            continue;
          }
      }
      match pldev[d].extensions {
        case QueryThrows =>
          threw := true;
          break;
        case Reported(ext) =>
          if !AdvertisesFp64(ext) {
            d := d + 1;
            continue;
          }
      }
      devices := devices + [pldev[d]];
      if pldev[d].contextFails {
        threw := true;
        break;
      }
      context := Some(devices);
      d := d + 1;
    }
  }

  /**
   * The search as the programs run it: `devices` starts empty, the outer
   * loop's guard tests that it is still empty, each platform's block runs
   * (a throw from `getDevices` ends it at once), and the `catch` clears
   * `devices`. `queried` records the devices whose `getInfo` was called.
   */
  method SelectDevice(ps: seq<Platform>) returns (devices: seq<Device>, context: Option<seq<Device>>, queried: seq<Pos>)
    ensures |devices| <= 1
    ensures FirstMatch(ps, 0).None? ==> devices == [] && context.None?
    ensures FirstMatch(ps, 0).Some? ==> devices == [FirstMatch(ps, 0).value.device] && context == Some(devices)
    ensures queried == Queried(ps, 0)
  {
    devices, context, queried := [], None, [];
    var p := 0;
    while devices == [] && p < |ps|
      invariant 0 <= p <= |ps|
      invariant devices == [] ==> context.None? && FirstMatch(ps, 0) == FirstMatch(ps, p)
                                  && Queried(ps, 0) == queried + Queried(ps, p)
      invariant devices != [] ==> FirstMatch(ps, 0).Some? && devices == [FirstMatch(ps, 0).value.device]
                                  && context == Some(devices) && queried == Queried(ps, 0)
    {
      var threw := false;
      match ps[p].gpus {
        case QueryThrows =>
          threw := true;
        case Reported(pldev) =>
          var q;
          devices, context, threw, q := TryPlatform(p, pldev);
          queried := queried + q;
      }
      if threw {
        devices := [];
      }
      p := p + 1;
    }
  }
}
