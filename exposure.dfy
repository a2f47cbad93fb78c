/**
 * The camera's background exposure task. Each `update_device_state` it
 * makes is one step method on the store, so that requests served between
 * two steps (an abort, a stop, a download) can be stated as interleavings of
 * the steps' patches. The picture comes from an image synthesiser that is a
 * parameter (it may fail), behind a process-wide cache that only grows.
 */
module Exposure {
  import opened Wrappers
  import opened Values
  import opened State
  import opened Common
  import opened ImageBytes
  import Camera

  /** The exposure is reported in ten equal steps. */
  const Steps: nat := 10

  function CameraId(number: nat): DeviceId
  {
    DeviceId(Camera.Kind, number)
  }

  /** The exposure task always reads telescope 0 and focuser 0, configured or not. */
  const TelescopeZero: DeviceId := DeviceId("telescope", 0)
  const FocuserZero: DeviceId := DeviceId("focuser", 0)

  /** The first write: exposing, no image ready, the duration, light flag and start time recorded, no progress. */
  function BeginPatch(duration: real, light: bool, startTime: string): Props
  {
    map["camera_state" := VInt(CameraExposing), "image_ready" := VBool(false),
        "exposure_start_time" := VStr(startTime), "exposure_duration" := VReal(duration),
        "light" := VBool(light), "percentcompleted" := VInt(0)]
  }

  /** The percentage written after step `i` (counting from 0): `int((i + 1) * 100 / steps)`. */
  function Progress(i: nat): int
  {
    Trunc(((i + 1) * 100) as real / Steps as real)
  }

  /** Each step adds exactly ten percent. */
  lemma ProgressIsTenths(i: nat)
    ensures Progress(i) == 10 * (i + 1)
  {
    assert ((i + 1) * 100) as real / Steps as real == (10 * (i + 1)) as real;
  }

  function ProgressPatch(i: nat): Props
  {
    map["percentcompleted" := VInt(Progress(i))]
  }

  function ReadingPatch(): Props
  {
    map["camera_state" := VInt(CameraReading)]
  }

  /** The last write of a successful exposure: idle, the image ready and stored, all done. */
  function ReadyPatch(g: Grid): Props
  {
    map["camera_state" := VInt(CameraIdle), "image_ready" := VBool(true), "image_data" := GridValue(g),
        "percentcompleted" := VInt(100)]
  }

  /** The last write of a failed exposure: error, no image ready, no image. */
  function ErrorPatch(): Props
  {
    map["camera_state" := VInt(CameraError), "image_ready" := VBool(false), "image_data" := VNone]
  }

  /** The last write, by outcome. */
  function FinalPatch(image: Option<Grid>): Props
  {
    if image.Some? then ReadyPatch(image.value) else ErrorPatch()
  }

  /** The camera after the first write and `i` progress steps: the first write with `10 * i` percent completed. */
  function Progressed(cur: Props, duration: real, light: bool, startTime: string, i: nat): Props
  {
    Merge(Merge(cur, BeginPatch(duration, light, startTime)), map["percentcompleted" := VInt(10 * i)])
  }

  /** While exposing, the camera reports the exposure and its progress. */
  lemma ProgressedShows(cur: Props, duration: real, light: bool, startTime: string, i: nat)
    ensures var x := Progressed(cur, duration, light, startTime, i);
      && x["camera_state"] == VInt(CameraExposing) && x["image_ready"] == VBool(false)
      && x["exposure_duration"] == VReal(duration) && x["light"] == VBool(light)
      && x["exposure_start_time"] == VStr(startTime) && x["percentcompleted"] == VInt(10 * i)
  {
  }

  /** Beginning an exposure shows it at zero percent. */
  lemma BeginIsProgressedZero(cur: Props, duration: real, light: bool, startTime: string)
    ensures Merge(cur, BeginPatch(duration, light, startTime)) == Progressed(cur, duration, light, startTime, 0)
  {
    var begun := Merge(cur, BeginPatch(duration, light, startTime));
    assert "percentcompleted" in begun && begun["percentcompleted"] == VInt(0);
    assert begun["percentcompleted" := VInt(0)] == begun;
  }

  /** The camera once all steps are reported and readout has begun. */
  function Exposed(cur: Props, duration: real, light: bool, startTime: string): Props
  {
    Merge(Progressed(cur, duration, light, startTime, Steps), ReadingPatch())
  }

  /** Everything the synthesiser is given: the camera, site, telescope and pointing arguments. */
  datatype Synthesis = Synthesis(
    width: Value, height: Value, binX: Value, binY: Value, pitch: Value, gain: Value, wellDepth: Value,
    ccdTemperature: real, seeing: real, focalLength: Value, diameter: Value,
    ra: Value, dec: Value, duration: real, light: bool, timeout: Value)

  function Abs(x: real): real
  {
    if x < 0.0 then -x else x
  }

  /**
   * The seeing multiplier from the focuser position: 1 at position 10000,
   * growing by 1 every 100 steps away from it, and never above 5.
   */
  function Seeing(position: real): (r: real)
    ensures 1.0 <= r <= 5.0
    ensures r == 1.0 <==> position == 10000.0
    ensures Abs(position - 10000.0) <= 400.0 ==> r == 1.0 + Abs(position - 10000.0) / 100.0
  {
    var m := 1.0 + Abs(position - 10000.0) / 100.0;
    if m > 5.0 then 5.0 else m
  }

  /**
   * The declination the synthesiser gets: at or beyond a pole it becomes
   * 89.99 or -89.99; a non-number raises.
   */
  function ClampDec(v: Value): (r: Option<Value>)
    ensures r.Some? <==> Num(v).Some?
    ensures r.Some? ==> Num(r.value).Some? && -90.0 < Num(r.value).value < 90.0
    ensures r.Some? && -90.0 < Num(v).value < 90.0 ==> r.value == v
    ensures r.Some? && Num(v).value >= 90.0 ==> r.value == VReal(89.99)
    ensures r.Some? && Num(v).value <= -90.0 ==> r.value == VReal(-89.99)
  {
    match Num(v)
    case None => None
    case Some(d) =>
      if d >= 90.0 || d <= -90.0 then Some(VReal(if d >= 0.0 then 89.99 else -89.99)) else Some(v)
  }

  /**
   * The right ascension the synthesiser gets: 0 or below becomes 0.01, 24
   * or above 23.99; a non-number raises.
   */
  function ClampRa(v: Value): (r: Option<Value>)
    ensures r.Some? <==> Num(v).Some?
    ensures r.Some? ==> Num(r.value).Some? && 0.0 < Num(r.value).value < 24.0
    ensures r.Some? && 0.0 < Num(v).value < 24.0 ==> r.value == v
    ensures r.Some? && Num(v).value <= 0.0 ==> r.value == VReal(0.01)
    ensures r.Some? && Num(v).value >= 24.0 ==> r.value == VReal(23.99)
  {
    match Num(v)
    case None => None
    case Some(ra) =>
      if ra <= 0.0 || ra >= 24.0 then Some(VReal(if ra <= 0.0 then 0.01 else 23.99)) else Some(v)
  }

  /**
   * `2 ** ((t + 10) / 6)` for the dark current: a float power past 2^1024
   * raises `OverflowError`.
   */
  predicate DarkCurrentOverflows(t: real)
  {
    (t + 10.0) / 6.0 >= 1024.0
  }

  /** The focuser position, 0 when unset. */
  function Focus(foc: Props): Value
  {
    Get(foc, "position", VInt(0))
  }

  /**
   * The synthesiser's arguments from the camera, telescope and focuser
   * states, or None when computing them raises (a non-number position,
   * declination, right ascension or sensor temperature, or a dark current
   * that overflows).
   */
  function SynthesisInputs(cam: Props, tel: Props, foc: Props, duration: real, light: bool, timeout: Value)
    : (r: Option<Synthesis>)
    ensures r.Some? ==> 1.0 <= r.value.seeing <= 5.0
    ensures r.Some? ==> Num(r.value.dec).Some? && -90.0 < Num(r.value.dec).value < 90.0
    ensures r.Some? ==> Num(r.value.ra).Some? && 0.0 < Num(r.value.ra).value < 24.0
    ensures r.Some? ==> r.value.width == Get(cam, "numx", VNone) && r.value.height == Get(cam, "numy", VNone)
    ensures r.Some? ==> r.value.duration == duration && r.value.light == light
    ensures Num(Focus(foc)).None? ==> r.None?
  {
    match Num(Focus(foc))
    case None => None
    case Some(position) =>
      match ClampDec(Get(tel, "declination", VReal(0.0)))
      case None => None
      case Some(dec) =>
        match ClampRa(Get(tel, "rightascension", VReal(0.0)))
        case None => None
        case Some(ra) =>
          match Num(Get(cam, "ccdtemperature", VInt(-60)))
          case None => None
          case Some(t) =>
            if DarkCurrentOverflows(t) then None
            else Some(Synthesis(
              Get(cam, "numx", VNone), Get(cam, "numy", VNone), Get(cam, "binx", VInt(1)), Get(cam, "biny", VInt(1)),
              Get(cam, "pixelsizex", VReal(10.0)), Get(cam, "gain", VReal(1.0)), Get(cam, "fullwellcapacity", VInt(65536)),
              t, Seeing(position), Get(tel, "focallength", VReal(8.0)), Get(tel, "aperture", VReal(0.2)),
              ra, dec, duration, light, timeout))
  }

  /** `x` and `y` agree on every camera property the readout reads. */
  predicate SameCameraInputs(x: Props, y: Props)
  {
    && Get(y, "numx", VNone) == Get(x, "numx", VNone)
    && Get(y, "numy", VNone) == Get(x, "numy", VNone)
    && Get(y, "binx", VInt(1)) == Get(x, "binx", VInt(1))
    && Get(y, "biny", VInt(1)) == Get(x, "biny", VInt(1))
    && Get(y, "pixelsizex", VReal(10.0)) == Get(x, "pixelsizex", VReal(10.0))
    && Get(y, "gain", VReal(1.0)) == Get(x, "gain", VReal(1.0))
    && Get(y, "fullwellcapacity", VInt(65536)) == Get(x, "fullwellcapacity", VInt(65536))
    && Get(y, "ccdtemperature", VInt(-60)) == Get(x, "ccdtemperature", VInt(-60))
  }

  /** The synthesis inputs depend on the camera state only through those properties. */
  lemma SynthesisReadsCameraInputs(x: Props, y: Props, tel: Props, foc: Props, duration: real, light: bool, timeout: Value)
    requires SameCameraInputs(x, y)
    ensures SynthesisInputs(x, tel, foc, duration, light, timeout) == SynthesisInputs(y, tel, foc, duration, light, timeout)
  {
  }

  /** What a synthesis step yields: the picture (None when it failed) and the cache afterwards. */
  datatype Outcome<K> = Outcome(image: Option<Grid>, cache: map<K, Grid>)

  /**
   * The cache in front of the synthesiser: a stored picture is reused
   * without calling it; otherwise its picture is stored under the key,
   * and a failure stores nothing.
   */
  function Cached<K>(entries: map<K, Grid>, key: K, p: Synthesis, generate: Synthesis -> Option<Grid>): (o: Outcome<K>)
    ensures key in entries ==> o == Outcome(Some(entries[key]), entries)
    ensures key !in entries ==> o.image == generate(p)
    ensures key !in entries ==> o.cache == if o.image.Some? then entries[key := o.image.value] else entries
  {
    if key in entries then Outcome(Some(entries[key]), entries)
    else match generate(p)
      case None => Outcome(None, entries)
      case Some(g) => Outcome(Some(g), entries[key := g])
  }

  /** Every entry of `before` is in `after` with the same picture. */
  predicate Grows<K>(before: map<K, Grid>, after: map<K, Grid>)
  {
    forall k :: k in before ==> k in after && after[k] == before[k]
  }

  /** The key `make_cache_key` builds: pointing, duration, light flag and focuser position. */
  datatype CacheKey = CacheKey(ra: Value, dec: Value, duration: real, light: bool, focus: Value)

  /** `make_cache_key`. */
  function MakeCacheKey(p: Synthesis, focus: Value): (k: CacheKey)
    ensures k.ra == p.ra && k.dec == p.dec && k.duration == p.duration && k.light == p.light && k.focus == focus
  {
    CacheKey(p.ra, p.dec, p.duration, p.light, focus)
  }

  /**
   * The synthesis step as written: the synthesiser's model objects are built
   * first (`builds` says whether their constructors accept the arguments),
   * then the picture is looked up under the five-field key.
   */
  function SynthesizeAsWritten(cam: Props, tel: Props, foc: Props, duration: real, light: bool, timeout: Value,
                               entries: map<CacheKey, Grid>, builds: Synthesis -> bool,
                               generate: Synthesis -> Option<Grid>): (o: Outcome<CacheKey>)
    ensures Grows(entries, o.cache)
  {
    match SynthesisInputs(cam, tel, foc, duration, light, timeout)
    case None => Outcome(None, entries)
    case Some(p) =>
      if !builds(p) then Outcome(None, entries)
      else Cached(entries, MakeCacheKey(p, Focus(foc)), p, generate)
  }

  /**
   * The synthesis step with the cache keyed by everything the synthesiser
   * is given, so that a stored picture is only reused for the same request.
   * This is the corrected step: the exposure task below (`Picture`,
   * `Complete`, `Obtain`, `RunExposure`) uses it, not the written
   * `SynthesizeAsWritten`.
   */
  function Synthesize(cam: Props, tel: Props, foc: Props, duration: real, light: bool, timeout: Value,
                      entries: map<Synthesis, Grid>, builds: Synthesis -> bool,
                      generate: Synthesis -> Option<Grid>): (o: Outcome<Synthesis>)
    ensures Grows(entries, o.cache)
    ensures SynthesisInputs(cam, tel, foc, duration, light, timeout).None? ==> o == Outcome(None, entries)
  {
    Picture(entries, SynthesisInputs(cam, tel, foc, duration, light, timeout), builds, generate)
  }

  /** The synthesis step once its arguments are computed (None when that raised). */
  function Picture(entries: map<Synthesis, Grid>, inputs: Option<Synthesis>, builds: Synthesis -> bool,
                   generate: Synthesis -> Option<Grid>): (o: Outcome<Synthesis>)
    ensures Grows(entries, o.cache)
    ensures inputs.None? || !builds(inputs.value) ==> o == Outcome(None, entries)
  {
    if inputs.None? || !builds(inputs.value) then Outcome(None, entries)
    else Cached(entries, inputs.value, inputs.value, generate)
  }

  /** `g` has the size the request asked for: `numy` rows of `numx` pixels. */
  predicate Requested(p: Synthesis, g: Grid)
  {
    p.width.VInt? && p.height.VInt? && Shaped(g, p.height.i, p.width.i)
  }

  /** A synthesiser that always answers with a picture of the requested size. */
  ghost predicate ShapedSynthesiser(generate: Synthesis -> Option<Grid>)
  {
    forall p :: generate(p).Some? ==> Requested(p, generate(p).value)
  }

  /** Every stored picture has the size of the request it is stored under. */
  predicate CacheShaped(entries: map<Synthesis, Grid>)
  {
    forall k :: k in entries ==> Requested(k, entries[k])
  }

  /**
   * With the full key, an exposure's picture always has the size the camera
   * asked for (given a synthesiser that honours the size), and the cache
   * keeps that property.
   */
  lemma CachedImagesHaveRequestedSize(cam: Props, tel: Props, foc: Props, duration: real, light: bool, timeout: Value,
                                      entries: map<Synthesis, Grid>, builds: Synthesis -> bool,
                                      generate: Synthesis -> Option<Grid>)
    requires ShapedSynthesiser(generate) && CacheShaped(entries)
    ensures var o := Synthesize(cam, tel, foc, duration, light, timeout, entries, builds, generate);
      && CacheShaped(o.cache)
      && (o.image.Some? ==> Requested(SynthesisInputs(cam, tel, foc, duration, light, timeout).value, o.image.value))
  {
    var o := Synthesize(cam, tel, foc, duration, light, timeout, entries, builds, generate);
    var inputs := SynthesisInputs(cam, tel, foc, duration, light, timeout);
    if inputs.Some? && builds(inputs.value) && inputs.value !in entries && o.image.Some? {
      assert generate(inputs.value).Some?;
      forall k | k in o.cache
        ensures Requested(k, o.cache[k])
      {
        if k != inputs.value {
          assert k in entries;
        }
      }
    }
  }

  /** A synthesiser that answers each request with a blank picture of the requested size. */
  function Blank(p: Synthesis): Option<Grid>
  {
    if p.width.VInt? && p.height.VInt? && p.width.i >= 0 && p.height.i >= 0
    then Some(seq(p.height.i, _ => seq(p.width.i, _ => 0)))
    else None
  }

  lemma BlankIsShaped()
    ensures ShapedSynthesiser(Blank)
  {
  }

  /** Synthesiser model objects that accept every argument. */
  predicate AlwaysBuilds(p: Synthesis)
  {
    true
  }

  /**
   * With the five-field key, a second exposure at the same pointing,
   * duration, light flag and focus reuses the first picture even though the
   * subframe changed: a camera set to 1 x 1 gets the 2 x 1 picture stored by
   * an earlier 2 x 1 exposure, though the synthesiser honours sizes.
   */
  lemma AsWrittenReusesWrongSize()
    ensures var wide := map["numx" := VInt(2), "numy" := VInt(1)];
            var narrow := map["numx" := VInt(1), "numy" := VInt(1)];
            var first := SynthesizeAsWritten(wide, map[], map[], 1.0, true, VInt(30), map[], AlwaysBuilds, Blank);
            var second := SynthesizeAsWritten(narrow, map[], map[], 1.0, true, VInt(30), first.cache, AlwaysBuilds, Blank);
            var request := SynthesisInputs(narrow, map[], map[], 1.0, true, VInt(30));
      && ShapedSynthesiser(Blank)
      && second.image == Some([[0, 0]])
      && request.Some? && !Requested(request.value, second.image.value)
  {
    var wide := map["numx" := VInt(2), "numy" := VInt(1)];
    var narrow := map["numx" := VInt(1), "numy" := VInt(1)];
    var r1 := SynthesisInputs(wide, map[], map[], 1.0, true, VInt(30));
    var r2 := SynthesisInputs(narrow, map[], map[], 1.0, true, VInt(30));
    assert r1.Some? && r2.Some?;
    var p1 := r1.value;
    var p2 := r2.value;
    assert p1.width == VInt(2) && p1.height == VInt(1);
    assert p2.width == VInt(1) && p2.height == VInt(1);
    var key := MakeCacheKey(p1, VInt(0));
    assert key == MakeCacheKey(p2, VInt(0));
    assert seq(2, _ => 0) == [0, 0];
    assert seq(1, _ => [0, 0]) == [[0, 0]];
    assert Blank(p1) == Some([[0, 0]]);
    var first := SynthesizeAsWritten(wide, map[], map[], 1.0, true, VInt(30), map[], AlwaysBuilds, Blank);
    assert first == Cached(map[], key, p1, Blank);
    assert first.cache == map[key := [[0, 0]]];
    var second := SynthesizeAsWritten(narrow, map[], map[], 1.0, true, VInt(30), first.cache, AlwaysBuilds, Blank);
    assert second == Cached(first.cache, key, p2, Blank);
    assert second.image == Some([[0, 0]]);
    assert |[[0, 0]][0]| == 2;
    assert !Shaped([[0, 0]], 1, 1);
    assert !Requested(p2, second.image.value);
    BlankIsShaped();
  }

  /** The process-wide `image_cache`: entries are added in place and never removed. */
  class ImageCache {
    var entries: map<Synthesis, Grid>

    constructor ()
      ensures entries == map[]
    {
      entries := map[];
    }

    method Lookup(key: Synthesis) returns (g: Option<Grid>)
      ensures key in entries ==> g == Some(entries[key])
      ensures key !in entries ==> g.None?
    {
      if key in entries {
        g := Some(entries[key]);
      } else {
        g := None;
      }
    }

    method Insert(key: Synthesis, g: Grid)
      modifies this
      ensures entries == old(entries)[key := g]
    {
      entries := entries[key := g];
    }
  }

  /** The first step: the camera starts exposing. */
  method Begin(s: Store, number: nat, duration: real, light: bool, startTime: string)
    requires s.Valid()
    modifies s`store
    ensures s.Valid()
    ensures s.Current(CameraId(number)) == Merge(old(s.Current(CameraId(number))), BeginPatch(duration, light, startTime))
    ensures forall other :: other != CameraId(number) ==> s.Current(other) == old(s.Current(other))
  {
    s.UpdateDeviceState(CameraId(number), BeginPatch(duration, light, startTime));
  }

  /** Progress step `i`. */
  method ReportProgress(s: Store, number: nat, i: nat)
    requires s.Valid() && i < Steps
    modifies s`store
    ensures s.Valid()
    ensures s.Current(CameraId(number)) == Merge(old(s.Current(CameraId(number))), ProgressPatch(i))
    ensures forall other :: other != CameraId(number) ==> s.Current(other) == old(s.Current(other))
  {
    s.UpdateDeviceState(CameraId(number), ProgressPatch(i));
  }

  /** Readout begins. */
  method StartReadout(s: Store, number: nat)
    requires s.Valid()
    modifies s`store
    ensures s.Valid()
    ensures s.Current(CameraId(number)) == Merge(old(s.Current(CameraId(number))), ReadingPatch())
    ensures forall other :: other != CameraId(number) ==> s.Current(other) == old(s.Current(other))
  {
    s.UpdateDeviceState(CameraId(number), ReadingPatch());
  }

  /**
   * The last step: read the camera, telescope 0 and focuser 0 (creating
   * their states if need be), obtain the picture through the cache, and
   * record it, or the error.
   */
  method Complete(s: Store, cache: ImageCache, number: nat, duration: real, light: bool, timeout: Value,
                  builds: Synthesis -> bool, generate: Synthesis -> Option<Grid>) returns (image: Option<Grid>)
    requires s.Valid()
    modifies s`store, cache
    ensures s.Valid()
    ensures var o := Synthesize(old(s.Current(CameraId(number))), old(s.Current(TelescopeZero)),
                                old(s.Current(FocuserZero)), duration, light, timeout, old(cache.entries),
                                builds, generate);
      image == o.image && cache.entries == o.cache
    ensures s.Current(CameraId(number)) == Merge(old(s.Current(CameraId(number))), FinalPatch(image))
    ensures forall other :: other != CameraId(number) ==> s.Current(other) == old(s.Current(other))
  {
    var id := CameraId(number);
    ghost var entries := cache.entries;
    var camState := s.GetDeviceState(id);
    var telState := s.GetDeviceState(TelescopeZero);
    var focState := s.GetDeviceState(FocuserZero);
    var inputs := SynthesisInputs(camState, telState, focState, duration, light, timeout);
    image := Obtain(cache, inputs, builds, generate);
    assert Synthesize(camState, telState, focState, duration, light, timeout, entries, builds, generate)
        == Picture(entries, inputs, builds, generate);
    s.UpdateDeviceState(id, FinalPatch(image));
  }

  /** The picture through the cache: a stored one, else the synthesiser's, stored when it succeeds. */
  method Obtain(cache: ImageCache, inputs: Option<Synthesis>, builds: Synthesis -> bool,
                generate: Synthesis -> Option<Grid>) returns (image: Option<Grid>)
    modifies cache
    ensures var o := Picture(old(cache.entries), inputs, builds, generate);
      image == o.image && cache.entries == o.cache
  {
    if inputs.None? || !builds(inputs.value) {
      return None;
    }
    var p := inputs.value;
    image := cache.Lookup(p);
    if image.None? {
      image := generate(p);
      if image.Some? {
        cache.Insert(p, image.value);
      }
    }
  }

  /** One more progress step moves the reported percentage on by ten. */
  lemma ProgressStep(cur: Props, duration: real, light: bool, startTime: string, i: nat)
    ensures Merge(Progressed(cur, duration, light, startTime, i), ProgressPatch(i))
         == Progressed(cur, duration, light, startTime, i + 1)
  {
    ProgressIsTenths(i);
  }

  /** The camera's states from the first write through progress step `n`. */
  function ProgressTrace(cur: Props, duration: real, light: bool, startTime: string, n: nat): (t: seq<Props>)
    ensures |t| == n + 1
    ensures forall k :: 0 <= k <= n ==> t[k] == Progressed(cur, duration, light, startTime, k)
  {
    seq(n + 1, k requires 0 <= k => Progressed(cur, duration, light, startTime, k))
  }

  lemma TraceStep(cur: Props, duration: real, light: bool, startTime: string, n: nat)
    ensures ProgressTrace(cur, duration, light, startTime, n + 1)
         == ProgressTrace(cur, duration, light, startTime, n) + [Progressed(cur, duration, light, startTime, n + 1)]
  {
  }

  /**
   * The ten progress steps: the camera shows 10, 20, ..., 100 percent in
   * turn; `observed` is the camera's state before the first step and after
   * each step.
   */
  method ReportAllProgress(s: Store, number: nat, ghost cur: Props, duration: real, light: bool, startTime: string)
    returns (ghost observed: seq<Props>)
    requires s.Valid() && s.Current(CameraId(number)) == Progressed(cur, duration, light, startTime, 0)
    modifies s`store
    ensures s.Valid()
    ensures s.Current(CameraId(number)) == Progressed(cur, duration, light, startTime, Steps)
    ensures forall other :: other != CameraId(number) ==> s.Current(other) == old(s.Current(other))
    ensures observed == ProgressTrace(cur, duration, light, startTime, Steps)
  {
    var id := CameraId(number);
    observed := [s.Current(id)];
    assert observed == ProgressTrace(cur, duration, light, startTime, 0);
    var i := 0;
    while i < Steps
      invariant 0 <= i <= Steps && s.Valid()
      invariant s.Current(id) == Progressed(cur, duration, light, startTime, i)
      invariant forall other :: other != id ==> s.Current(other) == old(s.Current(other))
      invariant observed == ProgressTrace(cur, duration, light, startTime, i)
    {
      ReportProgress(s, number, i);
      ProgressStep(cur, duration, light, startTime, i);
      TraceStep(cur, duration, light, startTime, i);
      observed := observed + [s.Current(id)];
      i := i + 1;
    }
  }

  /**
   * `exposure_task` run without interruption: the camera shows exposing
   * with 0 percent, then 10, 20, ..., 100 percent, then reading, then the
   * outcome; `observed` is the camera's state after each write, in order.
   * The picture is the synthesis step's on the camera as it is at readout
   * and on telescope 0 and focuser 0 as they were.
   */
  method RunExposure(s: Store, cache: ImageCache, number: nat, duration: real, light: bool, startTime: string,
                     timeout: Value, builds: Synthesis -> bool, generate: Synthesis -> Option<Grid>)
    returns (image: Option<Grid>, ghost observed: seq<Props>)
    requires s.Valid()
    modifies s`store, cache
    ensures s.Valid()
    ensures var exposed := Exposed(old(s.Current(CameraId(number))), duration, light, startTime);
            var o := Synthesize(exposed, old(s.Current(TelescopeZero)), old(s.Current(FocuserZero)),
                                duration, light, timeout, old(cache.entries), builds, generate);
      && image == o.image && cache.entries == o.cache
      && s.Current(CameraId(number)) == Merge(exposed, FinalPatch(image))
    ensures forall other :: other != CameraId(number) ==> s.Current(other) == old(s.Current(other))
    ensures observed == ProgressTrace(old(s.Current(CameraId(number))), duration, light, startTime, Steps)
                        + [Exposed(old(s.Current(CameraId(number))), duration, light, startTime), s.Current(CameraId(number))]
  {
    var id := CameraId(number);
    ghost var before := s.Current(id);
    ghost var tel := s.Current(TelescopeZero);
    ghost var foc := s.Current(FocuserZero);
    ghost var entries := cache.entries;
    BeginIsProgressedZero(before, duration, light, startTime);
    assert TelescopeZero.kind != id.kind && FocuserZero.kind != id.kind;
    Begin(s, number, duration, light, startTime);
    ghost var trace := ReportAllProgress(s, number, before, duration, light, startTime);
    StartReadout(s, number);
    ghost var exposed := Exposed(before, duration, light, startTime);
    assert s.Current(id) == exposed;
    assert s.Current(TelescopeZero) == tel && s.Current(FocuserZero) == foc;
    image := Complete(s, cache, number, duration, light, timeout, builds, generate);
    observed := trace + [exposed, s.Current(id)];
  }
}
