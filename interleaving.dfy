/**
 * Requests served while the exposure task runs. The exposure task's writes after a
 * given point are a list of patches; an abort, a stop, a download or a new
 * start served between two of them is stated against that list.
 */
module Interleaving {
  import opened Wrappers
  import opened Values
  import opened State
  import opened Common
  import opened ImageBytes
  import Camera
  import opened Exposure

  /** The state after the writes `ps`, in order. */
  function ApplyAll(x: Props, ps: seq<Props>): Props
    decreases |ps|
  {
    if ps == [] then x else ApplyAll(Merge(x, ps[0]), ps[1..])
  }

  /** Every key some write in `ps` sets. */
  function Written(ps: seq<Props>): set<string>
    decreases |ps|
  {
    if ps == [] then {} else ps[0].Keys + Written(ps[1..])
  }

  lemma WrittenPair(p: Props, q: Props)
    ensures Written([p, q]) == p.Keys + q.Keys
  {
    assert [p, q][1..] == [q];
    assert [q][1..] == [];
    assert Written([q]) == q.Keys + Written([]);
  }

  lemma ApplyPair(x: Props, p: Props, q: Props)
    ensures ApplyAll(x, [p, q]) == Merge(Merge(x, p), q)
  {
    assert [p, q][1..] == [q];
    assert [q][1..] == [];
    assert ApplyAll(x, [p, q]) == ApplyAll(Merge(x, p), [q]);
    assert ApplyAll(Merge(x, p), [q]) == ApplyAll(Merge(Merge(x, p), q), []);
  }

  lemma WrittenCons(p: Props, ps: seq<Props>)
    ensures Written([p] + ps) == p.Keys + Written(ps)
  {
    assert ([p] + ps)[1..] == ps;
  }

  lemma ApplyCons(x: Props, p: Props, ps: seq<Props>)
    ensures ApplyAll(x, [p] + ps) == ApplyAll(Merge(x, p), ps)
  {
    assert ([p] + ps)[1..] == ps;
  }

  /** `x` and `y` have the same keys and values outside `keys`. */
  ghost predicate AgreeOutside(x: Props, y: Props, keys: set<string>)
  {
    forall k :: k !in keys ==> (k in x <==> k in y) && (k in x ==> x[k] == y[k])
  }

  /** Two states that differ only on keys later writes all set end up equal. */
  lemma {:induction false} Overwritten(x: Props, y: Props, keys: set<string>, ps: seq<Props>)
    requires AgreeOutside(x, y, keys) && keys <= Written(ps)
    ensures ApplyAll(x, ps) == ApplyAll(y, ps)
    decreases |ps|
  {
    if ps == [] {
      assert keys == {};
      assert x.Keys == y.Keys;
      assert x == y;
    } else {
      var rest := keys - ps[0].Keys;
      assert AgreeOutside(Merge(x, ps[0]), Merge(y, ps[0]), rest);
      Overwritten(Merge(x, ps[0]), Merge(y, ps[0]), rest, ps[1..]);
    }
  }

  /** A write is lost when later writes set all of its keys. */
  lemma LostWrite(x: Props, p: Props, ps: seq<Props>)
    requires p.Keys <= Written(ps)
    ensures ApplyAll(Merge(x, p), ps) == ApplyAll(x, ps)
  {
    Overwritten(Merge(x, p), x, p.Keys, ps);
  }

  /** The exposure task's writes after progress step `i - 1`: the remaining progress steps, readout and the outcome. */
  function Rest(i: nat, image: Option<Grid>): seq<Props>
    requires i <= Steps
    decreases Steps - i
  {
    if i == Steps then [ReadingPatch(), FinalPatch(image)] else [ProgressPatch(i)] + Rest(i + 1, image)
  }

  /** What the remaining writes set. */
  lemma {:induction false} RestWrites(i: nat, image: Option<Grid>)
    requires i <= Steps
    ensures "camera_state" in Written(Rest(i, image))
    ensures "image_ready" in Written(Rest(i, image)) && "image_data" in Written(Rest(i, image))
    ensures i < Steps || image.Some? ==> "percentcompleted" in Written(Rest(i, image))
    decreases Steps - i
  {
    if i == Steps {
      WrittenPair(ReadingPatch(), FinalPatch(image));
    } else {
      WrittenCons(ProgressPatch(i), Rest(i + 1, image));
      RestWrites(i + 1, image);
    }
  }

  /**
   * Running the remaining writes from step `i` over states that each
   * progress step takes to the next ends at the last state read out and
   * given the outcome.
   */
  lemma {:induction false} RestFrom(states: nat -> Props, i: nat, image: Option<Grid>)
    requires i <= Steps
    requires forall j :: i <= j < Steps ==> Merge(states(j), ProgressPatch(j)) == states(j + 1)
    ensures ApplyAll(states(i), Rest(i, image)) == Merge(Merge(states(Steps), ReadingPatch()), FinalPatch(image))
    decreases Steps - i
  {
    if i == Steps {
      RestAtEnd(image);
      ApplyPair(states(i), ReadingPatch(), FinalPatch(image));
    } else {
      var later := Rest(i + 1, image);
      assert Rest(i, image) == [ProgressPatch(i)] + later;
      ApplyCons(states(i), ProgressPatch(i), later);
      RestFrom(states, i + 1, image);
    }
  }

  /** Running the remaining writes from step `i` ends where the uninterrupted task ends. */
  lemma RestCompletes(cur: Props, duration: real, light: bool, startTime: string, i: nat, image: Option<Grid>)
    requires i <= Steps
    ensures ApplyAll(Progressed(cur, duration, light, startTime, i), Rest(i, image))
         == Merge(Exposed(cur, duration, light, startTime), FinalPatch(image))
  {
    var states := (k: nat) => Progressed(cur, duration, light, startTime, k);
    forall j | i <= j < Steps
      ensures Merge(states(j), ProgressPatch(j)) == states(j + 1)
    {
      ProgressStep(cur, duration, light, startTime, j);
    }
    RestFrom(states, i, image);
  }

  /**
   * The abort's write is lost when the rest of the exposure task succeeds or still
   * reports progress.
   */
  lemma AbortWriteIsLost(x: Props, i: nat, image: Option<Grid>)
    requires i <= Steps && (i < Steps || image.Some?)
    ensures ApplyAll(Merge(x, Camera.AbortPatch()), Rest(i, image)) == ApplyAll(x, Rest(i, image))
  {
    RestWrites(i, image);
    var keys := Camera.AbortPatch().Keys;
    assert keys == {"camera_state", "image_ready", "image_data", "percentcompleted"};
    LostWrite(x, Camera.AbortPatch(), Rest(i, image));
  }

  /** Setting a key the later write does not touch commutes with it. */
  lemma SetCommutes(x: Props, k: string, v: Value, p: Props)
    requires k !in p
    ensures Merge(x[k := v], p) == Merge(x, p)[k := v]
  {
  }

  /** The exposure task's last two writes. */
  lemma RestAtEnd(image: Option<Grid>)
    ensures Rest(Steps, image) == [ReadingPatch(), FinalPatch(image)]
  {
  }

  /** An abort is a progress reset followed by the other three writes, which a failure repeats. */
  lemma AbortSplits(x: Props)
    ensures Merge(x, Camera.AbortPatch()) == Merge(x["percentcompleted" := VInt(0)], ErrorPatch()["camera_state" := VInt(CameraIdle)])
  {
  }

  /** An abort after the last progress step of a failing exposure leaves only its progress reset. */
  lemma AbortBeforeFailure(x: Props)
    ensures ApplyAll(Merge(x, Camera.AbortPatch()), Rest(Steps, None))
         == ApplyAll(x, Rest(Steps, None))["percentcompleted" := VInt(0)]
  {
    var rest := [ReadingPatch(), ErrorPatch()];
    RestAtEnd(None);
    WrittenPair(ReadingPatch(), ErrorPatch());
    var reset := x["percentcompleted" := VInt(0)];
    var clear := ErrorPatch()["camera_state" := VInt(CameraIdle)];
    AbortSplits(x);
    assert clear.Keys <= Written(rest);
    LostWrite(reset, clear, rest);
    ApplyPair(reset, ReadingPatch(), ErrorPatch());
    ApplyPair(x, ReadingPatch(), ErrorPatch());
    SetCommutes(x, "percentcompleted", VInt(0), ReadingPatch());
    SetCommutes(Merge(x, ReadingPatch()), "percentcompleted", VInt(0), ErrorPatch());
    calc {
      ApplyAll(Merge(x, Camera.AbortPatch()), rest);
      ApplyAll(Merge(reset, clear), rest);
      ApplyAll(reset, rest);
      Merge(Merge(reset, ReadingPatch()), ErrorPatch());
      Merge(Merge(x, ReadingPatch())["percentcompleted" := VInt(0)], ErrorPatch());
      Merge(Merge(x, ReadingPatch()), ErrorPatch())["percentcompleted" := VInt(0)];
      ApplyAll(x, rest)["percentcompleted" := VInt(0)];
    }
  }

  /** While the exposure task runs, the camera is exposing or reading out. */
  lemma TaskStatesAreBusy(cur: Props, duration: real, light: bool, startTime: string, i: nat)
    requires i <= Steps
    ensures Camera.InState(Progressed(cur, duration, light, startTime, i), CameraExposing)
    ensures Camera.InState(Exposed(cur, duration, light, startTime), CameraReading)
  {
    ProgressedShows(cur, duration, light, startTime, i);
    assert Exposed(cur, duration, light, startTime)["camera_state"] == VInt(CameraReading);
  }

  /** A second exposure cannot start while the exposure task runs: it is refused with 0x40C. */
  lemma BusyCameraRefusesStart(conf: Props, cur: Props, duration: real, light: bool, startTime: string, i: nat,
                               again: real, lightAgain: bool)
    requires i <= Steps
    ensures RaisesCode(Camera.Decide(conf, Progressed(cur, duration, light, startTime, i),
                                            Camera.StartExposure(again, lightAgain)), 0x40C)
    ensures RaisesCode(Camera.Decide(conf, Exposed(cur, duration, light, startTime),
                                            Camera.StartExposure(again, lightAgain)), 0x40C)
  {
    TaskStatesAreBusy(cur, duration, light, startTime, i);
    BusyRefusesStart(conf, Progressed(cur, duration, light, startTime, i), CameraExposing, again, lightAgain);
    BusyRefusesStart(conf, Exposed(cur, duration, light, startTime), CameraReading, again, lightAgain);
  }

  /** A camera in a state other than idle refuses `startexposure` with 0x40C. */
  lemma BusyRefusesStart(conf: Props, x: Props, state: int, again: real, lightAgain: bool)
    requires Camera.InState(x, state) && state != CameraIdle
    ensures RaisesCode(Camera.Decide(conf, x, Camera.StartExposure(again, lightAgain)), 0x40C)
  {
    assert Camera.Decide(conf, x, Camera.StartExposure(again, lightAgain)) == Camera.StartExposureDecision(conf, x, again);
    assert !Camera.InState(x, CameraIdle);
  }

  /**
   * An abort served after progress step `i - 1` (the write of an accepted
   * abort, as `Camera.AbortForcesIdle` states) is undone by the rest of the
   * task when the exposure succeeds or some progress step is still to come:
   * the camera ends exactly as if there had been no abort. If it lands
   * after the last progress step and the exposure then fails, only the
   * progress it reset stays at 0.
   */
  lemma AbortIsUndone(cur: Props, duration: real, light: bool, startTime: string, i: nat, image: Option<Grid>)
    requires i <= Steps
    ensures var aborted := Merge(Progressed(cur, duration, light, startTime, i), Camera.AbortPatch());
            var uninterrupted := Merge(Exposed(cur, duration, light, startTime), FinalPatch(image));
      && (i < Steps || image.Some? ==> ApplyAll(aborted, Rest(i, image)) == uninterrupted)
      && (i == Steps && image.None? ==> ApplyAll(aborted, Rest(i, image)) == uninterrupted["percentcompleted" := VInt(0)])
  {
    var x := Progressed(cur, duration, light, startTime, i);
    RestCompletes(cur, duration, light, startTime, i, image);
    if i < Steps || image.Some? {
      AbortWriteIsLost(x, i, image);
    } else {
      AbortBeforeFailure(x);
    }
  }

  /**
   * A stop served while the exposure task runs (which, as `Camera.StopOnlyFromExposing`
   * states, moves the exposing camera to reading) only shows reading early;
   * the rest of the exposure task ends exactly as it would have.
   */
  lemma StopIsUndone(cur: Props, duration: real, light: bool, startTime: string, i: nat, image: Option<Grid>)
    requires i <= Steps
    ensures var stopped := Progressed(cur, duration, light, startTime, i)["camera_state" := VInt(CameraReading)];
      ApplyAll(stopped, Rest(i, image)) == Merge(Exposed(cur, duration, light, startTime), FinalPatch(image))
  {
    var x := Progressed(cur, duration, light, startTime, i);
    var p := map["camera_state" := VInt(CameraReading)];
    assert x["camera_state" := VInt(CameraReading)] == Merge(x, p);
    RestCompletes(cur, duration, light, startTime, i, image);
    RestWrites(i, image);
    LostWrite(x, p, Rest(i, image));
  }

  /**
   * After a failed exposure the camera stays in the error state: every new
   * start is refused with 0x40C until an abort returns it to idle.
   */
  lemma FailedExposureNeedsAbort(conf: Props, x: Props, duration: real, light: bool)
    ensures RaisesCode(Camera.Decide(conf, Merge(x, ErrorPatch()), Camera.StartExposure(duration, light)), 0x40C)
    ensures RaisesCode(Camera.ImageArrayDecision(Merge(x, ErrorPatch())), 0x40D)
  {
    var after := Merge(x, ErrorPatch());
    assert after["camera_state"] == VInt(CameraError);
    assert !Camera.InState(after, CameraIdle);
    assert Camera.ImageData(after) == VNone;
  }

  /**
   * A successful exposure can be downloaded: the camera holds the picture
   * and keeps its subframe, so the body streamed is the one
   * `ImageBytes.FrameMatchesPicture` describes for that picture.
   */
  lemma ExposureIsDownloadable(x: Props, g: Grid)
    ensures Camera.ImageArrayDecision(Merge(x, ReadyPatch(g))).Done?
    ensures Camera.ImageData(Merge(x, ReadyPatch(g))) == GridValue(g)
    ensures Get(Merge(x, ReadyPatch(g)), "numx", VNone) == Get(x, "numx", VNone)
    ensures Get(Merge(x, ReadyPatch(g)), "numy", VNone) == Get(x, "numy", VNone)
  {
    var p := ReadyPatch(g);
    assert "numx" !in p && "numy" !in p && p["image_data"] == GridValue(g);
    assert GridValue(g).VList?;
  }

  /**
   * An abort from the camera's own decision does not change what the
   * synthesiser is given: it touches none of the keys read at readout.
   */
  lemma AbortKeepsSynthesisInputs(x: Props, tel: Props, foc: Props, duration: real, light: bool, timeout: Value)
    ensures SynthesisInputs(Merge(x, Camera.AbortPatch()), tel, foc, duration, light, timeout)
         == SynthesisInputs(x, tel, foc, duration, light, timeout)
  {
    var y := Merge(x, Camera.AbortPatch());
    AbortKeepsKey(x, "numx", VNone);
    AbortKeepsKey(x, "numy", VNone);
    AbortKeepsKey(x, "binx", VInt(1));
    AbortKeepsKey(x, "biny", VInt(1));
    AbortKeepsKey(x, "pixelsizex", VReal(10.0));
    AbortKeepsKey(x, "gain", VReal(1.0));
    AbortKeepsKey(x, "fullwellcapacity", VInt(65536));
    AbortKeepsKey(x, "ccdtemperature", VInt(-60));
    SynthesisReadsCameraInputs(x, y, tel, foc, duration, light, timeout);
  }

  /** A property the abort does not write reads the same after it. */
  lemma AbortKeepsKey(x: Props, k: string, default: Value)
    requires k != "camera_state" && k != "image_ready" && k != "image_data" && k != "percentcompleted"
    ensures Get(Merge(x, Camera.AbortPatch()), k, default) == Get(x, k, default)
  {
    assert k !in Camera.AbortPatch();
  }
}
