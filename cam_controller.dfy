/**
 * The camera window (jackfish/gui/cam_controller.py): the
 * Standby/Recording/Previewing status machine over a `FlirCam`, the
 * frame-counter gate that decides when the preview redraws, the clamp on
 * the histogram levels, and the gain, trigger and frame-rate controls.
 */
module CamController {
  import opened Common
  import opened PyText
  import opened FlirCamera

  // ---------------------------------------------------------------------
  // Histogram levels (lines 156-161)
  // ---------------------------------------------------------------------

  const MAX_LEVEL: real := 255.0

  /** `(max(low, 0), min(high, 255))`. */
  function ClampLevels(low: real, high: real): (r: (real, real))
    ensures 0.0 <= r.0 && r.1 <= MAX_LEVEL
    ensures low <= r.0 && r.1 <= high
    ensures 0.0 <= low ==> r.0 == low
    ensures high <= MAX_LEVEL ==> r.1 == high
    ensures low < 0.0 ==> r.0 == 0.0
    ensures high > MAX_LEVEL ==> r.1 == MAX_LEVEL
  {
    (if low > 0.0 then low else 0.0, if high < MAX_LEVEL then high else MAX_LEVEL)
  }

  /** Clamped levels are left alone by a second clamp. */
  lemma ClampIdempotent(low: real, high: real)
    ensures ClampLevels(ClampLevels(low, high).0, ClampLevels(low, high).1) == ClampLevels(low, high)
  {
  }

  // ---------------------------------------------------------------------
  // Preview gate (lines 163-168)
  // ---------------------------------------------------------------------

  /**
   * Timer ticks that each see the camera's frame counter: how many of them
   * redraw, and the frame number shown at the end.
   */
  function Redraws(previewOn: bool, counters: seq<int>, shown: int): (int, int)
  {
    if counters == [] then (0, shown)
    else if previewOn && counters[0] > shown then
      var rest := Redraws(previewOn, counters[1..], counters[0]);
      (1 + rest.0, rest.1)
    else Redraws(previewOn, counters[1..], shown)
  }

  /**
   * The shown frame number never decreases, and each redraw shows a newer
   * frame than the one before: over any ticks, the redraws number at most
   * how far the shown frame advanced. With the preview off nothing redraws.
   */
  lemma {:induction false} RedrawsShowNewFrames(previewOn: bool, counters: seq<int>, shown: int)
    ensures 0 <= Redraws(previewOn, counters, shown).0
    ensures Redraws(previewOn, counters, shown).1 >= shown
    ensures Redraws(previewOn, counters, shown).0 <= Redraws(previewOn, counters, shown).1 - shown
    ensures !previewOn ==> Redraws(previewOn, counters, shown) == (0, shown)
  {
    if counters != [] {
      if previewOn && counters[0] > shown {
        RedrawsShowNewFrames(previewOn, counters[1..], counters[0]);
      } else {
        RedrawsShowNewFrames(previewOn, counters[1..], shown);
      }
    }
  }

  /** The frame shown after the ticks is the newest counter seen, if newer than the one already shown. */
  lemma {:induction false} RedrawsReachNewest(counters: seq<int>, shown: int)
    requires counters != []
    ensures Redraws(true, counters, shown).1 >= counters[|counters| - 1]
  {
    if |counters| > 1 {
      var next := if counters[0] > shown then counters[0] else shown;
      RedrawsReachNewest(counters[1..], next);
    } else {
      RedrawsShowNewFrames(true, counters[1..], if counters[0] > shown then counters[0] else shown);
    }
  }

  // ---------------------------------------------------------------------
  // Gain (lines 128-138)
  // ---------------------------------------------------------------------

  const GAIN_AUTO: string := "GainAuto"
  const GAIN: string := "Gain"

  /** Text lowers to "auto" exactly when it is "auto" with each letter in either case. */
  lemma AutoInAnyCase(text: string)
    ensures Lower(text) == "auto" <==>
            |text| == 4 && forall i :: 0 <= i < 4 ==> text[i] == "auto"[i] || text[i] == "AUTO"[i]
  {
    if |text| == 4 {
      forall i | 0 <= i < 4
        ensures LowerChar(text[i]) == "auto"[i] <==> text[i] == "auto"[i] || text[i] == "AUTO"[i]
      {
      }
      if forall i :: 0 <= i < 4 ==> text[i] == "auto"[i] || text[i] == "AUTO"[i] {
        assert forall i :: 0 <= i < 4 ==> Lower(text)[i] == "auto"[i];
      }
    }
  }

  /** Digit-only text never reads as "auto", so the branches of `edit_gain` do not overlap. */
  lemma NumericIsNotAuto(text: string)
    requires IsNumeric(text)
    ensures Lower(text) != "auto"
  {
    assert Lower(text)[0] == LowerChar(text[0]);
  }

  // ---------------------------------------------------------------------
  // Frame rate (lines 104-109)
  // ---------------------------------------------------------------------

  /** A frame-rate node that takes floats, next to a switchable trigger. */
  predicate FloatFrameRate(t: AttrTable)
  {
    TriggerSwitchable(t) && FRAME_RATE in t && Writable(t[FRAME_RATE]) && t[FRAME_RATE].kind == "float"
  }

  /**
   * `change_framerate` as written passes `int(text)`, which the `float`
   * check of `set_cam_attr` refuses: the call raises, the frame rate is
   * unchanged, and a trigger that was `On` is left `Off`.
   */
  lemma IntFrameRateRejected(t: AttrTable, rate: int)
    requires FloatFrameRate(t)
    ensures SetAttr(t, FRAME_RATE, VInt(rate)).outcome == Raised(AssertionFailed(FRAME_RATE))
    ensures SetAttr(t, FRAME_RATE, VInt(rate)).table[FRAME_RATE] == t[FRAME_RATE]
    ensures t[TRIGGER_MODE].value == ON ==> SetAttr(t, FRAME_RATE, VInt(rate)).table == Assign(t, TRIGGER_MODE, OFF)
    ensures t[TRIGGER_MODE].value != ON ==> SetAttr(t, FRAME_RATE, VInt(rate)).table == t
  {
    assert Judge(t, FRAME_RATE, VInt(rate)) == Reject;
    if t[TRIGGER_MODE].value == ON {
      FrameRateRejectLeavesTriggerOff(t, VInt(rate));
    } else {
      FrameRateWithoutTrigger(t, VInt(rate));
    }
  }

  /**
   * Passing the rate as a float, as intended, writes it; the trigger is
   * switched back `On` when it was `On`, so only the frame rate changes.
   */
  lemma FloatFrameRateWritten(t: AttrTable, rate: int)
    requires FloatFrameRate(t)
    ensures SetAttr(t, FRAME_RATE, VFloat(rate as real))
            == Step(Returned(VFloat(rate as real)), t[FRAME_RATE := t[FRAME_RATE].(value := VFloat(rate as real))])
  {
    assert Judge(t, FRAME_RATE, VFloat(rate as real)) == Accept;
    if t[TRIGGER_MODE].value == ON {
      FrameRateRestoresTrigger(t, VFloat(rate as real));
    } else {
      FrameRateWithoutTrigger(t, VFloat(rate as real));
    }
  }

  // ---------------------------------------------------------------------
  // The window
  // ---------------------------------------------------------------------

  /** Every mutable field of the window. */
  datatype CamWindowView = CamWindowView(
    status: Status,
    fnPreview: int,
    timerOn: bool,
    previewOn: bool,
    levels: (real, real),
    closed: bool)

  /** The camera's flags once the capture the window is in has been ended (the first part of `stop`). */
  function CaptureEnded(f: CamFlags, s: Status): CamFlags
  {
    f.(doRecord := if s == Recording then false else f.doRecord,
       doPreview := if s == Previewing then false else f.doPreview)
  }

  /** The camera's flags once `cam.stop()` has run with outcome `r`. */
  function AfterStop(f: CamFlags, r: StopResult): CamFlags
  {
    f.(restoreTriggerModeOnStop := r.restoreFlag, acquiring := f.acquiring && !r.camStopped)
  }

  /** The camera's flags once recording (`record`) or the preview has begun. */
  function CaptureBegun(f: CamFlags, record: bool): CamFlags
  {
    if record then f.(fn := 0, doRecord := true) else f.(fn := 0, doPreview := true)
  }

  class CamWindow {
    const cam: FlirCam
    var status: Status
    var fnPreview: int
    var timerOn: bool
    var previewOn: bool
    var levels: (real, real)
    var closed: bool

    function View(): CamWindowView
      reads this
    {
      CamWindowView(status, fnPreview, timerOn, previewOn, levels, closed)
    }

    /** The window as `__init__` leaves it, the preview toggle read once. */
    constructor (cam: FlirCam, previewChecked: bool)
      ensures this.cam == cam
      ensures View() == CamWindowView(Standby, 0, false, previewChecked, (0.0, MAX_LEVEL), false)
    {
      this.cam := cam;
      status := Standby;
      fnPreview := 0;
      timerOn := false;
      previewOn := previewChecked;
      levels := (0.0, MAX_LEVEL);
      closed := false;
    }

    /**
     * `start`: the gate counter restarts and the timer runs, the camera
     * starts, then recording or preview begins and the status follows,
     * whatever the status was. An exception from the camera's start leaves
     * the status as it was.
     */
    method Start(record: bool) returns (err: Option<CamError>)
      modifies this, cam
      ensures cam.attrs == old(cam.attrs)
      ensures err.Some? <==> old(cam.releaseTriggerOnStart) && TRIGGER_MODE !in old(cam.attrs)
      ensures View() == old(View()).(fnPreview := 0, timerOn := true,
                                     status := if err.Some? then old(status) else if record then Recording else Previewing)
      ensures var started := StartedFlags(old(cam.Flags()), old(cam.attrs), true);
              cam.Flags() == if err.Some? then started else CaptureBegun(started, record)
    {
      fnPreview := 0;
      timerOn := true;
      err := cam.Start(true);
      if err.Some? {
        return;
      }
      if record {
        cam.StartRec();
        status := Recording;
      } else {
        cam.StartPreview();
        status := Previewing;
      }
    }

    /**
     * `stop`: recording stops only when recording and the preview only
     * when previewing; then the camera stops and the window is back in
     * Standby. With a switchable trigger the camera's stop cannot fail.
     */
    method Stop() returns (err: Option<CamError>)
      modifies this, cam
      ensures View() == old(View()).(timerOn := false, status := if err.None? then Standby else old(status))
      ensures var r := StopSpec(old(cam.attrs), old(cam.restoreTriggerModeOnStop));
              cam.attrs == r.table && err == r.error
              && cam.Flags() == AfterStop(CaptureEnded(old(cam.Flags()), old(status)), r)
      ensures TriggerSwitchable(old(cam.attrs)) ==> err.None? && !cam.acquiring && !cam.restoreTriggerModeOnStop
    {
      timerOn := false;
      EndCapture();
      err := StopCamera();
      if err.Some? {
        return;
      }
      status := Standby;
    }

    /** The first part of `stop`: end the recording or the preview, whichever is running. */
    method EndCapture()
      modifies cam
      ensures cam.attrs == old(cam.attrs)
      ensures cam.Flags() == CaptureEnded(old(cam.Flags()), status)
    {
      if status == Recording {
        cam.StopRec();
      } else if status == Previewing {
        cam.StopPreview();
      }
    }

    /** `cam.stop()`; with a switchable trigger it cannot fail and leaves nothing pending. */
    method StopCamera() returns (err: Option<CamError>)
      modifies cam
      ensures var r := StopSpec(old(cam.attrs), old(cam.restoreTriggerModeOnStop));
              cam.attrs == r.table && err == r.error && cam.Flags() == AfterStop(old(cam.Flags()), r)
      ensures TriggerSwitchable(old(cam.attrs)) ==> err.None? && !cam.acquiring && !cam.restoreTriggerModeOnStop
    {
      if TriggerSwitchable(cam.attrs) {
        StopRestoresTrigger(cam.attrs, cam.restoreTriggerModeOnStop);
      }
      err := cam.Stop();
    }

    /** `change_framerate` as written: the parsed integer goes to `set_cam_attr` unchanged. */
    method ChangeFramerate(rate: int) returns (o: Outcome)
      modifies cam
      ensures Step(o, cam.attrs) == SetAttr(old(cam.attrs), FRAME_RATE, VInt(rate))
      ensures cam.Flags() == old(cam.Flags())
      ensures FloatFrameRate(old(cam.attrs)) ==> o == Raised(AssertionFailed(FRAME_RATE))
    {
      if FloatFrameRate(cam.attrs) {
        IntFrameRateRejected(cam.attrs, rate);
      }
      o := cam.SetCamAttr(FRAME_RATE, VInt(rate));
    }

    /** `change_framerate` with the rate passed as a float, which a float node accepts. */
    method ChangeFramerateAsFloat(rate: int) returns (o: Outcome)
      modifies cam
      ensures Step(o, cam.attrs) == SetAttr(old(cam.attrs), FRAME_RATE, VFloat(rate as real))
      ensures cam.Flags() == old(cam.Flags())
      ensures FloatFrameRate(old(cam.attrs)) ==>
                o == Returned(VFloat(rate as real))
                && cam.attrs == old(cam.attrs)[FRAME_RATE := old(cam.attrs)[FRAME_RATE].(value := VFloat(rate as real))]
    {
      if FloatFrameRate(cam.attrs) {
        FloatFrameRateWritten(cam.attrs, rate);
      }
      o := cam.SetCamAttr(FRAME_RATE, VFloat(rate as real));
    }

    /** `toggle_preview`: follows the check box. */
    method TogglePreview(checked: bool)
      modifies this
      ensures View() == old(View()).(previewOn := checked)
    {
      previewOn := checked;
    }

    /** `toggle_trigger`: a raw assignment of `On` or `Off`, bypassing the checks of `set_cam_attr`. */
    method ToggleTrigger(checked: bool)
      modifies cam
      ensures cam.attrs == Assign(old(cam.attrs), TRIGGER_MODE, if checked then ON else OFF)
      ensures cam.Flags() == old(cam.Flags())
    {
      cam.AssignAttr(TRIGGER_MODE, if checked then ON else OFF);
    }

    /**
     * `edit_gain`: "auto" in any letter case turns automatic gain on;
     * digit-only text turns it off and sets the gain to that number; any
     * other text changes nothing on the camera.
     */
    method EditGain(text: string)
      modifies cam
      ensures Lower(text) == "auto" ==> cam.attrs == Assign(old(cam.attrs), GAIN_AUTO, VStr("Continuous"))
      ensures IsNumeric(text) ==>
                cam.attrs == Assign(Assign(old(cam.attrs), GAIN_AUTO, VStr("Off")), GAIN, VFloat(DigitsValue(text) as real))
      ensures Lower(text) != "auto" && !IsNumeric(text) ==> cam.attrs == old(cam.attrs)
      ensures cam.Flags() == old(cam.Flags())
    {
      if IsNumeric(text) {
        NumericIsNotAuto(text);
      }
      if Lower(text) == "auto" {
        cam.AssignAttr(GAIN_AUTO, VStr("Continuous"));
      } else if IsNumeric(text) {
        cam.AssignAttr(GAIN_AUTO, VStr("Off"));
        cam.AssignAttr(GAIN, VFloat(DigitsValue(text) as real));
      }
    }

    /** `auto_expose`: a one-shot automatic exposure through `set_cam_attr`. */
    method AutoExpose() returns (o: Outcome)
      modifies cam
      ensures Step(o, cam.attrs) == SetAttr(old(cam.attrs), "ExposureAuto", VStr("Once"))
      ensures cam.Flags() == old(cam.Flags())
    {
      o := cam.SetCamAttr("ExposureAuto", VStr("Once"));
    }

    /** `lev_changed`: the histogram's levels, clamped into 0..255. */
    method LevChanged(low: real, high: real)
      modifies this
      ensures View() == old(View()).(levels := ClampLevels(low, high))
    {
      levels := ClampLevels(low, high);
    }

    /** `preview_updater`: one timer tick of the redraw gate. */
    method PreviewUpdater() returns (redrawn: bool)
      modifies this
      ensures (if redrawn then 1 else 0, fnPreview) == Redraws(previewOn, [cam.fn], old(fnPreview))
      ensures View() == old(View()).(fnPreview := fnPreview)
    {
      redrawn := false;
      if previewOn && cam.fn > fnPreview {
        fnPreview := cam.fn;
        redrawn := true;
      }
    }

    /** `closeEvent`: refused while recording or previewing; in Standby the camera is closed. */
    method CloseEvent() returns (accepted: bool)
      modifies this, cam
      ensures accepted <==> old(status) == Standby
      ensures accepted ==> View() == old(View()).(closed := true) && cam.Flags() == old(cam.Flags()).(isOpen := false)
      ensures !accepted ==> View() == old(View()) && cam.Flags() == old(cam.Flags())
      ensures cam.attrs == old(cam.attrs)
    {
      match status {
        case Recording => accepted := false;
        case Previewing => accepted := false;
        case Standby =>
          cam.Close();
          closed := true;
          accepted := true;
      }
    }
  }
}
