/**
 * The FLIR camera wrapper (jackfish/devices/cameras/flir.py) over an
 * abstract camera: the vendor node map becomes a map from attribute name
 * to its access string, type tag, enum entries and current value.
 * Reading an attribute gives back the stored value, and a write stores
 * the value given. Python exceptions become explicit outcomes.
 */
module FlirCamera {
  import opened Common
  import opened PyText

  /** A value as it arrives from a JSON config or from the camera. */
  datatype Value = VNone | VBool(b: bool) | VInt(i: int) | VFloat(r: real) | VStr(s: string)

  /** What `get_info` reports for a node. */
  datatype AttrInfo = AttrInfo(access: string, kind: string, entries: seq<string>, value: Value)

  /** `camera_attributes` with the current value of every node. */
  type AttrTable = map<string, AttrInfo>

  datatype CamError =
    | AssertionFailed(name: string)  // a type or enum check of `set_cam_attr` failed
    | MissingAttribute(name: string) // reading a node the camera does not have

  /** The result of `set_cam_attr`: `None`, the value read back, or an exception. */
  datatype Outcome = Ignored | Returned(readBack: Value) | Raised(error: CamError)

  /** An outcome together with the camera's attributes afterwards. */
  datatype Step = Step(outcome: Outcome, table: AttrTable)

  const FRAME_RATE: string := "AcquisitionFrameRate"
  const TRIGGER_MODE: string := "TriggerMode"
  const ON: Value := VStr("On")
  const OFF: Value := VStr("Off")

  /** Python truthiness of a JSON value. */
  predicate Truthy(v: Value)
  {
    match v
    case VNone => false
    case VBool(b) => b
    case VInt(i) => i != 0
    case VFloat(r) => r != 0.0
    case VStr(s) => s != ""
  }

  // ---------------------------------------------------------------------
  // Validation (lines 98-129)
  // ---------------------------------------------------------------------

  datatype Gate = Skip | Reject | Accept

  /** The access string allows writing. */
  predicate Writable(info: AttrInfo)
  {
    ContainsSub(info.access, "write")
  }

  /**
   * The type check for a writable node. `isinstance(v, int)` admits a bool
   * and `isinstance(v, float)` refuses an int; `command` and unknown type
   * tags are skipped.
   */
  function Check(info: AttrInfo, v: Value): (g: Gate)
    ensures g == Skip <==> info.kind !in {"enum", "float", "int", "string", "bool"}
    ensures info.kind == "enum" ==> (g == Accept <==> v.VStr? && v.s in info.entries)
    ensures info.kind == "float" ==> (g == Accept <==> v.VFloat?)
    ensures info.kind == "int" ==> (g == Accept <==> v.VInt? || v.VBool?)
    ensures info.kind == "string" ==> (g == Accept <==> v.VStr?)
    ensures info.kind == "bool" ==> (g == Accept <==> v.VBool?)
  {
    if info.kind == "enum" then (if v.VStr? && v.s in info.entries then Accept else Reject)
    else if info.kind == "float" then (if v.VFloat? then Accept else Reject)
    else if info.kind == "int" then (if v.VInt? || v.VBool? then Accept else Reject)
    else if info.kind == "string" then (if v.VStr? then Accept else Reject)
    else if info.kind == "bool" then (if v.VBool? then Accept else Reject)
    else Skip
  }

  /** What lines 98-129 decide for writing `v` to `name`. */
  function Judge(t: AttrTable, name: string, v: Value): Gate
  {
    if name !in t || !Writable(t[name]) then Skip else Check(t[name], v)
  }

  /** `cam.<name> = v`: the node takes the value; nothing else changes. */
  function Assign(t: AttrTable, name: string, v: Value): (u: AttrTable)
  {
    if name in t then t[name := t[name].(value := v)] else t
  }

  /** Two tables with the same nodes, access strings, types and entries. */
  predicate SameSchema(t: AttrTable, u: AttrTable)
  {
    t.Keys == u.Keys &&
    forall k :: k in t ==> k in u && u[k].access == t[k].access && u[k].kind == t[k].kind && u[k].entries == t[k].entries
  }

  /** The validated write of lines 98-132 (without the trigger handling around it). */
  function Write(t: AttrTable, name: string, v: Value): (r: Step)
    ensures SameSchema(t, r.table)
    ensures forall k :: k in t && k != name ==> r.table[k] == t[k]
    ensures !r.outcome.Returned? ==> r.table == t
  {
    match Judge(t, name, v)
    case Skip => Step(Ignored, t)
    case Reject => Step(Raised(AssertionFailed(name)), t)
    case Accept => Step(Returned(v), Assign(t, name, v))
  }

  /**
   * `set_cam_attr`. Writing the frame rate while the trigger is `On`
   * switches the trigger `Off` first and back `On` only after a
   * successful write.
   */
  function SetAttr(t: AttrTable, name: string, v: Value): (r: Step)
    ensures SameSchema(t, r.table)
    ensures forall k :: k in t && k != name && k != TRIGGER_MODE ==> r.table[k] == t[k]
    ensures r.outcome.Returned? ==> name in t && r.table[name].value == v && r.outcome.readBack == v
    decreases if name == FRAME_RATE then 1 else 0
  {
    if name == FRAME_RATE && TRIGGER_MODE !in t then Step(Raised(MissingAttribute(TRIGGER_MODE)), t)
    else
      var restore := name == FRAME_RATE && t[TRIGGER_MODE].value == ON;
      var first := if restore then SetAttr(t, TRIGGER_MODE, OFF) else Step(Ignored, t);
      if first.outcome.Raised? then first
      else
        var w := Write(first.table, name, v);
        if !w.outcome.Returned? || !restore then w
        else
          var last := SetAttr(w.table, TRIGGER_MODE, ON);
          if last.outcome.Raised? then last
          else Step(Returned(last.table[name].value), last.table)
  }

  /** The trigger node can be switched both ways. */
  predicate TriggerSwitchable(t: AttrTable)
  {
    TRIGGER_MODE in t && Writable(t[TRIGGER_MODE]) && t[TRIGGER_MODE].kind == "enum"
    && "On" in t[TRIGGER_MODE].entries && "Off" in t[TRIGGER_MODE].entries
  }

  /**
   * Any attribute but the frame rate: a missing, read-only, `command` or
   * untyped node is left alone and gives `None`; a value failing the type
   * or enum check raises before any write; otherwise the node takes the
   * value and the value is read back.
   */
  lemma SetAttrPlain(t: AttrTable, name: string, v: Value)
    requires name != FRAME_RATE
    ensures Judge(t, name, v) == Skip ==> SetAttr(t, name, v) == Step(Ignored, t)
    ensures Judge(t, name, v) == Reject ==> SetAttr(t, name, v) == Step(Raised(AssertionFailed(name)), t)
    ensures Judge(t, name, v) == Accept ==>
              SetAttr(t, name, v) == Step(Returned(v), t[name := t[name].(value := v)])
  {
  }

  /** `set_cam_attr('TriggerMode', v)` is the plain validated write: the trigger is not the frame rate. */
  lemma TriggerIsPlain(t: AttrTable, v: Value)
    ensures SetAttr(t, TRIGGER_MODE, v) == Write(t, TRIGGER_MODE, v)
  {
    assert TRIGGER_MODE != FRAME_RATE;
  }

  lemma AssignOffOn(t: AttrTable)
    requires TRIGGER_MODE in t && t[TRIGGER_MODE].value == ON
    ensures Assign(Assign(t, TRIGGER_MODE, OFF), TRIGGER_MODE, ON) == t
  {
    assert t[TRIGGER_MODE].(value := OFF).(value := ON) == t[TRIGGER_MODE];
  }

  /** Under an `On` trigger, the frame-rate write first switches the trigger `Off`. */
  lemma TriggerOffFirst(t: AttrTable, v: Value)
    requires TriggerSwitchable(t) && t[TRIGGER_MODE].value == ON
    ensures SetAttr(t, TRIGGER_MODE, OFF) == Step(Returned(OFF), Assign(t, TRIGGER_MODE, OFF))
    ensures Judge(Assign(t, TRIGGER_MODE, OFF), FRAME_RATE, v) == Judge(t, FRAME_RATE, v)
  {
    SetAttrPlain(t, TRIGGER_MODE, OFF);
  }

  /**
   * An accepted frame rate under an `On` trigger is written and the
   * trigger comes back `On`: only the frame rate changes.
   */
  lemma FrameRateRestoresTrigger(t: AttrTable, v: Value)
    requires TriggerSwitchable(t) && t[TRIGGER_MODE].value == ON
    requires Judge(t, FRAME_RATE, v) == Accept
    ensures SetAttr(t, FRAME_RATE, v) == Step(Returned(v), t[FRAME_RATE := t[FRAME_RATE].(value := v)])
  {
    TriggerOffFirst(t, v);
    var t1 := Assign(t, TRIGGER_MODE, OFF);
    assert Write(t1, FRAME_RATE, v) == Step(Returned(v), Assign(t1, FRAME_RATE, v));
    TriggerBackOn(t, v);
  }

  /** After the frame-rate write under a switched-off trigger, switching it back `On` restores the trigger. */
  lemma TriggerBackOn(t: AttrTable, v: Value)
    requires TriggerSwitchable(t) && t[TRIGGER_MODE].value == ON && FRAME_RATE in t
    ensures var t2 := Assign(Assign(t, TRIGGER_MODE, OFF), FRAME_RATE, v);
            SetAttr(t2, TRIGGER_MODE, ON) == Step(Returned(ON), t[FRAME_RATE := t[FRAME_RATE].(value := v)])
  {
    var t2 := Assign(Assign(t, TRIGGER_MODE, OFF), FRAME_RATE, v);
    TriggerIsPlain(t2, ON);
    assert Judge(t2, TRIGGER_MODE, ON) == Accept;
    assert Assign(t2, TRIGGER_MODE, ON) == t[FRAME_RATE := t[FRAME_RATE].(value := v)] by {
      AssignOffOn(t);
    }
  }

  /**
   * A frame rate that is skipped (missing, read-only, untyped node) under
   * an `On` trigger returns early and leaves the trigger `Off`.
   */
  lemma FrameRateSkipLeavesTriggerOff(t: AttrTable, v: Value)
    requires TriggerSwitchable(t) && t[TRIGGER_MODE].value == ON
    requires Judge(t, FRAME_RATE, v) == Skip
    ensures SetAttr(t, FRAME_RATE, v) == Step(Ignored, Assign(t, TRIGGER_MODE, OFF))
  {
    TriggerOffFirst(t, v);
  }

  /** A frame rate failing its type check under an `On` trigger raises and leaves the trigger `Off`. */
  lemma FrameRateRejectLeavesTriggerOff(t: AttrTable, v: Value)
    requires TriggerSwitchable(t) && t[TRIGGER_MODE].value == ON
    requires Judge(t, FRAME_RATE, v) == Reject
    ensures SetAttr(t, FRAME_RATE, v) == Step(Raised(AssertionFailed(FRAME_RATE)), Assign(t, TRIGGER_MODE, OFF))
  {
    TriggerOffFirst(t, v);
  }

  /** The frame rate with the trigger not `On`: an ordinary validated write. */
  lemma FrameRateWithoutTrigger(t: AttrTable, v: Value)
    requires TRIGGER_MODE in t && t[TRIGGER_MODE].value != ON
    ensures SetAttr(t, FRAME_RATE, v) == Write(t, FRAME_RATE, v)
  {
  }

  // ---------------------------------------------------------------------
  // Config passes (lines 69-85)
  // ---------------------------------------------------------------------

  /** The attributes after some writes, and the exception that stopped them, if any. */
  datatype Applied = Applied(table: AttrTable, error: Option<CamError>)

  /** One pass of `for (k, v) in cam_attrs.items()`: an exception ends the whole config load. */
  function ApplyEntries(t: AttrTable, entries: seq<(string, Value)>): (r: Applied)
    ensures SameSchema(t, r.table)
    decreases |entries|
  {
    if entries == [] then Applied(t, None)
    else
      var prev := ApplyEntries(t, entries[..|entries| - 1]);
      if prev.error.Some? then prev
      else
        var last := entries[|entries| - 1];
        var r := SetAttr(prev.table, last.0, last.1);
        Applied(r.table, if r.outcome.Raised? then Some(r.outcome.error) else None)
  }

  /** `n_repeat` passes over the same entries. */
  function ApplyPasses(t: AttrTable, entries: seq<(string, Value)>, passes: nat): (r: Applied)
    ensures SameSchema(t, r.table)
  {
    if passes == 0 then Applied(t, None)
    else
      var prev := ApplyPasses(t, entries, passes - 1);
      if prev.error.Some? then prev else ApplyEntries(prev.table, entries)
  }

  /** Once a prefix of a pass has raised, the pass ends there. */
  lemma {:induction false} EntriesStop(t: AttrTable, entries: seq<(string, Value)>, i: nat)
    requires i <= |entries| && ApplyEntries(t, entries[..i]).error.Some?
    ensures ApplyEntries(t, entries) == ApplyEntries(t, entries[..i])
    decreases |entries| - i
  {
    if i < |entries| {
      assert entries[..i + 1][..i] == entries[..i];
      EntriesStop(t, entries, i + 1);
    } else {
      assert entries[..i] == entries;
    }
  }

  /** Once a pass has raised, no later pass runs. */
  lemma {:induction false} PassesStop(t: AttrTable, entries: seq<(string, Value)>, k: nat, m: nat)
    requires k <= m && ApplyPasses(t, entries, k).error.Some?
    ensures ApplyPasses(t, entries, m) == ApplyPasses(t, entries, k)
    decreases m - k
  {
    if k < m {
      PassesStop(t, entries, k, m - 1);
    }
  }

  /** The values the entries leave behind when every write goes through. */
  function Overlay(t: AttrTable, entries: seq<(string, Value)>): (u: AttrTable)
    ensures SameSchema(t, u)
    decreases |entries|
  {
    if entries == [] then t
    else
      var last := entries[|entries| - 1];
      Assign(Overlay(t, entries[..|entries| - 1]), last.0, last.1)
  }

  /** Entries the camera accepts, none of which is the frame rate. */
  predicate Independent(t: AttrTable, entries: seq<(string, Value)>)
  {
    forall i :: 0 <= i < |entries| ==> entries[i].0 != FRAME_RATE && Judge(t, entries[i].0, entries[i].1) == Accept
  }

  lemma JudgeSchema(t: AttrTable, u: AttrTable, name: string, v: Value)
    requires SameSchema(t, u)
    ensures Judge(u, name, v) == Judge(t, name, v)
  {
  }

  /** Independent accepted entries are all written in one pass, without an exception. */
  lemma {:induction false} OnePassWritesAll(t: AttrTable, entries: seq<(string, Value)>)
    requires Independent(t, entries)
    ensures ApplyEntries(t, entries) == Applied(Overlay(t, entries), None)
    decreases |entries|
  {
    if entries != [] {
      var init := entries[..|entries| - 1];
      var last := entries[|entries| - 1];
      assert Independent(t, init) by {
        assert forall i :: 0 <= i < |init| ==> init[i] == entries[i];
      }
      OnePassWritesAll(t, init);
      var u := Overlay(t, init);
      JudgeSchema(t, u, last.0, last.1);
      SetAttrPlain(u, last.0, last.1);
    }
  }

  predicate DistinctNames(entries: seq<(string, Value)>)
  {
    forall i, j :: 0 <= i < j < |entries| ==> entries[i].0 != entries[j].0
  }

  /** With distinct names, every named node ends with its entry's value. */
  lemma {:induction false} OverlayLastWins(t: AttrTable, entries: seq<(string, Value)>)
    requires DistinctNames(entries)
    requires forall i :: 0 <= i < |entries| ==> entries[i].0 in t
    ensures forall i :: 0 <= i < |entries| ==> Overlay(t, entries)[entries[i].0].value == entries[i].1
    decreases |entries|
  {
    if entries != [] {
      var init := entries[..|entries| - 1];
      assert forall i :: 0 <= i < |init| ==> init[i] == entries[i];
      OverlayLastWins(t, init);
    }
  }

  /** Writing values a table already holds changes nothing. */
  lemma {:induction false} OverlayAlreadyHeld(u: AttrTable, entries: seq<(string, Value)>)
    requires forall i :: 0 <= i < |entries| ==> entries[i].0 in u && u[entries[i].0].value == entries[i].1
    ensures Overlay(u, entries) == u
    decreases |entries|
  {
    if entries != [] {
      var init := entries[..|entries| - 1];
      assert forall i :: 0 <= i < |init| ==> init[i] == entries[i];
      OverlayAlreadyHeld(u, init);
      var last := entries[|entries| - 1];
      assert u[last.0].(value := last.1) == u[last.0];
    }
  }

  /**
   * Without dependencies between entries, the first pass reaches the final
   * attributes and every further pass of `n_repeat` changes nothing.
   */
  lemma {:induction false} PassesSettle(t: AttrTable, entries: seq<(string, Value)>, k: nat)
    requires Independent(t, entries) && DistinctNames(entries) && k >= 1
    ensures ApplyPasses(t, entries, k) == Applied(Overlay(t, entries), None)
  {
    OnePassWritesAll(t, entries);
    if k > 1 {
      PassesSettle(t, entries, k - 1);
      var u := Overlay(t, entries);
      assert Independent(u, entries) by {
        forall i | 0 <= i < |entries| ensures Judge(u, entries[i].0, entries[i].1) == Accept {
          JudgeSchema(t, u, entries[i].0, entries[i].1);
        }
      }
      OnePassWritesAll(u, entries);
      OverlayLastWins(t, entries);
      OverlayAlreadyHeld(u, entries);
    }
  }

  // ---------------------------------------------------------------------
  // Configuration file
  // ---------------------------------------------------------------------

  datatype ControlAttrs = ControlAttrs(releaseOnStart: Option<Value>, releaseDelay: Option<Value>)

  /** The parsed config file: optional `camera_attrs` (in file order) and `control_attrs`. */
  datatype CamConfig = CamConfig(cameraAttrs: Option<seq<(string, Value)>>, controlAttrs: Option<ControlAttrs>)

  predicate ReleaseRequested(config: CamConfig)
  {
    config.controlAttrs.Some? && config.controlAttrs.value.releaseOnStart.Some?
    && Truthy(config.controlAttrs.value.releaseOnStart.value)
  }

  // ---------------------------------------------------------------------
  // stop and get_img_framerate on the table. Their `set_cam_attr` calls
  // on the trigger are written as `Write` (the same step, by TriggerIsPlain).
  // ---------------------------------------------------------------------

  /** The table, restore flag and exception after `stop`, and whether `cam.stop()` was reached. */
  datatype StopResult = StopResult(table: AttrTable, restoreFlag: bool, camStopped: bool, error: Option<CamError>)

  function StopSpec(t: AttrTable, restore: bool): StopResult
  {
    if TRIGGER_MODE !in t then StopResult(t, restore, false, Some(MissingAttribute(TRIGGER_MODE)))
    else
      var wasOn := t[TRIGGER_MODE].value == ON;
      var off := if wasOn then Write(t, TRIGGER_MODE, OFF) else Step(Ignored, t);
      if off.outcome.Raised? then StopResult(off.table, restore, false, Some(off.outcome.error))
      else RestoreSpec(off.table, restore || wasOn)
  }

  /** The part of `stop` after `cam.stop()`: restore the trigger when the flag is set. */
  function RestoreSpec(t: AttrTable, restore: bool): StopResult
  {
    if !restore then StopResult(t, false, true, None)
    else
      var on := Write(t, TRIGGER_MODE, ON);
      if on.outcome.Raised? then StopResult(on.table, true, true, Some(on.outcome.error))
      else StopResult(on.table, false, true, None)
  }

  /**
   * With a switchable trigger, `stop` always stops the camera and clears
   * the restore flag, and the trigger ends `On` exactly when it was `On`
   * or a restore was pending; no other attribute changes.
   */
  lemma StopRestoresTrigger(t: AttrTable, restore: bool)
    requires TriggerSwitchable(t)
    ensures StopSpec(t, restore).error.None? && StopSpec(t, restore).camStopped
    ensures !StopSpec(t, restore).restoreFlag
    ensures TRIGGER_MODE in StopSpec(t, restore).table
    ensures StopSpec(t, restore).table[TRIGGER_MODE].value == ON <==> t[TRIGGER_MODE].value == ON || restore
    ensures forall k :: k in t && k != TRIGGER_MODE ==> StopSpec(t, restore).table[k] == t[k]
    ensures !restore && t[TRIGGER_MODE].value != ON ==> StopSpec(t, restore).table == t
  {
    var wasOn := t[TRIGGER_MODE].value == ON;
    SetAttrPlain(t, TRIGGER_MODE, OFF);
    var t1 := if wasOn then Assign(t, TRIGGER_MODE, OFF) else t;
    assert SameSchema(t, t1);
    SetAttrPlain(t1, TRIGGER_MODE, ON);
  }

  datatype FramerateResult = FramerateResult(table: AttrTable, framerate: Option<Value>, error: Option<CamError>)

  /** `get_img_framerate`: read the frame rate, with the trigger switched `Off` around the read. */
  function FramerateSpec(t: AttrTable): FramerateResult
  {
    if TRIGGER_MODE !in t then FramerateResult(t, None, Some(MissingAttribute(TRIGGER_MODE)))
    else if t[TRIGGER_MODE].value == ON then
      var off := Write(t, TRIGGER_MODE, OFF);
      if off.outcome.Raised? then FramerateResult(off.table, None, Some(off.outcome.error))
      else ReadRestoreSpec(off.table)
    else if FRAME_RATE !in t then FramerateResult(t, None, Some(MissingAttribute(FRAME_RATE)))
    else FramerateResult(t, Some(t[FRAME_RATE].value), None)
  }

  /** The part of `get_img_framerate` after the trigger went `Off`: read the rate, switch the trigger `On`. */
  function ReadRestoreSpec(t: AttrTable): FramerateResult
  {
    if FRAME_RATE !in t then FramerateResult(t, None, Some(MissingAttribute(FRAME_RATE)))
    else
      var rate := t[FRAME_RATE].value;
      var on := Write(t, TRIGGER_MODE, ON);
      FramerateResult(on.table, Some(rate), if on.outcome.Raised? then Some(on.outcome.error) else None)
  }

  /** With a switchable trigger, reading the frame rate reports the stored rate and leaves every attribute as it was. */
  lemma FramerateLeavesTable(t: AttrTable)
    requires TriggerSwitchable(t) && FRAME_RATE in t
    ensures FramerateSpec(t) == FramerateResult(t, Some(t[FRAME_RATE].value), None)
  {
    if t[TRIGGER_MODE].value == ON {
      SetAttrPlain(t, TRIGGER_MODE, OFF);
      var t1 := Assign(t, TRIGGER_MODE, OFF);
      SetAttrPlain(t1, TRIGGER_MODE, ON);
      AssignOffOn(t);
    }
  }

  // ---------------------------------------------------------------------
  // Serial number (lines 38-46)
  // ---------------------------------------------------------------------

  /** Attribute names that contain "serialnumber" in any letter case. */
  function SerialCandidates(t: AttrTable): set<string>
  {
    set k | k in t && ContainsSub(Lower(k), "serialnumber")
  }

  /** `get_cam_serial_number`: the value of the one candidate, or `None` when there are none or several. */
  function SerialNumber(t: AttrTable): (r: Option<Value>)
    ensures r.Some? <==> |SerialCandidates(t)| == 1
    ensures r.Some? ==> exists k :: SerialCandidates(t) == {k} && k in t && r.value == t[k].value
  {
    var cands := SerialCandidates(t);
    if |cands| != 1 then None
    else
      var k :| k in cands;
      assert cands == {k} by {
        assert |cands - {k}| == 0;
      }
      Some(t[k].value)
  }

  // ---------------------------------------------------------------------
  // The camera object
  // ---------------------------------------------------------------------

  /** Every field of `FlirCam` but the attribute table. */
  datatype CamFlags = CamFlags(
    serialNumber: Option<Value>,
    releaseTriggerOnStart: bool,
    releaseTriggerDelay: Value,
    restoreTriggerModeOnStop: bool,
    releasePending: bool,
    acquiring: bool,
    framerate: Option<Value>,
    fn: int,
    doPreview: bool,
    doRecord: bool,
    isOpen: bool)

  /**
   * The flags after `start(release_trigger_mode)` on table `t`: acquisition
   * runs, and when the release is asked for and the trigger is `On`, a
   * release thread is pending and `stop` will restore the trigger.
   */
  function StartedFlags(f: CamFlags, t: AttrTable, releaseTriggerMode: bool): CamFlags
  {
    var armed := releaseTriggerMode && f.releaseTriggerOnStart && TRIGGER_MODE in t && t[TRIGGER_MODE].value == ON;
    f.(acquiring := true,
       releasePending := f.releasePending || armed,
       restoreTriggerModeOnStop := f.restoreTriggerModeOnStop || armed)
  }

  class FlirCam {
    var attrs: AttrTable
    var serialNumber: Option<Value>
    var releaseTriggerOnStart: bool
    var releaseTriggerDelay: Value
    var restoreTriggerModeOnStop: bool
    /** A release thread has been started and has not fired yet. */
    var releasePending: bool
    /** Between `cam.start()` and `cam.stop()`. */
    var acquiring: bool
    var framerate: Option<Value>
    var fn: int
    var doPreview: bool
    var doRecord: bool
    var isOpen: bool

    function Flags(): CamFlags
      reads this
    {
      CamFlags(serialNumber, releaseTriggerOnStart, releaseTriggerDelay, restoreTriggerModeOnStop,
               releasePending, acquiring, framerate, fn, doPreview, doRecord, isOpen)
    }

    /** The first part of `__init__`: open the camera, read its serial number, clear the trigger flags. */
    constructor (t: AttrTable)
      ensures attrs == t && serialNumber == SerialNumber(t)
      ensures !releaseTriggerOnStart && releaseTriggerDelay == VInt(0) && !restoreTriggerModeOnStop
      ensures !releasePending && !acquiring && framerate.None? && fn == 0 && !doPreview && !doRecord && isOpen
    {
      attrs := t;
      serialNumber := SerialNumber(t);
      releaseTriggerOnStart, releaseTriggerDelay, restoreTriggerModeOnStop := false, VInt(0), false;
      releasePending, acquiring, framerate := false, false, None;
      fn, doPreview, doRecord, isOpen := 0, false, false, true;
    }

    /** `set_cam_attr`, changing the camera in place. */
    method SetCamAttr(name: string, v: Value) returns (o: Outcome)
      modifies this
      ensures Step(o, attrs) == SetAttr(old(attrs), name, v)
      ensures Flags() == old(Flags())
      decreases if name == FRAME_RATE then 1 else 0
    {
      var restore := false;
      if name == FRAME_RATE {
        if TRIGGER_MODE !in attrs {
          return Raised(MissingAttribute(TRIGGER_MODE));
        }
        if attrs[TRIGGER_MODE].value == ON {
          var first := SetCamAttr(TRIGGER_MODE, OFF);
          if first.Raised? {
            return first;
          }
          restore := true;
        }
      }
      o := WriteAttr(name, v);
      if !o.Returned? {
        return;
      }
      if restore {
        var last := SetCamAttr(TRIGGER_MODE, ON);
        if last.Raised? {
          return last;
        }
      }
      o := Returned(attrs[name].value);
    }

    /** `set_cam_attr('TriggerMode', v)`, as `stop` and `get_img_framerate` call it. */
    method SetTrigger(v: Value) returns (o: Outcome)
      modifies this
      ensures Step(o, attrs) == Write(old(attrs), TRIGGER_MODE, v)
      ensures Flags() == old(Flags())
    {
      TriggerIsPlain(attrs, v);
      o := SetCamAttr(TRIGGER_MODE, v);
    }

    /** Lines 98-132: the checks and the write, without the trigger handling around them. */
    method WriteAttr(name: string, v: Value) returns (o: Outcome)
      modifies this
      ensures Step(o, attrs) == Write(old(attrs), name, v)
      ensures Flags() == old(Flags())
    {
      if name !in attrs || !Writable(attrs[name]) {
        return Ignored;
      }
      var gate := Check(attrs[name], v);
      if gate == Skip {
        return Ignored;
      } else if gate == Reject {
        return Raised(AssertionFailed(name));
      }
      attrs := attrs[name := attrs[name].(value := v)];
      o := Returned(v);
    }

    /** A raw `cam.<name> = v` as the camera window does it, bypassing the checks. */
    method AssignAttr(name: string, v: Value)
      modifies this
      ensures attrs == Assign(old(attrs), name, v)
      ensures Flags() == old(Flags())
    {
      if name in attrs {
        attrs := attrs[name := attrs[name].(value := v)];
      }
    }

    /** `set_cam_attrs_from_json` on an already parsed config. */
    method SetCamAttrsFromJson(config: CamConfig, nRepeat: nat) returns (err: Option<CamError>)
      modifies this
      ensures var r := if config.cameraAttrs.Some? then ApplyPasses(old(attrs), config.cameraAttrs.value, nRepeat)
                       else Applied(old(attrs), None);
              attrs == r.table && err == r.error
      ensures err.Some? ==> Flags() == old(Flags())
      ensures err.None? ==>
                Flags() == old(Flags()).(
                  releaseTriggerOnStart := old(releaseTriggerOnStart) || ReleaseRequested(config),
                  releaseTriggerDelay :=
                    if config.controlAttrs.Some? && config.controlAttrs.value.releaseDelay.Some?
                    then config.controlAttrs.value.releaseDelay.value else old(releaseTriggerDelay))
    {
      if config.cameraAttrs.Some? {
        err := ApplyAllPasses(config.cameraAttrs.value, nRepeat);
        if err.Some? {
          return;
        }
      }
      ApplyControlAttrs(config.controlAttrs);
      err := None;
    }

    /** The outer loop over the `n_repeat` passes; an exception leaves it. */
    method ApplyAllPasses(entries: seq<(string, Value)>, nRepeat: nat) returns (err: Option<CamError>)
      modifies this
      ensures Applied(attrs, err) == ApplyPasses(old(attrs), entries, nRepeat)
      ensures Flags() == old(Flags())
    {
      var pass := 0;
      while pass < nRepeat
        invariant 0 <= pass <= nRepeat
        invariant ApplyPasses(old(attrs), entries, pass) == Applied(attrs, None)
        invariant Flags() == old(Flags())
      {
        err := ApplyOnePass(entries);
        if err.Some? {
          PassesStop(old(attrs), entries, pass + 1, nRepeat);
          return;
        }
        pass := pass + 1;
      }
      err := None;
    }

    /** One pass of the inner loop over `camera_attrs`; an exception leaves it. */
    method ApplyOnePass(entries: seq<(string, Value)>) returns (err: Option<CamError>)
      modifies this
      ensures Applied(attrs, err) == ApplyEntries(old(attrs), entries)
      ensures Flags() == old(Flags())
    {
      var i := 0;
      while i < |entries|
        invariant 0 <= i <= |entries|
        invariant ApplyEntries(old(attrs), entries[..i]) == Applied(attrs, None)
        invariant Flags() == old(Flags())
      {
        assert entries[..i + 1][..i] == entries[..i];
        var o := SetCamAttr(entries[i].0, entries[i].1);
        if o.Raised? {
          EntriesStop(old(attrs), entries, i + 1);
          return Some(o.error);
        }
        i := i + 1;
      }
      assert entries[..i] == entries;
      err := None;
    }

    /** The `control_attrs` part: a truthy release request sets the flag, a delay replaces the old one. */
    method ApplyControlAttrs(control: Option<ControlAttrs>)
      modifies this
      ensures attrs == old(attrs)
      ensures Flags() == old(Flags()).(
                releaseTriggerOnStart := old(releaseTriggerOnStart) || ReleaseRequested(CamConfig(None, control)),
                releaseTriggerDelay :=
                  if control.Some? && control.value.releaseDelay.Some? then control.value.releaseDelay.value
                  else old(releaseTriggerDelay))
    {
      if control.Some? {
        if control.value.releaseOnStart.Some? && Truthy(control.value.releaseOnStart.value) {
          releaseTriggerOnStart := true;
        }
        if control.value.releaseDelay.Some? {
          releaseTriggerDelay := control.value.releaseDelay.value;
        }
      }
    }

    /**
     * `start`: acquisition begins; the delayed release is armed, and the
     * restore flag set, only when the caller asks for it, the config asked
     * for it and the trigger is `On`.
     */
    method Start(releaseTriggerMode: bool) returns (err: Option<CamError>)
      modifies this
      ensures attrs == old(attrs)
      ensures err == if releaseTriggerMode && releaseTriggerOnStart && TRIGGER_MODE !in attrs
                     then Some(MissingAttribute(TRIGGER_MODE)) else None
      ensures Flags() == StartedFlags(old(Flags()), attrs, releaseTriggerMode)
    {
      acquiring := true;
      err := None;
      if releaseTriggerMode && releaseTriggerOnStart {
        if TRIGGER_MODE !in attrs {
          return Some(MissingAttribute(TRIGGER_MODE));
        }
        if attrs[TRIGGER_MODE].value == ON {
          releasePending := true;
          restoreTriggerModeOnStop := true;
        }
      }
    }

    /** The release thread waking after its delay: it switches the trigger `Off`. */
    method ReleaseTriggerFires() returns (o: Outcome)
      modifies this
      ensures old(releasePending) ==> Step(o, attrs) == SetAttr(old(attrs), TRIGGER_MODE, OFF)
      ensures !old(releasePending) ==> o == Ignored && attrs == old(attrs)
      ensures Flags() == old(Flags()).(releasePending := false)
    {
      o := Ignored;
      if releasePending {
        releasePending := false;
        o := SetCamAttr(TRIGGER_MODE, OFF);
      }
    }

    /** `stop`. */
    method Stop() returns (err: Option<CamError>)
      modifies this
      ensures var r := StopSpec(old(attrs), old(restoreTriggerModeOnStop));
              attrs == r.table && err == r.error
              && Flags() == old(Flags()).(restoreTriggerModeOnStop := r.restoreFlag,
                                          acquiring := old(acquiring) && !r.camStopped)
    {
      if TRIGGER_MODE !in attrs {
        return Some(MissingAttribute(TRIGGER_MODE));
      }
      if attrs[TRIGGER_MODE].value == ON {
        err := StopFromOn();
      } else {
        err := RestoreOnStop();
      }
    }

    /** `stop` with the trigger `On`: switch it `Off`, remember to restore it, then stop. */
    method StopFromOn() returns (err: Option<CamError>)
      requires TRIGGER_MODE in attrs && attrs[TRIGGER_MODE].value == ON
      modifies this
      ensures var r := StopSpec(old(attrs), old(restoreTriggerModeOnStop));
              attrs == r.table && err == r.error
              && Flags() == old(Flags()).(restoreTriggerModeOnStop := r.restoreFlag,
                                          acquiring := old(acquiring) && !r.camStopped)
    {
      var off := SetTrigger(OFF);
      if off.Raised? {
        return Some(off.error);
      }
      restoreTriggerModeOnStop := true;
      err := RestoreOnStop();
    }

    /** `cam.stop()` and the restore that follows it. */
    method RestoreOnStop() returns (err: Option<CamError>)
      modifies this
      ensures var r := RestoreSpec(old(attrs), old(restoreTriggerModeOnStop));
              attrs == r.table && err == r.error
              && Flags() == old(Flags()).(restoreTriggerModeOnStop := r.restoreFlag, acquiring := false)
    {
      acquiring := false;
      err := None;
      if restoreTriggerModeOnStop {
        var on := SetTrigger(ON);
        if on.Raised? {
          return Some(on.error);
        }
        restoreTriggerModeOnStop := false;
      }
    }

    /** `get_img_framerate`. */
    method GetImgFramerate() returns (err: Option<CamError>)
      modifies this
      ensures var r := FramerateSpec(old(attrs));
              attrs == r.table && err == r.error
              && Flags() == old(Flags()).(framerate := if r.framerate.Some? then r.framerate else old(framerate))
    {
      if TRIGGER_MODE !in attrs {
        return Some(MissingAttribute(TRIGGER_MODE));
      }
      if attrs[TRIGGER_MODE].value == ON {
        err := ReadRateFromOn();
      } else {
        err := None;
        if FRAME_RATE !in attrs {
          return Some(MissingAttribute(FRAME_RATE));
        }
        framerate := Some(attrs[FRAME_RATE].value);
      }
    }

    /** `get_img_framerate` with the trigger `On`: switch it `Off`, read the rate, switch it back `On`. */
    method ReadRateFromOn() returns (err: Option<CamError>)
      requires TRIGGER_MODE in attrs && attrs[TRIGGER_MODE].value == ON
      modifies this
      ensures var r := FramerateSpec(old(attrs));
              attrs == r.table && err == r.error
              && Flags() == old(Flags()).(framerate := if r.framerate.Some? then r.framerate else old(framerate))
    {
      var off := SetTrigger(OFF);
      if off.Raised? {
        return Some(off.error);
      }
      err := ReadAndRestore();
    }

    /** Read the frame rate, then switch the trigger back `On`. */
    method ReadAndRestore() returns (err: Option<CamError>)
      modifies this
      ensures var r := ReadRestoreSpec(old(attrs));
              attrs == r.table && err == r.error
              && Flags() == old(Flags()).(framerate := if r.framerate.Some? then r.framerate else old(framerate))
    {
      if FRAME_RATE !in attrs {
        return Some(MissingAttribute(FRAME_RATE));
      }
      framerate := Some(attrs[FRAME_RATE].value);
      var on := SetTrigger(ON);
      err := if on.Raised? then Some(on.error) else None;
    }

    /** `grab_frame`: one more frame taken (the image itself is not modelled). */
    method GrabFrame()
      modifies this
      ensures attrs == old(attrs) && Flags() == old(Flags()).(fn := old(fn) + 1)
    {
      fn := fn + 1;
    }

    /** `start_preview` without its grabbing thread: the counter restarts. */
    method StartPreview()
      modifies this
      ensures attrs == old(attrs) && Flags() == old(Flags()).(fn := 0, doPreview := true)
    {
      fn := 0;
      doPreview := true;
    }

    method StopPreview()
      modifies this
      ensures attrs == old(attrs) && Flags() == old(Flags()).(doPreview := false)
    {
      doPreview := false;
    }

    /** `start_rec` without its grabbing and writing threads: the counter restarts. */
    method StartRec()
      modifies this
      ensures attrs == old(attrs) && Flags() == old(Flags()).(fn := 0, doRecord := true)
    {
      fn := 0;
      doRecord := true;
    }

    method StopRec()
      modifies this
      ensures attrs == old(attrs) && Flags() == old(Flags()).(doRecord := false)
    {
      doRecord := false;
    }

    method Close()
      modifies this
      ensures attrs == old(attrs) && Flags() == old(Flags()).(isOpen := false)
    {
      isOpen := false;
    }
  }
}
