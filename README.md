# jackfish acquisition core in Dafny

jackfish is a Qt application that drives a LabJack data-acquisition device
and FLIR cameras during experiments. This project models the logic under
its windows and vendor calls, and proves properties of it:

- **LabJack stream bookkeeping** (`LabJackStream`, labjack.dfy). This covers
  - channel-list normalisation;
  - the fixed-capacity preview deque, extended in place on an array;
  - the per-read scan and skip counters;
  - the record file (a JSON header line, then one row per scan);
  - the `streaming` / `collect_dataQ` flags.

  The vendor stream read loop is a caller-supplied sequence of events. Each
  event is one read, or one of the control thread's calls landing between
  two reads.
- **FLIR camera wrapper** (`FlirCamera`, flir.dfy). The camera is a map from
  attribute name to access string, type tag, enum entries and value. The
  model covers
  - the typed, access-gated `set_cam_attr`, including its frame-rate/trigger
    rule;
  - the multi-pass config loader;
  - `start`/`stop` with the trigger release and restore;
  - the frame-rate read and the serial-number lookup.
- **DAQ window** (`DaqController`, daq_controller.py side). This covers
  - the `name <nickname>` channel-field parser, as a specification function
    and as the dict-building loop;
  - the preset loader's `", "` joining;
  - the Standby/Recording/Previewing machine with widget gating and close
    handling;
  - the stride slice that extracts one channel for the preview plot.
- **Camera window** (`CamController`). This covers the status machine over a
  `FlirCam`, the frame-counter gate of the preview redraw, the
  histogram-level clamp, and the gain, trigger and frame-rate controls.
- **Encoder velocity** (`EncoderVelocity`), which is `Expt.get_avg_vel`. It
  counts backward minus forward encoder edges in a five-channel interleaved
  sample list. It is proved equal to a direct per-scan sum.

`Common` and `PyText` hold the Python semantics the core relies on:

- an insertion-ordered dict as a sequence of pairs;
- slice-bound normalisation and step slices;
- `find`, `replace(" ", "")`, `split`, `join`, `lower` and `isnumeric`.

Python exceptions are explicit outcomes: `Option<CamError>`, `Outcome.Raised`
and `ParseOutcome.error`, `StartError`. They are never preconditions. The one exception is the window's calls under driver names the driver does not define: the model renames them instead (see "## Left out").

## Model

| member | source | states |
|---|---|---|
| Common.Put | jackfish/devices/daqs/labjack.py:73 | `d[k] = v`: a present key keeps its position and takes the new value, an absent key is appended; no other entry changes and keys stay distinct |
| Common.StepSliceAt | utils.py:55-56 | element j of `s[start:stop:step]` is `s[start + j*step]`, and index j exists exactly when that position is below `stop` |
| Common.TakeLast | jackfish/gui/daq_controller.py:253 | `xs[-k:]` is the last k elements, or all of them when k is 0 or at least the length |
| PyText.Find | jackfish/gui/daq_controller.py:211-212 | `find` returns -1 exactly when the character is absent; otherwise the position of its first occurrence |
| PyText.FindFirst | jackfish/gui/daq_controller.py:211-212 | a position holding the character with none before it is what `find` returns |
| PyText.Despace | jackfish/gui/daq_controller.py:217 | `replace(" ", "")` leaves no space, keeps space-free text unchanged, and keeps only characters of the input |
| PyText.DespaceAppend | jackfish/gui/daq_controller.py:221 | removing spaces distributes over concatenation |
| PyText.Split | jackfish/gui/daq_controller.py:208 | `split` with a one-character separator gives at least one piece, and no piece contains the separator |
| PyText.SplitJoin | jackfish/gui/daq_controller.py:105 | splitting a join on a separator that no piece holds gives the pieces back |
| PyText.JoinSplit | jackfish/gui/daq_controller.py:208 | joining the pieces of a split with the separator gives the text back |
| EncoderVelocity.Diff | utils.py:58 | `np.diff` has one element fewer, and element i is `a[i+1] - a[i]` |
| EncoderVelocity.WhereFrom | utils.py:60 | every position `np.where` reports holds the value searched for, and there are at most as many as elements searched |
| EncoderVelocity.WhereFromFindsAll | utils.py:60 | `np.where` misses no position holding the value, and reports the positions in increasing order |
| EncoderVelocity.EdgesInRange | utils.py:60-62 | every edge position indexes the direction column, and the next scan of channel 0, at any data length |
| EncoderVelocity.AvgVelIsDirect | utils.py:51-65 | `get_avg_vel` equals the sum over scans with a successor: +1 when channel 0 rises by exactly one and direction is 1, -1 when it rises by one and direction is 0, else 0 |
| EncoderVelocity.FewScansGiveZero | utils.py:55-65 | at most one scan gives no edge and a result of 0 |
| EncoderVelocity.AvgVelBound | utils.py:62-65 | the result lies between minus and plus the number of edges, which is at most the scans of channel 0 minus one |
| EncoderVelocity.ReadsOnlyChannels01 | utils.py:55-56 | two lists of equal length that agree on channels 0 and 1 give the same result |
| LabJackStream.FromNames | jackfish/devices/daqs/labjack.py:72-73 | a name list becomes a dict without repeated keys whose entries map each name to itself, holding every name |
| LabJackStream.FromDistinctNames | jackfish/devices/daqs/labjack.py:72-74 | for distinct names the keys are the names in order, so the channel count is the number of names |
| LabJackStream.NormaliseChannels | jackfish/devices/daqs/labjack.py:71-73 | a dict argument is kept as given; a name list becomes a dict mapping each name to itself whose keys are exactly the names; either way no key repeats |
| LabJackStream.CountSkips | jackfish/devices/daqs/labjack.py:180 | `data.count(-9999.0)` is the multiplicity of the sentinel in the batch, so never more than its length |
| LabJackStream.RowsRoundTrip | jackfish/devices/daqs/labjack.py:197-200 | a batch of whole scans is written as `len(data)/n` rows of n samples, and the rows read back in order give the batch |
| LabJackStream.Window | jackfish/devices/daqs/labjack.py:82 | a full deque of capacity `cap` keeps exactly its newest `cap` samples |
| LabJackStream.WindowCompose | jackfish/devices/daqs/labjack.py:205 | two successive extends of a full deque equal one extend by both batches |
| LabJackStream.UntilStop | jackfish/devices/daqs/labjack.py:170 | the events the loop consumes are a prefix of the events with no stop among them, ending at the first stop or at the end |
| LabJackStream.DrainCounters | jackfish/devices/daqs/labjack.py:170-181 | over the loop, `totSkip` grows by the sentinels and `totScans` by `len(data)/n` of every read before the first stop |
| LabJackStream.CallbackCounters | jackfish/devices/daqs/labjack.py:166-181 | a callback run resets both counters and then counts exactly the reads it consumed |
| LabJackStream.DrainStopsAtStop | jackfish/devices/daqs/labjack.py:143-170 | the loop ends exactly when a stop arrives, and the loop itself never closes the file |
| LabJackStream.CallbackClosesFile | jackfish/devices/daqs/labjack.py:213-219 | after a callback run the record file is closed exactly when recording and the loop has ended; a run is still streaming exactly when no stop arrived |
| LabJackStream.DrainKeepsQueueLength | jackfish/devices/daqs/labjack.py:204-205 | the preview buffer never changes length |
| LabJackStream.DrainQueueFrozen | jackfish/devices/daqs/labjack.py:204-224 | with collection off and never turned on, the preview buffer does not change |
| LabJackStream.DrainQueueIsRecentHistory | jackfish/devices/daqs/labjack.py:204-205 | with collection on throughout, the buffer ends as the newest `capacity` samples of its old contents followed by every read consumed |
| LabJackStream.DrainRecordsRows | jackfish/devices/daqs/labjack.py:197-200 | while recording into an open file, every consumed read is appended as whole rows, in read order |
| LabJackStream.RowsOfRoundTrip | jackfish/devices/daqs/labjack.py:197-200 | the rows written for several reads all have width n, and their samples in order are the reads concatenated |
| LabJackStream.DequeExtend | jackfish/devices/daqs/labjack.py:205 | extending the full array deque in place leaves exactly the newest `capacity` samples of old contents plus batch |
| LabJackStream.OverwriteWithTail | jackfish/devices/daqs/labjack.py:205 | a batch at least as long as the deque fills it with the batch's newest samples |
| LabJackStream.ShiftIn | jackfish/devices/daqs/labjack.py:205 | a shorter batch drops the oldest `len(data)` samples and appends the batch |
| LabJackStream.ShiftedIsWindow | jackfish/devices/daqs/labjack.py:205 | dropping the `len(data)` oldest samples and appending the batch leaves the newest window of old contents plus batch |
| LabJackStream.FillTail | jackfish/devices/daqs/labjack.py:205 | the batch lands in the last `len(data)` places and the places before them keep their samples |
| LabJackStream.ShiftLeft | jackfish/devices/daqs/labjack.py:205 | the first `len - k` places take the samples that were k places later |
| LabJackStream.LabJack.constructor | jackfish/devices/daqs/labjack.py:16-25 | a freshly opened driver is not streaming or collecting, and has an empty buffer, no channels and no record file |
| LabJackStream.LabJack.StartStream | jackfish/devices/daqs/labjack.py:70-139 | the channels become a dict; with none, nothing else changes; otherwise a fresh zero buffer of `dataQ_len_sec*scanRate*n` is stored with `do_record`; when recording, a file that cannot be opened raises with nothing further done, and an opened one gets the header with channels and rate; streaming starts, at the reported rate, exactly when the device start succeeds; nothing else changes |
| LabJackStream.LabJack.Zeros | jackfish/devices/daqs/labjack.py:80-81 | the new buffer is fresh, has the requested length and holds only zeros |
| LabJackStream.LabJack.OpenRecord | jackfish/devices/daqs/labjack.py:84-92 | `do_record` is stored; when recording, `open` raises exactly when the file cannot be opened, and an opened file gets the JSON header line after its old lines; nothing else changes |
| LabJackStream.LabJack.Launch | jackfish/devices/daqs/labjack.py:84-131 | the record file is opened as `OpenRecord` says; an exception there ends the call, otherwise the device stream starts exactly when it reports a rate; nothing else changes |
| LabJackStream.LabJack.BeginStream | jackfish/devices/daqs/labjack.py:126-131 | the reported scan rate and `scansPerRead` are stored and the driver is streaming; nothing else changes |
| LabJackStream.LabJack.StopStream | jackfish/devices/daqs/labjack.py:141-147 | `streaming` ends false and no other field changes |
| LabJackStream.LabJack.StartCollectDataQ | jackfish/devices/daqs/labjack.py:221-222 | `collect_dataQ` becomes true and no other field changes |
| LabJackStream.LabJack.StopCollectDataQ | jackfish/devices/daqs/labjack.py:223-224 | `collect_dataQ` becomes false and no other field changes |
| LabJackStream.LabJack.ProcessBatch | jackfish/devices/daqs/labjack.py:172-212 | one read counts scans and sentinels, appends rows when recording, and extends the buffer when collecting; a record failure skips the preview step; only the counters, the file and the buffer's contents change |
| LabJackStream.LabJack.StreamCallback | jackfish/devices/daqs/labjack.py:165-219 | the new state is the callback specification of the old state and events, which the lemmas above characterise; only the flags, counters, file and buffer contents change |
| LabJackStream.LabJack.DrainEvents | jackfish/devices/daqs/labjack.py:170-212 | the `while self.streaming` loop gives the state of the loop specification over the events, touching no field outside the flags, counters, file and buffer |
| LabJackStream.LabJack.HandleEvent | jackfish/devices/daqs/labjack.py:141-224 | one event, a read or a control call, has the effect the specification gives it, on the same fields |
| LabJackStream.LabJack.Close | jackfish/devices/daqs/labjack.py:227-230 | an active stream is stopped first; the device ends closed and not streaming, and no other field changes |
| FlirCamera.Check | jackfish/devices/cameras/flir.py:112-129 | per type tag, exactly which values pass: enum entries, floats only for `float`, ints and bools for `int`, strings, bools; `command` and unknown tags are skipped |
| FlirCamera.Write | jackfish/devices/cameras/flir.py:98-132 | the validated write keeps every node's schema, changes no other node, and changes nothing unless it returns |
| FlirCamera.SetAttr | jackfish/devices/cameras/flir.py:87-138 | `set_cam_attr` keeps the schema, changes only the named node and the trigger, and a returned value is the value now stored |
| FlirCamera.SetAttrPlain | jackfish/devices/cameras/flir.py:98-138 | for any name but the frame rate: a missing, read-only, command or untyped node gives `None` with no write; a failed check raises with no write; otherwise only that node changes and the value is read back |
| FlirCamera.TriggerOffFirst | jackfish/devices/cameras/flir.py:93-96 | under an `On` trigger the frame-rate write first switches the trigger `Off`, which does not change how the frame rate is judged |
| FlirCamera.TriggerIsPlain | jackfish/devices/cameras/flir.py:93-138 | `set_cam_attr` on the trigger is the plain validated write, since the trigger is not the frame rate |
| FlirCamera.TriggerBackOn | jackfish/devices/cameras/flir.py:133-136 | after the frame-rate write under a switched-off trigger, switching it `On` again restores the original trigger, leaving only the frame rate changed |
| FlirCamera.FrameRateRestoresTrigger | jackfish/devices/cameras/flir.py:93-138 | an accepted frame rate under an `On` trigger is written and the trigger is `On` again; only the frame rate changes |
| FlirCamera.FrameRateSkipLeavesTriggerOff | jackfish/devices/cameras/flir.py:93-129 | a skipped frame rate under an `On` trigger returns early and leaves the trigger `Off` |
| FlirCamera.FrameRateRejectLeavesTriggerOff | jackfish/devices/cameras/flir.py:93-123 | a frame rate failing its check under an `On` trigger raises and leaves the trigger `Off` |
| FlirCamera.FrameRateWithoutTrigger | jackfish/devices/cameras/flir.py:93 | with the trigger not `On`, writing the frame rate is the plain validated write |
| FlirCamera.ApplyEntries | jackfish/devices/cameras/flir.py:78-79 | one pass over `camera_attrs` keeps the schema of every node |
| FlirCamera.EntriesStop | jackfish/devices/cameras/flir.py:78-79 | once a write raises, the rest of the pass does not run |
| FlirCamera.PassesStop | jackfish/devices/cameras/flir.py:77-79 | once a pass raises, no later pass runs |
| FlirCamera.OnePassWritesAll | jackfish/devices/cameras/flir.py:78-79 | entries the camera accepts, none of them the frame rate, are all written in one pass without an exception |
| FlirCamera.OverlayLastWins | jackfish/devices/cameras/flir.py:78-79 | with distinct names, every named node ends with its entry's value |
| FlirCamera.PassesSettle | jackfish/devices/cameras/flir.py:77-79 | for such entries, any `n_repeat >= 1` reaches the state after the first pass, so further passes change nothing |
| FlirCamera.StopRestoresTrigger | jackfish/devices/cameras/flir.py:152-159 | with a switchable trigger, `stop` always stops the camera and clears the restore flag; the trigger ends `On` exactly when it was `On` or a restore was pending; no other node changes |
| FlirCamera.FramerateLeavesTable | jackfish/devices/cameras/flir.py:161-167 | with a switchable trigger, the frame rate read reports the stored rate and leaves every node as it was |
| FlirCamera.SerialNumber | jackfish/devices/cameras/flir.py:38-46 | a value is returned exactly when one name contains `serialnumber` in any case, and it is that node's value |
| FlirCamera.FlirCam.constructor | jackfish/devices/cameras/flir.py:15-20 | the camera starts with its node table, its serial number looked up, and the trigger flags cleared |
| FlirCamera.FlirCam.SetCamAttr | jackfish/devices/cameras/flir.py:87-138 | the in-place `set_cam_attr` gives the outcome and table of `SetAttr`, and changes no other field |
| FlirCamera.FlirCam.WriteAttr | jackfish/devices/cameras/flir.py:98-132 | the in-place checks and write give the outcome and table of `Write` |
| FlirCamera.FlirCam.AssignAttr | jackfish/gui/cam_controller.py:126 | a raw attribute assignment sets the node's value, if present, and nothing else |
| FlirCamera.FlirCam.SetCamAttrsFromJson | jackfish/devices/cameras/flir.py:69-85 | `n_repeat` passes over `camera_attrs` give the table of `ApplyPasses`; after them, a truthy release request only ever sets the flag and a delay replaces the old one; an exception skips the control part |
| FlirCamera.FlirCam.ApplyOnePass | jackfish/devices/cameras/flir.py:78-79 | the inner loop gives the table and exception of `ApplyEntries` |
| FlirCamera.FlirCam.ApplyAllPasses | jackfish/devices/cameras/flir.py:77-79 | the `n_repeat` loop gives the table and exception of `ApplyPasses`, and changes no flag |
| FlirCamera.FlirCam.ApplyControlAttrs | jackfish/devices/cameras/flir.py:80-85 | a truthy `ReleaseTriggerModeOnStart` sets the flag to true, never false; `ReleaseTriggerModeDelay` overwrites the delay |
| FlirCamera.FlirCam.Start | jackfish/devices/cameras/flir.py:140-144 | acquisition starts; a release asked for by the caller and the config raises exactly when the trigger node is missing; release and restore are armed exactly when it is also `On`; no node changes |
| FlirCamera.FlirCam.ReleaseTriggerFires | jackfish/devices/cameras/flir.py:146-150 | a pending release switches the trigger `Off` through `set_cam_attr` |
| FlirCamera.FlirCam.Stop | jackfish/devices/cameras/flir.py:152-159 | the in-place `stop` gives the table and flags of `StopSpec` |
| FlirCamera.FlirCam.StopFromOn | jackfish/devices/cameras/flir.py:153-159 | `stop` under an `On` trigger gives the table and flags of `StopSpec` |
| FlirCamera.FlirCam.SetTrigger | jackfish/devices/cameras/flir.py:154 | `set_cam_attr` on the trigger gives the outcome and table of the validated write, and changes no flag |
| FlirCamera.FlirCam.RestoreOnStop | jackfish/devices/cameras/flir.py:156-159 | after `cam.stop()`, a set restore flag switches the trigger `On` and is cleared |
| FlirCamera.FlirCam.GetImgFramerate | jackfish/devices/cameras/flir.py:161-167 | the in-place read gives the table and rate of `FramerateSpec` |
| FlirCamera.FlirCam.ReadRateFromOn | jackfish/devices/cameras/flir.py:162-165 | the read under an `On` trigger gives the table and rate of `FramerateSpec` |
| FlirCamera.FlirCam.ReadAndRestore | jackfish/devices/cameras/flir.py:164-165 | the rate is read before the trigger is switched `On` again, and a missing rate node raises before any write |
| FlirCamera.FlirCam.GrabFrame | jackfish/devices/cameras/flir.py:183-185 | the frame counter goes up by one and nothing else changes |
| FlirCamera.FlirCam.StartPreview | jackfish/devices/cameras/flir.py:187-195 | the frame counter restarts at 0 and preview is on |
| FlirCamera.FlirCam.StopPreview | jackfish/devices/cameras/flir.py:197-199 | preview is off; nothing else changes |
| FlirCamera.FlirCam.StartRec | jackfish/devices/cameras/flir.py:201-223 | the frame counter restarts at 0 and recording is on |
| FlirCamera.FlirCam.StopRec | jackfish/devices/cameras/flir.py:225-229 | recording is off; nothing else changes |
| FlirCamera.FlirCam.Close | jackfish/devices/cameras/flir.py:231-232 | the camera is closed; nothing else changes |
| DaqController.ParseItem | jackfish/gui/daq_controller.py:211-222 | a parsed field has a name without spaces or brackets, a nickname without `>`, and nickname = name when there is no `<`; a field with no bracket parses to itself without spaces |
| DaqController.ParseItemRejects | jackfish/gui/daq_controller.py:211-222 | each of the three assertions fails exactly on its own input: a `<` with no `>`, a `>` before the first `<`, a `>` with no `<`; a field parses exactly when none of these holds |
| DaqController.ParseItemSplits | jackfish/gui/daq_controller.py:214-218 | a field `a<b>c` with no bracket in `a` and no `>` in `b` parses to `a` without spaces and the nickname `b`, whatever `c` is |
| DaqController.ParseItems | jackfish/gui/daq_controller.py:209-225 | the map has distinct keys and distinct values, and one entry per field when no assertion fails |
| DaqController.ParseKeepsOrder | jackfish/gui/daq_controller.py:210-225 | after a successful parse, entry i is what field i parses to |
| DaqController.ParseAccepts | jackfish/gui/daq_controller.py:223-225 | fields that parse to distinct names and distinct nicknames give exactly those entries in order, with no error |
| DaqController.ParseLast | jackfish/gui/daq_controller.py:210-225 | a successful parse is the successful parse of all fields but the last, plus the last field's entry |
| DaqController.ParseAppend | jackfish/gui/daq_controller.py:223-225 | a field parsing to a fresh name and a fresh nickname appends exactly its entry |
| DaqController.ParseReject | jackfish/gui/daq_controller.py:214-224 | a field that fails to parse, or repeats a name or a nickname, stops the loop with that error and the map unchanged |
| DaqController.ParsedAsLast | jackfish/gui/daq_controller.py:210-225 | entries for all fields but the last plus the last field's entry are entries for all fields, in order |
| DaqController.ParseStops | jackfish/gui/daq_controller.py:223-224 | once a field fails, the later fields are never parsed |
| DaqController.EmptyFieldParses | jackfish/gui/daq_controller.py:208-225 | an empty field gives the single entry `"" -> ""` |
| DaqController.BareNameParses | jackfish/gui/daq_controller.py:219-222 | a bare name with leading spaces parses to itself, without the spaces |
| DaqController.NicknamedParses | jackfish/gui/daq_controller.py:214-228 | the drop-down entry `name <nickname>` of a space-free, bracket-free name parses back to that name and nickname, spaces in the nickname kept |
| DaqController.JoinPadded | jackfish/gui/daq_controller.py:105 | joining with `", "` is joining with `","` pieces that carry a leading space |
| DaqController.SplitPreset | jackfish/gui/daq_controller.py:105-208 | splitting a `", "`-joined list of plain names on `,` gives the padded pieces |
| DaqController.PresetRoundTrip | jackfish/gui/daq_controller.py:102-225 | a preset list of distinct plain names parses back to the identity map in the same order; an empty list gives `"" -> ""` |
| DaqController.BuildChannels | jackfish/gui/daq_controller.py:207-225 | the dict-building loop gives the map and error of the parse specification |
| DaqController.AddField | jackfish/gui/daq_controller.py:211-225 | one turn of the loop extends the parse specification by one field |
| DaqController.DropItemsParseBack | jackfish/gui/daq_controller.py:207-228 | after a successful parse, every drop-down entry after `None` parses back to the channel and nickname at its position |
| DaqController.PreviewSeriesIsChannel | jackfish/gui/daq_controller.py:251 | the preview series is the buffer elements `idx, idx+n, ...` strictly before the last element |
| DaqController.PlottedIsNewest | jackfish/gui/daq_controller.py:253 | the plotted points are the newest `slider_val` points of that series |
| DaqController.DaqWindow.constructor | jackfish/gui/daq_controller.py:18-80 | a new window is in Standby with configuration enabled, no channels before the first parse, an empty drop-down, no preview and the timer running; the slider holds the scan rate clamped into `2..10*rate` by Qt, which is 0 for a zero rate |
| DaqController.DaqWindow.UpdateUi | jackfish/gui/daq_controller.py:269-288 | the configuration widgets accept input exactly in Standby |
| DaqController.DaqWindow.SetChans | jackfish/gui/daq_controller.py:207-246 | the read channels are the parse of the read field, the map built so far when an assertion fails; only after a full parse is the drop-down refilled, and its signals leave the preview hidden on entry 0 with collection off; every entry parses back to its channel |
| DaqController.DaqWindow.RefillDrop | jackfish/gui/daq_controller.py:227-246 | through the connection at line 51, `clear()` of a non-empty drop-down fires `set_chan_preview` at index -1 and `addItems` fires it at index 0; the entries are `None` then one per channel, the preview is hidden and collection is off |
| DaqController.DaqWindow.SetTriggerChans | jackfish/gui/daq_controller.py:187-205 | the trigger channels are the parse of the trigger field, by the same rules |
| DaqController.DaqWindow.SetScanrate | jackfish/gui/daq_controller.py:184-185 | only the scan rate changes |
| DaqController.DaqWindow.SetSlider | jackfish/gui/daq_controller.py:230-236 | the slider value is taken and the timer runs |
| DaqController.DaqWindow.ParseAttrsJson | jackfish/gui/daq_controller.py:98-114 | sample rate, read channels, then trigger channels, a list joined with `", "`, each written and parsed; a failed read parse raises and skips the trigger field; the driver changes only through the read field's drop-down refill |
| DaqController.DaqWindow.LoadRead | jackfish/gui/daq_controller.py:102-107 | a present read field is written and parsed by `set_chans`, and its exception is returned; an absent one changes nothing |
| DaqController.DaqWindow.LoadTrigger | jackfish/gui/daq_controller.py:109-114 | a present trigger field is written and parsed by `set_trigger_chans`, and its exception is returned; an absent one changes nothing |
| DaqController.DaqWindow.Start | jackfish/gui/daq_controller.py:122-164 | the status becomes Recording or Previewing whatever it was and the timer runs; the driver starts with the window's channels, rate and 15 seconds of preview; a record file that cannot be opened raises and skips `update_ui`, otherwise the configuration is disabled |
| DaqController.DaqWindow.Stop | jackfish/gui/daq_controller.py:166-173 | the timer stops, the stream is told to stop, and the window is in Standby with configuration enabled; the driver only stops streaming |
| DaqController.DaqWindow.SetChanPreview | jackfish/gui/daq_controller.py:238-246 | index 0 stops collection and hides the preview; any other index starts collection and previews entry index-1; the driver changes only its collect flag |
| DaqController.DaqWindow.PreviewUpdater | jackfish/gui/daq_controller.py:248-260 | when shown, the plotted data are the selected channel's series from the preview buffer |
| DaqController.DaqWindow.CloseEvent | jackfish/gui/daq_controller.py:290-299 | a close is accepted exactly in Standby, and then the device is closed and stops streaming; otherwise neither window nor driver changes |
| CamController.ClampLevels | jackfish/gui/cam_controller.py:156-160 | levels end within 0..255, are never widened, a level in range is kept, a low level below 0 becomes 0 and a high level above 255 becomes 255 |
| CamController.ClampIdempotent | jackfish/gui/cam_controller.py:158-159 | clamped levels are unchanged by a second clamp |
| CamController.RedrawsShowNewFrames | jackfish/gui/cam_controller.py:163-168 | over any ticks the shown frame number never decreases, each redraw shows a newer frame, and with preview off nothing redraws |
| CamController.RedrawsReachNewest | jackfish/gui/cam_controller.py:163-168 | with preview on, the shown frame is at least the newest counter seen |
| CamController.NumericIsNotAuto | jackfish/gui/cam_controller.py:130-133 | digit-only text never lowers to `auto`, so the branches of `edit_gain` do not overlap |
| CamController.AutoInAnyCase | jackfish/gui/cam_controller.py:130 | text lowers to `auto` exactly when it has four characters, each the letter of `auto` in either case |
| CamController.IntFrameRateRejected | jackfish/gui/cam_controller.py:104-108 | the integer rate sent to a float frame-rate node raises; the rate is unchanged and an `On` trigger is left `Off` |
| CamController.FloatFrameRateWritten | jackfish/gui/cam_controller.py:104-108 | the rate sent as a float is written, and only the frame rate changes |
| CamController.CamWindow.constructor | jackfish/gui/cam_controller.py:24-69 | a new window is in Standby with levels 0..255, an idle timer and the preview toggle's state |
| CamController.CamWindow.Start | jackfish/gui/cam_controller.py:78-90 | the gate counter restarts, the timer runs, and the camera starts with the release asked for, raising exactly when a release is configured and the trigger node is missing; then recording or preview begins and the status follows, whatever it was; a camera exception leaves the status and the capture flags |
| CamController.CamWindow.Stop | jackfish/gui/cam_controller.py:92-102 | recording stops exactly when Recording and preview exactly when Previewing; then the camera stops as `StopSpec` says, and the window is in Standby unless that raised; no other camera field changes; with a switchable trigger it cannot fail |
| CamController.CamWindow.EndCapture | jackfish/gui/cam_controller.py:96-99 | recording ends exactly when Recording and preview exactly when Previewing; no node changes |
| CamController.CamWindow.StopCamera | jackfish/gui/cam_controller.py:100 | `cam.stop()` gives the table, error and flags of `StopSpec` and changes no other camera field; with a switchable trigger it cannot fail and nothing stays pending |
| CamController.CamWindow.ChangeFramerate | jackfish/gui/cam_controller.py:104-108 | the integer rate goes to `set_cam_attr`; on a float node it raises; no camera flag changes |
| CamController.CamWindow.ChangeFramerateAsFloat | jackfish/gui/cam_controller.py:104-108 | the rate sent as a float is read back, only the frame rate node changes, and no camera flag changes |
| CamController.CamWindow.TogglePreview | jackfish/gui/cam_controller.py:122-123 | the preview flag follows the check box |
| CamController.CamWindow.ToggleTrigger | jackfish/gui/cam_controller.py:125-126 | the trigger is assigned `On` or `Off` directly, bypassing the checks |
| CamController.CamWindow.EditGain | jackfish/gui/cam_controller.py:128-138 | `auto` in any case sets `GainAuto` to `Continuous`; digit-only text sets `GainAuto` to `Off` and `Gain` to its value; other text leaves the camera unchanged |
| CamController.CamWindow.AutoExpose | jackfish/gui/cam_controller.py:140-141 | asks `set_cam_attr` for a one-shot automatic exposure; no camera flag changes |
| CamController.CamWindow.LevChanged | jackfish/gui/cam_controller.py:156-161 | the stored levels are the clamped histogram levels; nothing else changes |
| CamController.CamWindow.PreviewUpdater | jackfish/gui/cam_controller.py:163-168 | a tick redraws exactly when preview is on and the camera has a newer frame, and then records that frame number |
| CamController.CamWindow.CloseEvent | jackfish/gui/cam_controller.py:193-202 | a close is accepted exactly in Standby, and then only the camera's open flag and the window's closed flag change; otherwise nothing changes; no node changes either way |

## Left out

- Vendor calls are not modelled: LabJack `ljm`, `simple_pyspin`, OpenCV and Qt. They become parameters or abstract state. Examples: the scan rate `eStreamStart` reports, the stream reads as an event sequence, and the camera's node table.
- Threads are not modelled: the preview, record and writer threads of the camera, and the release thread. The release is an explicit `ReleaseTriggerFires` event. Frame grabbing is `GrabFrame`, called by the caller.
- The UDP forwarding of the LabJack stream is not modelled. Streams have no socket target.
- The timing statistics printed by `stop_stream` are not modelled (floating point and clocks).
- The time axis of the DAQ preview plot is not modelled, nor any other float formatting of widget text.
- JSON parsing, `json.dumps` and `savetxt` formatting are not modelled. The record file is a sequence of `Header` and `Row` lines, and a preset or camera config arrives already parsed.
- `lower()` and `isnumeric()` are ASCII only; Unicode digits and case folding are not modelled.
- `int()` of widget text is not modelled; the scan rate, frame rate and slider value arrive as numbers.
- `FlirCam.__init__` is modelled only up to the serial-number lookup and flag reset. Its config load, start/stop probe and bit-depth assertion are not modelled. Neither are `get_img_dimensions`, `get_img_dtype`, `set_video_out_path`, `gen_cam_attrs_json` or `gen_cam_doc` (reads of display values or file export).
- `edit_exposure` is not modelled: it multiplies the text by 1000 before `float()`. Neither is the exposure text `auto_expose` displays.
- `labjack_settings` in the DAQ preset is not modelled: `set_attrs` is not part of this model. Neither are the file dialog, `trigger`, `set_write_path`, `set_spr`, `resizeEvent`, or the parent window's `child_close_event`.
- DaqController.DaqWindow.constructor: the preset dialog and the first parses of the rate and channel fields in `__init__` are left to the caller, as calls of `ParseAttrsJson`, `SetScanrate`, `SetChans` and `SetTriggerChans`. The scan rate those calls leave is a parameter, used to size the slider.
- Qt widgets are modelled only where their behaviour reaches the program: the slider's clamp into its range, and the drop-down's `currentIndexChanged` signals on `clear()` and `addItems`. Signals are delivered at once, as Qt does for a direct connection.
- DaqController.DaqWindow.Start, SetChanPreview, PreviewUpdater and RefillDrop model the window with its driver calls renamed to the driver's own names (`dataQ_len_sec`, `dataQ`, `*_collect_dataQ`), with 15 seconds of preview. As written, the window uses names the driver does not define, and these calls raise:
  - `start` passes `preview_queue_len_sec=15` to `start_stream` (jackfish/gui/daq_controller.py:143-162), which has no such keyword, so it raises TypeError after the status is set and the timer started, before the stream starts and before `update_ui`;
  - `set_chan_preview` calls `*_collect_preview_queue` (lines 241 and 245), so it raises AttributeError after assigning `chan_preview_idx`: the collect flag and `show_preview` never change;
  - `preview_updater` reads `preview_queue` (line 251), so it raises AttributeError whenever a preview is shown.
- CamController.CamWindow.constructor: `fn_preview` is first set by `start` (the constructor sets an unused `fn_prev`). The model starts it at 0, which is only visible before the first `start`, when the timer does not run. The trigger check box's initial sync is not modelled.
- DaqController.DaqWindow.Start: requires the window's channels to be a dict without repeated keys. This always holds, since they come from the parser or the constructor.
- The status messages of `start`/`stop` when already active or already in Standby are not modelled. Neither is the "Invalid status" branch, which the three-valued `Status` cannot reach.
- Raw node assignments (`self.cam.cam.X = v` in `toggle_trigger` and `edit_gain`, cam_controller.py:126, 131, 134-135) are modelled by `AssignAttr` as always succeeding: a present node takes the value whatever its access string, an absent one is skipped. The vendor setter's own writability checks are not part of this model.
- The FLIR camera is modelled as a table whose reads return the stored value. Node dependencies inside the camera are not modelled, so the config loader's repeat passes only settle independent entries.

## Findings

| source | as written | input that shows it | evidently intended | confidence | as-written member | corrected member |
|---|---|---|---|---|---|---|
| jackfish/gui/cam_controller.py:104-108 | `change_framerate` passes `int(text)` to `set_cam_attr`, whose `float` check refuses an int | a camera whose `AcquisitionFrameRate` node has type `float` with a switchable trigger `On`, text `30`: the call raises, the rate is unchanged and the trigger is left `Off` | pass the rate as a float, so it is written and the trigger restored | not executed; follows from `isinstance(30, float)` being false | CamController.IntFrameRateRejected | CamController.FloatFrameRateWritten |
