# FatigueDetector core, modelled in Dafny

FatigueDetector watches a driver and the car. A camera-based detector reports yawns and fatigue levels. An OBD-II adapter (a real ESP32 board or a mock vehicle) reports engine RPM, vehicle speed and engine run time. A web dashboard shows the readings, compares them with configurable thresholds and changes a cartoon face to match.

This project models the logic of that system and proves properties of it:

- `esp32.dfy` (module `Esp32`): the ESP32 client's reply parsers for SAE J1979 service $01. These are PID $0C engine RPM = (256·A + B) div 4, $0D vehicle speed = A km/h and $1F run time = 256·A + B s. It also covers the custom `ATALL` reply and the order of the start-up commands. The adapter's reply is an input.
- `mock.dfy` (module `Mock`): the mock vehicle, a class with connection flags and bounded counters.
  - A clamped tick updates the counters; its random draws are inputs.
  - Its reply encoder is proved against the ESP32 parsers.
- `obd_record.dfy` (module `Obd`): the `OBDDataStructure` record and its text form.
- `panel.dfy` (module `Panel`): the dashboard's data panel.
  - `HH:MM:SS` formatting and parsing, and the fatigue levels.
  - Threshold comparisons and the face choice.
  - The one-way persistent-fatigue latch, and `updateData` / `loadConfig`.
- `face.dfy` (module `Face`): the face display, a three-mood state machine over CSS class sets.
- `runtime_format.dfy` (module `RuntimeFormat`): the main page's `formatRuntime`.
- `config.dfy` (module `Config`): the threshold configuration page.
  - Clamping and step snapping of the four inputs, and hours↔seconds conversion.
  - The changed-fields diff, the no-change guard of `saveConfig`, and reset to defaults.
- `serializable.dfy` (module `Serializable`): the private-key filter, the dict-to-dataclass defaulting rule and the path checks of `to_file`.
- `drowsiness.dfy` (module `Drowsiness`): the drowsiness page's yawn gate.
  - Alerts are rate-limited to one per 5 s, and the mouth state closes itself after 5 s.
  - The clock is an input.
- `text.dfy` (module `Text`) and `wrappers.dfy` (module `Wrappers`): the Python and JavaScript string and number helpers the code relies on, such as `str.split`, `int(s, base)`, `padStart` and f-string formatting, plus `Option`.

State that the source updates in place is modelled as a class: the mock vehicle, the data panel, the face, the configuration page and the drowsiness page. Each class has a `Snapshot()` value. Each method is proved to move that snapshot exactly as a pure function of the old snapshot describes. The lemmas about those functions carry the properties.

JavaScript numbers and Python times are exact reals rather than IEEE doubles. `Math.round(x)` is ⌊x + ½⌋, and `parseInt` on a number truncates toward zero.

## Model

| member | source | states |
|---|---|---|
| Esp32.ParseRpm | src/Bluetooth/BluetoothSimulatorESP32.py:111-124 | None exactly when the reply is missing, does not start `41 0C`, has fewer than 4 words, or word 3 or 4 is not hex; otherwise (256·A + B) div 4 of those two words |
| Esp32.ParseSpeed | src/Bluetooth/BluetoothSimulatorESP32.py:126-137 | None exactly when the reply is missing, lacks the `41 0D` prefix, has no third word or that word is not hex; otherwise that word read as hex |
| Esp32.ParseRunTime | src/Bluetooth/BluetoothSimulatorESP32.py:139-154 | None exactly when the reply is missing, lacks `41 1F`, has fewer than 4 words or a non-hex data word; otherwise 256·A + B |
| Esp32.RpmOfWords | src/Bluetooth/BluetoothSimulatorESP32.py:113-119 | a `41 0C` reply whose words 3 and 4 are hex a and b yields (256·a + b) div 4 |
| Esp32.SpeedOfWords | src/Bluetooth/BluetoothSimulatorESP32.py:128-132 | a `41 0D` reply whose third word is h yields h read as hex |
| Esp32.RunTimeOfWords | src/Bluetooth/BluetoothSimulatorESP32.py:141-149 | a `41 1F` reply whose words 3 and 4 are hex a and b yields 256·a + b |
| Esp32.RpmRange | src/Bluetooth/BluetoothSimulatorESP32.py:117 | with one-byte A and B the RPM lies in [0, 16383] |
| Esp32.RunTimeRange | src/Bluetooth/BluetoothSimulatorESP32.py:145 | with one-byte A and B the run time lies in [0, 65535] |
| Esp32.AllField | src/Bluetooth/BluetoothSimulatorESP32.py:168-170 | an empty part gives a None field; a non-empty part succeeds exactly when it has a `:` and an integer after it, and then gives that integer |
| Esp32.ParseAll | src/Bluetooth/BluetoothSimulatorESP32.py:156-179 | a missing or empty reply gives None; a record needs at least three `,`-separated parts, whose fields are read by position |
| Esp32.ParseAllIgnoresTail | src/Bluetooth/BluetoothSimulatorESP32.py:166-170 | parts after the third do not change the result |
| Esp32.FieldOfShow | src/Bluetooth/BluetoothSimulatorESP32.py:168-170 | a field `label:n` yields n whatever the label is (labels are not checked) |
| Esp32.ParseAllParts | src/Bluetooth/BluetoothSimulatorESP32.py:166-174 | three comma-free parts joined by `,` yield the record of their three fields, in order |
| Esp32.ParseAllOf | src/Bluetooth/BluetoothSimulatorESP32.py:166-174 | `l1:r,l2:s,l3:t` yields the record (r, s, t) for any labels |
| Esp32.SplitAppend | src/Bluetooth/BluetoothSimulatorESP32.py:166 | splitting `a,b` on `,` gives the parts of a followed by the parts of b |
| Esp32.InitCommunication | src/Bluetooth/BluetoothSimulatorESP32.py:58-68 | sends `ATZ` then `ATE0` in that order, stops after the first command without a reply, and succeeds exactly when both got a reply |
| Mock.Clamp | src/Bluetooth/BluetoothMockSimulator.py:29-34 | `max(lo, min(hi, x))` lies in [lo, hi], is x inside the range and the nearer bound outside it |
| Mock.InitialInv | src/Bluetooth/BluetoothMockSimulator.py:15-20 | the new simulator is disconnected, uninitialised, with readings in bounds |
| Mock.TickInv | src/Bluetooth/BluetoothMockSimulator.py:27-37 | one tick keeps 800 ≤ rpm ≤ 6000 and 0 ≤ speed ≤ 120 whatever the draws |
| Mock.TickEffect | src/Bluetooth/BluetoothMockSimulator.py:27-37 | an inactive tick changes nothing; an active one moves rpm by at most 200, speed by at most 5, and adds one second |
| Mock.RunInv | src/Bluetooth/BluetoothMockSimulator.py:18-19 | the bounds hold after any number of ticks |
| Mock.RunRuntime | src/Bluetooth/BluetoothMockSimulator.py:37 | ticks never touch the flags; the run time never decreases and grows by exactly one per active tick |
| Mock.Reply | src/Bluetooth/BluetoothMockSimulator.py:68-86 | a reply comes back exactly when connected, initialised and the command is one of `010C`, `010D`, `011F`, `ATALL` |
| Mock.SpeedRoundTrip | src/Bluetooth/BluetoothMockSimulator.py:79-80 | the `010D` reply parses back, through the ESP32 client, to the speed |
| Mock.AllRoundTrip | src/Bluetooth/BluetoothMockSimulator.py:83-84 | the `ATALL` reply parses back, through the ESP32 client, to (rpm, speed, runtime) |
| Mock.RpmRejected | src/Bluetooth/BluetoothMockSimulator.py:77-78 | the `010C` reply as written is rejected by the ESP32 RPM parser |
| Mock.RunTimeRejected | src/Bluetooth/BluetoothMockSimulator.py:81-82 | the `011F` reply as written is rejected by the ESP32 run-time parser |
| Mock.OneTokenSpeed | src/Bluetooth/BluetoothMockSimulator.py:80 | any `41 0D h` reply yields h read as hex |
| Mock.OneTokenRpm | src/Bluetooth/BluetoothMockSimulator.py:78 | any `41 0C h` reply (one data word) yields None |
| Mock.OneTokenRunTime | src/Bluetooth/BluetoothMockSimulator.py:82 | any `41 1F h` reply (one data word) yields None |
| Mock.HexToken | src/Bluetooth/BluetoothMockSimulator.py:78-82 | a zero-padded upper-case hex field is one word that reads back as its value |
| Mock.CorrectedReply | src/Bluetooth/BluetoothMockSimulator.py:68-86 | the encoder with two-byte $0C/$1F replies answers the same commands in the same states |
| Mock.CorrectedRpmReply | src/Bluetooth/BluetoothMockSimulator.py:77-78 | the corrected `010C` reply carries 4·rpm in two bytes and parses back to the rpm |
| Mock.CorrectedRunTimeReply | src/Bluetooth/BluetoothMockSimulator.py:81-82 | the corrected `011F` reply parses back to the run time |
| Mock.CorrectedElsewhere | src/Bluetooth/BluetoothMockSimulator.py:79-86 | every other command gets the same reply from the corrected encoder |
| Mock.CorrectedRpm | src/Bluetooth/BluetoothSimulatorESP32.py:117 | a two-byte reply carrying 4·rpm yields rpm |
| Mock.CorrectedRunTime | src/Bluetooth/BluetoothSimulatorESP32.py:145 | a two-byte reply carrying raw yields raw |
| Mock.TwoByteRpm | src/Bluetooth/BluetoothSimulatorESP32.py:117 | a two-byte reply carrying raw yields raw div 4 |
| Mock.TwoTokenRpm | src/Bluetooth/BluetoothSimulatorESP32.py:115-117 | `41 0C a b` with hex a, b yields (256·a + b) div 4 |
| Mock.TwoTokenRunTime | src/Bluetooth/BluetoothSimulatorESP32.py:143-145 | `41 1F a b` with hex a, b yields 256·a + b |
| Mock.MockSimulator.constructor | src/Bluetooth/BluetoothMockSimulator.py:13-20 | starts disconnected, uninitialised, rpm 1000, speed 0, run time 0 |
| Mock.MockSimulator.UpdateMockValues | src/Bluetooth/BluetoothMockSimulator.py:26-37 | one pass of the update loop is the tick, and it keeps the bounds |
| Mock.MockSimulator.Connect | src/Bluetooth/BluetoothMockSimulator.py:48-54 | sets `connected`, returns true, changes nothing else |
| Mock.MockSimulator.InitCommunication | src/Bluetooth/BluetoothMockSimulator.py:56-66 | fails and changes nothing unless connected; otherwise sets `initialized` |
| Mock.MockSimulator.Close | src/Bluetooth/BluetoothMockSimulator.py:118-125 | clears both flags if connected, else does nothing |
| Mock.MockSimulator.SendCommand | src/Bluetooth/BluetoothMockSimulator.py:68-86 | answers as Reply does for the current state |
| Mock.MockSimulator.RequestEngineRpm | src/Bluetooth/BluetoothMockSimulator.py:88-93 | the rpm when connected and initialised, else None |
| Mock.MockSimulator.RequestVehicleSpeed | src/Bluetooth/BluetoothMockSimulator.py:95-100 | the speed when connected and initialised, else None |
| Mock.MockSimulator.RequestEngineRunTime | src/Bluetooth/BluetoothMockSimulator.py:102-107 | the run time when connected and initialised, else None |
| Mock.MockSimulator.RequestAllSettings | src/Bluetooth/BluetoothMockSimulator.py:109-116 | the record (rpm, speed, runtime) when connected and initialised, else None |
| Obd.Default | src/OBD/OBDDataStructure.py:5-7 | a default record has rpm = speed = runtime = -1 |
| Obd.ReadShowField | src/OBD/OBDDataStructure.py:10 | a rendered field reads back as the value |
| Obd.ToString | src/OBD/OBDDataStructure.py:9-10 | the text starts with `RPM: ` |
| Obd.ToStringFields | src/OBD/OBDDataStructure.py:10 | split on `,`, the text is exactly `RPM: r`, ` Speed: s`, ` Runtime: t` in that order |
| Obd.ToStringInjective | src/OBD/OBDDataStructure.py:3-10 | two records with the same text are equal field by field |
| Panel.Clock | static/js/data-panel.js:107-109 | hours·3600 + minutes·60 + seconds is the input, with minutes and seconds below 60 |
| Panel.ClockDivMod | static/js/data-panel.js:107-109 | the fields are floor(s/3600), floor((s mod 3600)/60) and s mod 60 |
| Panel.FormatParse | static/js/data-panel.js:106-116 | `parseTime(formatTime(s)) == s` for every whole s ≥ 0 |
| Panel.HmsParse | static/js/data-panel.js:110-115 | any h, m, s written as padded `HH:MM:SS` read back as h·3600 + m·60 + s |
| Panel.PaddedField | static/js/data-panel.js:110 | `padStart(2, '0')` of k has no `:` and reads back as k |
| Panel.JsNumberDigits | static/js/data-panel.js:114 | a text of decimal digits reads through `Number` as the value it denotes |
| Panel.JsLeadingSpace | static/js/data-panel.js:114 | JavaScript white space in front of a field (the ECMA-262 set, U+FEFF, U+2028 and U+3000 included) does not change the number it reads as |
| Panel.ParseFields | static/js/data-panel.js:113-116 | `a:b:c` with numbers x, y, z reads as x·3600 + y·60 + z |
| Panel.GetFatigueLevel | static/js/data-panel.js:266-274 | 1 exactly for `Tired`, 2 exactly for `Heavily Tired`, -1 for every other status that is not a property inherited by JavaScript objects |
| Panel.NotTiredIsMinusOne | static/js/data-panel.js:269-273 | `Not Tired` (whose 0 is falsy) and `Unknown` both give -1 |
| Panel.Activated | static/js/data-panel.js:150-170 | afterwards latched; a second call changes nothing; from unlatched the face is tired, the rest button shows and the text reads `Cansado` |
| Panel.ActivateIdempotent | static/js/data-panel.js:151-154 | activating twice is the same as activating once |
| Panel.Cleared | static/js/data-panel.js:172-201 | a failed reset request changes nothing; a successful one unlatches, hides the button, sets the face normal and the text `Not Tired` |
| Panel.TiredWindowPercentage | static/js/data-panel.js:230-250 | the tired window holds exactly when 50 ≤ (cur/thr)·100 < 100 |
| Panel.ComparedFlags | static/js/data-panel.js:204-227 | each `exceeded` flag is set exactly when its reading is strictly over its threshold; nothing else changes |
| Panel.CheckedKeeps | static/js/data-panel.js:203-264 | readings, thresholds and time text are kept; the latch switches on exactly when level 2 or the server flag asks; once latched the face, button and fatigue text stay |
| Panel.FaceChoice | static/js/data-panel.js:244-262 | not latched: worried if any threshold is exceeded, else tired inside the time window, else normal |
| Panel.LatchedFaceFrozen | static/js/data-panel.js:240-244 | while latched, checking leaves the face alone and the latch on |
| Panel.StoredFields | static/js/data-panel.js:276-312 | speed is stored whenever defined, even 0; distance, time and fatigue only when truthy; the fatigue text does not move while latched |
| Panel.Configured | static/js/data-panel.js:80-104 | a failed request keeps everything; otherwise the speed, distance and fatigue thresholds take the server's values, the time becomes `HH:MM:SS` that reads back as the seconds sent, and the readings are checked again against the new thresholds |
| Panel.LatchShownPreserved | static/js/data-panel.js:150-316 | every operation keeps "latched ⇒ tired face, button shown, `Cansado`; unlatched ⇒ button hidden", and none but a successful reset unlatches |
| Panel.CheckShown | static/js/data-panel.js:203-264 | `checkExceeded` keeps the latch display invariant and never unlatches |
| Panel.UpdateShown | static/js/data-panel.js:276-316 | `updateData` keeps the latch display invariant and never unlatches |
| Panel.ConfigShown | static/js/data-panel.js:80-104 | `loadConfig` keeps the latch display invariant and never unlatches |
| Panel.DataPanel.constructor | static/js/data-panel.js:2-36 | the default readings and thresholds, unlatched, button hidden |
| Panel.DataPanel.ActivatePersistentFatigue | static/js/data-panel.js:150-170 | moves the panel as Activated describes |
| Panel.DataPanel.ClearPersistentFatigue | static/js/data-panel.js:172-201 | moves the panel as Cleared describes |
| Panel.DataPanel.ToggleExceeded | static/js/data-panel.js:204-227 | sets the four flags as Compared describes and returns the parsed times and the fatigue level |
| Panel.DataPanel.UpdateMood | static/js/data-panel.js:244-263 | sets the face as the unlatched face choice describes |
| Panel.DataPanel.CheckExceeded | static/js/data-panel.js:203-264 | moves the panel as Checked describes |
| Panel.DataPanel.Store | static/js/data-panel.js:277-312 | stores the update as Stored describes |
| Panel.DataPanel.UpdateData | static/js/data-panel.js:276-316 | store, then check |
| Panel.DataPanel.LoadConfig | static/js/data-panel.js:80-104 | moves the panel as Configured describes |
| Face.Initial | static/js/face-display.js:27-32 | the face starts normal, and is consistent when the body carries no mood class |
| Face.SetNormalEffect | static/js/face-display.js:34-43 | from normal nothing changes; otherwise both mood classes leave all three elements and the state is normal |
| Face.SetWorriedEffect | static/js/face-display.js:45-59 | `setWorried(true)` ends worried with `worried` added and `tired` removed on body, eyes and mouth; `setWorried(false)` acts only from worried, as setNormal |
| Face.SetTiredEffect | static/js/face-display.js:61-75 | the same for tired |
| Face.Idempotent | static/js/face-display.js:34-75 | repeating setNormal, setWorried(true) or setTired(true) changes nothing |
| Face.ConsistentPreserved | static/js/face-display.js:34-75 | each operation keeps the three elements showing exactly the current mood |
| Face.ConsistentAfterCalls | static/js/face-display.js:27-75 | from a clean start, after any calls, eyes and mouth carry exactly the class of the current state |
| Face.ConsistentAlong | static/js/face-display.js:34-75 | consistency holds after any sequence of calls |
| Face.FaceDisplay.constructor | static/js/face-display.js:2-9 | the look Initial describes |
| Face.FaceDisplay.SetNormal | static/js/face-display.js:34-43 | moves the look as setNormal does |
| Face.FaceDisplay.SetWorried | static/js/face-display.js:45-59 | moves the look as setWorried does |
| Face.FaceDisplay.SetTired | static/js/face-display.js:61-75 | moves the look as setTired does |
| RuntimeFormat.RuntimeFields | static/js/index.js:3-5 | hours·3600 + minutes·60 + seconds equals the input, with minutes and seconds in [0, 59] |
| RuntimeFormat.RuntimeFieldsClock | static/js/index.js:3-5 | the fields are the data panel's clock fields |
| RuntimeFormat.RuntimeIsFormatTime | static/js/index.js:2-7 | `formatRuntime` and the data panel's `formatTime` agree on every input |
| RuntimeFormat.RuntimeShape | static/js/index.js:6 | split on `:`, the text has exactly three fields, each at least two characters long (zero-padded), reading back as hours, minutes and seconds |
| RuntimeFormat.RuntimeParses | static/js/index.js:2-7 | the text reads back, through `parseTime`, as the seconds |
| Config.ConstraintsOnGrid | static/js/config.js:23-28 | each input has 0 ≤ min < max and a positive step, and min and max are on its step grid |
| Config.GridFormulas | static/js/config.js:71-72 | the step index is (v − min)/step, the k-th grid value is min + k·step, and the two are inverse |
| Config.RoundNearest | static/js/config.js:71 | `Math.round(x)` is within ½ of x |
| Config.Trunc | static/js/config.js:65 | `parseInt` of a number truncates toward zero |
| Config.Clamp | static/js/config.js:75 | `Math.min(Math.max(v, min), max)` lies in [min, max], keeps v inside and gives the nearer bound outside |
| Config.StepValue | static/js/config.js:34-49 | its steps (read, NaN to min, add the step, round time to tenths, clamp) give the value whose properties AdjustStep states |
| Config.AdjustStep | static/js/config.js:31-59 | the result is in range; a NaN input starts from min; inside the range an integer field gives start + step and the time field gives start + step rounded to tenths, within 0.05 of it; below min it is min, above max it is max |
| Config.AdjustedButtons | static/js/config.js:51-58 | minus is disabled iff the value ≤ min and plus iff ≥ max; the other inputs and buttons do not change |
| Config.SnapToStep | static/js/config.js:70-80 | its steps (round to the nearest step, clamp, round time to tenths) give the value whose properties ValidOnGrid, ValidSnapsNearest and ValidIdempotent state |
| Config.ValidOnGrid | static/js/config.js:62-84 | the validated value is in [min, max] and on the step grid |
| Config.ValidSnapsNearest | static/js/config.js:70-75 | an in-range number moves by less than half a step |
| Config.ValidFixedPoint | static/js/config.js:62-84 | an in-range grid value is kept as it is |
| Config.ValidIdempotent | static/js/config.js:62-84 | validating twice gives the same value as validating once |
| Config.HalfHourSeconds | static/js/config.js:145-152 | k half-hours for 1 ≤ k ≤ 24 give 1800·k seconds in [1800, 43200], and `secondsToHours` gives the hours back |
| Config.ValidTimeSeconds | static/js/config.js:62-152 | any validated time field gives a multiple of 1800 in [1800, 43200] that converts back to the same hours |
| Config.SecondsRoundTrip | static/js/config.js:145-152 | `hoursToSeconds(secondsToHours(s)) == s` for whole s |
| Config.WithEntry | static/js/config.js:83 | writing one input changes that input only |
| Config.ChangedKeys | static/js/config.js:175-199 | a map holding exactly the changed keys with their new values is the changed-values map |
| Config.LoadedUnchanged | static/js/config.js:155-172 | right after loading a whole-number configuration nothing counts as changed |
| Config.ResetDefaults | static/js/config.js:237-242 | the inputs become 120, 200, 2 hours and 2, they read as the default configuration, nothing differs from it, and the loaded configuration is kept |
| Config.TenthsNearest | static/js/config.js:45 | `Math.round(v * 10) / 10` is within 0.05 of v |
| Config.SaveGuard | static/js/config.js:202-234 | a request is sent exactly when something changed, and carries exactly the changed values; the inputs stay; the configuration moves only when the server accepts |
| Config.ConfigPage.constructor | static/js/config.js:1-28 | the page holds the given inputs, `currentConfig` is the default configuration (120, 200, 7200 s, 2), no button state and no status yet |
| Config.ConfigPage.AdjustValue | static/js/config.js:31-59 | moves the page as Adjusted describes |
| Config.ConfigPage.ValidateInput | static/js/config.js:62-84 | moves the page as Validated describes |
| Config.ConfigPage.LoadConfig | static/js/config.js:155-172 | moves the page as Loaded describes |
| Config.ConfigPage.GetChangedValues | static/js/config.js:175-199 | returns exactly the keys whose input reads as a number different from the current configuration, with those numbers |
| Config.ConfigPage.SaveConfig | static/js/config.js:202-234 | moves the page and sends what Saved describes |
| Config.ConfigPage.ResetConfig | static/js/config.js:237-242 | moves the page as Reset describes |
| Serializable.ExcludePrivate | src/Commons/Serializable.py:18-28 | fails exactly on an empty key; otherwise keeps exactly the keys not starting with `_`, each with its value unchanged |
| Serializable.FromDict | src/Commons/Serializable.py:31-53 | builds the record Build describes |
| Serializable.KwargsFailureStays | src/Commons/Serializable.py:44-52 | once a field fails, the whole construction fails |
| Serializable.KwargsKeys | src/Commons/Serializable.py:42-52 | the arguments have exactly the declared fields seen so far as keys |
| Serializable.BuildKeys | src/Commons/Serializable.py:42-53 | a built record has exactly one argument per declared field |
| Serializable.KwargsDependOnFields | src/Commons/Serializable.py:44-45 | only the values of declared fields matter |
| Serializable.BuildIgnores | src/Commons/Serializable.py:44-46 | an undeclared key is ignored, and a null value acts as a missing key |
| Serializable.KwargsPerField | src/Commons/Serializable.py:45-52 | each field's argument is the conversion of its own value: a nested dict recurses, another value is converted, a missing one defaults |
| Serializable.MissingIsDefault | src/Commons/Serializable.py:51-52 | a missing or null value gives the field type's default |
| Serializable.RFind | src/Commons/Serializable.py:164 | `rfind` is -1 exactly when the character is absent, else the index of its last occurrence |
| Serializable.SliceTo | src/Commons/Serializable.py:164 | `s[:k]` is the prefix of length min(k, \|s\|) for k ≥ 0 and of length max(\|s\| + k, 0) for negative k |
| Serializable.ToFileParent | src/Commons/Serializable.py:159-164 | nothing is saved exactly when the path has no `.`; with a `/` the directory is everything before the last `/` |
| Serializable.ToFileNoSlash | src/Commons/Serializable.py:164 | with a `.` and no `/` the directory is the path without its last character |
| Serializable.ToFileStrayDirectory | src/Commons/Serializable.py:164-168 | `config.json` makes the directory `config.jso` |
| Serializable.ToFileIntendedParent | src/Commons/Serializable.py:159-168 | corrected: without a `/` the file is saved in the current directory; with one it agrees with the original |
| Drowsiness.ReportedMouth | src/driver_fatigue_detection-master/gui/pages/drowsiness_page.py:147-198 | a report with a yawn entry sets the mouth to count > 0 or report; an unparsable report or one without `yawn` changes nothing; the text changes only when the mouth does |
| Drowsiness.ReportedAlert | src/driver_fatigue_detection-master/gui/pages/drowsiness_page.py:175-183 | an alert fires exactly on an open mouth at least 5 s after the last one, recording now and turning the background red |
| Drowsiness.MouthUpdatedEffect | src/driver_fatigue_detection-master/gui/pages/drowsiness_page.py:240-269 | opening a closed mouth records now; an open mouth keeps its time; closing always closes; on return an open mouth opened less than 5 s ago |
| Drowsiness.MouthTextTells | src/driver_fatigue_detection-master/gui/pages/drowsiness_page.py:171 | while the status line names the mouth's state, it reads `Abierta` exactly when the mouth is open and `Cerrada` exactly when it is closed |
| Drowsiness.TextShowsMouthPreserved | src/driver_fatigue_detection-master/gui/pages/drowsiness_page.py:166-269 | every handler keeps the status text naming the mouth's state |
| Drowsiness.StepAlert | src/driver_fatigue_detection-master/gui/pages/drowsiness_page.py:177-179 | one event moves the time of the last alert forward by at least 5 s or not at all |
| Drowsiness.AlertsSpaced | src/driver_fatigue_detection-master/gui/pages/drowsiness_page.py:177-179 | over any sequence of events, alerts are at least 5 s apart, and the last one is the recorded time |
| Drowsiness.DrowsinessPage.constructor | src/driver_fatigue_detection-master/gui/pages/drowsiness_page.py:31-36 | mouth closed, last yawn at 0, closed text in white; the background starts as `#807da6` (see Left out) |
| Drowsiness.DrowsinessPage.ProcessReport | src/driver_fatigue_detection-master/gui/pages/drowsiness_page.py:146-198 | moves the page as Reported describes |
| Drowsiness.DrowsinessPage.UpdateMouthState | src/driver_fatigue_detection-master/gui/pages/drowsiness_page.py:240-269 | moves the page as MouthUpdated describes |
| Drowsiness.DrowsinessPage.ResetMouthState | src/driver_fatigue_detection-master/gui/pages/drowsiness_page.py:232-238 | closes the mouth, text `Cerrada` in white |
| Drowsiness.DrowsinessPage.RestoreBackground | src/driver_fatigue_detection-master/gui/pages/drowsiness_page.py:221-224 | the background goes back to `#807da6` |
| Text.Split | src/Bluetooth/BluetoothSimulatorESP32.py:166 | `str.split(sep)` gives at least one part |
| Text.SplitSound | src/Bluetooth/BluetoothSimulatorESP32.py:166 | the parts joined by the separator are the input, and no part holds the separator |
| Text.SplitJoin | src/Bluetooth/BluetoothSimulatorESP32.py:166 | splitting separator-free parts joined by the separator gives the parts back |
| Text.Words | src/Bluetooth/BluetoothSimulatorESP32.py:115 | `str.split()` gives non-empty words without white space |
| Text.WordsJoin | src/Bluetooth/BluetoothSimulatorESP32.py:115 | words joined by single spaces split back into the same words |
| Text.ParseShow | src/Bluetooth/BluetoothSimulatorESP32.py:168-170 | `int(str(n))` is n for every integer |
| Text.ParseHexPadded | src/Bluetooth/BluetoothSimulatorESP32.py:117 | `int(h, 16)` of a zero-padded hex field is its value |
| Text.PadLeft | static/js/data-panel.js:110 | `padStart(width, c)` has length max(|s|, width) and is s preceded by copies of c |
| Text.Digits | src/Bluetooth/BluetoothMockSimulator.py:78-84 | the digits of n in a base read back as n |

## Left out

- Bluetooth and sockets: the ESP32 client's `find_device`, `connect`, `close` and the timed receive loop of `send_command` are not modelled; a reply is an input to the parsers, and exceptions raised by the socket are not modelled.
- Asynchronous scheduling: the mock's background task, `asyncio.sleep` delays and `find_device` are left out; one tick is a function of its two random draws, and `random.randint` is replaced by draws given as inputs.
- `iBluetoothOBDClient` is an abstract interface with no logic; it is not part of this model.
- The dashboard's DOM and network code: `fetch`, `innerHTML`, event listeners, the rest button's creation and the long-press timers of `handleAdjustButton` (config.js:87-134) are left out. A fetch result is an input: the reset response's `ok` flag, the configuration or None, and the save reply.
- `showStatus` (config.js:136-142): the status text and its error flag are modelled; the 3-second class reset is a timer and is left out.
- `DataPanel.getFatigueStatus` (data-panel.js:318-320) only returns a field, and `resetDistance` / `updateOBDData` in index.js:10-57 only call the server and the DOM; they are left out.
- Panel.GetFatigueLevel: `levels[status]` also finds properties every JavaScript object inherits (`toString`, `constructor`, `valueOf`, `__proto__` and the like); for those statuses the page gets a function or object rather than -1. The model treats `levels` as a plain four-entry map. Compared with a threshold, such a value behaves like -1 for thresholds of -1 or more.
- Panel.FormatTime, Panel.Clock, RuntimeFormat.FormatRuntime, RuntimeFormat.RuntimeFields: seconds are whole and non-negative. The JavaScript functions take any value: negative seconds give `-1:-1:-1` for -1, which is the default run time of an OBD record (src/OBD/OBDDataStructure.py:7); fractional seconds give e.g. `00:01:30.5` for 90.5; `null` gives `00:00:00`. Those inputs are outside the model.
- Drowsiness.DrowsinessPage.constructor (the state Drowsiness.Initial): neither `__init__` nor `main` sets the page's own background; the model starts it at `#807da6`, the colour of the page's container (drowsiness_page.py line 81) and the one `restore_normal` and `restore_background` restore.
- Panel.JsNumber: only optionally signed decimal integers (and blank text, which is 0) are read as numbers. JavaScript's `Number` also reads decimals (`1.5`), hex (`0x1F`), exponents (`1e3`) and `Infinity`; `parseTime` gives NaN for those texts in the model. Its white space is JavaScript's (ECMA-262's WhiteSpace and LineTerminator), not Python's: U+001C to U+001F and U+0085 are not trimmed, U+FEFF and U+2028 are.
- Text.ParseInt: Python's `int` also accepts `_` between digits (`1_0`) and non-ASCII digits; the model rejects those texts.
- Text.IsSpace: only the ASCII and Latin-1 white space is modelled; Python's `strip`, `split` and `int` also skip other Unicode white space, such as U+3000.
- Number text forms: input values are numbers or NaN. `parseInt` / `parseFloat` on text such as `"1e3"` or `"12abc"`, and IEEE rounding, are left out; numbers are exact reals. `Config.Trunc` models `parseInt` of a number as truncation toward zero.
- `Config.LoadedUnchanged`: stated only for a configuration of whole numbers, because `parseInt` of a fractional threshold differs from the threshold.
- Keys missing from the server's configuration (JavaScript `undefined`) are not modelled; the configuration is four numbers.
- `Panel.Configured`: the threshold time is held as the text `formatTime` produces, and the lemma states only that it reads back as the seconds sent.
- The Python `from_dict` conversion `field_type(value)` is an opaque constructor call that may raise; the model records it as a converted argument and does not model conversion failures.
- `exclude_private` walks the keys as a set rather than in insertion order, so dictionary order is not modelled.
- `path_to_python` belongs to FileManagement, which is not part of this model; `to_file` is modelled on the path it returns, up to the directory decision. Whether the directory exists, the `mkdir`, the write and `serialize` are file I/O and are left out. The one caller in the repository passes `config/settings.json` (src/Settings.py, line 16), which contains a `/`.
- `from_file`, `deserialize`, `serialize`, `to_recursive_list`, `to_documentation_template` and `config_dialog` are JSON, reflection or file code and are left out; `pass_outer` only sets a field.
- The drowsiness page's websocket transport, image decoding, Flet controls, the alert beep thread and `print` calls are left out. `threading.Timer` callbacks are separate operations (`ResetMouthState`, `RestoreBackground`) that the caller runs when the timer fires.
- `yawn_count > 0 or yawn_report` returns a value, not a bool, in Python; the model keeps its truthiness, which is all the page uses.
- `Drowsiness.ReportedMouth`: a `count` that is not a number would raise in Python; the model takes count as an optional integer.
- Server aggregation (distance accumulation, the fatigue counter and configuration persistence behind `/api/...`) is not part of this model.

## Findings

| source | as written | input that shows it | evidently intended | confidence | as-written member | corrected member |
|---|---|---|---|---|---|---|
| src/Bluetooth/BluetoothMockSimulator.py:77-82 | the mock answers `010C` with `41 0C` and one 4-digit hex word (rpm div 4), and `011F` with one 4-digit word; the ESP32 parser needs two byte words (BluetoothSimulatorESP32.py:116, 144), so it rejects both replies | any connected, initialised mock: `010C` with rpm 1000 replies `41 0C 00FA`, which parses to None | SAE J1979 replies `41 0C A B` with 256·A + B = 4·rpm and `41 1F A B` with 256·A + B = seconds, which parse back to rpm and run time | not executed | Mock.RpmRejected, Mock.RunTimeRejected | Mock.CorrectedReply, Mock.CorrectedRpmReply, Mock.CorrectedRunTimeReply |
| src/Commons/Serializable.py:164 | `file_path[:file_path.rfind("/")]` with no `/` is `file_path[:-1]`, a directory named after the file minus its last character, which is then created | a file path for which `path_to_python` returns text with a `.` and no `/`, such as `config.json`, creates the directory `config.jso`; `path_to_python` is not part of this model, so whether it can return such text is unverified | a path without `/` is saved in the current directory, creating no directory | not executed | Serializable.ToFileStrayDirectory, Serializable.ToFileNoSlash | Serializable.ToFileIntended, Serializable.ToFileIntendedParent |
