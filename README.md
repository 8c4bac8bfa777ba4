# AquaCrop core, modelled in Dafny

AquaCrop is a browser app for irrigation management. It shows a farm's fields, asks Gemini for an irrigation schedule and keeps an activity log of what its agent ("Sprout AI") has done. It also raises low-moisture alerts and irrigation reminders for Pro users, and offers a chat with the agent. This project models the logic of that app that is not presentation or a foreign call:

- **Alerts.** Two dedup engines of the notification effects (`Notifications`):
  - the low-moisture set, with its 35 %/40 % hysteresis;
  - the reminder set, keyed by field id and start time, which fires in the 5–10 minute window;
  - a reminder sweep stops at the first event whose start time is the invalid date, where the source's `toISOString()` throws.
- **Scheduling.** The control flow of schedule generation in the root component (`App`):
  - the input guard;
  - the plan branch, with the annotated copy sent on the Pro plan;
  - the result or warning, and the loading flag;
  - the one-shot initial latch;
  - the environmental refresh with its soil-moisture calibration (`Calibration`);
  - the record a new field is stored as.
- **Activity log.** It is only ever prepended to (`ActivityLog`). So the app's own entries sit newest first, in front of the seeded entries, which run oldest first.
- **Bold markup.** The parser of the focus widget (`BoldMarkup`) models the regular-expression `split` on `**…**` exactly:
  - lazy match;
  - no line terminator inside a match;
  - captured parts kept.

  It comes with a unique reference partition, the concatenation round trip, and the odd-index bold runs.
- **Field form** (`FieldForm`):
  - defaults and prefill;
  - the `parseInt || 0` flow-rate input;
  - crop-list parse and join, which round-trip;
  - the edit merge;
  - the moisture status bands.
- **Add/edit dialog.** The state machine of the dialog (`FieldsModal`).
- **Chat.** The message list of the chat, as it stands before and after the awaited reply (`Chat`).
- **Firebase config.** The check of the configuration (`FirebaseConfig`):
  - the missing-value filter;
  - the camelCase → `FIREBASE_SCREAMING_SNAKE` name conversion;
  - the error message.
- **Gemini.** The data shaping around the four Gemini calls (`Gemini`):
  - field projections;
  - the first five log entries;
  - field-name lookup with fallback;
  - low-moisture count and minimum;
  - mapping of the returned events;
  - the fixed value of every failure path.
- **Fixtures.** The fixed data, checked against these properties (`Constants`):
  - guest fields;
  - the initial log;
  - the empty lists.

`Types` holds the records of `types.ts`. `Strings` holds the JavaScript string builtins the core relies on: `trim`, `join`, decimal `parseInt` and number-to-string.

Modelling choices:

- Time is an integer count of milliseconds. A start time is a `Date`: such a count, or the invalid date. Moisture is an integer percentage.
- Coordinates, NDVI and the weather numbers are `real` values that are only carried.
- Every call into Gemini, Imagen, the vegetation-index source or Open-Meteo is an `Outcome` parameter. It either resolves with a value or throws.
- The clock (`Date.now()`) is a parameter. So is the string-to-instant conversion of a returned `startTime`.
- Parts of the source change state step by step:
  - the notification `Set` refs;
  - the state slots of schedule generation;
  - the dialog;
  - the chat.

  Each of them is a class whose methods are proved against the fold or function that specifies them.

Two orderings in the generation run (App.tsx:261-292):

- **Basic-plan log entry.** The code logs the "Generated basic irrigation schedule…" action before it calls the scheduler. So the entry is present even when the call then fails.
- **NDVI failure.** When fetching the vegetation index fails on the Pro plan, the code puts only the warning after the "Fetching satellite…" entry, and it never calls the scheduler.

## Model

| member | source | states |
|---|---|---|
| Types.FindField | services/geminiService.ts:132 | `find` by id: `None` exactly when no field has the id, else a field of the list |
| Types.FieldNameOr | App.tsx:446 | `find(...)?.name \|\| fallback`: the first match's name when it is non-empty, the fallback when no field matches or its name is empty |
| Types.DetailsOf | components/Fields.tsx:8 | definition: the six form-edited values of a field (the `Omit<Field, …>` the form saves); its use is stated by FieldForm.Merge and FieldsModal.EditSaveKeepsIdentity |
| Strings.TrimStart | components/Fields.tsx:61 | the result is a suffix of the input, only whitespace was removed, and it does not start with whitespace |
| Strings.TrimEnd | components/Fields.tsx:61 | the result is a prefix of the input, only whitespace was removed, and it does not end with whitespace |
| Strings.Trim | components/SproutAI.tsx:43 | `trim()` yields a contiguous slice of the input with no whitespace at either end |
| Strings.TrimStartPadded | components/Fields.tsx:61 | leading whitespace before a non-whitespace start is exactly what is removed |
| Strings.TrimEndPadded | components/Fields.tsx:61 | trailing whitespace after a non-whitespace end is exactly what is removed |
| Strings.TrimPadded | services/geminiService.ts:201 | trimming whitespace-padded trimmed text gives back that text |
| Strings.Join | components/Fields.tsx:30 | definition of `join(sep)`; its round trip with the crop parse is FieldForm.CropsRoundTrip |
| Strings.NatToString | components/SproutAI.tsx:45 | decimal rendering: non-empty, digits only, no leading zero except for 0 itself |
| Strings.IntToString | App.tsx:366 | decimal rendering of an integer, starting with '-' exactly when it is negative |
| Strings.DigitValue | components/Fields.tsx:53 | a digit's value is below the radix, and in radix 10 a character has a value iff it is a decimal digit |
| Strings.DigitPrefix | components/Fields.tsx:53 | `parseInt` reads the longest prefix of digits: every character of it is a digit and the next character is not |
| Strings.ParseUnsigned | components/Fields.tsx:53 | definition: the digit prefix in base 16 after `0x`/`0X`, else base 10, none when there is no digit; what it reads back is proved in Strings.NatToStringParses |
| Strings.ParseInt | components/Fields.tsx:53 | definition of `parseInt` without radix: leading whitespace skipped, one sign, the digit prefix, none for NaN; proved an inverse of rendering in Strings.IntToStringParses |
| Strings.NatToStringValue | components/Fields.tsx:53 | the digits of a rendered number evaluate back to the number |
| Strings.NatToStringParses | components/Fields.tsx:53 | parsing a rendered natural number gives it back |
| Strings.IntToStringParses | components/Fields.tsx:53 | parsing a rendered integer, minus sign included, gives it back |
| Strings.DigitPrefixAll | components/Fields.tsx:53 | an all-digit string is its own digit prefix |
| ActivityLog.AddEntry | App.tsx:254-259 | `addAgentLogEntry`: the new entry is at index 0 with the given time, message and kind (default `ACTION`), the old log follows unchanged, length grows by one |
| ActivityLog.AddEntryKeepsNewestFirst | App.tsx:255-258 | prepending an entry no older than the head keeps a newest-first log newest first |
| ActivityLog.AddEntriesPrepends | App.tsx:255-258 | a series of prepends leaves the entries in reverse order in front of the untouched old log |
| ActivityLog.AddEntries | App.tsx:255-258 | definition: successive prepends, the first entry logged first; its result is stated by ActivityLog.AddEntriesPrepends |
| Calibration.Round | App.tsx:358 | `Math.round`: the nearest integer, halves rounding up |
| Calibration.FirstReading | App.tsx:354-355 | the first value of the soil series, or none when the series is absent or empty |
| Calibration.CalibrationPercent | App.tsx:355-358 | a percentage exists iff a reading is present, above the -999 sentinel and guest mode is off; it is the reading times 100, rounded |
| Calibration.ShiftHistory | App.tsx:363 | the oldest entry is dropped and the new value appended: length kept for a non-empty history, the new value last, the rest shifted |
| Calibration.CalibrateFields | App.tsx:362-365 | every field, in order, takes the new moisture and the shifted history and nothing else |
| Calibration.CalibrationPreservesHistory | App.tsx:362-365 | calibrating `n`-entry histories keeps `n` entries with the newest equal to the moisture, and only moisture and history change |
| Calibration.CalibrateTwice | App.tsx:362-365 | two calibrations in a row leave both readings last, oldest first |
| Notifications.LowMoistureStep | App.tsx:416-425 | one field: below 35 and not alerted raises one alert and adds the id; 40 or more removes the id; between 35 and 40 the set is unchanged; no alert otherwise |
| Notifications.LowMoistureScan | App.tsx:414-426 | definition: the `forEach` as a left fold of the step; the fold that Notifications.Notifier.LowMoistureEffect is proved equal to |
| Notifications.LowMoistureScanSpec | App.tsx:415-426 | over distinct ids a tick alerts exactly the critical, not yet alerted fields in order, and leaves a field in the set iff it is critical or was in the set below 40; other ids are kept |
| Notifications.HysteresisAlertsOnce | App.tsx:416-425 | readings of one field that stay below 40 alert at most once, and once exactly when it was armed and some reading fell below 35 |
| Notifications.RestoredRearms | App.tsx:423-424 | a reading of 40 or more re-arms the field, so a following critical reading alerts again |
| Notifications.RoundedMinutes | App.tsx:448 | `Math.round` of milliseconds as minutes: within half a minute of the value |
| Notifications.KeyOf | App.tsx:439 | definition of an event's (field id, start time) identity |
| Notifications.InReminderWindow | App.tsx:441-444 | definition: a valid start time more than 5 and at most 10 minutes after the clock |
| Notifications.ReminderStep | App.tsx:439-453 | one event: a reminded key, a status other than Scheduled or a lead outside (5, 10] minutes leaves all as is; otherwise the key is added and one reminder is raised for it, naming the first matching field ("Unknown Field" as fallback) and the lead rounded to minutes |
| Notifications.ReminderScan | App.tsx:438-454 | definition: the `forEach` as a left fold of the step; its properties are Notifications.ReminderScanFresh and Notifications.ReminderScanSpec |
| Notifications.ReminderScanFresh | App.tsx:438-454 | a sweep reminds only keys not yet reminded, each at most once, and the set ends as the old keys plus the reminded ones |
| Notifications.AlertKeys | App.tsx:439 | the keys of a list of reminders, position by position |
| Notifications.ReminderScanSpec | App.tsx:438-454 | over distinct keys a sweep reminds exactly the Scheduled, un-reminded events in the window, in schedule order |
| Notifications.AlertKeysAppend | App.tsx:438-454 | the keys of concatenated reminders are the concatenated keys |
| Notifications.UnlistedKeyNotReminded | App.tsx:438-454 | a sweep leaves the membership of a key that no event carries untouched |
| Notifications.NoExpectedKeyOutside | App.tsx:438-454 | no reminder is owed for a key that no event carries |
| Notifications.SweepLength | App.tsx:439 | how far a sweep gets: every start time before it is valid, and the one at it, if any, is invalid, where `toISOString()` throws |
| Notifications.SweepScan | App.tsx:436-455 | definition: the fold over the events before the first invalid start time, the fold Notifications.Notifier.ReminderSweep is proved equal to |
| Notifications.InvalidStartStopsSweep | App.tsx:439 | an invalid start time ends the sweep: whatever follows it is never looked at, and the events before it are swept as usual |
| Notifications.ValidStartsSweepAll | App.tsx:438-454 | with every start time valid, a sweep covers the whole schedule |
| Notifications.Sweeps | App.tsx:436-455 | definition of successive sweeps with no clearing in between; Notifications.SweepsRemindOnce proves each key reminded at most once |
| Notifications.SweepsRemindOnce | App.tsx:436-455 | across successive sweeps with no clearing, each key is reminded at most once and never again once in the set |
| Notifications.RemindedKeysAppend | App.tsx:452 | the keys reminded by concatenated alert lists are the union of each list's |
| Notifications.FreshAppend | App.tsx:440 | two fresh batches in a row, the second fresh against the keys added by the first, form one fresh batch |
| Notifications.Notifier.constructor | App.tsx:119-120 | both key sets start empty |
| Notifications.Notifier.LowMoistureEffect | App.tsx:412-427 | gated off (not Pro or not granted): no alert and the set untouched; gated on: the set and alerts are the low-moisture fold over the fields |
| Notifications.Notifier.ReminderEffect | App.tsx:430-434 | the sweep is armed iff Pro, granted and a non-empty schedule; otherwise the reminder set is cleared, and the low-moisture set is never touched |
| Notifications.Notifier.ReminderSweep | App.tsx:436-455 | one firing of the interval: the set and alerts are the reminder fold over the events before the first invalid start time, and it throws iff some start time is invalid |
| App.WithNdvi | App.tsx:276 | a copy of the fields in order, each changed only in its vegetation index |
| App.MsgCalibrated | App.tsx:366 | definition of the calibration message with the percentage rendered in decimal; used by App.AppState.ApplyEnvironmentalData |
| App.CallScheduler | App.tsx:282-291 | definition: the scheduler's result replaces the schedule, a failure prepends the warning and keeps it; stated through App.ScheduleRunOutcome |
| App.ScheduleRun | App.tsx:261-292 | definition of one generation run as a value, which App.AppState.GenerateSchedule is proved equal to; its properties are App.ScheduleRunOutcome, App.BasicPlanLogsBeforeCall and App.ProPlanAnnotatesCopy |
| App.ScheduleRunOutcome | App.tsx:266-291 | a run replaces the schedule wholesale iff the scheduler was called and resolved; otherwise the schedule stays and the entry at the head of the log is the warning; the old log is the untouched tail after the "analyzing" entry |
| App.BasicPlanLogsBeforeCall | App.tsx:278-283 | on the basic plan the fields go to the scheduler unchanged and the "Generated basic" action is logged before the call, also when it fails |
| App.ProPlanAnnotatesCopy | App.tsx:270-277 | on the Pro plan the scheduler receives the annotated copy; a failed annotation skips the call, keeps the schedule and logs only the warning |
| App.ImageCropLabel | App.tsx:484 | `cropTypes[0] \|\| 'farm field'`: the first crop when present and non-empty, else "farm field" |
| App.NewFieldRecord | App.tsx:488-493 | the stored record keeps the form details and location, gets moisture 50, five readings of 50 and the generated image |
| App.AppState.constructor | App.tsx:107-115 | no fields, no schedule, the seeded log, no weather or growth data, not loading, latch unset |
| App.AppState.AddAgentLogEntry | App.tsx:254-259 | the log slot becomes the prepended log |
| App.AppState.GenerateSchedule | App.tsx:261-292 | with weather, growth data or fields missing nothing changes; otherwise log, schedule and what was sent are the run's, loading ends false and the fields are never written |
| App.AppState.InitialScheduleEffect | App.tsx:386-393 | the effect starts a generation iff its conditions hold, sets the latch before running, and so runs at most once per session |
| App.AppState.ApplyEnvironmentalData | App.tsx:331-373 | a failed fetch only logs the warning; a response without its sections changes nothing; one that throws on the missing radiation series after the weather is set keeps that weather, logs the warning and leaves growth and fields; a full one sets weather and growth and, with a valid reading, calibrates every field and logs it |
| BoldMarkup.CloseFrom | components/SproutAIFocusWidget.tsx:20 | the first closing `**` at or after a position with no line terminator before it |
| BoldMarkup.MatchAt | components/SproutAIFocusWidget.tsx:20 | a match starting at a position ends at least four characters later |
| BoldMarkup.CloseFromFindsFirst | components/SproutAIFocusWidget.tsx:20 | the lazy `.*?` stops at the first `**`, provided no line terminator comes before it |
| BoldMarkup.MatchAtIff | components/SproutAIFocusWidget.tsx:20 | a match from `q` ends at `e` iff the text between them is a bold run (no `**` or line terminator inside) |
| BoldMarkup.SplitFrom | components/SproutAIFocusWidget.tsx:20 | definition of the capturing `split` scan from a point; proved well-formed in BoldMarkup.SplitFromWell and lossless in BoldMarkup.SplitFromConcat |
| BoldMarkup.Split | components/SproutAIFocusWidget.tsx:20 | definition of `text.split(/(\*\*.*?\*\*)/g)`; BoldMarkup.SplitIffWell proves it the unique well-formed partition and BoldMarkup.SplitConcat lossless |
| BoldMarkup.SplitFromWell | components/SproutAIFocusWidget.tsx:20 | the split from any scan point is a well-formed partition: gaps free of matches alternating with bold runs |
| BoldMarkup.SplitIsWell | components/SproutAIFocusWidget.tsx:20 | the split of a text is a well-formed partition of it |
| BoldMarkup.WellSplitFirst | components/SproutAIFocusWidget.tsx:20 | in a well-formed partition the first part is a slice at the start, followed either by nothing or by a run |
| BoldMarkup.ScanGap | components/SproutAIFocusWidget.tsx:20 | scanning through a gap does not change the result |
| BoldMarkup.ScanRun | components/SproutAIFocusWidget.tsx:20 | after a gap and a run, the rest of a well-formed partition is well-formed from the run's end |
| BoldMarkup.ScanEnd | components/SproutAIFocusWidget.tsx:20 | a single trailing gap is what the scan yields |
| BoldMarkup.ScanFinds | components/SproutAIFocusWidget.tsx:20 | scanning from anywhere in the first gap reproduces a well-formed partition |
| BoldMarkup.SplitIffWell | components/SproutAIFocusWidget.tsx:20 | a partition is well-formed iff it is the split: the split is the unique reference partition |
| BoldMarkup.SplitFromConcat | components/SproutAIFocusWidget.tsx:20 | the parts from any point concatenate to the rest of the text |
| BoldMarkup.SplitFromOddRuns | components/SproutAIFocusWidget.tsx:20 | there is an odd number of parts and every odd-indexed part is a bold run |
| BoldMarkup.SplitConcat | components/SproutAIFocusWidget.tsx:20 | the capturing split loses nothing: concatenating its parts gives the text back |
| BoldMarkup.Inner | components/SproutAIFocusWidget.tsx:23 | `slice(2, -2)`: the middle of a part of at least four characters, empty for a shorter one |
| BoldMarkup.Render | components/SproutAIFocusWidget.tsx:21-26 | a part is bold iff it starts and ends with `**`; any other part is kept verbatim |
| BoldMarkup.Format | components/SproutAIFocusWidget.tsx:18-27 | empty text yields no segments; otherwise one segment per split part, in order |
| BoldMarkup.RenderSource | components/SproutAIFocusWidget.tsx:21-26 | apart from the parts `**` and `***`, the source of a rendered part is the part |
| BoldMarkup.BoldRunRenders | components/SproutAIFocusWidget.tsx:22-23 | a bold run is rendered bold, with its two leading and two trailing stars removed |
| BoldMarkup.BoldSegments | components/SproutAIFocusWidget.tsx:20-23 | every odd-indexed segment of a formatted text is bold and comes from a bold run |
| BoldMarkup.UnformatParts | components/SproutAIFocusWidget.tsx:21-26 | rendering parts that are not `**` or `***` and taking their source gives back their concatenation |
| BoldMarkup.FormatRoundTrip | components/SproutAIFocusWidget.tsx:18-27 | without a leftover `**` or `***` part, the segments carry the whole text, in order |
| BoldMarkup.StarsAlone | components/SproutAIFocusWidget.tsx:22-23 | the whole texts `**` and `***` each become one empty bold segment, so their stars are lost |
| BoldMarkup.SplitExample | components/SproutAIFocusWidget.tsx:20 | `"a **b** c"` splits into the plain text before, the run, and the plain text after |
| BoldMarkup.FormatExample | components/SproutAIFocusWidget.tsx:18-27 | `"a **b** c"` formats to plain, bold "b", plain |
| FieldForm.DefaultForm | components/Fields.tsx:36-44 | empty name and crops, Seedling, Loam, Drip, flow 0 |
| FieldForm.Prefill | components/Fields.tsx:26-46 | with a field, its values and its crops joined by ", "; without, the defaults |
| FieldForm.JoinCrops | components/Fields.tsx:30 | definition of `cropTypes.join(', ')`; FieldForm.CropsRoundTrip proves the parse inverts it |
| FieldForm.ParseIntOrZero | components/Fields.tsx:53 | the parsed integer, or 0 when `parseInt` fails |
| FieldForm.FlowRateRoundTrip | components/Fields.tsx:53 | a rendered flow rate reads back unchanged |
| FieldForm.FlowRateFallback | components/Fields.tsx:53 | empty or non-numeric input becomes 0 |
| FieldForm.Change | components/Fields.tsx:49-55 | an input changes only its own slot: flow rate through the parse, the others verbatim |
| FieldForm.CommaIndex | components/Fields.tsx:61 | the first comma, or none when there is none |
| FieldForm.SplitComma | components/Fields.tsx:61 | `split(',')`: at least one piece, none holding a comma, joined by commas they give the input |
| FieldForm.SplitCommaAt | components/Fields.tsx:61 | splitting at the first comma gives the comma-free head, then the split of the rest |
| FieldForm.WellFormedTail | components/Fields.tsx:61 | a well-formed crop list splits into a well-formed head and tail |
| FieldForm.TrimCommaFree | components/Fields.tsx:61 | trimming a comma-free piece keeps it comma-free |
| FieldForm.Clean | components/Fields.tsx:61 | trimming each piece and dropping empty ones leaves at most as many entries, all non-empty, trimmed and comma-free |
| FieldForm.ParseCrops | components/Fields.tsx:61 | the submitted crop list is always well-formed |
| FieldForm.SpaceIsWhitespace | components/Fields.tsx:30 | the space of the ", " separator is whitespace |
| FieldForm.WhitespaceCommaFree | components/Fields.tsx:61 | whitespace holds no comma |
| FieldForm.ParsePaddedEmpty | components/Fields.tsx:61 | whitespace alone parses to no crop |
| FieldForm.ParsePaddedLast | components/Fields.tsx:61 | a padded well-formed crop parses to itself |
| FieldForm.ParsePaddedFirst | components/Fields.tsx:61 | a padded crop followed by ", " and more parses to the crop, then the rest |
| FieldForm.ParsePaddedCons | components/Fields.tsx:61 | a padded joined list parses to its head, then the joined tail |
| FieldForm.ParsePaddedJoin | components/Fields.tsx:61 | a whitespace-padded joined well-formed list parses back to the list |
| FieldForm.CropsRoundTrip | components/Fields.tsx:30 | joining a well-formed crop list with ", " and parsing it gives the list back |
| FieldForm.ParseCropsIdempotent | components/Fields.tsx:61 | parsing, joining and parsing again changes nothing |
| FieldForm.Merge | components/Fields.tsx:69 | `{...field, ...finalData}`: the six form values replaced; id, location, moisture, history, image and NDVI kept |
| FieldForm.MergeOwnDetails | components/Fields.tsx:69 | merging a field's own details gives the field back |
| FieldForm.Details | components/Fields.tsx:59-66 | definition of `finalData`: the form values with the crops parsed; FieldForm.ParseCrops proves the crop list well-formed |
| FieldForm.Submit | components/Fields.tsx:57-73 | editing yields an update of the merged field; adding yields the form's details |
| FieldForm.PrefillSubmitUnchanged | components/Fields.tsx:26-73 | prefilling from a field with a well-formed crop list and submitting unchanged updates it to itself |
| FieldForm.BlankFormBlocked | components/Fields.tsx:80-84 | the `required` name and crop inputs block the blank form, and let an edited field's prefilled form through iff it has a name and a non-empty crop text |
| FieldForm.JoinCropsEmpty | components/Fields.tsx:30 | the joined crop text is empty iff the list is empty or a single empty crop |
| FieldForm.DefaultSubmit | components/Fields.tsx:36-73 | `handleSubmit` applied to the blank form would add empty details with the defaults; the browser never submits that form (FieldForm.BlankFormBlocked) |
| FieldForm.StatusOf | components/Fields.tsx:124-129 | Optimal above 60, Watch above 30 up to 60, Critical at 30 or below, each an iff |
| FieldForm.StatusMonotone | components/Fields.tsx:124-129 | more moisture never means a more severe status |
| FieldForm.StatusAgreesWithAlerts | components/Fields.tsx:124-129 | a Critical status is below the alert line of 35, and an Optimal one is above the 40 re-arm line |
| FieldsModal.SaveRouting | components/Fields.tsx:173-181 | an update carries the record; new details with a picked location become a new field there; without a location nothing is saved, and only then |
| FieldsModal.EditSaveKeepsIdentity | components/Fields.tsx:174-175 | saving an edited field updates the field with its id and location and the form's details |
| FieldsModal.AddSavePlacesAtPick | components/Fields.tsx:177-179 | saving a new field places the form's details at the picked location |
| FieldsModal.ShownFormSaves | components/Fields.tsx:173-181 | a form the dialog shows always leads to a save, never to no save |
| FieldsModal.Dialog.constructor | components/Fields.tsx:157-159 | the dialog starts closed with no field and no location |
| FieldsModal.Dialog.OpenAdd | components/Fields.tsx:161-165 | an open dialog with no field and no location, so no form until a location is picked |
| FieldsModal.Dialog.OpenEdit | components/Fields.tsx:167-171 | an open dialog on the field, located where it is, showing the form |
| FieldsModal.Dialog.PickLocation | components/Fields.tsx:254-259 | clicking the add dialog's map picks the location and shows the form |
| FieldsModal.Dialog.Reset | components/Fields.tsx:182-184 | closed, with no field and no location |
| FieldsModal.Dialog.Save | components/Fields.tsx:173-185 | the effect is routed by the location picked before closing, and the dialog ends closed and reset |
| FieldsModal.Dialog.Cancel | components/Fields.tsx:187-191 | closes and resets without saving |
| FieldsModal.Dialog.SubmitForm | components/Fields.tsx:264-270 | a shown form that passes the `required` check always saves: an update of the merged field when editing, else a new field at the picked location |
| Gemini.CropImageUrl | services/geminiService.ts:25-34 | a data URL of the first image on success, the placeholder on failure or no image |
| Gemini.CropImageIsDataUrl | services/geminiService.ts:25-34 | the URL has the base64 JPEG prefix iff an image came back |
| Gemini.SchedulePayload | services/geminiService.ts:75 | one projection per field, in order |
| Gemini.ScheduleViewIgnoresOnly | services/geminiService.ts:75 | two fields project alike iff they differ only in image and history |
| Gemini.ScheduleView | services/geminiService.ts:75 | definition of the per-field projection without image and history; Gemini.ScheduleViewIgnoresOnly proves what it drops |
| Gemini.ToEvents | services/geminiService.ts:104-107 | one event per returned item, all properties kept, only the start time converted by the date parser (which may give the invalid date) |
| Gemini.ToEvent | services/geminiService.ts:104-107 | definition of one converted event; Gemini.ToEvents states the conversion for the whole reply |
| Gemini.ScheduleResult | services/geminiService.ts:101-111 | any failure becomes the single "Failed to generate AI schedule." error; success gives the converted events |
| Gemini.AsOutcome | App.tsx:283-286 | the awaited schedule resolves iff the call returned events, with those events |
| Gemini.ScheduleOutcomeFaithful | services/geminiService.ts:101-111 | the schedule call fails iff the Gemini call fails, and otherwise resolves with the converted events |
| Gemini.ChatViewIgnoresOnly | services/geminiService.ts:129 | two fields give the same chat view iff they differ only in their image |
| Gemini.ChatView | services/geminiService.ts:129 | definition of the per-field projection without the image; Gemini.ChatViewIgnoresOnly proves that is all it drops |
| Gemini.Annotate | services/geminiService.ts:132 | each event is kept and annotated with its field's name, "Unknown" as fallback |
| Gemini.AnnotateUnknown | services/geminiService.ts:132 | an event whose field is not listed gets "Unknown" |
| Gemini.AnnotateKnown | services/geminiService.ts:132 | an event gets the non-empty name of the first field with its id |
| Gemini.FindFirst | services/geminiService.ts:132 | `find` returns the first field with the id |
| Gemini.RecentLog | services/geminiService.ts:135 | `slice(0, 5)`: the first five entries, or the whole log when shorter |
| Gemini.RecentLogAfterEntry | services/geminiService.ts:135 | after a prepend the window is the new entry followed by the old window less its last entry |
| Gemini.ChatContextOf | services/geminiService.ts:123-136 | the counts of fields and events, each field's view, each annotated event and the recent log |
| Gemini.ChatReply | services/geminiService.ts:156-160 | the reply text on success, the fixed apology on failure |
| Gemini.MinMoisture | services/geminiService.ts:188 | `Math.min` of the readings: a lower bound attained by some field, +Infinity for no field |
| Gemini.LowFields | services/geminiService.ts:187 | the filter: a field is in the result iff it is in the input and below 40, and no longer than the input |
| Gemini.LowFieldsAppend | services/geminiService.ts:187 | filtering a concatenation is concatenating the filtered parts, so the filter keeps the fields' order |
| Gemini.LowMoistureCount | services/geminiService.ts:187 | exactly the length of the list of fields below 40 (`LowFields`), at most the field count, zero iff none is below 40 |
| Gemini.LowCountAgreesWithMin | services/geminiService.ts:187-188 | some field is below 40 iff the minimum is below 40 |
| Gemini.FocusFactsOf | services/geminiService.ts:185-191 | the summary's field count, low count, minimum and event count |
| Gemini.FocusReply | services/geminiService.ts:201-205 | the trimmed reply on success, the fixed status message on failure |
| Gemini.FocusReplyPadded | services/geminiService.ts:201 | whitespace padding around a reply is removed and nothing else |
| Gemini.FocusReplyKeepsTrimmed | services/geminiService.ts:201 | an already trimmed reply is returned as is |
| Gemini.FocusReplyTrimmed | services/geminiService.ts:201-205 | whatever happens, the focus text has no surrounding whitespace |
| Chat.UserMessage | components/SproutAI.tsx:45 | the user's message carries the raw, untrimmed input |
| Chat.GreetingMessage | components/SproutAI.tsx:25-27 | definition of the initial AI greeting, not loading; the starting state is Chat.Conversation.constructor |
| Chat.LoadingMessage | components/SproutAI.tsx:46 | the AI placeholder "Thinking..." marked loading |
| Chat.ReplyMessage | components/SproutAI.tsx:54 | the AI message with the reply text, not loading |
| Chat.WithoutLoading | components/SproutAI.tsx:57 | a message is kept iff it was in the list and is not a placeholder |
| Chat.WithoutLoadingAppend | components/SproutAI.tsx:57 | the filter works piecewise, so kept messages stay in order |
| Chat.WithoutLoadingKeeps | components/SproutAI.tsx:57 | a list without placeholders is left as it is |
| Chat.WithoutLoadingIdempotent | components/SproutAI.tsx:57 | the filter leaves no placeholder, and filtering twice changes nothing |
| Chat.WithoutLoadingSingle | components/SproutAI.tsx:57 | a single message is kept iff it is not a placeholder |
| Chat.HasLoading | components/SproutAI.tsx:57 | definition: some message is a placeholder; the filter removes every one (Chat.WithoutLoadingIdempotent) and the conversation's pending flag equals it |
| Chat.SendBlocked | components/SproutAI.tsx:43 | definition of the guard `!input.trim() \|\| isLoading`; Chat.Conversation.Send is proved to change nothing exactly when it holds |
| Chat.SendThenReply | components/SproutAI.tsx:48-58 | from a list with nothing pending, sending then replying gains the user message and the reply, and no placeholder is left |
| Chat.Conversation.constructor | components/SproutAI.tsx:26-30 | a single AI greeting, an empty input, nothing pending |
| Chat.Conversation.SetInput | components/SproutAI.tsx:98 | typing sets the input |
| Chat.Conversation.Send | components/SproutAI.tsx:43-50 | a blank input or a pending reply blocks the send and changes nothing; otherwise exactly the user message and placeholder are appended, the input cleared and loading set |
| Chat.Conversation.Receive | components/SproutAI.tsx:54-60 | every placeholder dropped, the others in order, the reply (or fallback text) last, loading cleared |
| Chat.Conversation.SendMessage | components/SproutAI.tsx:41-61 | a send that goes through leaves the old messages, the user message and the reply, the input empty and nothing pending |
| FirebaseConfig.MissingFrom | services/firebase.ts:27 | a key is reported iff it is listed and its value is undefined or empty |
| FirebaseConfig.MissingFromAppend | services/firebase.ts:27 | the filter works piecewise, so keys are reported in list order |
| FirebaseConfig.MissingVars | services/firebase.ts:18-27 | exactly the required keys whose value is missing |
| FirebaseConfig.OptionalNeverMissing | services/firebase.ts:14 | `measurementId` is never reported, whatever the configuration holds |
| FirebaseConfig.AllMissing | services/firebase.ts:27 | when every key is missing all are reported, in order |
| FirebaseConfig.NoneMissing | services/firebase.ts:27 | when no key is missing none is reported |
| FirebaseConfig.EmptyConfigMissesAll | services/firebase.ts:18-27 | an empty configuration reports all six required keys, in order |
| FirebaseConfig.UpperChar | services/firebase.ts:31 | `toUpperCase` on one ASCII character: lower-case letters shift by 32, others are kept |
| FirebaseConfig.Underscored | services/firebase.ts:31 | `replace(/([A-Z])/g, '_$1')` adds one character per capital |
| FirebaseConfig.Upper | services/firebase.ts:31 | upper-casing is character by character |
| FirebaseConfig.PrefixHasNoLower | services/firebase.ts:31 | the `FIREBASE_` prefix has no lower-case letter |
| FirebaseConfig.EnvNameShape | services/firebase.ts:31 | a converted name has no lower-case letter and its length is 9 + key length + capitals in the key |
| FirebaseConfig.UnderscoredAppend | services/firebase.ts:31 | the underscore insertion distributes over concatenation |
| FirebaseConfig.UnderscoredLower | services/firebase.ts:31 | a key without capitals gains no underscore |
| FirebaseConfig.UpperAppend | services/firebase.ts:31 | upper-casing distributes over concatenation |
| FirebaseConfig.UnderscoredWord | services/firebase.ts:31 | a capitalised word gets one underscore, in front of its capital |
| FirebaseConfig.AppendWord | services/firebase.ts:31 | appending a capitalised word appends `_` and the word upper-cased to the name |
| FirebaseConfig.LowerWord | services/firebase.ts:31 | a lower-case key is only upper-cased after the prefix |
| FirebaseConfig.TwoWords | services/firebase.ts:31 | the name of a two-word key is the prefix, both words upper-cased, joined by `_` |
| FirebaseConfig.ApiKeyName | services/firebase.ts:30-31 | `apiKey` becomes `FIREBASE_API_KEY` |
| FirebaseConfig.EnvNames | services/firebase.ts:31 | one converted name per missing key, in order |
| FirebaseConfig.Check | services/firebase.ts:29-32 | the error is raised iff some required value is missing, naming the converted names joined by ", " between the fixed head and tail |
| FirebaseConfig.OnlyApiKeyMissing | services/firebase.ts:27-32 | a configuration lacking only its API key reports exactly `FIREBASE_API_KEY` |
| Constants.InitialAgentLog | constants.ts:8-24 | three seeded entries |
| Constants.GuestFields | constants.ts:32-72 | three guest fields |
| Constants.GuestIdsDistinct | constants.ts:34-60 | the guest field ids are pairwise distinct |
| Constants.GuestHistoriesConsistent | constants.ts:42-69 | every guest field has five readings, the newest its current moisture |
| Constants.GuestValuesInRange | constants.ts:40-69 | guest moisture and history values lie in 0..100 and every flow rate is positive |
| Constants.GuestCalibrationConsistent | constants.ts:32-72 | calibrating the guest fields keeps the five-reading shape |
| Constants.GuestFieldsRaiseNoAlert | constants.ts:68 | the third guest field sits exactly at 35, so under the strict test no guest field alerts |
| Constants.InitialLogOldestFirst | constants.ts:10-20 | the seeded log is oldest first, unlike the newest-first order of later entries |
| Constants.SeededWindowSkipsNewerSeed | services/geminiService.ts:135 | with the oldest-first seeded log, three entries later the chat window holds the seeded entry of two hours before but not the one of half an hour before |
| Constants.InitialListsEmpty | constants.ts:4-6 | the initial field and schedule lists are empty |

## Left out

- Irrigation water balance: the crop-coefficient table, the Kc/ETc/NIR formulas and the duration computation exist only as prompt text for Gemini (services/geminiService.ts:45-78). The schedule is whatever the model returns, so it is an `Outcome` parameter.
- Prompt strings and the Gemini/Imagen SDK calls are not modelled. Neither is the module-load `API_KEY` check (services/geminiService.ts:5-7). These are foreign calls.
- Concurrency: the 10-minute refresh interval, the 30-second and 30-minute timers and the effect scheduling of React are not modelled. Nor are overlapping schedule runs: `generateSchedule` has no guard against them. Each trigger is modelled as its sequential body.
- Chat.Conversation.SendMessage: it runs the two halves of `handleSendMessage` back to back. It does not model other state changes between the send and the awaited reply.
- Open-Meteo fetch: the request, the HTTP status and the unit conversions of weather and growth data (`/25.4`, `toFixed(2)`, `Math.round`, `/1000`) are floating point and network I/O. They arrive as given values in `FetchOutcome`. Only the soil-moisture branch is modelled, with its rounding on exact reals. A response that throws before the weather is set (no `daily.et0_fao_evapotranspiration`) arrives as `FetchFailed`. One that throws after it (no `daily.shortwave_radiation_sum`) arrives as `WeatherThenFailed`.
- Authentication, the Firestore reads, writes and subscriptions, Firebase initialisation and the farm-location handlers are not modelled. Neither are `handleUpdateField` and its log entry (App.tsx:461-474). All are foreign I/O.
- `handleAddField` is not modelled beyond the record it stores (App.NewFieldRecord) and the crop label for the image (App.ImageCropLabel). Left out are:
  - its guest-mode and sign-in guards;
  - its three log entries;
  - the Firestore `add`;
  - its `generateSchedule` call.
- The browser Notification API and the permission request are not modelled. Alerts are emitted records, which keep the field, the name and the moisture or the rounded minutes, but not the notification title, icon or tag.
- The vegetation-index service is not modelled. It uses randomness and a delay, so the index is an arbitrary per-field value given as a parameter.
- The focus message effect and its App-level fallback (App.tsx:294-307) are left out. That effect is React wiring around the Gemini function, which is modelled.
- Presentational components are not modelled, nor are map rendering and geocoding.
- Notifications.KeyOf: the source keys reminders by `fieldId + "-" + startTime.toISOString()`. The model uses the pair (field id, start time as a date). The model does not encode dates as strings. So when two distinct pairs give the same concatenated string (a field id that itself ends in `-<ISO date>`), the source treats them as one key and the model as two.
- Gemini.ToEvents: parsing the `startTime` string with `new Date` is a parameter, `toInstant`, which may give the invalid date. JSON parsing of the reply is part of the foreign call. An invalid date reaches the reminder sweep, where it throws (Notifications.SweepLength); the chat context, where `JSON.stringify` writes it as `null`, is not modelled at that level.
- Strings.ParseInt and FieldForm.ParseIntOrZero: they return an unbounded integer, while `parseInt` returns a double. Past 2^53 the source loses precision, and about 309 digits or more give `Infinity`.
- FieldForm.FlowRateRoundTrip: it renders with Strings.IntToString, which writes every integer in plain decimal. `String(n)` writes numbers of magnitude 1e21 or more in exponent form, which `parseInt` reads back as a single digit. So the round trip holds in the source only below that magnitude, and below 2^53 for exactness.
- Gemini.FocusFactsOf and Gemini.ChatContextOf: these compute the facts the prompts carry, not the prompt strings themselves.
- FirebaseConfig.UpperChar: it models `toUpperCase` for ASCII only. The config keys are ASCII.
- FirebaseConfig.ApiKeyName: a concrete converted name is proved for `apiKey` only. The other five keys are covered by the general lemmas (TwoWords, LowerWord, EnvNameShape).
- BoldMarkup.Format: an empty text gives the empty segment list, which stands in for the empty string the source returns.
- FieldForm.Submit: it takes any form. The browser's validation of the `required` name and crop inputs (components/Fields.tsx:80, 84) is the predicate FieldForm.Submittable, which FieldsModal.Dialog.SubmitForm requires. No other browser validation is modelled.
- FieldsModal.Dialog.PickLocation: it requires an open add dialog, because the map that picks a location is only rendered then (components/Fields.tsx:254).
- The ids of chat messages use the clock, which is a parameter (`now`). The model does not rule out equal ids from equal clock readings.
- App.AppState.GenerateSchedule: all log entries of one run carry the same timestamp `now`. The awaits between them are not modelled.
