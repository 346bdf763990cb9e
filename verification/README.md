# keyball-gestures, modelled in Dafny

keyball-gestures turns a trackball keyboard into a touch pad. While a gesture
key is held, the mouse is grabbed and its motion drives two or four fingers
on a virtual multi-touch pad. The program has two front ends:

- a web service under `/api`, with its browser control panel;
- a desktop GUI.

Both pick the keyboard and mouse among the evdev devices. Both run the same
finger state machine against the kernel's input interfaces.

This project models the decision logic of both halves and proves what it
promises.

- **ControlPanel** (`control_panel.dfy`) is the browser panel (`script.js`). The page is a `Panel` object with these fields:
  - busy and disabled buttons;
  - pending restore timers;
  - the status and health lights;
  - the config box;
  - the device list and the two selectors;
  - the toast log, whose last entry is the one toast on screen;
  - the log of requests sent.

  Each handler is one step taking the server's answer as a parameter.
- **Json** (`json.dfy`) gives the JavaScript reading of JSON values: property access that throws on null, optional chaining, truthiness, `||` and `===`.
- **Routes** (`routes.dfy`) holds the HTTP handlers. The `Server` object shares its configuration object with the gesture service, as the Go pointers do.
- **EndToEnd** (`end_to_end.dfy`) puts the handlers' replies through the page's reading of them.
- **Service** (`gesture_service.dfy`) is the web service's gesture service. It covers:
  - start and stop;
  - the choice of devices;
  - the one-slot configuration mailbox;
  - one loop iteration.
- **Gesture** (`gesture.dfy`) is the finger state machine shared by `service.go` and the GUI's `service_manager.go`. A `FingerTracker` object holds four finger positions in an array. The pad's effects are logged as Down/Move/Up/Grab/Release.
- **Devices** (`devices.dfy`) covers device discovery and the device monitor. The monitor is a `DeviceMonitor` with its path and name maps and an event log.
- **GuiDevices**, **GuiService** and **GuiConfig** cover the GUI's device manager, service manager and configuration manager.
- **TouchPad**, **Mouse** and **Keyboard** cover the virtual pad's event reports and axis table, mouse event decoding and grabbing, and the key bitmap. Their byte layouts come from **Evdev**, the 24-byte `input_event`.
- **Int32**, **Strconv**, **Strings**, **Settings** and **Wrappers** are shared helpers.

Go's map iteration order is left open: a loop over a map takes any
duplicate-free listing of its keys, and the contracts hold for every one of
them. Kernel calls are parameters of the methods that make them:

- opening, reading and writing device files;
- ioctls;
- directory listings and link reads.

Integers are unbounded. The source's `int32` wrap-around is written out by
`Int32.Wrap`.

Where the code and the project's own documentation disagree, the model
follows the code:

- `config.Config` carries only TOML tags, so `GET /api/config` returns
  the Go field names (`DevicePrefs.PreferredKeyboardDevice`, ...), not
  `device_prefs.preferred_keyboard_device`.
- `PUT /api/config` answers `{"status":"success"}`, not the updated configuration.
- An empty device list is Go's nil slice and is written as `null`.

The keyboard's `GetKey` answers -1, not 0, when no key is down. So the GUI
loop's `pressedKey != 0` test is true whenever no key is pressed; the model
keeps that behaviour.

## Model

| member | source | states |
|---|---|---|
| Int32.Wrap | internal/api/service.go:703-709 | the int32 result of a computation: in range, congruent to the exact value modulo 2^32, and equal to it when it fits |
| Int32.Clamp | internal/api/service.go:721-730 | the result lies in [min, max] when the bounds are ordered, is the value itself when it is already inside, and is always one of value, min, max |
| Int32.Abs | internal/gui/service_manager.go:406-412 | negation in int32: non-negative and equal to n or -n for every n except the minimum int32, which is returned unchanged (negative) |
| Evdev.Pow256 | internal/features/mouse.go:61-65 | the weight of a little-endian byte position is at least 1 |
| Evdev.FromLittleEndian | internal/features/mouse.go:61-65 | the number read from n little-endian bytes is below 256^n |
| Evdev.ToLittleEndian | internal/features/touchpad.go:250-254 | the little-endian encoding of x has exactly n bytes |
| Evdev.LittleEndianRoundTrip | internal/features/mouse.go:61-65 | reading back the n little-endian bytes of x gives x |
| Evdev.LittleEndianBytesRoundTrip | internal/features/mouse.go:61-65 | re-encoding the number read from any byte string gives the same bytes |
| Evdev.Signed | internal/features/mouse.go:61-65 | the two's-complement reading of an n-byte word lies in the signed n-byte range |
| Evdev.Unsigned | internal/features/touchpad.go:250-254 | the n-byte pattern of a signed value fits in n bytes and reads back as that value |
| Evdev.Encode | internal/features/touchpad.go:250-254 | binary.Write of an event yields 24 bytes |
| Evdev.Decode | internal/features/mouse.go:51-65 | the field-by-field reading of a 24-byte buffer yields an event whose fields fit int64, int64, uint16, uint16, int32 |
| Evdev.DecodeEncode | internal/features/mouse.go:61-65 | decoding the bytes written for any representable event gives the event back |
| Evdev.EncodeDecode | internal/features/mouse.go:61-65 | every 24-byte buffer is the encoding of the event decoded from it |
| Mouse.Filled | internal/features/mouse.go:52-56 | the buffer after a short read holds the bytes read followed by zeroes, 24 bytes in all |
| Mouse.MouseDelta | internal/features/mouse.go:51-77 | a failed read gives (0, 0); otherwise both components are int32 and at most one of them is non-zero |
| Mouse.DeltaOfEvent | internal/features/mouse.go:61-76 | reading an encoded event: REL_X gives (value, 0), REL_Y gives (0, value), any other event gives (0, 0) |
| Mouse.VirtualMouse.constructor | internal/features/mouse.go:33-39 | a new mouse is open and not grabbed, and its flag agrees with the kernel's grab state |
| Mouse.VirtualMouse.Grab | internal/features/mouse.go:79-88 | when already grabbed nothing is requested and it succeeds; otherwise one grab request is issued and the flag and the result follow its outcome; the flag always agrees with the kernel |
| Mouse.VirtualMouse.Release | internal/features/mouse.go:90-99 | the mirror image of Grab: no request when not grabbed, otherwise one release request whose outcome decides the flag and the result |
| Mouse.VirtualMouse.Close | internal/features/mouse.go:101-104 | the release error is ignored, the file is closed, the result is the close result, and the grab remains only if the release failed |
| Keyboard.PressedKeys | internal/features/keyboard.go:43-73 | the returned codes are exactly the codes below KEY_MAX whose bit is set in the EVIOCGKEY bitmap, in strictly ascending order |
| Keyboard.GetKey | internal/features/keyboard.go:32-41 | -1 exactly when the ioctl failed or no key below KEY_MAX is down; otherwise the lowest pressed key code |
| TouchPad.AbsRanges | internal/features/touchpad.go:113-133 | the two 64-entry tables hold, for every axis code, the registered range: the pad's x and y ranges for ABS_X/ABS_MT_POSITION_X and ABS_Y/ABS_MT_POSITION_Y, 0..9 for the slot, 0..255 for touch major and pressure, 0 elsewhere |
| TouchPad.ToUinputName | internal/features/touchpad.go:263-268 | the 80-byte name field holds the name's bytes, cut at 80, then zeroes |
| TouchPad.ReportsAreFramed | internal/features/touchpad.go:156-196 | each Down, Move and Up report selects the slot first, ends with its only SYN_REPORT, and every event fits the record's fields |
| TouchPad.ApplyAllAppend | internal/features/touchpad.go:250-261 | the kernel's reading of two event sequences written one after the other is the reading of the second from the state the first left |
| TouchPad.ApplyPrefixSplits | internal/features/touchpad.go:250-261 | reading a report is reading its first n events one by one and then the rest |
| TouchPad.ApplyAllFrom | internal/features/touchpad.go:250-261 | reading a report from position i is applying event i and reading the rest |
| TouchPad.DownStartsContact | internal/features/touchpad.go:156-170 | after a Down report the slot is selected and holds the tracking ID and the position, BTN_TOUCH is set, and no other slot changed |
| TouchPad.MoveKeepsContacts | internal/features/touchpad.go:172-183 | a Move report changes only the slot's position: the contacts and BTN_TOUCH stay as they were |
| TouchPad.UpEndsContact | internal/features/touchpad.go:185-196 | an Up report removes the slot's contact and clears BTN_TOUCH; every other slot and every position stay |
| TouchPad.ReportsWithinRanges | internal/features/touchpad.go:113-133 | for a declared slot and a position inside the pad, every absolute value the reports carry except the tracking ID lies inside the range registered for its axis |
| TouchPad.AcceptedPrefix | internal/features/touchpad.go:250-261 | the number of writes before the first refused one: all writes before it succeeded and the one at it, if any, failed |
| TouchPad.VirtualTouchPad.constructor | internal/features/touchpad.go:31-38 | a new pad has written nothing |
| TouchPad.VirtualTouchPad.WriteEvents | internal/features/touchpad.go:250-261 | succeeds exactly when every write is accepted, and the device file has received the events up to the first refused write, in order |
| TouchPad.AcceptedPrefixAt | internal/features/touchpad.go:250-261 | the index of the first refused write is the unique i with all earlier writes accepted and write i refused or absent |
| Gesture.SlotsAfterAppend | internal/api/service.go:714-719 | the pad slots holding a contact after two effect logs in a row are those after the second log, started from the slots the first left |
| Gesture.DownAll | internal/api/service.go:701-712 | initFingers issues one touch-down per finger |
| Gesture.UpAll | internal/api/service.go:714-719 | liftAllFingers issues one touch-up per finger |
| Gesture.MoveAll | internal/api/service.go:569-577 | the move branch issues one touch-move per active finger |
| Gesture.DownAllAdds | internal/api/service.go:701-712 | putting n fingers down adds exactly the slots 0 .. n-1 to the contacts on the pad |
| Gesture.UpAllRemoves | internal/api/service.go:714-719 | lifting n fingers removes exactly the slots 0 .. n-1 |
| Gesture.MoveAllKeeps | internal/api/service.go:569-577 | moving fingers leaves the set of slots holding a contact unchanged |
| Gesture.Half | internal/api/service.go:534 | Go's int32 division by 2, truncating toward zero: within [0, a] for a non-negative a and within [a, 0] for a negative one, with 2r one away from a at most |
| Gesture.Layout | internal/api/service.go:701-709 | initFingers' column has one point per finger |
| Gesture.LayoutCentred | internal/gui/service_manager.go:375-386 | without wrap-around every finger is on the centre's x, the column is symmetric about the centre's y, and neighbouring fingers are 20 apart |
| Gesture.ShiftFirst | internal/api/service.go:569-574 | moving the first n fingers keeps the four finger slots |
| Gesture.BeginKeepsInvariant | internal/api/service.go:539-565 | starting a two- or four-finger gesture keeps the loop invariant: the mouse is grabbed and exactly the active fingers' slots hold a contact |
| Gesture.HoldKeepsInvariant | internal/api/service.go:567-577 | moving the fingers keeps the loop invariant |
| Gesture.AbortKeepsInvariant | internal/api/service.go:578-582 | changing the gesture key mid-gesture keeps the invariant and leaves no contact on the pad |
| Gesture.EndKeepsInvariant | internal/api/service.go:585-604 | ending the gesture keeps the invariant and leaves no contact on the pad |
| Gesture.SwitchKeepsInvariant | internal/api/service.go:538-604 | every branch of the gesture switch keeps the invariant: 0, 2 or 4 fingers, grabbed while a gesture is active, no finger stuck down and none missing |
| Gesture.ResetKeepsInvariant | internal/api/service.go:531-535 | the idle reset (lift all, reset the filter, put the same fingers down at the centre) keeps the invariant |
| Gesture.ReleaseEndsGesture | internal/api/service.go:585-604 | with no gesture key held the gesture ends: no finger, no grab, no contact on the pad, and a release is issued exactly when the mouse was grabbed |
| Gesture.KeyChangeLiftsFingers | internal/gui/service_manager.go:297-303 | switching to the other gesture key mid-gesture lifts every finger but keeps the mouse grabbed |
| Gesture.HoldMovesFingers | internal/gui/service_manager.go:285-296 | holding the same key moves every active finger by the motion and keeps it on the pad; inactive fingers stay where they are |
| Gesture.FingerTracker.constructor | internal/gui/service_manager.go:219-225 | the loop starts with no finger, no grab, key 0, all positions zero and nothing issued |
| Gesture.FingerTracker.InitFingers | internal/api/service.go:701-712 | the first n positions become the centred column and one touch-down per finger is issued; the other positions stay |
| Gesture.FingerTracker.LiftAll | internal/api/service.go:714-719 | one touch-up is issued for each of the slots 0 .. n-1 |
| Gesture.FingerTracker.MoveFingers | internal/api/service.go:569-577 | each active finger moves by the motion with int32 wrap-around, is clamped to the pad and reported at its new position |
| Gesture.FingerTracker.Switch | internal/gui/service_manager.go:262-321 | the new state is the gesture switch's specification of the old one, and the loop invariant holds |
| Gesture.FingerTracker.Reset | internal/gui/service_manager.go:250-256 | the idle reset lifts all fingers, resets the filter, puts the same number down again at the centre, and keeps the invariant |
| Gesture.FingerTracker.ServiceStep | internal/api/service.go:519-604 | a missing device skips the iteration untouched; otherwise the idle reset if due, the time stamp set to now, and the switch, around the service's pad centre, and the invariant holds |
| Gesture.FingerTracker.GuiStep | internal/gui/service_manager.go:237-321 | the monitor is shown the old finger count and the motion exactly when there is motion; the time stamp moves only on a non-zero key or motion; then the idle reset if due and the switch on the fixed 0..32767 pad |
| Strings.ContainsAt | internal/features/devices.go:79 | strings.Contains holds exactly when the substring occurs at some index |
| Strings.ContainsItself | internal/features/devices.go:79 | a string occurs in every string that extends it on either side |
| Strings.TrimTrailingSlashes | internal/features/devices.go:93 | the result is a prefix of the path with no trailing slash |
| Strings.AfterLastSlash | internal/features/devices.go:93 | the result is a suffix of the path containing no slash |
| Strings.Base | internal/features/devices.go:93 | filepath.Base is never empty and is either "/" or a single path element without a slash |
| Strings.BaseOfPlainName | internal/features/devices.go:93 | the last element of dir + "/" + name is name, for a non-empty name without a slash |
| Strings.AfterLastSlashOfSuffix | internal/features/devices.go:93 | what follows the last slash of a slash-terminated prefix plus a slash-free name is that name |
| Devices.ResolvePath | internal/features/devices.go:88-94 | an absolute link target is kept as it is; a relative one becomes "/dev/input/" followed by a single path element |
| Devices.ScanDevices | internal/features/devices.go:71-105 | an unreadable directory is the error result; otherwise the devices are those each entry contributes, in listing order |
| Devices.ScanOrigin | internal/features/devices.go:77-102 | a device is in the scan exactly when some directory entry contributes it |
| Devices.EntryClassification | internal/features/devices.go:78-101 | an entry contributes only when its name contains "event" and its link was read; each device carries the entry's name and resolved path; a "kbd" name gives a keyboard and a "mouse" name a mouse, both (keyboard first) when it has both, none when it has neither |
| Devices.LatestByName | internal/features/devices.go:307-311 | newDeviceMap has exactly the scanned names as keys, each mapped to the last scanned device of that name: no later entry of the scan carries the name |
| Devices.Unknown | internal/features/devices.go:332-338 | the devices handed on as new are exactly the scanned devices whose name the monitor does not know |
| Devices.RegisterAllFacts | internal/features/devices.go:418-453 | registering adds exactly the listed paths and leaves every other known path's device as it was |
| Devices.UnregisterAllFacts | internal/features/devices.go:455-469 | along a duplicate-free order, a visited path disappears exactly when its name is not kept, unvisited paths are untouched, and surviving paths keep their devices |
| Devices.UpdateOutcome | internal/features/devices.go:396-470 | after updateDeviceList every listed path is known, a previously known unlisted path survives exactly when its name is listed, and no other path appears |
| Devices.RekeyAllQuiet | internal/features/devices.go:369-392 | when every scanned name is at its known path (or unknown) the path-change pass changes nothing and emits no event |
| Devices.AddPhaseKeepsPresent | internal/features/devices.go:324-363 | with the new devices only registered, every known path that still exists stays known |
| Devices.EnumerationOfSingleton | internal/features/devices.go:456 | the only iteration order of a one-key map is that key |
| Devices.EnumerationOfNothing | internal/features/devices.go:343 | the only iteration order of an empty map is empty |
| Devices.FindingFixture | internal/features/devices.go:307-338 | for the finding's keyboard and mouse: the known names, the new-device list, the registration step and newDeviceMap |
| Devices.PollDropsPresentDevice | internal/features/devices.go:359-363 | as written, a poll that finds a new mouse beside a known keyboard removes the keyboard, which is still plugged in, and reports it removed, in every map order |
| Devices.UpdatePassDropsKeyboard | internal/features/devices.go:455-469 | handed only the new mouse, updateDeviceList registers it and then removes the known keyboard with a DeviceRemoved event |
| Devices.FixedPollKeepsPresentDevice | internal/features/devices.go:359-363 | corrected, the same poll keeps the keyboard and reports only the mouse as added |
| Devices.DeviceMonitor.constructor | internal/features/devices.go:162-174 | a new monitor knows no device and has notified nothing |
| Devices.DeviceMonitor.RegisterDevices | internal/features/devices.go:418-453 | an unseen path is added to both maps with one DeviceAdded; a known path under another name is replaced with DeviceChanged; a known path with the same name is left alone |
| Devices.DeviceMonitor.DropPaths | internal/features/devices.go:455-469 | every pending path is visited once, in some order, and removed from both maps with DeviceRemoved unless its name is kept |
| Devices.DeviceMonitor.UpdateDeviceList | internal/features/devices.go:396-470 | the new state is the registration pass followed by the removal pass over the previously known paths the list does not mention |
| Devices.DeviceMonitor.RekeyDevices | internal/features/devices.go:365-392 | each scanned name is visited once; a known name now at another path loses its old path entry, is stored at the new one and emits DeviceChanged |
| Devices.DeviceMonitor.CheckDeviceExistence | internal/features/devices.go:299-393 | a failed scan changes nothing; otherwise the missing paths are dropped, the devices with unknown names go through updateDeviceList, and changed paths are re-keyed; updateDeviceList runs only when some scanned name is unknown, and its removal pass then visits exactly the known paths that were neither missing nor listed among the unknown devices |
| Devices.PollRemovesPresentKeyboard | internal/features/devices.go:359-363 | on the monitor itself: a poll that finds a new mouse beside a known keyboard, with no path gone, removes the keyboard and reports it removed |
| Devices.DeviceMonitor.GetConnectedDevices | internal/features/devices.go:579-589 | the snapshot holds exactly one device per path key, in the runtime's map order |
| Devices.GetDevices | internal/features/devices.go:114-136 | a monitor that knows some device answers with its snapshot (one entry per path, exactly its devices); otherwise the result is a fresh scan |
| Devices.EnumerationSize | internal/features/devices.go:584-586 | a duplicate-free listing of a map's keys is as long as the map is large |
| Strconv.Atoi | internal/gui/config_manager.go:122 | a parsed value fits Go's 64-bit int, and the empty text never parses |
| Strconv.NatDigits | internal/gui/config_manager.go:154 | strconv.Itoa prints at least one decimal digit and nothing else for a non-negative number |
| Strconv.NatDigitsValue | internal/gui/config_manager.go:154 | the digits printed for n have the value n |
| Strconv.AtoiItoa | internal/gui/config_manager.go:154 | parsing what strconv.Itoa prints gives the number back, for every 64-bit int |
| Strconv.AtoiRejectsNonDigit | internal/gui/config_manager.go:122 | text with a character other than a leading sign or a digit never parses |
| GuiConfig.ParseOrKeep | internal/gui/config_manager.go:121-124 | an entry whose text parses gives the parsed number; one that does not parse keeps the previous value |
| GuiConfig.ConfigManager.constructor | internal/gui/config_manager.go:53-99 | the manager starts with the settings decoded from the file, or DefaultConfig (keys 184 and 183, warm-up 10, factor 15, threshold 50, no preferred devices) when there is no file or it cannot be used; on first run the defaults are also written to the new file when the write succeeds, and nothing is written otherwise |
| GuiConfig.ConfigManager.SaveConfig | internal/gui/config_manager.go:101-117 | the current settings become the saved ones exactly when the write succeeds, and the result reports that |
| GuiConfig.ConfigManager.UpdateConfigFromUI | internal/gui/config_manager.go:119-148 | each of the five integer fields takes its entry's parsed value or keeps its old one, independently of the others; the preferred devices never change |
| GuiConfig.UntouchedFormKeepsConfig | internal/gui/config_manager.go:150-170 | saving the form exactly as the panel fills it changes no field |
| GuiConfig.EditedEntryTakesValue | internal/gui/config_manager.go:122-124 | an entry edited to the decimal text of a number takes that number, whatever the field held before |
| GuiDevices.Names | internal/gui/device_manager.go:307-320 | a drop-down has one option per device |
| GuiDevices.FirstNamedIndex | internal/gui/device_manager.go:160-167 | the name search finds nothing exactly when no device has the name, and otherwise the earliest device with that name |
| GuiDevices.OfKind | internal/gui/device_manager.go:132-138 | the devices of one kind are never more than the listed devices |
| GuiDevices.OfKindMembers | internal/gui/device_manager.go:132-138 | the keyboards are exactly the listed Type-0 devices and the mice exactly the Type-1 devices |
| GuiDevices.OfKindAppend | internal/gui/device_manager.go:132-138 | filtering by kind keeps the input order: the devices of a kind in a concatenation are those of each part, in turn |
| GuiDevices.RefreshedIsListed | internal/gui/device_manager.go:150-188 | with devices of the kind listed, the new selection is one of them, and it carries the preferred name whenever a non-empty preference names one; with none listed the previous selection stays |
| GuiDevices.DeviceManager.Filter | internal/gui/device_manager.go:129-138 | the loop collects exactly the devices of the kind, in input order |
| GuiDevices.DeviceManager.FindNamed | internal/gui/device_manager.go:160-167 | the loop with its early break returns the first device with exactly that name, or nothing |
| GuiDevices.DeviceManager.CollectNames | internal/gui/device_manager.go:309-320 | the option list is the device names in order |
| GuiDevices.DeviceManager.UpdateSelections | internal/gui/device_manager.go:306-342 | the options are the names in order; an existing selection is kept, else the first device is chosen, else the selection is cleared and shows "" |
| GuiDevices.DeviceManager.RefreshDevices | internal/gui/device_manager.go:112-194 | a failed or empty listing only sets the status and leaves both selections and drop-downs untouched; otherwise the counts are reported, each kind is re-chosen (first exact preferred match, else first device, else previous) and the drop-downs, when they exist, are refilled |
| GuiDevices.DeviceManager.ChooseSelections | internal/gui/device_manager.go:150-188 | each selection is the first exact match of a non-empty preference, else the first device of the kind, else the previous selection |
| GuiDevices.DeviceManager.LoadSavedDevicePreferences | internal/gui/device_manager.go:49-83 | a non-empty preference naming a device of that kind selects the first such device (and shows it when the drop-down exists); an empty or unmatched preference leaves the selection alone |
| GuiDevices.DeviceManager.SaveDevicePreferences | internal/gui/device_manager.go:85-110 | as written: nothing happens unless a settings manager and both selections exist; otherwise the manager's settings stay as they were and are written unchanged, so the selections are not persisted |
| GuiDevices.DeviceManager.SaveDevicePreferencesFixed | internal/gui/device_manager.go:85-110 | corrected: under the same guard, the selected names become the manager's preferences, and a successful write saves them |
| GuiService.DirectionFollowsDominantAxis | internal/gui/service_manager.go:346-365 | away from the int32 minimum the arrow is horizontal exactly when abs(dx) > abs(dy), ties going vertical, and the sign of that component picks right/left or down/up |
| GuiService.MinimumMotionShownVertical | internal/gui/service_manager.go:406-412 | abs(-2^31) stays negative, so a motion of -2^31 along x is shown as vertical |
| GuiService.ServiceManager.constructor | internal/gui/service_manager.go:41-52 | a new manager is Stopped with no handles, no loop launched and no gesture shown |
| GuiService.ServiceManager.StartService | internal/gui/service_manager.go:85-113 | while Running nothing happens; from Stopped or Error the status becomes Running and exactly one loop is launched |
| GuiService.ServiceManager.StopService | internal/gui/service_manager.go:115-149 | only from Running: the status becomes Stopped and the pad, mouse and keyboard handles are closed and cleared; from any other status nothing changes |
| GuiService.ServiceManager.Toggle | internal/gui/service_manager.go:58-64 | the button stops a Running service and starts it from every other status |
| GuiService.ServiceManager.LoopFailed | internal/gui/service_manager.go:100-109 | a loop that returns an error leaves the status Error |
| GuiService.ServiceManager.SetupDevices | internal/gui/service_manager.go:164-213 | the errors come in the source's order (pad, keyboard selection, mouse selection, mouse open, keyboard open); on success all three handles are open, and a failure leaves what was opened before it open |
| GuiService.ServiceManager.LoopIteration | internal/gui/service_manager.go:237-321 | the monitor shows the old finger count, the arrow and the motion exactly when there is motion; the time stamp and the tracker state follow the GUI step with the settings' keys and reset threshold in nanoseconds |
| GuiService.ThresholdNanos | internal/gui/service_manager.go:227 | the reset threshold in nanoseconds is the int64 product of the milliseconds and 1,000,000: exact when it fits, otherwise wrapped modulo 2^64 into the int64 range |
| Service.SelectDevices | internal/api/service.go:85-126 | the loop over the listing ends with, for each kind, the last device of that kind whose name contains the non-empty preference, and otherwise the first device of that kind |
| Service.FirstOfKindIndex | internal/api/service.go:89-94 | the first-found device is absent exactly when no device has the kind; when present it is a listed device of the kind with none of the kind before it |
| Service.LastPreferredIndex | internal/api/service.go:95-99 | the preferred device is absent exactly when no device matches; when present it is a matching device with no match after it, since a later match overwrites an earlier one |
| Service.EmptyPreferenceUsesFirst | internal/api/service.go:96 | an empty preference matches no device, so the choice is the first device of the kind |
| Service.ChooseFindsKind | internal/api/service.go:114-135 | a kind stays unchosen exactly when no listed device has it; a chosen device is in the listing and has the kind |
| Service.MouseCheckedFirst | internal/api/service.go:128-135 | with neither a mouse nor a keyboard listed, Start reports the missing mouse |
| Service.GestureService.constructor | internal/api/service.go:32-40 | a new service is not running, keeps the given configuration, has auto-reconnect on, an empty update mailbox and no device handles |
| Service.GestureService.Start | internal/api/service.go:43-238 | a running service refuses with nothing changed; otherwise the error is the first failing step in the source's order (pad, listing, mouse choice, keyboard choice, mouse open, keyboard open), running is set exactly on success, the chosen devices are the preference-or-first choices, every failure after the pad exists closes the pad and a keyboard that fails to open also closes the mouse |
| Service.GestureService.Stop | internal/api/service.go:399-416 | succeeds exactly when the service was running, and then clears running and auto-reconnect; handles stay as they are for the loop to close |
| Service.GestureService.UpdateConfig | internal/api/service.go:427-439 | the one-slot mailbox afterwards holds exactly the newest configuration, an older pending one being dropped |
| Service.GestureService.TakeConfig | internal/api/service.go:474-482 | a pending configuration is adopted and the mailbox emptied; with none pending the current configuration is kept |
| Service.GestureService.LoopIteration | internal/api/service.go:494-604 | after adopting a pending configuration, a missing keyboard or mouse leaves the tracker as it was; otherwise the time stamp is now, an idle tracker with fingers down is reset first, and the tracker state is the gesture switch applied with the configuration's keys and pad bounds |
| Service.GestureService.LoopExit | internal/api/service.go:450-462 | on exit every handle that was ever assigned is closed, and unassigned ones stay unassigned |
| Settings.Config.Default | internal/config/config.go:53-78 | the default pad range 0..32767 on both axes, keys 184 and 183, warm-up 10, delta factor 15, a reset threshold of 50 ms and no preferred devices |
| Json.Prop | internal/api/static/script.js:226 | reading a property throws exactly on null, and on an object yields a value exactly when the key is present |
| Json.OptionalMember | internal/api/static/script.js:310-311 | optional chaining never throws on a value that did not throw |
| Json.Or | internal/api/static/script.js:276 | the logical-or fallback always yields a value |
| Routes.RoutesArePatterns | internal/api/routes.go:14-31 | a verb and path reach an endpoint exactly when they are that endpoint's registered pattern |
| Routes.Server.constructor | internal/api/server.go:23-28 | a new server holds the given configuration, no gesture service and nothing saved |
| Routes.Server.HandleGetConfig | internal/api/routes.go:34-36 | 200 with the configuration under its Go field names |
| Routes.Server.HandleUpdateConfig | internal/api/routes.go:39-49 | an undecodable body gives 400 with the configuration kept; otherwise the decoded configuration replaces the server's and the reply is success |
| Routes.Server.HandleSaveConfig | internal/api/routes.go:52-82 | a bad body gives 400; an empty path with no default directory gives 500; otherwise the path is the requested one or config.toml in the default directory, a write error gives 500 with its text appended and nothing saved, and success saves the configuration there and echoes the path |
| Routes.Server.HandleGetDevices | internal/api/routes.go:85-93 | a listing failure gives 500 with the reason appended; otherwise 200 with the devices, null when there are none |
| Routes.Server.HandleSetPreferredDevices | internal/api/routes.go:96-113 | a bad body gives 400 with the configuration untouched; otherwise both preferences of the shared configuration object are overwritten, empty strings included, and every other setting is kept |
| Routes.Server.HandleStartService | internal/api/routes.go:119-135 | the first request creates the service on the current configuration; a running service answers already_running; otherwise Start's outcome gives started with the service running, or 500 with Start's message and the service stopped |
| Routes.Server.HandleStopService | internal/api/routes.go:138-150 | no service, or one not running, answers not_running with nothing changed; a running one is stopped, with auto-reconnect off, and the reply is stopped |
| Routes.Server.HandleServiceStatus | internal/api/routes.go:153-160 | the reply is running exactly when a service exists and runs, else stopped |
| ControlPanel.Binding | internal/api/static/script.js:140-152 | the button found for an endpoint and method is one whose pattern they are, and every button whose pattern they are is the one found |
| ControlPanel.BindingInvertsPattern | internal/api/static/script.js:140-152 | every button is found again from its own pattern, so no two buttons share one |
| ControlPanel.IconFor | internal/api/static/script.js:154-176 | a restored button's icon is blank exactly for an unbound endpoint and method |
| ControlPanel.RestoreDelay | internal/api/static/script.js:125-126 | the button is restored 300 ms after the request began, or at once when the answer took longer |
| ControlPanel.ErrorMessage | internal/api/static/script.js:101-109 | an unreadable or null error body gives the HTTP error text; a truthy error property gives that string; anything else gives the server-error text with the status |
| ControlPanel.Settle | internal/api/static/script.js:99-121 | a network failure keeps its message; a non-2xx answer fails with ErrorMessage; a 204 or zero content length is acknowledged as success; any other 2xx answer succeeds exactly when its body parses, with that body |
| ControlPanel.Sent | internal/api/static/script.js:94-97 | a body is sent exactly when it is truthy, and then unchanged |
| ControlPanel.Upper | internal/api/static/script.js:185 | upper-casing keeps the length |
| ControlPanel.LowerEqUpper | internal/api/static/script.js:185-187 | comparing with toLowerCase against a lower-case target does not depend on the case of the ASCII letters compared |
| ControlPanel.LightsIgnoreCase | internal/api/static/script.js:179-220 | the status and health lights do not change when the status text is upper-cased |
| ControlPanel.KindOf | internal/api/static/script.js:320-328 | a device is a keyboard exactly when its Type is the number 0 and a mouse exactly when it is the number 1 |
| ControlPanel.Preference | internal/api/static/script.js:310-311 | the preference read is a truthy value or the empty string |
| ControlPanel.ItemOf | internal/api/static/script.js:338-342 | a device gets the preferred badge exactly when it is a keyboard whose Name strictly equals the keyboard preference or a mouse whose Name strictly equals the mouse preference; its shown name is its Name |
| ControlPanel.KindChoicesExtend | internal/api/static/script.js:372-378 | one more device appends its option to its own kind's selector only |
| ControlPanel.KindChoicesAppend | internal/api/static/script.js:318 | options are appended in list order: the options of two lists in a row are the options of each, concatenated |
| ControlPanel.KindChoicesMembers | internal/api/static/script.js:372-378 | every option of a selector comes from a device of its kind, and every device of that kind has its option there |
| ControlPanel.SelectedChoice | internal/api/static/script.js:373-376 | a selector has a selected option exactly when some device of its kind is preferred, and the last selected one is such a device's name |
| ControlPanel.LastSelectedAfterPlaceholder | internal/api/static/script.js:304-305 | the unselected placeholder put first does not change which option is selected last |
| ControlPanel.ItemsOf | internal/api/static/script.js:318-379 | one item per listed device |
| ControlPanel.ItemsOfExtend | internal/api/static/script.js:318-379 | a further non-null device extends the items by its own item |
| ControlPanel.Reconcile | internal/api/static/script.js:318-379 | the forEach loop throws on a null element; otherwise it builds one item per device in list order and the keyboard and mouse options of exactly the devices of each kind |
| ControlPanel.SelectorShowsPreference | internal/api/static/script.js:304-305 | after the list is rebuilt a selector shows the preference exactly when a device of its kind has that Name, and the placeholder's empty value otherwise |
| ControlPanel.Picked | internal/api/static/script.js:392-393 | picking keeps the number of options |
| ControlPanel.LastSelectedAt | internal/api/static/script.js:392-393 | the last selected option up to a point is the selected one with no selected option after it |
| ControlPanel.PickedValue | internal/api/static/script.js:392-393 | after the user picks an option, the selector's value is that option's value |
| ControlPanel.Panel.constructor | internal/api/static/script.js:1-4 | the page starts with no busy or disabled button, no timers, no toast, no request, the service taken as stopped and nothing shown |
| ControlPanel.Panel.ShowToast | internal/api/static/script.js:31-47 | the new toast replaces any toast on screen |
| ControlPanel.Panel.ApiRequest | internal/api/static/script.js:73-138 | the bound button is disabled and shows the spinner, the request is sent, the answer is settled, a failure toasts its message once, and a restore of the bound button is queued whatever the outcome |
| ControlPanel.Panel.FireRestore | internal/api/static/script.js:128-131 | the fired timer is removed and its button is enabled and shows its icon again |
| ControlPanel.Panel.SetStatus | internal/api/static/script.js:179-202 | the status text is shown and its light is the classification of that text |
| ControlPanel.Panel.GetServiceStatus | internal/api/static/script.js:247-258 | a string status is shown and classified, start is disabled exactly when it is running and stop otherwise; any other answer shows Error in red and leaves both buttons as they were |
| ControlPanel.Panel.StartClicked | internal/api/static/script.js:223-233 | the start request is sent; on success the toast says already running or started after the reply's status, and a status refresh follows; a failure shows its error toast and nothing else, and an empty (null) reply shows no toast and refreshes nothing |
| ControlPanel.Panel.StopClicked | internal/api/static/script.js:235-245 | the stop request is sent; on success the toast says already stopped or stopped after the reply's status, and a status refresh follows; a failure shows its error toast and nothing else, and an empty (null) reply shows no toast and refreshes nothing |
| ControlPanel.Panel.GetConfig | internal/api/static/script.js:262-270 | the configuration received is shown with an info toast, or the error text is shown after an error toast |
| ControlPanel.Panel.SaveConfigClicked | internal/api/static/script.js:273-278 | a save with an empty path is sent, and on success the toast names the path the server reports, or the default location when it reports none |
| ControlPanel.Panel.UpdateConfigClicked | internal/api/static/script.js:280-293 | text that does not parse is refused with an error toast and no request; otherwise it is sent as a PUT and the outcome is toasted |
| ControlPanel.Panel.FailListing | internal/api/static/script.js:382-386 | the list shows the failure and both selectors only the load-error option |
| ControlPanel.Panel.GetDevices | internal/api/static/script.js:296-388 | the device request is sent, and the config request only after it succeeded; a failure of either shows the failed view with the one error toast; otherwise the view is the one built from both answers |
| ControlPanel.Panel.ShowDevices | internal/api/static/script.js:303-381 | the list and both selectors are the view built from the devices and the preferences read under the script's keys, with a count toast exactly when devices were listed |
| ControlPanel.Panel.PickKeyboard | internal/api/static/script.js:392 | the keyboard selector's value becomes the picked option's value |
| ControlPanel.Panel.PickMouse | internal/api/static/script.js:393 | the mouse selector's value becomes the picked option's value |
| ControlPanel.Panel.SetPreferredClicked | internal/api/static/script.js:391-409 | with neither selector set only an error toast appears; otherwise both values are sent, empty ones included, and success toasts and asks for the configuration and devices to be fetched again |
| ControlPanel.Panel.CheckHealth | internal/api/static/script.js:412-426 | a string status is shown and classified with the check time and a success toast; anything else shows error in red with the failure time |
| ControlPanel.Panel.LoadStatusAndConfig | internal/api/static/script.js:433-435 | the status request precedes the config request, and the config box shows a configuration exactly when the config answer succeeded |
| ControlPanel.Panel.LoadDevicesAndHealth | internal/api/static/script.js:437-439 | the device requests precede the health request, and the health check always records a time |
| ControlPanel.Panel.InitializeApp | internal/api/static/script.js:430-444 | the start-up requests go out in the order status, config, devices, the devices' config when the list arrived, health; the health time is always recorded |
| EndToEnd.ErrorRepliesReachToast | internal/api/server.go:86-89 | every error envelope the server writes with a non-empty message settles in the page as a failure carrying exactly that message |
| EndToEnd.StatusReplyDrivesIndicator | internal/api/routes.go:153-160 | the status reply turns the indicator green exactly when the service runs and red when it is stopped |
| EndToEnd.HealthReplyIsGreen | internal/api/routes.go:163-165 | the health reply always turns the health light green |
| EndToEnd.DeviceJsonFields | internal/features/devices.go:16-20 | a listed device reaches the page with its Name, and its Type reads as keyboard or mouse after its kind |
| EndToEnd.ListingIsReconciled | internal/api/routes.go:85-93 | a non-empty device list reaches the page as a truthy array of the same length, with no null element and each device's JSON in place |
| EndToEnd.ScriptKeysReadEmpty | internal/api/static/script.js:310-311 | under the script's snake-case keys both preferences read as empty, whatever the configuration |
| EndToEnd.GoFieldKeysReadStored | internal/config/config.go:12-18 | under the Go field names both stored preferences are found |
| EndToEnd.PreferenceNeverShown | internal/api/static/script.js:310-311 | whatever preference is stored, the page shows both selectors on the placeholder and marks a device preferred only when its name is empty |
| EndToEnd.FixedKeysShowPreference | internal/api/static/script.js:310-311 | read under the Go field names, the stored preference is pre-selected exactly when a device of its kind with that name is listed |

## Left out

- Presentation in `script.js` is not modelled: markup, icon HTML, CSS classes beyond the three-way light, fade-in animations, `formatDateTime`, `adjustLayoutForScreenSize` and console logging. Toast texts are kept; their display timers are not.
- The browser's timing is not modelled. This covers the 10-second status poll, the 300/200/200 ms pauses in `initializeApp` and the spring effect. The restore timers are queued with their due time and fired by `FireRestore`; the race between a poll and a click is not modelled.
- `fetch` and the network are parameters. Each handler receives the answer it would get (status, content length, and a parsed or unparsable body, or a network failure).
- Goroutines and locks are not modelled: the status mutex, `watchEvents` with its fsnotify debounce, `runPolling`, `periodicRescan`, `RescanDevices`, `runDeviceHealthCheck`, `attemptReconnect`, `SetAutoReconnect` and the `sync.Once` of `GetDeviceMonitor`. The monitor's callbacks are an event log rather than spawned goroutines. The callback that Start registers for removed devices is not modelled.
- Motion smoothing (`motion_filter.go`) is floating point and is not modelled. The gesture steps take the already filtered dx/dy. `FilterSmoothingFactor` is absent from the configuration and from its JSON.
- Creating the virtual pad, registering it with uinput, opening files and ioctls are foreign calls. Their outcomes are parameters.
- TOML loading and saving (`internal/config/config.go`) is file I/O. A save is recorded as the path and the configuration's JSON. `DefaultConfig` is kept as data.
- The GUI's settings file (`internal/gui/config_manager.go`) is file I/O. What loading finds arrives as a parameter: no file yet (with the outcome of writing the defaults), an unusable file, or the decoded settings. A save records the settings it would write. How JSON is decoded over the defaults is not modelled.
- Go's `encoding/json` decoding of request bodies is a parameter: the decoded value, or None for a body that does not decode.
- `server.go` (listening, CORS headers, JSON encoding) is not part of this model, apart from the reply envelope.
- `cmd/main.go`, the Fyne UI (`app.go`, `theme.go`, `main.go`) and the declaration-only packages are not part of this model. `CreateConfigPanel` is modelled only as the texts it fills the entries with. The select callbacks of `CreateDeviceConfigPanel` are not modelled.
- `internal/gui/device_manager.go` reads and writes `config.DevicePrefs` at lines 56, 57, 92-93, 156-157 and 247-248. The GUI's `Config` has no such field: its preferences are the flat `PreferredKeyboardDevice` and `PreferredMouseDevice` of `internal/gui/config_manager.go:16-25`. As written, the GUI package therefore does not compile. The model reads and writes the two flat fields instead, and the second finding below is about that repaired text.
- Json: numbers are integers only. JSON fractions and exponents are not modelled, and no value the control panel reads needs them.
- Routes.Server.HandleStartService: the 500 message carries only the fixed part of each Start error. The formatted detail (device path, wrapped system error) is not modelled.
- Routes.Server.HandleSaveConfig: `filepath.Join` is modelled for a directory and a plain file name, without `Clean`.
- Devices.DeviceMonitor.GetConnectedDevices: the order of the snapshot is the runtime's map order, taken as a ghost listing. The contract states which devices are in it, not in which order.
- ControlPanel.LowerEq: JavaScript's `toLowerCase` is modelled only for what can equal the lower-case ASCII targets compared: A-Z and the Kelvin sign.
- PUT /api/config replaces the server's configuration pointer, but a running gesture service keeps the one it was created with. The model shows this through the shared object but states no lemma about it.

## Findings

| source | as written | input that shows it | evidently intended | confidence | as-written member | corrected member |
|---|---|---|---|---|---|---|
| internal/features/devices.go:359-363 | the poll hands `updateDeviceList` only the devices whose names are unknown, and `updateDeviceList` removes every known path absent from the list it is given | a known keyboard still plugged in, and a new mouse appearing in the same poll | only devices that disappeared are removed; the keyboard stays and only the mouse is reported as added | not executed | Devices.PollDropsPresentDevice | Devices.FixedPollKeepsPresentDevice |
| internal/gui/device_manager.go:91-96 | `SaveDevicePreferences` writes the selected names into the copy `GetConfig` returns, and then saves the manager's unchanged settings | any keyboard and mouse selected and the save button pressed | the selected names become the saved preferences | not executed | GuiDevices.DeviceManager.SaveDevicePreferences | GuiDevices.DeviceManager.SaveDevicePreferencesFixed |
| internal/api/static/script.js:310-311 | the page reads `device_prefs.preferred_keyboard_device`, but the server writes the Go field names `DevicePrefs.PreferredKeyboardDevice` | any stored preference naming a listed device | the stored preference is pre-selected and marked as preferred | not executed | EndToEnd.PreferenceNeverShown | EndToEnd.FixedKeysShowPreference |
