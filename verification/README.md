# Polar UTC watch face — a Dafny model of its face logic

The watch face draws a ring of 60 minute dots and an hour-progress arc on a
round face, shows the local hour in large digits with the UTC hour below it,
and recolours the hour text by battery state and the date text by phone
connection state, vibrating when the phone is not connected. This project
models the integer logic of `src/main.c` that turns the time, the battery
state and the connection state into those drawing and colouring decisions,
and proves what that logic promises.

Modules:

- `CInt` (`cint.dfy`): 32-bit C `int` range and C's truncating `/` and `%`.
- `Wrappers` (`wrappers.dfy`): an `Option` type for a result that may be absent.
- `Palette` (`palette.dfy`): the four configured colours (main, accent, warn,
  error), kept abstract, plus the platform's white and clear.
- `Geometry` (`geometry.dfy`): the arc sweep, the dot angles, the per-dot
  colour rule, the 12-hour fold of the stored hour, the draw commands of one
  canvas redraw (`FaceCommands`, the reference definition) and the redraw
  loop itself (`LayerUpdate`).
- `Handlers` (`handlers.dfy`): the battery colour chain and the connection
  handler.
- `TimeText` (`timetext.dfy`): `%H`/`%I` rendering as ISO C11 section
  7.27.3.5 defines them, the leading-zero skip, and a decimal reader used as
  the independent check on the rendered text.
- `Face` (`face.dfy`): the shared state and one step per callback (tick,
  battery change, connection change, redraw), and a run over a sequence of
  callbacks.

Three behaviours of `src/main.c` are worth stating plainly, because a reader
might expect otherwise:

- A ring dot is accent only inside the current, unfinished 5-minute block
  (`bucket < i <= minute`) and clear everywhere else. The ring is not a
  cumulative fill of the minutes so far.
- `bt_handler` keeps no previous state and vibrates on every disconnected
  callback, including repeated ones. `VibrationsCoverEdges` and
  `RepeatedDisconnectVibratesAgain` show that this can exceed the number of
  connected-to-disconnected transitions.
- The hour fold maps 0 to 0 (not 12), so the folded hour lies in 0..12. No
  drawing call reads the folded global, so the fold has no visible effect.

## Model

| member | source | states |
|---|---|---|
| Geometry.Bucket | src/main.c:32 | `minute - minute % 5` is a multiple of 5; for minutes ≥ 0 it is at most the minute and less than 5 below it; for minutes ≤ 0 it lies between the minute and 0 and less than 5 above the minute (C's truncating `%`) |
| CInt.Div | src/main.c:32 | C's `/` by a positive constant: equals Euclidean division for a non-negative dividend; for a non-positive dividend a the quotient q satisfies a ≤ q·b < a + b, i.e. it is rounded toward zero |
| CInt.Rem | src/main.c:32 | C's `%` by a positive constant: equals the Euclidean remainder (0..b−1) for a non-negative dividend; for a non-positive dividend it is the negated remainder of −a, in −b+1..0, carrying the dividend's sign |
| Geometry.IncrementAngle | src/main.c:30-33 | the arc sweep is 6 times the block start, a multiple of 30, fits in 32 bits, and lies in 0..330 (equal to 30 × minute/5) for minutes 0..59 |
| Geometry.IncrementAngleMonotone | src/main.c:30-33 | over minutes 0..59 the arc sweep never decreases as the minute grows |
| Geometry.AngleForMinutes | src/main.c:35-37 | the dot angle of minute position i is exactly 6·i degrees, with no truncation loss |
| Geometry.DotColor | src/main.c:80-84 | a dot is accent or clear, never anything else; for minutes ≥ 0 it is accent exactly when minute − minute % 5 < i ≤ minute |
| Geometry.DotsShape | src/main.c:76-88 | the first n dots are the dots for positions 1..n in order: entry k is the dot at angle 6(k+1), inset 3, radius 2, with the colour rule for position k+1 |
| Geometry.Arc | src/main.c:90-93 | the arc is a radial band in the main colour starting at 0 degrees, ending at a multiple of 30, within 0..330 for minutes 0..59 |
| Geometry.FaceCommands | src/main.c:76-93 | one redraw is 61 commands: 60 dots with angle 6(k+1) at index k, then the arc |
| Geometry.DotRingLayout | src/main.c:76-78 | a redraw emits 60 dots at 6, 12, …, 360 degrees, strictly ascending, followed by one arc |
| Geometry.AccentDotCount | src/main.c:76-88 | exactly minute % 5 dots (at most 4) are accent and the other 60 − minute % 5 are clear; none are accent on a 5-minute boundary |
| Geometry.DotsAtMinute23 | src/main.c:80-84 | at minute 23 only dots 21, 22 and 23 are accent |
| Geometry.ArcCommand | src/main.c:90-93 | the arc is always main colour, thickness 6, inset 1, from 0 to 30 × minute/5 degrees, whatever the dot colours |
| Geometry.LayerUpdate | src/main.c:68-95 | the redraw loop folds the stored hour, keeps the minute, and produces exactly the reference command sequence |
| Geometry.FoldHourRange | src/main.c:72 | for hours 0..23 the fold gives 0..12: 0..12 unchanged, 13..23 become 1..11 |
| Geometry.FoldHourIdempotent | src/main.c:72 | folding twice equals folding once for every hour up to 24, and for no hour above 24 |
| Geometry.FoldHour | src/main.c:72 | hours up to 12 are kept; every hour above 12 loses exactly 12 |
| Handlers.BatteryColor | src/main.c:101-111 | the else-if chain with no final else always sets a colour, one of accent, white, warn and error; charging always gives accent |
| Handlers.BatteryBands | src/main.c:101-111 | charging gives accent at every percent; otherwise white iff percent > 20, warn iff 11..20, error iff <= 10 |
| Handlers.BatteryBoundaries | src/main.c:104-110 | 21 gives white, 20 and 11 give warn, 10 and 0 give error, and charging always gives accent |
| Handlers.BatterySeverityMonotone | src/main.c:104-110 | off the charger a lower percent never gives a less alarming colour |
| Handlers.OnConnection | src/main.c:113-121 | the handler vibrates exactly when it sets the date colour to error |
| Handlers.ConnectionColors | src/main.c:113-121 | connected gives main and no vibration; disconnected gives error and a vibration |
| Handlers.VibrationsCountDisconnects | src/main.c:113-121 | over any sequence of callbacks the number of vibrations equals the number of disconnected callbacks |
| Handlers.VibrationsCoverEdges | src/main.c:117-119 | from any starting state, the connected-to-disconnected transitions never outnumber the disconnected callbacks nor the vibrations |
| Handlers.RepeatedDisconnectVibratesAgain | src/main.c:117-119 | two disconnected callbacks in a row vibrate twice, though only one is a transition |
| TimeText.TwoDigits | src/main.c:49 | `%H`/`%I` output is two decimal digits that read back as the value |
| TimeText.FormatH | src/main.c:49 | `%H` is two digits reading back as the 24-hour hour |
| TimeText.FormatI | src/main.c:53 | `%I` is two digits reading back as the 12-hour hour, starting with '0' exactly when that hour is below 10 |
| TimeText.Hour12 | src/main.c:53 | the `%I` hour lies in 1..12 and agrees with the 24-hour hour modulo 12 (0 and 12 become 12) |
| TimeText.SkipLeadingZero | src/main.c:54 | a buffer starting with '0' is shown without that character; any other buffer is shown whole |
| TimeText.HourText | src/main.c:47-55 | 24-hour text is two digits reading back as the hour; 12-hour text is 1–2 digits, never starts with '0', reads back as the 12-hour hour, and is one digit iff that hour is below 10 |
| TimeText.HourTextExamples | src/main.c:47-55 | 0 shows "12" and 13 shows "1" in 12-hour style; 13 shows "13" and 9 shows "09" in 24-hour style |
| TimeText.HourText12Injective | src/main.c:53-54 | two hours share 12-hour text exactly when they are equal modulo 12 |
| TimeText.UtcText | src/main.c:57-59 | the UTC text is always two digits reading back as the UTC hour |
| Face.UpdateTime | src/main.c:39-66 | a tick stores hour and minute in the globals, sets the hour text (two digits in 24-hour style, no leading zero in 12-hour style) and the two-digit UTC text, and leaves both text colours alone |
| Face.Step | src/main.c:97-121 | each callback changes only its own part of the state; only a disconnected callback vibrates and only a redraw draws |
| Face.RedrawIdempotent | src/main.c:68-95 | redrawing twice with no tick in between gives the same state and identical commands |
| Face.TickThenRedraw | src/main.c:64-93 | after a tick at minute m, the next redraw has exactly m % 5 accent dots and an arc swept to 30 × m/5 degrees |
| Face.Run | src/main.c:97-121 | applying callbacks one after another from a state with in-range globals keeps the globals in range |
| Face.LastConnectionSetsDateColor | src/main.c:113-121 | after any run, the date colour is the one chosen by the last connection callback, whatever ticks, battery changes and redraws follow it |
| Face.ConnectionVibrations | src/main.c:113-121 | over any run, the vibrations the connection handler requests for the connection callbacks it sees equal the number of disconnected callbacks in the run |
| Face.RunEvents | src/main.c:97-121 | the delivery loop ends in exactly the state of applying each callback in order, keeps the globals in range, and vibrates once per disconnected callback, which is the count `Handlers.Vibrations` gives for the connection callbacks of the run |

## Left out

- Window, layer, bitmap and font creation and teardown (`main_window_load`, `main_window_unload`, `init`, `deinit`, `main`) are left out. They are platform object plumbing with no computation, so the initial text and colours they set are not modelled either.
- Service subscriptions and the event loop are left out. `Face.RunEvents` and `Face.Run` stand in for the delivery of callbacks in order.
- `time`, `localtime`, `gmtime` and `clock_is_24h_style` are left out. The hours, minute and 24-hour flag they produce are inputs (`Face.TimeSample`), and their ranges are a precondition.
- The date text (`strftime` with `%x`) is left out. It is locale-dependent and the face makes no decision based on it.
- `gpoint_from_polar`, `DEG_TO_TRIGANGLE`, `grect_inset`, `graphics_fill_circle` and `graphics_fill_radial` are left out. A draw command records the angle in degrees, the frame inset, and the radius or thickness, not pixel positions.
- `vibes_double_pulse` and `text_layer_set_text_color` are not performed. They appear as a `vibrate` flag and as colour fields of the state.
- The concrete palette colours are abstract. Yellow, red, baby-blue-eyes and cyan are configuration, not logic.
- The battery percent is taken as an unbounded integer. The platform's 8-bit field is not modelled, because the colour chain is total over all integers.
