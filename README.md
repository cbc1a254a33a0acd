# broz, modelled in Dafny

broz is a small desktop launcher that opens one frameless browser window on a
web address. This project models the decision rules at its core and proves
their properties:

- the launch configuration drawn from the command line (`resolveConfig`);
- the address rule applied before the first page load;
- the aspect-ratio text `getRatio` prints, with its Euclidean `gcd`;
- the trailing-edge `debounce` that coalesces window-state saves;
- the window controller:
  - initial geometry taken from the command line or the saved state;
  - placement of windows opened by a page;
  - the shortcut keys and the zoom handler;
  - the "Broz" menu, whose actions act on the focused window or, when none is focused, on the main window;
  - the recursive configuration of every window a page opens.

Modules, one per concern:

| module | file | models |
|---|---|---|
| `Wrappers` | wrappers.dfy | `Option` |
| `Decimal` | decimal.dfy | JavaScript's printing of a whole number and `Number()` on a string of decimal digits, both exact (see "Left out" for the limits of doubles) |
| `Ratio` | ratio.dfy | `getRatio` and its inner `gcd` (src/utils.ts) |
| `Debounce` | debounce.dfy | `debounce` (src/utils.ts): a pure run over a trace of calls and clock events, and a `Debounced` class whose pending slot is `timeoutID` |
| `Config` | config.dfy | `resolveConfig` (src/config.ts) |
| `Url` | url.dfy | the `://` rule before `loadURL` (src/index.ts) |
| `Window` | window.dfy | `createMainWindow` and `configureWindow` (src/window.ts): a `Window` class for native windows and an `App` class for the main window, its menu, the saved-state record and the debounced saver |

Timers are logical. `Call(args, now)` is a call to the debounced wrapper.
`Tick(now)` means the clock has reached `now`, and a due timer fires. Native
windows are objects that hold the state the controller reads and writes:
position, size, zoom level, address, history actions and always-on-top. The
window-state store is one saved `Bounds` record.

Two menu actions are modelled as written:

- "Flip Size" reads the size of the focused window (or the main window's) but always resizes the main window (src/window.ts:69-71).
- "Center Window" always centres the main window, whichever window has focus (src/window.ts:78-79).
- In both actions, the state that is saved is the target window's (src/window.ts:72, 80).

## Model

| member | source | states |
|---|---|---|
| `Decimal.Show` | src/utils.ts:16 | computes the decimal numeral of a whole number, most significant digit first (no contract; its properties are the lemmas below) |
| `Decimal.Parse` | src/config.ts:7-8 | computes the value of a string of decimal digits, the empty string giving 0 (no contract; see `ParseShow`, `ShowParse`) |
| `Decimal.ShowCanonical` | src/utils.ts:16 | a printed whole number is a non-empty string of digits with no leading zero unless it is "0" |
| `Decimal.ParseShow` | src/config.ts:7-8 | `Number()` of a printed whole number gives that number back |
| `Decimal.ShowParse` | src/config.ts:7-8 | printing the number a canonical numeral denotes gives the numeral back |
| `Decimal.ShowInjective` | src/utils.ts:16 | two whole numbers print the same text exactly when they are equal |
| `Ratio.Gcd` | src/utils.ts:14 | Euclid's algorithm terminates; the result is 0 exactly when both arguments are 0, and never exceeds a positive second argument |
| `Ratio.GetRatio` | src/utils.ts:13-17 | computes both sides divided by their `gcd`, joined by ":" ("NaN:NaN" for two zero sides); no contract of its own, see the lemmas below |
| `Ratio.GcdDivides` | src/utils.ts:14 | the inner `gcd` is 0 exactly when both sides are 0; otherwise it divides both sides |
| `Ratio.GcdGreatest` | src/utils.ts:14 | every common divisor of the two sides divides their `gcd`, so it is the greatest |
| `Ratio.GcdBase` | src/utils.ts:14 | `gcd(a, 0) == a` (the base case) and `gcd(a, a) == a` |
| `Ratio.GcdScale` | src/utils.ts:14 | `gcd(k*a, k*b) == k * gcd(a, b)` |
| `Ratio.ReducedExact` | src/utils.ts:15-16 | when a side is positive, `r = gcd` is positive and `width / r` and `height / r` are whole numbers that scale back to the sides |
| `Ratio.ReducedCoprime` | src/utils.ts:14-16 | the two printed parts are coprime |
| `Ratio.ReducedProportional` | src/utils.ts:16 | the printed parts keep the proportion: `(width/r) * height == (height/r) * width` |
| `Ratio.LowestTermsUnique` | src/utils.ts:13-17 | for positive sides, any coprime pair in the sides' proportion is exactly the pair `getRatio` prints |
| `Ratio.GetRatioParts` | src/utils.ts:15-16 | for positive sides the text is `width/r`, then ":", then `height/r`, printed as decimal numerals |
| `Ratio.RatioTextInjective` | src/utils.ts:16 | a "p:q" text determines both p and q |
| `Ratio.SameRatioText` | src/utils.ts:13-17 | two sizes with positive sides print the same ratio exactly when they are in the same proportion (`w1*h2 == w2*h1`) |
| `Ratio.GetRatioEdges` | src/utils.ts:14-16 | equal positive sides give "1:1"; a zero side gives "1:0" or "0:1"; two zero sides give "NaN:NaN" |
| `Debounce.Step` | src/utils.ts:3-9 | computes one event: a call replaces the pending slot; a clock event runs the pending call when it is due and empties the slot (no contract; see the lemmas below) |
| `Debounce.Run` | src/utils.ts:1-11 | computes a run over a trace of events: the final slot and every invocation of `fn`, in order (no contract; see the lemmas below) |
| `Debounce.RunAppend` | src/utils.ts:3-10 | running two traces in turn is running their concatenation |
| `Debounce.PendingIsLatestCall` | src/utils.ts:4-7 | the one invocation that can be pending after a trace is that trace's latest call |
| `Debounce.RunsAtMostOncePerCall` | src/utils.ts:4-9 | invocations run plus the pending one never exceed the calls made |
| `Debounce.CallOnlySchedules` | src/utils.ts:3-9 | a call never runs `fn`; it replaces the pending invocation with its own arguments and time |
| `Debounce.ClockRunsLatestCall` | src/utils.ts:7-9 | when the clock advances, `fn` runs exactly when a call is pending and `delay` has passed since it, and it runs with the latest call's arguments |
| `Debounce.QuietRunsNothing` | src/utils.ts:4-9 | while no clock event reaches the due time, nothing runs and the latest call stays pending |
| `Debounce.BurstRunsOnce` | src/utils.ts:1-11 | calls with less than `delay` between them, then the clock reaching `delay` after the last one, run `fn` exactly once, with the last call's arguments |
| `Debounce.Debounced.constructor` | src/utils.ts:2 | a new wrapper has nothing pending |
| `Debounce.Debounced.Call` | src/utils.ts:3-10 | the wrapper's state stays consistent with the trace semantics; the pending slot holds exactly this call; nothing runs |
| `Debounce.Debounced.Tick` | src/utils.ts:7-9 | fires exactly when the pending call is due; the fired arguments are the latest call's; firing empties the slot, and otherwise the slot is unchanged |
| `Config.ToNumber` | src/config.ts:7-8 | computes `Number()` of an option: a number as it is, a digit string as its value, any other text kept as `NonDecimal` (no contract; see `NumeralOptionResolves`) |
| `Config.OptionalNumber` | src/config.ts:7-8 | absent when the option is absent, "" or 0; otherwise `Number()` of the option |
| `Config.ResolveConfig` | src/config.ts:3-11 | the url is never empty: a non-empty url is kept, otherwise it is the project page. `top` and `frame` are true exactly when the flag was given as true. `height` and `width` are each resolved from their own option |
| `Config.NumeralOptionResolves` | src/config.ts:7-8 | a size typed as a decimal numeral resolves to that number, and the other axis does not depend on it |
| `Config.Examples` | src/config.ts:3-11 | a bare launch and "example.com --top --width 800" resolve as spelled out |
| `Url.Contains` | src/index.ts:31 | computes whether one string occurs in another, as `includes` does (no contract; see `ContainsAt`, `Normalize`) |
| `Url.Normalize` | src/index.ts:31-33 | the loaded address always contains "://". An address that has it is unchanged. One without it becomes "http://" followed by the address, 7 characters longer. The original address is always a suffix |
| `Url.NormalizeIdempotent` | src/index.ts:31-33 | normalising twice is normalising once |
| `Url.DefaultUrlLoadsUnchanged` | src/config.ts:5 | the fallback address already has a scheme, so it is loaded as it is |
| `Window.Restore` | src/window.ts:8-11 | the store gives back the saved bounds, or 960 x 540 with no position when nothing is saved |
| `Window.InitialOptions` | src/window.ts:13-21 | each axis takes the explicit size if one was given, else the stored one, independently; x, y always come from the store |
| `Window.SavedBoundsRestored` | src/window.ts:8-17 | with no explicit size, the main window reopens exactly at the saved bounds |
| `Window.SizeFor` | src/window.ts:16-17 | computes the size a window gets for a requested size: a number is used as it is, anything else leaves the choice to the host (no contract) |
| `Window.PresetLabel` | src/window.ts:58 | computes a preset's label: width, " x ", height, then the ratio in parentheses (no contract; see `PresetLabelInjective`) |
| `Window.PresetLabelInjective` | src/window.ts:58 | different presets get different labels "{w} x {h} ({ratio})" |
| `Window.ResizeMenu` | src/window.ts:55-64 | one submenu item per preset, in order, labelled "{w} x {h} ({getRatio(w, h)})" |
| `Window.ResizeMenuLabelsDistinct` | src/window.ts:56-58 | a list of distinct presets gives a submenu with distinct labels |
| `Window.KeyCommand` | src/window.ts:124-143 | with control or meta held, "]" means forward, "[" back, "-" zoom out and "=" zoom in; no other input is a shortcut |
| `Window.ZoomStep` | src/window.ts:149-156 | "in" is one step up, "out" one step down, any other direction no change |
| `Window.Window.constructor` | src/window.ts:13-22 | a new window has the given bounds, address and frame, zoom 0, no history actions, does not float on top, and is not yet configured |
| `Window.Window.OpenHandler` | src/window.ts:110-122 | every window-open request is allowed, at the opener's position plus (50, 50), with exactly the opener's size |
| `Window.Window.SetSize` | src/window.ts:61 | the window takes exactly the given size |
| `Window.Window.SetPosition` | src/window.ts:79 | the window moves exactly to the given position |
| `Window.Window.OnZoomChanged` | src/window.ts:149-156 | a configured window's zoom moves by `ZoomStep(direction)`; nothing else changes |
| `Window.Window.OnBeforeInput` | src/window.ts:124-143 | default handling is prevented exactly for the four shortcuts. Forward and back are recorded as history actions; zoom keys move the zoom by one step; any other key changes nothing |
| `Window.ConfigureWindow` | src/window.ts:158-159 | the window is wired, and `--top` makes it always-on-top; without it the floating level is left as it was |
| `Window.App.Target` | src/window.ts:40 | the focused window if there is one, else the main window |
| `Window.App.constructor` | src/window.ts:7-31 | the main window opens at the stored position (or the host's) with the per-axis size. It has a frame exactly when `--frame` was given and floats on top exactly when `--top` was given. It is configured, the saver has nothing pending and the store's record is unchanged |
| `Window.App.LoadStartUrl` | src/index.ts:30-34 | the main window loads the resolved url, normalised: it always contains "://", and a url that already has one is loaded unchanged |
| `Window.App.SaveState` | src/window.ts:62 | the saved record becomes exactly the window's bounds |
| `Window.App.OnMainBoundsChanged` | src/window.ts:25-31 | a move or resize of the main window only schedules a save of it: the saver records one call for the main window and runs nothing, the record is not written, and no other state of the main window changes |
| `Window.App.OnClock` | src/window.ts:25-28 | when the scheduled save is due, the record becomes the bounds of the window it was scheduled for; otherwise nothing changes |
| `Window.App.CopyUrl` | src/window.ts:37-43 | the clipboard receives the target window's address |
| `Window.App.OpenInSystemBrowser` | src/window.ts:44-50 | the target window's address is handed to the system browser |
| `Window.App.Resize` | src/window.ts:59-63 | the target window takes exactly the preset size, and its bounds are saved |
| `Window.App.FlipSize` | src/window.ts:66-74 | the main window takes the target's size with width and height swapped; the target's bounds are saved |
| `Window.App.FlipSizeTwice` | src/window.ts:66-74 | with the main window as target, flipping twice restores its size |
| `Window.App.CenterWindow` | src/window.ts:75-82 | the main window moves to the centred position whatever the target; the target's bounds are saved |
| `Window.App.OpenChild` | src/window.ts:145-147 | a window opened by a page is placed by its opener's handler and configured like it; it floats on top exactly when `--top` was given, so every window reachable from the main one is configured and floats exactly when the main one does |

## Left out

- Electron itself is not modelled. `BrowserWindow`, `Menu`, `clipboard`, `shell` and `webContents` navigation are foreign calls. Windows are objects, page history is a log of forward/back actions, the clipboard is a field, and the system browser is a list of handed-over addresses.
- electron-window-state is reduced to one saved record. The on-disk format, `manage` and clamping to visible displays are library internals.
- `center()` is not modelled. Its result depends on display geometry, so the centred position is a parameter of `CenterWindow`.
- A size option that is not a number (`--width abc`) leaves the size to the host. This is a parameter of the `App` constructor.
- `Window.Window.OnZoomChanged`: the zoom factor is a float moved by 0.15 and clamped by the host. The model counts whole steps.
- `Decimal.Show`, `Decimal.Parse`, `Decimal.ParseShow`, `Decimal.ShowParse`, `Decimal.ShowCanonical`: numbers are exact for every size. JavaScript's doubles hold whole numbers exactly only below 2^53 (`Number("9007199254740993")` is 9007199254740992) and print them as plain digits only below 1e21. The model agrees with JavaScript only below those bounds, which every window size is.
- `Config.ResolveConfig`: `Number()` is exact only on strings of decimal digits. Any other text (signs, fractions, hexadecimal, whitespace, NaN) resolves to `NonDecimal`, with its value not modelled.
- `Ratio.GetRatio` takes whole non-negative sides only. Negative or fractional sizes and floating-point division are not modelled. For two zero sides it prints "NaN:NaN", as JavaScript's 0/0 does.
- `setTimeout` and `clearTimeout` are not modelled as wall-clock time. They become logical `Tick(now)` events, and a due timer fires at the first tick at or after its due time.
- `Window.App.FlipSize`, `Window.App.Resize`, `Window.App.CenterWindow`: the host's own `resize`/`move` events, which a menu's `setSize` or `center` triggers, are not fed back into the debounced saver.
- `Window.Window.OnBeforeInput`: the event type (key down or key up) is not modelled; every reported input is handled.
- The draggable hotspot and the scrollbar CSS injected on `dom-ready` are not modelled. They are cosmetic DOM changes inside the page.
- Command-line parsing is not modelled: `cac`, `app.setName`, `window-all-closed`, `app.whenReady` and the exit on a failed load.
- A page's own navigations are not modelled. The loaded address changes only through `LoadStartUrl`.
- A page-opened window's frame is the host's choice, because the open handler sets no frame option. It is a parameter of `OpenChild`.
- The application menu may be absent (`menu?.insert`). The model always installs the menu.
- preload.js is an IPC bridge with no logic.
- bin/broz.js and broz.js are process-spawning shims.
- build.config.ts is build configuration.
- index.js, the older launcher, is not part of this model. It matches keys after lowercasing them, has no zoom shortcuts, and derives `frame` from the platform.
- The preset sizes (`WINDOW_SIZES`) and the `CommandOptions` type are not part of this model. The presets are a parameter of the `App` constructor.
