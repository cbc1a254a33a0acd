/**
 * The main-window controller: `createMainWindow` picks the initial geometry,
 * wires the debounced state save and installs the "Broz" menu, and
 * `configureWindow` gives every window (and, through `did-create-window`,
 * every window it opens) the new-window placement, the shortcut keys and the
 * zoom handler. Native windows are records with the state the controller
 * reads and writes; the window-state store is one saved record.
 */
module Window {
  import opened Wrappers
  import Config
  import Decimal
  import Ratio
  import Debounce
  import Url

  /** The defaults given to the window-state store. */
  const DefaultWidth: nat := 960
  const DefaultHeight: nat := 540

  /** How far down and right a window opened by a page is placed from its opener. */
  const ChildOffset: int := 50

  /** The quiet period of the debounced state save, in milliseconds. */
  const SaveDelay: nat := 500

  /** A window's position and size, as the window-state store keeps it. */
  datatype Bounds = Bounds(x: int, y: int, width: nat, height: nat)

  /** What the store hands back at start-up; a position is absent when no record exists. */
  datatype StoredState = StoredState(x: Option<int>, y: Option<int>, width: nat, height: nat)

  /** The geometry options given to `new BrowserWindow` for the main window. */
  datatype WindowOptions = WindowOptions(x: Option<int>, y: Option<int>, width: Config.Number,
                                         height: Config.Number, frame: bool)

  /** A preset of the Resize submenu. */
  datatype Size = Size(width: nat, height: nat)

  datatype MenuItem = MenuItem(title: string, size: Size)

  /** A key event as `before-input-event` reports it. */
  datatype Input = Input(control: bool, meta: bool, key: string)

  /** What a shortcut does. */
  datatype Command = GoForward | GoBack | ZoomOut | ZoomIn

  /** History actions asked of a page. */
  datatype Nav = Forward | Back

  /** The answer of the window-open handler. */
  datatype OpenResponse = Allow(bounds: Bounds)

  // ---------------------------------------------------------------------
  // Decisions that only compute

  /** The store's answer: the saved record, or the defaults with no position. */
  function Restore(record: Option<Bounds>): (s: StoredState)
    ensures record.None? ==> s == StoredState(None, None, DefaultWidth, DefaultHeight)
    ensures record.Some? ==> s == StoredState(Some(record.value.x), Some(record.value.y),
                                              record.value.width, record.value.height)
  {
    match record
    case None => StoredState(None, None, DefaultWidth, DefaultHeight)
    case Some(b) => StoredState(Some(b.x), Some(b.y), b.width, b.height)
  }

  /**
   * The main window's creation options (src/window.ts:13-21): each axis takes
   * the explicit size when one was given and the stored one otherwise,
   * independently of the other axis; the position always comes from the
   * store, and the frame from the command line.
   */
  function InitialOptions(args: Config.LaunchConfig, state: StoredState): (o: WindowOptions)
    ensures o.x == state.x && o.y == state.y && o.frame == args.frame
    ensures args.width.Some? ==> o.width == args.width.value
    ensures args.width.None? ==> o.width == Config.Num(state.width)
    ensures args.height.Some? ==> o.height == args.height.value
    ensures args.height.None? ==> o.height == Config.Num(state.height)
  {
    WindowOptions(state.x, state.y,
                  args.width.GetOr(Config.Num(state.width)),
                  args.height.GetOr(Config.Num(state.height)),
                  args.frame)
  }

  /** With no explicit size, the main window reopens exactly where and as large as it was saved. */
  lemma SavedBoundsRestored(args: Config.LaunchConfig, b: Bounds)
    requires args.width.None? && args.height.None?
    ensures InitialOptions(args, Restore(Some(b)))
         == WindowOptions(Some(b.x), Some(b.y), Config.Num(b.width), Config.Num(b.height), args.frame)
  {
  }

  /** The size the host gives a window when asked for `requested`: a number is used as it is. */
  function SizeFor(requested: Config.Number, hostChoice: nat): nat {
    match requested
    case Num(n) => n
    case NonDecimal(_) => hostChoice
  }

  /** A Resize preset's label: width, " x ", height, then the aspect ratio in parentheses. */
  function PresetLabel(s: Size): string {
    Decimal.Show(s.width) + (" x " + (Decimal.Show(s.height) + (" (" + (Ratio.GetRatio(s.width, s.height) + ")"))))
  }

  /** The label names the preset: different presets get different labels. */
  lemma PresetLabelInjective(a: Size, b: Size)
    requires PresetLabel(a) == PresetLabel(b)
    ensures a == b
  {
    var tailA := " x " + (Decimal.Show(a.height) + (" (" + (Ratio.GetRatio(a.width, a.height) + ")")));
    var tailB := " x " + (Decimal.Show(b.height) + (" (" + (Ratio.GetRatio(b.width, b.height) + ")")));
    Decimal.ShowCanonical(a.width);
    Decimal.ShowCanonical(b.width);
    Decimal.DigitsPrefix(Decimal.Show(a.width), tailA, Decimal.Show(b.width), tailB);
    Decimal.ShowInjective(a.width, b.width);
    var restA := " (" + (Ratio.GetRatio(a.width, a.height) + ")");
    var restB := " (" + (Ratio.GetRatio(b.width, b.height) + ")");
    assert Decimal.Show(a.height) + restA == tailA[3..] == tailB[3..] == Decimal.Show(b.height) + restB;
    Decimal.ShowCanonical(a.height);
    Decimal.ShowCanonical(b.height);
    Decimal.DigitsPrefix(Decimal.Show(a.height), restA, Decimal.Show(b.height), restB);
    Decimal.ShowInjective(a.height, b.height);
  }

  /** The Resize submenu: one item per preset, in order. */
  function ResizeMenu(presets: seq<Size>): (items: seq<MenuItem>)
    ensures |items| == |presets|
    ensures forall i :: 0 <= i < |presets| ==> items[i] == MenuItem(PresetLabel(presets[i]), presets[i])
  {
    seq(|presets|, i requires 0 <= i < |presets| => MenuItem(PresetLabel(presets[i]), presets[i]))
  }

  /** Distinct presets give a submenu whose labels are all distinct. */
  lemma ResizeMenuLabelsDistinct(presets: seq<Size>)
    requires forall i, j :: 0 <= i < j < |presets| ==> presets[i] != presets[j]
    ensures var items := ResizeMenu(presets);
      forall i, j :: 0 <= i < j < |items| ==> items[i].title != items[j].title
  {
    var items := ResizeMenu(presets);
    forall i, j | 0 <= i < j < |items|
      ensures items[i].title != items[j].title
    {
      if items[i].title == items[j].title {
        PresetLabelInjective(presets[i], presets[j]);
      }
    }
  }

  /** The shortcut a key event triggers: control or meta with `]`, `[`, `-` or `=`. */
  function KeyCommand(input: Input): (c: Option<Command>)
    ensures c.Some? <==> (input.control || input.meta) && input.key in {"]", "[", "-", "="}
    ensures c == Some(GoForward) <==> (input.control || input.meta) && input.key == "]"
    ensures c == Some(GoBack) <==> (input.control || input.meta) && input.key == "["
    ensures c == Some(ZoomOut) <==> (input.control || input.meta) && input.key == "-"
    ensures c == Some(ZoomIn) <==> (input.control || input.meta) && input.key == "="
  {
    if !(input.control || input.meta) then None
    else if input.key == "]" then Some(GoForward)
    else if input.key == "[" then Some(GoBack)
    else if input.key == "-" then Some(ZoomOut)
    else if input.key == "=" then Some(ZoomIn)
    else None
  }

  /** Zoom steps for a `zoom-changed` direction: one up for "in", one down for "out", none otherwise. */
  function ZoomStep(direction: string): (d: int)
    ensures direction == "in" ==> d == 1
    ensures direction == "out" ==> d == -1
    ensures direction != "in" && direction != "out" ==> d == 0
  {
    (if direction == "in" then 1 else 0) + (if direction == "out" then -1 else 0)
  }

  // ---------------------------------------------------------------------
  // Windows

  /**
   * A native window: position, size, zoom level (in steps of the handler's
   * fixed increment), the loaded address, the history actions asked of its
   * page, whether it floats on top, whether it was created with a native
   * frame, and whether `configureWindow` has wired it.
   */
  class Window {
    const frame: bool
    var x: int
    var y: int
    var width: nat
    var height: nat
    var zoom: int
    var url: string
    var navigations: seq<Nav>
    var alwaysOnTop: bool
    var configured: bool

    constructor(b: Bounds, url: string, frame: bool)
      ensures Geometry() == b && this.url == url && this.frame == frame
      ensures zoom == 0 && navigations == [] && !alwaysOnTop && !configured
    {
      x, y, width, height := b.x, b.y, b.width, b.height;
      this.url := url;
      this.frame := frame;
      zoom := 0;
      navigations := [];
      alwaysOnTop := false;
      configured := false;
    }

    function Geometry(): Bounds
      reads this
    {
      Bounds(x, y, width, height)
    }

    /** The window-open handler: every request is allowed, 50 px down and right, at this window's size. */
    function OpenHandler(): (r: OpenResponse)
      reads this
      ensures r.bounds.x - x == ChildOffset && r.bounds.y - y == ChildOffset
      ensures r.bounds.width == width && r.bounds.height == height
    {
      Allow(Bounds(x + ChildOffset, y + ChildOffset, width, height))
    }

    method SetSize(w: nat, h: nat)
      modifies this`width, this`height
      ensures width == w && height == h
    {
      width, height := w, h;
    }

    method SetPosition(px: int, py: int)
      modifies this`x, this`y
      ensures x == px && y == py
    {
      x, y := px, py;
    }

    /** The `zoom-changed` listener; a window that was never configured has none. */
    method OnZoomChanged(direction: string)
      modifies this`zoom
      ensures zoom == old(zoom) + (if configured then ZoomStep(direction) else 0)
    {
      if configured {
        if direction == "in" {
          zoom := zoom + 1;
        }
        if direction == "out" {
          zoom := zoom - 1;
        }
      }
    }

    /**
     * The `before-input-event` listener: a shortcut navigates or zooms and its
     * default handling is prevented; any other key is left alone.
     */
    method OnBeforeInput(input: Input) returns (prevented: bool)
      modifies this`navigations, this`zoom
      ensures prevented <==> configured && KeyCommand(input).Some?
      ensures navigations == old(navigations) +
        (if !configured then []
         else if KeyCommand(input) == Some(GoForward) then [Forward]
         else if KeyCommand(input) == Some(GoBack) then [Back]
         else [])
      ensures zoom == old(zoom) +
        (if !configured then 0
         else if KeyCommand(input) == Some(ZoomIn) then 1
         else if KeyCommand(input) == Some(ZoomOut) then -1
         else 0)
    {
      prevented := false;
      if configured && (input.control || input.meta) {
        if input.key == "]" {
          navigations := navigations + [Forward];
          prevented := true;
        } else if input.key == "[" {
          navigations := navigations + [Back];
          prevented := true;
        } else if input.key == "-" {
          OnZoomChanged("out");
          prevented := true;
        } else if input.key == "=" {
          OnZoomChanged("in");
          prevented := true;
        }
      }
    }
  }

  /** `configureWindow(win, args)` for the parts that change the window: wiring, and the floating level. */
  method ConfigureWindow(win: Window, top: bool)
    modifies win`configured, win`alwaysOnTop
    ensures win.configured
    ensures win.alwaysOnTop == (top || old(win.alwaysOnTop))
  {
    win.configured := true;
    if top {
      win.alwaysOnTop := true;
    }
  }

  // ---------------------------------------------------------------------
  // The application: main window, its menu and every window opened from it

  class App {
    const args: Config.LaunchConfig
    const main: Window
    const presets: seq<Size>
    const saver: Debounce.Debounced<Window>
    /** Every window the controller has created or configured. */
    var windows: set<Window>
    /** The window-state store's record. */
    var record: Option<Bounds>
    var clipboard: string
    /** Addresses handed to the system browser. */
    var browsed: seq<string>

    ghost predicate Valid()
      reads this, windows, saver
    {
      && main in windows
      && saver.Valid() && saver.delay == SaveDelay
      && (forall w :: w in windows ==> w.configured && w.alwaysOnTop == args.top)
    }

    /** The window a menu action acts on: the focused one, or the main window when none has focus. */
    function Target(focused: Window?): (w: Window)
      reads this
      ensures focused != null ==> w == focused
      ensures focused == null ==> w == main
    {
      if focused != null then focused else main
    }

    /**
     * `createMainWindow(args)`: the window opens at the stored position (or
     * where the host places it, `hostX`/`hostY`, when none is stored) with the
     * explicit size per axis or the stored one; a size that is not a number
     * leaves the choice to the host (`hostWidth`/`hostHeight`). The window
     * has a native frame exactly when `--frame` was given, and floats on top
     * exactly when `--top` was given.
     */
    constructor(args: Config.LaunchConfig, record: Option<Bounds>, presets: seq<Size>,
                hostX: int, hostY: int, hostWidth: nat, hostHeight: nat)
      ensures Valid() && fresh(main) && fresh(saver) && windows == {main}
      ensures this.args == args && this.record == record && this.presets == presets
      ensures var o := InitialOptions(args, Restore(record));
        main.Geometry() == Bounds(o.x.GetOr(hostX), o.y.GetOr(hostY),
                                  SizeFor(o.width, hostWidth), SizeFor(o.height, hostHeight))
      ensures main.frame == args.frame && main.alwaysOnTop == args.top
      ensures main.zoom == 0 && main.navigations == [] && main.url == ""
      ensures saver.pending == None
      ensures clipboard == "" && browsed == []
    {
      var o := InitialOptions(args, Restore(record));
      var w := new Window(Bounds(o.x.GetOr(hostX), o.y.GetOr(hostY),
                                 SizeFor(o.width, hostWidth), SizeFor(o.height, hostHeight)), "", o.frame);
      ConfigureWindow(w, args.top);
      var s := new Debounce.Debounced<Window>(SaveDelay);
      this.args := args;
      this.record := record;
      this.presets := presets;
      main := w;
      saver := s;
      windows := {w};
      clipboard := "";
      browsed := [];
    }

    /**
     * The first page load: the main window loads the resolved address, over
     * http when it has no scheme separator, so the address it shows always
     * has one.
     */
    method LoadStartUrl()
      modifies main`url
      ensures main.url == Url.Normalize(args.url)
      ensures Url.Contains(main.url, Url.Separator)
      ensures Url.Contains(args.url, Url.Separator) ==> main.url == args.url
    {
      main.url := Url.Normalize(args.url);
    }

    /** Saving a window's state: the store's record becomes that window's bounds. */
    method SaveState(win: Window)
      modifies this`record
      ensures record == Some(win.Geometry())
    {
      record := Some(win.Geometry());
    }

    /**
     * The host moved or resized the main window: its `resize`/`move` listener
     * calls the debounced save, which only schedules it; nothing is written.
     */
    method OnMainBoundsChanged(b: Bounds, now: int)
      requires Valid()
      modifies main`x, main`y, main`width, main`height, saver
      ensures Valid()
      ensures main.Geometry() == b
      ensures saver.pending == Some(Debounce.Pending(main, now))
      ensures saver.events == old(saver.events) + [Debounce.Called(main, now)] && saver.ran == old(saver.ran)
      ensures record == old(record)
    {
      main.SetPosition(b.x, b.y);
      main.SetSize(b.width, b.height);
      saver.Call(main, now);
    }

    /** The clock reaches `now`: a due debounced save writes the bounds of the window it was called for. */
    method OnClock(now: int)
      requires Valid()
      modifies this`record, saver
      ensures Valid()
      ensures var p := old(saver.pending);
        if p.Some? && Debounce.Due(SaveDelay, p.value, now)
        then record == Some(p.value.args.Geometry()) && saver.pending == None
        else record == old(record) && saver.pending == p
    {
      var fired := saver.Tick(now);
      if fired.Some? {
        SaveState(fired.value);
      }
    }

    /** Copy URL: the target window's address goes to the clipboard. */
    method CopyUrl(focused: Window?)
      modifies this`clipboard
      ensures clipboard == Target(focused).url
    {
      var win := Target(focused);
      clipboard := win.url;
    }

    /** Open in System Browser: the target window's address is handed to the system browser. */
    method OpenInSystemBrowser(focused: Window?)
      modifies this`browsed
      ensures browsed == old(browsed) + [Target(focused).url]
    {
      var win := Target(focused);
      browsed := browsed + [win.url];
    }

    /** A Resize preset: the target window takes exactly the preset size, and its state is saved. */
    method Resize(focused: Window?, i: nat)
      requires Valid() && i < |presets|
      requires focused != null ==> focused in windows
      modifies Target(focused)`width, Target(focused)`height, this`record
      ensures Valid()
      ensures Target(focused).width == presets[i].width && Target(focused).height == presets[i].height
      ensures record == Some(Target(focused).Geometry())
    {
      var win := Target(focused);
      win.SetSize(presets[i].width, presets[i].height);
      SaveState(win);
    }

    /**
     * Flip Size: the main window takes the target's size with width and
     * height swapped; the target's own size is what is saved.
     */
    method FlipSize(focused: Window?)
      requires Valid()
      requires focused != null ==> focused in windows
      modifies main`width, main`height, this`record
      ensures Valid()
      ensures main.width == old(Target(focused).height) && main.height == old(Target(focused).width)
      ensures record == Some(Target(focused).Geometry())
    {
      var win := Target(focused);
      var w, h := win.width, win.height;
      main.SetSize(h, w);
      SaveState(win);
    }

    /** Flip Size twice with the main window as target gives the main window its size back. */
    method FlipSizeTwice(focused: Window?)
      requires Valid()
      requires focused == null || focused == main
      modifies main`width, main`height, this`record
      ensures Valid()
      ensures main.width == old(main.width) && main.height == old(main.height)
    {
      FlipSize(focused);
      FlipSize(focused);
    }

    /**
     * Center Window: the main window moves to where the host centres it
     * (`cx`, `cy`, computed from its display), whichever window is the
     * target; the target's state is saved.
     */
    method CenterWindow(focused: Window?, cx: int, cy: int)
      requires Valid()
      requires focused != null ==> focused in windows
      modifies main`x, main`y, this`record
      ensures Valid()
      ensures main.x == cx && main.y == cy
      ensures record == Some(Target(focused).Geometry())
    {
      var win := Target(focused);
      main.SetPosition(cx, cy);
      SaveState(win);
    }

    /**
     * A page in `opener` opens a window: it is allowed, placed 50 px down and
     * right of the opener at the opener's size, and configured like its opener.
     * The handler sets no frame option, so the frame is the host's choice.
     */
    method OpenChild(opener: Window, address: string, hostFrame: bool) returns (child: Window)
      requires Valid() && opener in windows
      modifies this`windows
      ensures Valid() && fresh(child)
      ensures windows == old(windows) + {child}
      ensures child.Geometry() == opener.OpenHandler().bounds
      ensures child.configured && child.alwaysOnTop == args.top && child.frame == hostFrame
      ensures child.url == address && child.zoom == 0 && child.navigations == []
    {
      var response := opener.OpenHandler();
      child := new Window(response.bounds, address, hostFrame);
      ConfigureWindow(child, args.top);
      windows := windows + {child};
    }
  }
}
