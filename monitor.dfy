/** The application: `ServerMonitor` ties the touch panel, the inactivity
    timer and the screen index into one loop, and `_get_data` resolves a
    widget's data source against the system_info module. */
module Monitor {
  import opened PyValues
  import opened Display
  import opened Ui

  // ---------------------------------------------------------------------
  // The data-source dispatcher

  /** The function name and arguments a data source names: a string is a
      name without arguments, a dictionary gives `name` and `args`
      (default []), anything else names nothing (None). */
  function NameAndArgs(ref: DataRef): (Value, Value) {
    match ref
    case RefValue(StrV(s)) => (StrV(s), ListV([]))
    case RefDict(e) => (if "name" in e then e["name"] else NoneV, if "args" in e then e["args"] else ListV([]))
    case RefValue(_) => (NoneV, ListV([]))
  }

  /** `_get_data(data_source)`: None for a falsy source, "Error" when no
      function is named or the name is not a callable of system_info,
      "Call Error" when the call raises, else what the function returns.
      A truthy name that is not a string makes `getattr` raise TypeError. */
  function GetData(ref: DataRef, registry: Registry): Result<Value> {
    if RefFalsy(ref) then Ok(NoneV)
    else
      var (name, args) := NameAndArgs(ref);
      if Falsy(name) then Ok(StrV("Error"))
      else if !name.StrV? then Err(TypeError)
      else if name.s !in registry || registry[name.s].NotCallable? then Ok(StrV("Error"))
      else match Invoke(registry[name.s].call, args)
        case None => Ok(StrV("Call Error"))
        case Some(v) => Ok(v)
  }

  /** The cases of `_get_data`, one per kind of reference. */
  lemma GetDataCases(ref: DataRef, registry: Registry)
    ensures RefFalsy(ref) ==> GetData(ref, registry) == Ok(NoneV)
    ensures ref.RefValue? && !ref.v.StrV? ==> GetData(ref, registry) == (if Falsy(ref.v) then Ok(NoneV) else Ok(StrV("Error")))
    ensures ref.RefDict? && ref.entries != map[] && ("name" !in ref.entries || Falsy(ref.entries["name"])) ==>
              GetData(ref, registry) == Ok(StrV("Error"))
    ensures forall name :: ref == RefValue(StrV(name)) && name != "" && (name !in registry || registry[name].NotCallable?) ==>
              GetData(ref, registry) == Ok(StrV("Error"))
    ensures forall name :: ref == RefValue(StrV(name)) && name != "" && name in registry && registry[name].Callable? ==>
              GetData(ref, registry) ==
                (match registry[name].call([]) case Raised => Ok(StrV("Call Error")) case Returned(v) => Ok(v))
  {
    forall name | ref == RefValue(StrV(name)) && name != "" && name in registry && registry[name].Callable?
      ensures GetData(ref, registry) ==
                (match registry[name].call([]) case Raised => Ok(StrV("Call Error")) case Returned(v) => Ok(v))
    {
      assert NameAndArgs(ref) == (StrV(name), ListV([]));
      assert Spread(ListV([])) == Some([]);
      assert Invoke(registry[name].call, ListV([])) ==
        (match registry[name].call([]) case Raised => None case Returned(v) => Some(v));
    }
  }

  /** A dictionary source calls its function with its `args` spread as
      positional arguments; arguments that do not spread make the call
      raise, which reads as "Call Error". */
  lemma GetDataDict(entries: map<string, Value>, name: string, registry: Registry)
    requires "name" in entries && entries["name"] == StrV(name) && name != ""
    requires name in registry && registry[name].Callable?
    ensures var args := if "args" in entries then entries["args"] else ListV([]);
      GetData(RefDict(entries), registry) ==
        match Invoke(registry[name].call, args) case None => Ok(StrV("Call Error")) case Some(v) => Ok(v)
    ensures "args" in entries && Spread(entries["args"]).None? ==>
      GetData(RefDict(entries), registry) == Ok(StrV("Call Error"))
  {
    var ref := RefDict(entries);
    assert !RefFalsy(ref) by { assert "name" in ref.entries; }
    assert NameAndArgs(ref).0 == StrV(name);
  }

  // ---------------------------------------------------------------------
  // The touch state machine

  /** The state `handle_input`, `sleep_display`, `wake_up` and `run` update:
      `current_screen`, `is_sleeping`, `last_activity_time` and the level
      last given to `bl_DutyCycle`. */
  datatype AppState = AppState(screen: int, sleeping: bool, lastActivity: real, backlight: int)

  datatype Zone = LeftZone | CentreZone | RightZone

  /** The horizontal zones of a touch: left of LCD_WIDTH // 3, right of
      LCD_WIDTH - LCD_WIDTH // 3, the centre in between (both bounds
      belong to the centre). */
  function ZoneOf(uiX: int, width: int): (z: Zone)
    ensures z == LeftZone <==> 3 * (uiX + 1) <= width
    ensures z == RightZone <==> 3 * (uiX + 1) > width && 3 * (width - uiX + 1) <= width
  {
    if uiX < width / 3 then LeftZone
    else if uiX > width - width / 3 then RightZone
    else CentreZone
  }

  /** On the 240-wide panel the left zone is x < 80 and the right zone
      x > 160. */
  lemma Zones240(uiX: int)
    ensures ZoneOf(uiX, 240) == LeftZone <==> uiX < 80
    ensures ZoneOf(uiX, 240) == RightZone <==> uiX > 160
  {
  }

  /** `wake_up`. */
  function Wake(st: AppState, now: real): AppState {
    if st.sleeping then st.(sleeping := false, backlight := 100, lastActivity := now) else st
  }

  /** `sleep_display`. */
  function Sleep(st: AppState): AppState {
    if !st.sleeping then st.(sleeping := true, backlight := 0) else st
  }

  /** `handle_input` once the touch driver has reported `count` points at
      `coords`; `n` is the number of screens. A touch while sleeping only
      wakes. A touch while awake records the time, and a touch in a side
      zone steps the screen index modulo n; with no screens that modulo
      raises ZeroDivisionError after the time was recorded. */
  function OnTouch(st: AppState, count: int, coords: seq<Coord>, now: real, n: nat, width: int)
    : (AppState, Option<PyError>)
    requires count > 0 ==> |coords| >= 1
  {
    if count <= 0 then (st, None)
    else if st.sleeping then (Wake(st, now), None)
    else
      var touched := st.(lastActivity := now);
      var uiX := coords[0].y;
      match ZoneOf(uiX, width)
      case CentreZone => (touched, None)
      case LeftZone =>
        if n == 0 then (touched, Some(ZeroDivisionError))
        else (touched.(screen := (st.screen - 1) % n), None)
      case RightZone =>
        if n == 0 then (touched, Some(ZeroDivisionError))
        else (touched.(screen := (st.screen + 1) % n), None)
  }

  /** No touch point, no change. */
  lemma NoTouchNoChange(st: AppState, coords: seq<Coord>, now: real, n: nat, width: int)
    ensures OnTouch(st, 0, coords, now, n, width) == (st, None)
  {
  }

  /** A touch while sleeping wakes the panel (backlight 100, activity now)
      and does not navigate, wherever it lands. */
  lemma SleepingTouchWakes(st: AppState, count: int, coords: seq<Coord>, now: real, n: nat, width: int)
    requires st.sleeping && count > 0 && |coords| >= 1
    ensures var (after, err) := OnTouch(st, count, coords, now, n, width);
      err.None? && !after.sleeping && after.backlight == 100 && after.lastActivity == now &&
      after.screen == st.screen
  {
  }

  /** With at least one screen and an index in range, every touch keeps the
      index in range and raises nothing; a left or right touch moves it by
      one, wrapping around. */
  lemma TouchKeepsRange(st: AppState, count: int, coords: seq<Coord>, now: real, n: nat, width: int)
    requires n > 0 && 0 <= st.screen < n
    requires count > 0 ==> |coords| >= 1
    ensures var (after, err) := OnTouch(st, count, coords, now, n, width);
      err.None? && 0 <= after.screen < n &&
      (count > 0 && !st.sleeping ==> after.lastActivity == now && !after.sleeping) &&
      (count > 0 && !st.sleeping && ZoneOf(coords[0].y, width) == LeftZone ==>
         after.screen == if st.screen == 0 then n - 1 else st.screen - 1) &&
      (count > 0 && !st.sleeping && ZoneOf(coords[0].y, width) == RightZone ==>
         after.screen == if st.screen == n - 1 then 0 else st.screen + 1)
  {
    if count > 0 && !st.sleeping {
      var uiX := coords[0].y;
      match ZoneOf(uiX, width)
      case CentreZone =>
      case LeftZone => StepBack(st.screen, n);
      case RightZone => StepForward(st.screen, n);
    }
  }

  /** `(i - 1) % n` for an index in range: one back, wrapping to n - 1. */
  lemma StepBack(i: int, n: int)
    requires 0 <= i < n
    ensures (i - 1) % n == if i == 0 then n - 1 else i - 1
  {
    if i == 0 {
      assert -1 == (-1) * n + (n - 1);
    }
  }

  /** `(i + 1) % n` for an index in range: one forward, wrapping to 0. */
  lemma StepForward(i: int, n: int)
    requires 0 <= i < n
    ensures (i + 1) % n == if i == n - 1 then 0 else i + 1
  {
    if i == n - 1 {
      assert i + 1 == 1 * n + 0;
    }
  }

  /** With no screens a navigating touch while awake raises
      ZeroDivisionError. */
  lemma NoScreensNavigationFails(st: AppState, count: int, coords: seq<Coord>, now: real, width: int)
    requires !st.sleeping && count > 0 && |coords| >= 1 && ZoneOf(coords[0].y, width) != CentreZone
    ensures OnTouch(st, count, coords, now, 0, width).1 == Some(ZeroDivisionError)
  {
  }

  /** A single touch at horizontal position uiX. */
  function Tap(st: AppState, uiX: int, now: real, n: nat, width: int): AppState {
    OnTouch(st, 1, [Coord(0, uiX)], now, n, width).0
  }

  function Taps(st: AppState, uiX: int, k: nat, now: real, n: nat, width: int): AppState
    decreases k
  {
    if k == 0 then st else Tap(Taps(st, uiX, k - 1, now, n, width), uiX, now, n, width)
  }

  /** k right taps (k <= n) advance the screen by k, wrapping past n - 1. */
  lemma {:induction false} RightTapsAdvance(st: AppState, uiX: int, k: nat, now: real, n: nat, width: int)
    requires n > 0 && 0 <= st.screen < n && !st.sleeping && ZoneOf(uiX, width) == RightZone
    requires k <= n
    ensures var after := Taps(st, uiX, k, now, n, width);
      !after.sleeping && after.screen == if st.screen + k < n then st.screen + k else st.screen + k - n
    decreases k
  {
    if k > 0 {
      RightTapsAdvance(st, uiX, k - 1, now, n, width);
      var prev := Taps(st, uiX, k - 1, now, n, width);
      TouchKeepsRange(prev, 1, [Coord(0, uiX)], now, n, width);
    }
  }

  /** n right taps bring the screen back to where it was. */
  lemma RightTapsCycle(st: AppState, uiX: int, now: real, n: nat, width: int)
    requires n > 0 && 0 <= st.screen < n && !st.sleeping && ZoneOf(uiX, width) == RightZone
    ensures Taps(st, uiX, n, now, n, width).screen == st.screen
  {
    RightTapsAdvance(st, uiX, n, now, n, width);
  }

  /** A left tap then a right tap restore the screen. */
  lemma LeftThenRight(st: AppState, left: int, right: int, now: real, n: nat, width: int)
    requires n > 0 && 0 <= st.screen < n && !st.sleeping
    requires ZoneOf(left, width) == LeftZone && ZoneOf(right, width) == RightZone
    ensures Tap(Tap(st, left, now, n, width), right, now, n, width).screen == st.screen
  {
    TouchKeepsRange(st, 1, [Coord(0, left)], now, n, width);
    TouchKeepsRange(Tap(st, left, now, n, width), 1, [Coord(0, right)], now, n, width);
  }

  /** `sleep_display` is idempotent and turns the backlight off only on the
      transition into sleep; `wake_up` does nothing when awake. */
  lemma SleepWakeFacts(st: AppState, now: real)
    ensures Sleep(Sleep(st)) == Sleep(st) && Sleep(st).sleeping
    ensures Sleep(st).backlight == if st.sleeping then st.backlight else 0
    ensures Sleep(st).screen == st.screen && Sleep(st).lastActivity == st.lastActivity
    ensures !st.sleeping ==> Wake(st, now) == st
    ensures st.sleeping ==> Wake(Sleep(st), now) == st.(sleeping := false, backlight := 100, lastActivity := now)
  {
  }

  // ---------------------------------------------------------------------
  // One iteration of the main loop

  /** What one pass of `run`'s loop sees: the clock, whether the line
      typed on stdin was "s", the touch interrupt line and the two register
      reads (None for an I/O error). */
  datatype Tick = Tick(now: real, screenshotKey: bool, interrupt: bool,
                       countRead: Option<seq<bv8>>, coordRead: Option<seq<bv8>>)

  /** The coordinate read returns the four bytes it asks for. */
  predicate TickOk(t: Tick) {
    t.coordRead.Some? ==> |t.coordRead.value| == 4
  }

  /** The monitor's fixed configuration: the renderer's environment, the
      inactivity timeout, and the collaborators turning a display list into
      pixels and pixels into bytes. */
  datatype Settings = Settings(env: Env, timeout: real, rasterise: seq<DrawOp> -> seq<seq<Pixel>>, order: ByteOrder)

  /** What `show_image` puts on the bus for a drawn frame. */
  function FrameTrace(setup: Settings, ops: seq<DrawOp>): seq<Event> {
    WindowFrame(0, 0, 239, 239) + ChunkWrites(ImageToData(setup.rasterise(ops), setup.order))
  }

  datatype MState = MState(app: AppState, touch: TouchState)

  /** The new state, the frame shown (if any) and the exception raised (if
      any) of one pass. */
  datatype StepOut = StepOut(state: MState, shown: Option<seq<DrawOp>>, err: Option<PyError>)

  /** `handle_input` on the whole state: the touch driver is polled and
      its count consumed, then the touch is acted on. */
  function HandleInputSpec(setup: Settings, s: MState, t: Tick): (MState, Option<PyError>)
    requires TickOk(t)
  {
    var polled := ReadTouch(s.touch, t.interrupt, t.countRead, t.coordRead);
    var report := Report(polled);
    var (app, err) := OnTouch(s.app, report.0, report.1, t.now, |setup.env.screens|, setup.env.dims.width);
    (MState(app, polled.(pointCount := 0)), err)
  }

  /** The rest of a pass once `handle_input` returned: nothing while
      sleeping, sleep once the timeout has passed (a timeout <= 0 disables
      it), else draw the current screen and show it. */
  function AfterInputSpec(setup: Settings, s: MState, now: real): StepOut {
    if s.app.sleeping then StepOut(s, None, None)
    else if setup.timeout > 0.0 && now - s.app.lastActivity > setup.timeout then
      StepOut(s.(app := Sleep(s.app)), None, None)
    else match DrawScreenSpec(setup.env, s.app.screen)
      case Err(e) => StepOut(s, None, Some(e))
      case Ok(ops) => StepOut(s, Some(ops), None)
  }

  /** One pass of the loop: the screenshot key (whose drawing can raise),
      `handle_input`, then the rest of the pass. */
  function StepSpec(setup: Settings, s: MState, t: Tick): StepOut
    requires TickOk(t)
  {
    var shot := DrawScreenSpec(setup.env, s.app.screen);
    if t.screenshotKey && shot.Err? then StepOut(s, None, Some(shot.error))
    else
      var (handled, err) := HandleInputSpec(setup, s, t);
      if err.Some? then StepOut(handled, None, err)
      else AfterInputSpec(setup, handled, t.now)
  }

  /** Without a touch, an awake pass goes to sleep exactly when the timeout
      is positive and has passed; when it does not, it shows the current
      screen or raises what drawing it raises. */
  lemma AwakeStepSleepsIff(setup: Settings, s: MState, t: Tick)
    requires TickOk(t) && !t.screenshotKey && !t.interrupt && !s.app.sleeping
    ensures var out := StepSpec(setup, s, t);
      out.state.app.sleeping <==> setup.timeout > 0.0 && t.now - s.app.lastActivity > setup.timeout
    ensures var out := StepSpec(setup, s, t);
      !out.state.app.sleeping ==>
        out.state.app == s.app &&
        (match DrawScreenSpec(setup.env, s.app.screen)
         case Ok(ops) => out.shown == Some(ops) && out.err.None?
         case Err(e) => out.shown.None? && out.err == Some(e))
  {
  }

  /** A sleeping pass without a touch renders nothing and changes nothing
      but the consumed touch count. */
  lemma SleepingStepIdle(setup: Settings, s: MState, t: Tick)
    requires TickOk(t) && !t.screenshotKey && !t.interrupt && s.app.sleeping
    ensures var out := StepSpec(setup, s, t);
      out.shown.None? && out.err.None? && out.state.app == s.app && out.state.touch.pointCount == 0
  {
  }

  /** A pass only ever sleeps when the timeout is positive. */
  lemma StepAlwaysOn(setup: Settings, s: MState, t: Tick)
    requires TickOk(t) && setup.timeout <= 0.0 && !s.app.sleeping
    ensures !StepSpec(setup, s, t).state.app.sleeping
  {
  }

  /** The passes of `run` until one raises or the input ends (the
      KeyboardInterrupt): the final state, the frames shown in order, and
      the exception that ended the loop, if any. */
  datatype RunOut = RunOut(state: MState, frames: seq<seq<DrawOp>>, err: Option<PyError>)

  predicate TicksOk(ticks: seq<Tick>) {
    forall k :: 0 <= k < |ticks| ==> TickOk(ticks[k])
  }

  function RunSpec(setup: Settings, s: MState, ticks: seq<Tick>): RunOut
    requires TicksOk(ticks)
    decreases |ticks|
  {
    if ticks == [] then RunOut(s, [], None)
    else
      var before := RunSpec(setup, s, ticks[..|ticks| - 1]);
      if before.err.Some? then before
      else
        var out := StepSpec(setup, before.state, ticks[|ticks| - 1]);
        RunOut(out.state, before.frames + (if out.shown.Some? then [out.shown.value] else []), out.err)
  }

  /** What the shown frames put on the bus, in order. */
  function FramesTrace(setup: Settings, frames: seq<seq<DrawOp>>): seq<Event>
    decreases |frames|
  {
    if frames == [] then []
    else FramesTrace(setup, frames[..|frames| - 1]) + FrameTrace(setup, frames[|frames| - 1])
  }

  /** A run one pass longer: the pass continues from where the shorter run
      left off, and its frame, if any, goes on the bus last. */
  lemma RunSpecSnoc(setup: Settings, s: MState, ticks: seq<Tick>, i: nat)
    requires TicksOk(ticks) && i < |ticks| && RunSpec(setup, s, ticks[..i]).err.None?
    ensures var before := RunSpec(setup, s, ticks[..i]);
      var out := StepSpec(setup, before.state, ticks[i]);
      var after := RunSpec(setup, s, ticks[..i + 1]);
      after.state == out.state && after.err == out.err &&
      FramesTrace(setup, after.frames) ==
        FramesTrace(setup, before.frames) + (if out.shown.Some? then FrameTrace(setup, out.shown.value) else [])
  {
    var before := RunSpec(setup, s, ticks[..i]);
    var out := StepSpec(setup, before.state, ticks[i]);
    assert ticks[..i + 1][..i] == ticks[..i];
    assert ticks[..i + 1][i] == ticks[i];
    var frames := before.frames + (if out.shown.Some? then [out.shown.value] else []);
    assert RunSpec(setup, s, ticks[..i + 1]).frames == frames;
    if out.shown.Some? {
      assert frames[..|frames| - 1] == before.frames;
    } else {
      assert frames == before.frames;
      assert FramesTrace(setup, before.frames) + [] == FramesTrace(setup, before.frames);
    }
  }

  /** Once a pass raises, later input is never processed. */
  lemma {:induction false} RunErrorPrefix(setup: Settings, s: MState, ticks: seq<Tick>, j: nat)
    requires TicksOk(ticks) && j <= |ticks| && RunSpec(setup, s, ticks[..j]).err.Some?
    ensures RunSpec(setup, s, ticks) == RunSpec(setup, s, ticks[..j])
    decreases |ticks|
  {
    if j < |ticks| {
      var init := ticks[..|ticks| - 1];
      assert init[..j] == ticks[..j];
      RunErrorPrefix(setup, s, init, j);
    } else {
      assert ticks[..j] == ticks;
    }
  }

  /** With a timeout <= 0 the panel never sleeps, whatever the input. */
  lemma {:induction false} AlwaysOn(setup: Settings, s: MState, ticks: seq<Tick>)
    requires TicksOk(ticks) && setup.timeout <= 0.0 && !s.app.sleeping
    ensures !RunSpec(setup, s, ticks).state.app.sleeping
    decreases |ticks|
  {
    if ticks != [] {
      AlwaysOn(setup, s, ticks[..|ticks| - 1]);
      var before := RunSpec(setup, s, ticks[..|ticks| - 1]);
      if before.err.None? {
        StepAlwaysOn(setup, before.state, ticks[|ticks| - 1]);
      }
    }
  }

  /** With at least one screen the index stays in range over any input. */
  lemma {:induction false} ScreenStaysInRange(setup: Settings, s: MState, ticks: seq<Tick>)
    requires TicksOk(ticks) && |setup.env.screens| > 0 && 0 <= s.app.screen < |setup.env.screens|
    ensures 0 <= RunSpec(setup, s, ticks).state.app.screen < |setup.env.screens|
    decreases |ticks|
  {
    if ticks != [] {
      ScreenStaysInRange(setup, s, ticks[..|ticks| - 1]);
      var before := RunSpec(setup, s, ticks[..|ticks| - 1]);
      if before.err.None? {
        var t := ticks[|ticks| - 1];
        var polled := ReadTouch(before.state.touch, t.interrupt, t.countRead, t.coordRead);
        var report := Report(polled);
        TouchKeepsRange(before.state.app, report.0, report.1, t.now, |setup.env.screens|, setup.env.dims.width);
      }
    }
  }

  /** A widget whose data-source function raises shows "Call Error". */
  lemma RaisingSourceShowsCallError(registry: Registry, name: string, w: WidgetCfg, env: Env)
    requires name != "" && name in registry && registry[name].Callable? && registry[name].call([]) == Raised
    requires w.dataSource == RefValue(StrV(name)) && w.position.Some? && KindOf(w) == "static_text"
    requires forall r :: env.getData(r) == GetData(r, registry)
    ensures WidgetOps(env, w) == Ok([Text(w.position.value, "Call Error", WidgetFont(env, w), WidgetColor(env, w))])
  {
    GetDataCases(w.dataSource, registry);
  }

  // ---------------------------------------------------------------------
  // The monitor object

  class ServerMonitor {
    const disp: ST7789
    const touch: CST816D
    const uiDrawer: UIDrawer
    const screensConfig: seq<ScreenCfg>
    const inactivityTimeout: real
    /** PIL's rasterisation of a display list, and the byte order of
        `tobytes`: collaborators of the model. */
    const rasterise: seq<DrawOp> -> seq<seq<Pixel>>
    const order: ByteOrder

    var currentScreen: int
    var isSleeping: bool
    var lastActivityTime: real

    ghost predicate Valid()
      reads this, touch
    {
      touch.Valid() && uiDrawer.screensConfig == screensConfig
    }

    function Setup(): Settings {
      Settings(uiDrawer.Environment(), inactivityTimeout, rasterise, order)
    }

    function App(): AppState
      reads this, disp
    {
      AppState(currentScreen, isSleeping, lastActivityTime, disp.backlight)
    }

    function State(): MState
      reads this, disp, touch
    {
      MState(App(), touch.State())
    }

    /** `ServerMonitor()`: the drivers (the panel is initialised and
        cleared), screen 0, awake, activity at `now`, the configuration's
        timeout (default 60) and a drawer reading data through `_get_data`. */
    constructor (config: Config, fonts: map<string, Font>, registry: Registry, dims: Dims,
                 fieldFormat: FieldFormatter, rasterise: seq<DrawOp> -> seq<seq<Pixel>>,
                 order: ByteOrder, now: real)
      ensures Valid() && fresh(disp) && fresh(touch)
      ensures State() == MState(AppState(0, false, now, 100), TouchState(0, 0, 0))
      ensures disp.bus == InitTrace() + WindowFrame(0, 0, PANEL_WIDTH - 1, PANEL_HEIGHT - 1)
                          + ChunkWrites(Zeros(PANEL_WIDTH * PANEL_HEIGHT * 2))
      ensures inactivityTimeout == config.screenTimeout.GetOr(60.0)
      ensures uiDrawer.colors == config.colors && screensConfig == config.screens
      ensures uiDrawer.fonts == fonts && uiDrawer.dims == dims
      ensures forall r :: uiDrawer.getData(r) == GetData(r, registry)
    {
      var d := new ST7789();
      var t := new CST816D();
      d.Clear();
      disp := d;
      touch := t;
      currentScreen := 0;
      isSleeping := false;
      lastActivityTime := now;
      inactivityTimeout := config.screenTimeout.GetOr(60.0);
      screensConfig := config.screens;
      uiDrawer := new UIDrawer(config, fonts, r => GetData(r, registry), dims, fieldFormat);
      this.rasterise := rasterise;
      this.order := order;
    }

    /** `wake_up`. */
    method WakeUp(now: real)
      modifies this`isSleeping, this`lastActivityTime, disp`backlight
      ensures App() == Wake(old(App()), now)
      ensures currentScreen == old(currentScreen)
    {
      if isSleeping {
        isSleeping := false;
        disp.BlDutyCycle(100);
        lastActivityTime := now;
      }
    }

    /** `sleep_display`. */
    method SleepDisplay()
      modifies this`isSleeping, disp`backlight
      ensures App() == Sleep(old(App()))
    {
      if !isSleeping {
        isSleeping := true;
        disp.BlDutyCycle(0);
      }
    }

    /** `handle_input` at time `now`, given what the touch controller's
        lines and registers read. */
    method HandleInput(interrupt: bool, countRead: Option<seq<bv8>>, coordRead: Option<seq<bv8>>, now: real)
      returns (err: Option<PyError>)
      requires Valid() && (coordRead.Some? ==> |coordRead.value| == 4)
      modifies this`currentScreen, this`isSleeping, this`lastActivityTime, disp`backlight,
               touch`pointCount, touch`x, touch`y
      ensures Valid()
      ensures var polled := ReadTouch(old(touch.State()), interrupt, countRead, coordRead);
        var report := Report(polled);
        touch.State() == polled.(pointCount := 0) &&
        (App(), err) == OnTouch(old(App()), report.0, report.1, now, |screensConfig|, uiDrawer.dims.width)
    {
      touch.ReadTouchData(interrupt, countRead, coordRead);
      var pointCount, coordinates := touch.GetTouchXY();
      if pointCount > 0 {
        if isSleeping {
          WakeUp(now);
          return None;
        }
        lastActivityTime := now;
        var uiX := coordinates[0].y;
        var leftZoneXEnd := uiDrawer.dims.width / 3;
        var rightZoneXStart := uiDrawer.dims.width - uiDrawer.dims.width / 3;
        if uiX < leftZoneXEnd {
          if |screensConfig| == 0 {
            return Some(ZeroDivisionError);
          }
          currentScreen := (currentScreen - 1) % |screensConfig|;
        } else if uiX > rightZoneXStart {
          if |screensConfig| == 0 {
            return Some(ZeroDivisionError);
          }
          currentScreen := (currentScreen + 1) % |screensConfig|;
        }
      }
      err := None;
    }

    /** `take_screenshot`: draws the current screen for saving; it has no
        modifies clause, so no field of the monitor changes. */
    method TakeScreenshot() returns (image: Result<seq<DrawOp>>)
      ensures image == DrawScreenSpec(Setup().env, currentScreen)
    {
      image := uiDrawer.DrawScreen(currentScreen);
    }

    /** The part of a pass of `run`'s loop after `handle_input`. */
    method AfterInput(now: real) returns (err: Option<PyError>)
      requires Valid()
      modifies this`isSleeping, disp
      ensures Valid()
      ensures var out := AfterInputSpec(Setup(), old(State()), now);
        State() == out.state && err == out.err &&
        disp.bus == old(disp.bus) + (if out.shown.Some? then FrameTrace(Setup(), out.shown.value) else [])
    {
      if isSleeping {
        return None;
      }
      if inactivityTimeout > 0.0 && now - lastActivityTime > inactivityTimeout {
        SleepDisplay();
        return None;
      }
      var image := uiDrawer.DrawScreen(currentScreen);
      if image.Err? {
        return Some(image.error);
      }
      ghost var before := disp.bus;
      disp.ShowImage(rasterise(image.value), order);
      AppendAssoc(before, WindowFrame(0, 0, 239, 239), ChunkWrites(ImageToData(rasterise(image.value), order)));
      err := None;
    }

    /** One pass of `run`'s loop. */
    method Step(t: Tick) returns (err: Option<PyError>)
      requires Valid() && TickOk(t)
      modifies this`currentScreen, this`isSleeping, this`lastActivityTime, disp, touch`pointCount, touch`x, touch`y
      ensures Valid()
      ensures var out := StepSpec(Setup(), old(State()), t);
        State() == out.state && err == out.err &&
        disp.bus == old(disp.bus) + (if out.shown.Some? then FrameTrace(Setup(), out.shown.value) else [])
    {
      if t.screenshotKey {
        var shot := TakeScreenshot();
        if shot.Err? {
          return Some(shot.error);
        }
      }
      err := HandleInput(t.interrupt, t.countRead, t.coordRead, t.now);
      assert (State(), err) == HandleInputSpec(Setup(), old(State()), t);
      if err.Some? {
        return;
      }
      err := AfterInput(t.now);
    }

    /** Pass i of a run that started in `start` with `bus0` on the bus. */
    method StepAt(ghost start: MState, ghost bus0: seq<Event>, ticks: seq<Tick>, i: nat)
      returns (err: Option<PyError>)
      requires Valid() && TicksOk(ticks) && i < |ticks|
      requires RunSpec(Setup(), start, ticks[..i]).err.None?
      requires State() == RunSpec(Setup(), start, ticks[..i]).state
      requires disp.bus == bus0 + FramesTrace(Setup(), RunSpec(Setup(), start, ticks[..i]).frames)
      modifies this`currentScreen, this`isSleeping, this`lastActivityTime, disp, touch`pointCount, touch`x, touch`y
      ensures Valid()
      ensures var after := RunSpec(Setup(), start, ticks[..i + 1]);
        State() == after.state && err == after.err && disp.bus == bus0 + FramesTrace(Setup(), after.frames)
    {
      RunSpecSnoc(Setup(), start, ticks, i);
      ghost var before := RunSpec(Setup(), start, ticks[..i]);
      ghost var out := StepSpec(Setup(), before.state, ticks[i]);
      ghost var extra := if out.shown.Some? then FrameTrace(Setup(), out.shown.value) else [];
      err := Step(ticks[i]);
      AppendAssoc(bus0, FramesTrace(Setup(), before.frames), extra);
    }

    /** The `while True` loop of `run`: passes until one raises or the
        input ends. */
    method Loop(ticks: seq<Tick>) returns (err: Option<PyError>)
      requires Valid() && TicksOk(ticks)
      modifies this`currentScreen, this`isSleeping, this`lastActivityTime, disp, touch`pointCount, touch`x, touch`y
      ensures Valid()
      ensures var out := RunSpec(Setup(), old(State()), ticks);
        State() == out.state && err == out.err &&
        disp.bus == old(disp.bus) + FramesTrace(Setup(), out.frames)
    {
      ghost var start := State();
      ghost var bus0 := disp.bus;
      var i := 0;
      err := None;
      while i < |ticks|
        invariant 0 <= i <= |ticks| && Valid() && err.None?
        invariant RunSpec(Setup(), start, ticks[..i]).err.None?
        invariant State() == RunSpec(Setup(), start, ticks[..i]).state
        invariant disp.bus == bus0 + FramesTrace(Setup(), RunSpec(Setup(), start, ticks[..i]).frames)
      {
        err := StepAt(start, bus0, ticks, i);
        if err.Some? {
          RunErrorPrefix(Setup(), start, ticks, i + 1);
          return;
        }
        i := i + 1;
      }
      assert ticks[..i] == ticks;
    }

    /** `run`: the loop, then the `finally` turns the backlight fully on,
        whether the loop ended by an exception or by the input ending. */
    method Run(ticks: seq<Tick>) returns (err: Option<PyError>)
      requires Valid() && TicksOk(ticks)
      modifies this`currentScreen, this`isSleeping, this`lastActivityTime, disp, touch`pointCount, touch`x, touch`y
      ensures Valid()
      ensures var out := RunSpec(Setup(), old(State()), ticks);
        State() == out.state.(app := out.state.app.(backlight := 100)) && err == out.err &&
        disp.bus == old(disp.bus) + FramesTrace(Setup(), out.frames)
    {
      err := Loop(ticks);
      disp.BlDutyCycle(100);
    }
  }
}
