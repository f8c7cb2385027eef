# pi-monitor, modelled in Dafny

pi-monitor drives a small ST7789 LCD with a CST816D touch panel on a
Raspberry Pi. It shows screens of system statistics described in a YAML
configuration. This project models its core and proves properties of
that model:

- **Display** (`hardware/display.py`): the ST7789 panel driver. Everything it
  writes on the SPI bus and the reset line is recorded as a trace of
  events (`Command`, `Data`, `ResetLine`). The model covers:
  - the fixed initialisation table;
  - the MADCTL orientation byte;
  - the CASET/RASET/RAMWR address window;
  - bulk writes in 4096-byte chunks;
  - the RGB888 to RGB565 pixel codec;
  - the CST816D touch driver, whose interrupt line and I2C register reads are inputs;
  - the `Screen` wrapper.
- **Ui** (`src/ui.py`): the configuration-driven renderer. `draw_screen`
  produces a display list: the `Image.new`, `rectangle`, `polygon` and
  `text` calls made on the canvas, in order. The model covers the four
  widget handlers, the type dispatch with its fallback, the navigation
  arrows and the empty-configuration diagnostic. It also covers the
  subset of `str.format` that the `dynamic_text` template uses.
- **Monitor** (`src/monitor.py`): the application.
  - `_get_data` resolves a data-source reference against the functions of
    `system_info`, given as a registry of callables.
  - The touch state machine covers wake-on-touch and left/right navigation
    modulo the screen count.
  - The inactivity timeout puts the display to sleep.
  - The `run` loop is modelled over a finite sequence of ticks, with its
    `finally` that restores the backlight.
- **Screenshots** (`generate_screenshots.py`): the developer tool's own
  `get_data`, whose sentinel is "Not Found", and the file name it derives
  for each screen. Screens are drawn one per index, in order.
- **PyValues**: the slice of Python the code relies on. It covers
  truthiness, `str()`, the values data sources return, exceptions as a
  `Result` and the data-source reference as YAML produces it.

The imperative parts keep their form:
- `ST7789`, `CST816D`, `Screen`, the canvas, `UIDrawer` and `ServerMonitor`
  are classes whose methods update their fields.
- Each method is proved against a specification function: `InitTraceAfter`,
  `ChunkWrites`, `ReadTouch`, `DrawScreenSpec`, `OnTouch`, `StepSpec` and
  `RunSpec`.
- The properties are lemmas about those functions.

The constants `LCD_WIDTH`, `LCD_HEIGHT` and `TITLE_BAR_HEIGHT` come from a
module that is not part of this model. They are a `Dims` parameter.

Several inputs make the code draw nothing or raise, and the model does
the same:
- An unknown widget type only logs; nothing is drawn for it.
- `draw_screen` has no hero-screen branch. A hero screen is drawn like any
  other, with its title and widgets.
- Several configuration and data errors raise out of `draw_screen`:
  - a widget without `position`;
  - a `line_item_with_sub` value that is not a pair;
  - a malformed template;
  - a missing `large` font.
- A navigating touch when there are no screens raises ZeroDivisionError.

The model returns these exceptions as errors.

## Model

| member | source | states |
|---|---|---|
| Display.Madctl | hardware/display.py:37-46 | the MADCTL byte has MV set exactly for 90 and 270 degrees, MX exactly for 90 and 180, MY exactly for 180 and 270; any other angle gives the 0-degree byte |
| Display.MadctlSupportedAngles | hardware/display.py:37-46 | the four supported angles select four different settings |
| Display.WindowFrame | hardware/display.py:210-223 | the 11 events of set_windows: CASET, the high and low bytes of x_start and x_end, RASET, those of y_start and y_end, then RAMWR |
| Display.Screen.SetOrientation | hardware/display.py:25-49 | set_orientation writes command 0x36 followed by exactly one data byte, the MADCTL value of the angle |
| Display.Screen.constructor | hardware/display.py:15-23 | the panel is initialised, then the orientation given (90 degrees by default) is set; the backlight is 100 and no touch is pending |
| Display.WindowRoundTrip | hardware/display.py:210-223 | for coordinates below 65536 the hi/lo bytes of set_windows recombine into the same column and row range |
| Display.WindowTooWide | hardware/display.py:210-223 | when any of the four coordinates is 65536 or more, its high "byte" is no byte, so the frame is not a readable window |
| Display.SplitCoordinate | hardware/display.py:212-213 | `v >> 8` and `v & 0xFF` are bytes and `hi * 256 + lo == v` |
| Display.ST7789.SetWindows | hardware/display.py:210-223 | set_windows appends CASET with xs and xe, RASET with ys and ye, each split into two bytes, then RAMWR |
| Display.ST7789.Command | hardware/display.py:113-115 | command appends one command byte to the bus |
| Display.ST7789.Data | hardware/display.py:117-119 | data appends one data byte to the bus |
| Display.ST7789.Reset | hardware/display.py:121-127 | reset drives the reset line high, low, high |
| Display.ST7789.Send | hardware/display.py:134-204 | a command followed by each of its parameters as a one-byte data write |
| Display.ST7789.LcdInit | hardware/display.py:129-208 | lcd_init appends the reset pulse and then the vendor command table, byte for byte |
| Display.InitTraceAfter | hardware/display.py:129-208 | the bus after lcd_init: what it held before, the reset pulse, then each command of the vendor table followed by its parameters as one-byte data writes |
| Display.InitTraceFacts | hardware/display.py:129-208 | the init sequence starts with the reset pulse and sleep-out, sets MADCTL 0x00 and 16-bit pixels (COLMOD 0x05), and ends with display-on |
| Display.ST7789.constructor | hardware/display.py:75-98 | a new driver has backlight 100 and has written exactly the init sequence |
| Display.ST7789.BlDutyCycle | hardware/display.py:100-101 | the backlight level becomes the duty cycle given |
| Display.ST7789.WriteChunks | hardware/display.py:236-239 | the loop over 4096-byte slices appends exactly the chunk writes of the buffer |
| Display.ChunkWrites | hardware/display.py:238-239 | the writes of the loop over 4096-byte slices: one write per slice, in order, none for an empty buffer |
| Display.ChunkWritesPayload | hardware/display.py:238-239 | the chunks concatenate to the whole buffer: nothing lost, added or reordered |
| Display.ChunkWritesShape | hardware/display.py:238-239 | there are ceil(len/4096) writes, each of 1 to 4096 bytes, all but the last of exactly 4096 |
| Display.LastChunk | hardware/display.py:265-266 | the last write carries what remains after the full 4096-byte writes |
| Display.ImageToData | hardware/display.py:241-256 | image_to_data: the RGB565 word of every pixel, row by row, each as two bytes in the chosen byte order |
| Display.Rgb565 | hardware/display.py:249-253 | the top five bits of the word are red >> 3, the middle six green >> 2, the low five blue >> 3 |
| Display.Rgb565Examples | hardware/display.py:249-253 | red is 0xF800, green 0x07E0, blue 0x001F, white 0xFFFF, black 0 |
| Display.WordBytes | hardware/display.py:255-256 | the two bytes of a word read back as the word in big-endian order, swapped in little-endian order |
| Display.EncodePixelsAt | hardware/display.py:241-256 | pixel k occupies exactly bytes 2k and 2k+1 of the buffer, which has 2 bytes per pixel |
| Display.EncodedWord | hardware/display.py:253-256 | each byte pair of the buffer reads back as the pixel's RGB565 word in the chosen byte order |
| Display.ImageToDataLength | hardware/display.py:241-256 | a width x height image encodes to exactly width * height * 2 bytes |
| Display.RedPixelBytes | hardware/display.py:249-256 | a red pixel is sent as F8 00 in big-endian order and as 00 F8 in little-endian order |
| Display.ST7789.ShowImage | hardware/display.py:225-239 | show_image appends the fixed window (0,0)-(239,239) and the encoded image in 4096-byte writes |
| Display.ShowImageWindowIgnoresImage | hardware/display.py:227-231 | the window does not depend on the image: a 320 x 240 frame is 153600 bytes, more than the 115200 bytes the window holds |
| Display.ST7789.Clear | hardware/display.py:258-266 | clear appends the whole-panel window and width * height * 2 zero bytes in chunks |
| Display.ClearTraceFacts | hardware/display.py:258-266 | on the 240 x 320 panel clear opens (0,0)-(239,319) and sends 153600 zero bytes in 38 writes, the last of 2048 bytes |
| Display.Screen.ShowImage | hardware/display.py:51-53 | the wrapper forwards to the panel's show_image |
| Display.Screen.Clear | hardware/display.py:67-69 | the wrapper forwards to the panel's clear |
| Display.Screen.SetBacklight | hardware/display.py:60-65 | the wrapper sets the panel's backlight level |
| Display.DecodeCoord | hardware/display.py:317-318 | the coordinate is the low nibble of the high register times 256 plus the low register, in 0..4095 |
| Display.Cap | hardware/display.py:320-321 | `min(v, 239)`: at most 239, and v itself when v <= 239 |
| Display.ReadTouch | hardware/display.py:307-325 | read_touch_data given the interrupt line and the two register reads: the count is cleared unless the interrupt is active and the count reads above 0; then the count is stored and, when the coordinate read succeeds, both coordinates are decoded and capped |
| Display.Report | hardware/display.py:327-334 | get_touch_xy's result: (count, [first point]) for a positive count, else (0, []) |
| Display.ReadTouchFacts | hardware/display.py:307-325 | stored coordinates stay in 0..239; the count is 0 iff the interrupt is idle or the count read fails or is 0; a failed coordinate read keeps the old coordinates; otherwise both are decoded and capped |
| Display.CST816D.constructor | hardware/display.py:272-292 | a new driver has no pending point at (0, 0) and has pulsed its reset line low then high |
| Display.CST816D.ResetTouch | hardware/display.py:294-298 | reset_touch drives the reset line low, then high |
| Display.CST816D.ReadTouchData | hardware/display.py:307-325 | read_touch_data updates the count and first point as ReadTouch describes, keeping coordinates in range |
| Display.CST816D.GetTouchXY | hardware/display.py:327-334 | get_touch_xy reports (count, [point]) when points are pending, else (0, []), and always clears the count |
| Display.GetTouchTwice | hardware/display.py:327-334 | reading twice reports no touch the second time |
| Display.Screen.GetTouch | hardware/display.py:55-58 | get_touch polls the controller, then reports and clears the count |
| Ui.FormatBraceFree | src/ui.py:48 | text without braces comes out of `format` unchanged |
| Ui.FormatPrefix | src/ui.py:48 | brace-free text in front of a template is copied in front of the result |
| Ui.FieldThen | src/ui.py:48 | a field is replaced, then the rest of the template is formatted; the first error wins |
| Ui.ReplaceField | src/ui.py:48 | one replacement field of `format(data=value)`: a brace in the name or a bad conversion is ValueError, an empty or numeric name IndexError, a name other than `data` KeyError, `!s` or no conversion gives str(value), `!r` and `!a` its repr; a format spec, attribute or index is handed to the formatter parameter |
| Ui.Format | src/ui.py:48 | `template.format(data=value)`: text copied, `{{` and `}}` as literal braces, a lone brace ValueError, each field replaced left to right, the first error raised |
| Ui.ReplacePlainField | src/ui.py:48 | a plain field `{data}` is `str(data)`; a numeric name raises IndexError, another name KeyError |
| Ui.FormatDataField | src/ui.py:48 | `{data}` followed by plain text gives `str(data)` followed by that text |
| Ui.FormatData | src/ui.py:48 | `{data}` between plain text is replaced by `str(data)` |
| Ui.DefaultTemplate | src/ui.py:48 | the default template `{data}` gives `str(data)` |
| Ui.FormatEscapes | src/ui.py:48 | doubled braces are literal braces |
| Ui.FormatLoneBrace | src/ui.py:48 | after brace-free text, a `}` that is not doubled raises ValueError, and so does a `{` followed by brace-free text, which no `}` closes |
| Ui.FormatOtherField | src/ui.py:48 | any field other than `data` raises KeyError (IndexError when numeric): `data` is the only argument |
| Ui.Unpack2 | src/ui.py:34 | the unpacking succeeds iff the value is falsy or has exactly two items; a falsy value gives ("N/A", "N/A") |
| Ui.LineItemLayout | src/ui.py:20-28 | the label at the position and str(value) data_x_offset (default 140) to its right on the same row, both in the widget colour |
| Ui.LineItemOps | src/ui.py:20-28 | _draw_widget_line_item: the label at the position and str(value) data_x_offset to its right in the widget colour and font; KeyError without a position; a raising fetcher raises |
| Ui.WithSubOps | src/ui.py:30-41 | _draw_widget_line_item_with_sub: label, main value, and `(sub)` sub_y_offset below in sub_color and sub_font; ValueError or TypeError when the value does not unpack into two; KeyError without a position |
| Ui.DynamicTextOps | src/ui.py:43-50 | _draw_widget_dynamic_text: the template (default `{data}`) formatted with the value, at the position; a format error or a missing position raises |
| Ui.StaticTextOps | src/ui.py:52-58 | _draw_widget_static_text: str(value) alone at the position; KeyError without a position |
| Ui.WithSubFalsy | src/ui.py:30-41 | a falsy value shows "N/A" with "(N/A)" sub_y_offset (default 20) below, in sub_color (default GRAY) |
| Ui.WithSubSentinel | src/ui.py:34 | a sentinel string such as "Error" cannot be unpacked into two values, so the widget raises ValueError |
| Ui.DynamicDefaultIsStatic | src/ui.py:43-58 | a dynamic_text widget with the default template draws what a static_text widget draws |
| Ui.ArrowsMirror | src/ui.py:64-73 | the two arrows are triangles of the same colour, mirrored about the vertical centre line |
| Ui.EmptyConfig | src/ui.py:84-86 | with no screens the image is the frame plus one RED diagnostic at (10, 10), for any index |
| Ui.PaintOrder | src/ui.py:75-100 | background, title bar, left arrow, right arrow, title, then the widgets in order; drawing fails exactly when the index is out of range, the large font is missing or a widget raises |
| Ui.NegativeIndex | src/ui.py:88 | a negative screen index counts from the end, as Python list indexing does |
| Ui.WidgetsOpsAppend | src/ui.py:94-98 | drawing a list of widgets draws its two halves in turn |
| Ui.WidgetsOpsErrorPrefix | src/ui.py:94-98 | once a widget raises, the widgets after it are not drawn |
| Ui.UnknownWidgetsIgnored | src/ui.py:60-62 | widgets of unknown type draw nothing and the screen is drawn as if they were absent |
| Ui.WidgetOps | src/ui.py:95-98 | the handler the type tag selects (default 'unknown'): one of the four drawing handlers, or nothing for any other tag |
| Ui.WidgetsOps | src/ui.py:94-98 | the widgets' drawings concatenated in declared order, or the first widget's exception |
| Ui.BaseUiOps | src/ui.py:64-73 | _draw_base_ui: a left arrow with its tip at x 10 and a right arrow with its tip at width - 10, 16 wide and 8 above and below the middle of the title bar, in the nav_buttons colour (default WHITE) |
| Ui.DrawScreenSpec | src/ui.py:75-100 | draw_screen: background, title bar and arrows; then the diagnostic when there are no screens, else the screen at the Python index (IndexError out of range), the title (AttributeError without a large font) and the widgets |
| Ui.Canvas.constructor | src/ui.py:79-80 | a new canvas holds only the background image |
| Ui.Canvas.Rectangle | src/ui.py:81 | a rectangle call is appended to the display list |
| Ui.Canvas.Polygon | src/ui.py:71-73 | a polygon call is appended to the display list |
| Ui.Canvas.Text | src/ui.py:26-28 | a text call is appended to the display list |
| Ui.UIDrawer.constructor | src/ui.py:7-18 | the drawer keeps the configuration's colours and screens, the fonts and the data fetcher |
| Ui.UIDrawer.DrawWidgetLineItem | src/ui.py:20-28 | the line_item handler draws LineItemOps or raises its error, leaving the canvas unchanged |
| Ui.UIDrawer.DrawWidgetLineItemWithSub | src/ui.py:30-41 | the line_item_with_sub handler draws WithSubOps or raises its error |
| Ui.UIDrawer.DrawWidgetDynamicText | src/ui.py:43-50 | the dynamic_text handler draws DynamicTextOps or raises its error |
| Ui.UIDrawer.DrawWidgetStaticText | src/ui.py:52-58 | the static_text handler draws StaticTextOps or raises its error |
| Ui.UIDrawer.DrawWidgetUnknown | src/ui.py:60-62 | the unknown handler draws nothing and raises nothing |
| Ui.UIDrawer.DrawWidget | src/ui.py:95-98 | the getattr dispatch on the type tag runs the matching handler, the unknown one otherwise |
| Ui.UIDrawer.DrawBaseUi | src/ui.py:64-73 | the left arrow, then the right arrow, are appended in the nav_buttons colour |
| Ui.UIDrawer.DrawWidgets | src/ui.py:94-98 | the widget loop appends each widget's drawing in order and stops with the first exception |
| Ui.UIDrawer.DrawScreen | src/ui.py:75-100 | draw_screen returns the display list DrawScreenSpec describes, or the exception it raises |
| Monitor.GetDataCases | src/monitor.py:63-93 | a falsy source gives None; no name or an unknown name gives "Error"; a raising function "Call Error"; otherwise what the function returns |
| Monitor.GetData | src/monitor.py:63-93 | _get_data: None for a falsy source; the name is the string or the dictionary's `name` with its `args`; a falsy name gives "Error"; a truthy name that is not a string makes getattr raise TypeError; a name that is not a callable "Error"; a raising call "Call Error"; else the result |
| Monitor.GetDataDict | src/monitor.py:76-78 | a dictionary source calls its function with `args` spread as arguments; arguments that do not spread give "Call Error" |
| Monitor.RaisingSourceShowsCallError | src/monitor.py:86-90 | a static_text widget whose function raises shows "Call Error" |
| Monitor.ZoneOf | src/monitor.py:134-141 | a touch is in the left zone iff x < W // 3 and in the right zone iff x > W - W // 3 |
| Monitor.Wake | src/monitor.py:150-155 | wake_up on the state: when sleeping, awake with backlight 100 and activity now; otherwise unchanged |
| Monitor.Sleep | src/monitor.py:144-148 | sleep_display on the state: when awake, sleeping with backlight 0; otherwise unchanged |
| Monitor.OnTouch | src/monitor.py:121-142 | handle_input after the poll: no point changes nothing; a touch while sleeping only wakes; else the time is recorded and a touch in the left or right zone steps the index modulo the screen count (ZeroDivisionError with no screens) |
| Monitor.Zones240 | src/monitor.py:134-141 | on the 240-wide panel the left zone is x < 80, the right zone x > 160 |
| Monitor.NoTouchNoChange | src/monitor.py:121 | with no touch point handle_input changes nothing |
| Monitor.SleepingTouchWakes | src/monitor.py:122-125 | a touch while sleeping wakes (backlight 100, activity now) and does not navigate |
| Monitor.TouchKeepsRange | src/monitor.py:127-142 | with screens and an index in range: the index stays in range, a touch records the time, a left touch steps back and a right touch steps forward with wrap-around |
| Monitor.StepBack | src/monitor.py:138 | `(i - 1) % n` with Python's floor modulo moves an index in range one back, from 0 to n - 1 |
| Monitor.StepForward | src/monitor.py:141 | `(i + 1) % n` moves an index in range one forward, from n - 1 to 0 |
| Monitor.NoScreensNavigationFails | src/monitor.py:138-141 | with no screens a navigating touch raises ZeroDivisionError |
| Monitor.RightTapsAdvance | src/monitor.py:140-141 | k right taps (k <= n) advance the index by k modulo n |
| Monitor.RightTapsCycle | src/monitor.py:140-141 | n right taps return to the starting screen |
| Monitor.LeftThenRight | src/monitor.py:137-141 | a left tap then a right tap restore the screen |
| Monitor.SleepWakeFacts | src/monitor.py:144-155 | sleep_display is idempotent and switches the backlight off only on entering sleep; wake_up does nothing when awake |
| Monitor.AwakeStepSleepsIff | src/monitor.py:166-177 | without a touch an awake pass sleeps iff the timeout is positive and has passed; otherwise it shows the current screen or raises its drawing error |
| Monitor.SleepingStepIdle | src/monitor.py:166-168 | a sleeping pass without a touch renders nothing and changes nothing |
| Monitor.StepAlwaysOn | src/monitor.py:170-173 | a timeout <= 0 never puts the display to sleep in a pass |
| Monitor.HandleInputSpec | src/monitor.py:116-142 | handle_input on the whole state: the touch driver is polled, its count consumed, and the report acted on as OnTouch |
| Monitor.AfterInputSpec | src/monitor.py:166-177 | the rest of a pass: nothing while sleeping; sleep when the timeout is positive and has passed; else draw the current screen to show it, or raise its error |
| Monitor.StepSpec | src/monitor.py:163-177 | one pass: the screenshot key's drawing (which can raise), handle_input (which can raise), then AfterInputSpec |
| Monitor.RunSpec | src/monitor.py:161-178 | the passes in order until one raises or the input ends: the final state, the frames shown and the exception that ended the loop |
| Monitor.RunSpecSnoc | src/monitor.py:162-177 | one more pass continues from the state the earlier passes left, and its frame goes on the bus last |
| Monitor.RunErrorPrefix | src/monitor.py:161-182 | once a pass raises, later input is not processed |
| Monitor.AlwaysOn | src/monitor.py:170-173 | with a timeout <= 0 the display never sleeps, over any input |
| Monitor.ScreenStaysInRange | src/monitor.py:138-141 | with at least one screen the index stays in range over any input |
| Monitor.ServerMonitor.constructor | src/monitor.py:19-37 | screen 0, awake, activity at start-up, backlight 100; the panel is initialised and cleared; the timeout defaults to 60; the drawer reads data through _get_data |
| Monitor.ServerMonitor.WakeUp | src/monitor.py:150-155 | wake_up clears sleeping, sets the backlight to 100 and records the time, only when sleeping |
| Monitor.ServerMonitor.SleepDisplay | src/monitor.py:144-148 | sleep_display sets sleeping and the backlight to 0, only when awake |
| Monitor.ServerMonitor.HandleInput | src/monitor.py:116-142 | handle_input polls and clears the touch driver and updates the state as OnTouch describes |
| Monitor.ServerMonitor.TakeScreenshot | src/monitor.py:95-98 | take_screenshot draws the current screen and changes no field of the monitor |
| Monitor.ServerMonitor.AfterInput | src/monitor.py:166-177 | after handle_input: nothing while sleeping, sleep once the timeout passed, else draw the screen and show it on the bus |
| Monitor.ServerMonitor.Step | src/monitor.py:163-177 | one pass (screenshot key, handle_input, timeout, draw and show) produces the state, frame and error StepSpec describes |
| Monitor.ServerMonitor.StepAt | src/monitor.py:162-177 | pass i of the loop extends the run's state, trace and error by one StepSpec |
| Monitor.ServerMonitor.Loop | src/monitor.py:161-178 | the while loop runs passes until one raises or the input ends, as RunSpec describes, with every shown frame on the bus in order |
| Monitor.ServerMonitor.Run | src/monitor.py:157-183 | run ends in RunSpec's state with the backlight restored to 100 by the finally, whether or not a pass raised |
| Screenshots.GetDataGenCases | generate_screenshots.py:31-39 | a falsy source gives None, a name that is not callable "Not Found", a raising function "Call Error", otherwise the result |
| Screenshots.GetDataGen | generate_screenshots.py:31-39 | the tool's get_data: None for a falsy source; a dictionary's `name` (TypeError when absent or not a string) or the string itself; AttributeError for another value; "Not Found" for a name that is not a callable; "Call Error" for a raising call; else the result |
| Screenshots.GetDataAgreement | generate_screenshots.py:31-39 | the tool's fetcher agrees with the monitor's on falsy sources and callables; says "Not Found" where the monitor says "Error"; raises TypeError or AttributeError for malformed sources the monitor reports as "Error" |
| Screenshots.LastIndexOf | generate_screenshots.py:70 | the index of the last occurrence of a character, -1 when absent |
| Screenshots.PathNameOfFile | generate_screenshots.py:70 | the name of dir/file is file |
| Screenshots.StemOfFile | generate_screenshots.py:70 | the stem of base.ext is base |
| Screenshots.PathName | generate_screenshots.py:70 | `Path(p).name`: the last path component, skipping empty and `.` components |
| Screenshots.Stem | generate_screenshots.py:70 | `Path.stem`: the name without its last suffix; a leading or trailing dot is no suffix |
| Screenshots.HeroFilename | generate_screenshots.py:69-71 | a hero screen with image dir/base.ext is saved as screen_{i}_base.png |
| Screenshots.DefaultFilenames | generate_screenshots.py:68-74 | without type, title or image a screen is named screen_{i}_screen_{i}.png; a hero screen without an image screen_{i}_hero_{i}.png |
| Screenshots.Slug | generate_screenshots.py:73 | the title keeps its length, one character for one |
| Screenshots.SlugFacts | generate_screenshots.py:73 | the title in the name has no spaces (they become underscores) and no capitals; lower-case letters and digits are kept |
| Screenshots.FilenamesDistinct | generate_screenshots.py:71-74 | two different screens never write the same file |
| Screenshots.ScreenFilename | generate_screenshots.py:67-74 | `screen_{i}_{label}.png`, the label being the image stem for a hero screen (default hero_{i}) and the slugged title otherwise (default screen_{i}) |
| Screenshots.Generate | generate_screenshots.py:64-76 | one image per screen in index order, each under its file name, drawn with the tool's fetcher; the first drawing error ends the run |

## Left out

- I/O and timing: SPI, I2C and GPIO calls, `time.sleep` delays and the PWM output. They are a trace of bus events and parameters. The backlight is an integer level 0-100, not the float `duty / 100.0`.
- PIL rasterisation, font loading and font metrics. A drawing is the display list of canvas calls. Turning it into pixels is a parameter (`rasterise`), and a font is its name and size.
- Loading config.yaml and the fonts; keyboard polling with `select` on stdin; the watchdog file observer; writing PNG files. Configuration is an already-parsed, well-typed value: every key has the type the code expects or is absent.
- The system_info module is not part of this model. Its functions are a fixed registry of callables that return a value or raise.
- The import of `st7789` and `cst816d` in src/monitor.py:11 names classes that hardware/display.py does not define under those names. The model uses the ST7789 and CST816D classes.
- The byte order of `tobytes` is native, not the big-endian order the comment claims. It is a parameter of the model.
- The timestamped file name of take_screenshot and its save are I/O; only the drawing is modelled.
- Monitor.StepSpec reads the clock once per pass. The source reads it again for the timeout test, so a pass whose touch and timeout test straddle a clock change is not modelled.
- Monitor.RunSpec: KeyboardInterrupt is modelled as the input ending between two passes. In Python it can also arrive inside a pass, for example during the `time.sleep(0.1)` after a wake-up or a page change (src/monitor.py:124, 139, 142). The index has then changed with no frame drawn, or a frame is half sent on the bus. The `finally` still restores the backlight.
- Monitor.HandleInputSpec assumes the four-byte coordinate read returns four bytes (`TickOk`); a short read that would raise IndexError is not modelled.
- Ui.UIDrawer.DrawWidgets: on an exception the canvas contents are left unspecified, because the exception discards the image.
- Ui.ReplaceField: format specs, `!r` escaping beyond single quotes, attribute and index access inside a replacement field are delegated to a parameter (`FieldFormatter`). Brackets inside a field name are not given their special brace-matching treatment. Only ASCII digits make a field name numeric; Python also takes other Unicode decimal digits as a positional index, so such a name raises IndexError in Python where the model raises KeyError.
- PyValues.Render: `repr` quoting and escapes are simplified to single quotes without escapes; dictionaries and floats returned by data sources are not modelled.
- Screenshots.Slug: only ASCII letters are lower-cased; Python's `lower()` also folds non-ASCII letters.
- Screenshots.PathName follows `PurePosixPath.name` and `PurePath.stem` as in Python up to 3.12.
- Hero-screen image scaling: src/ui.py has no hero branch, so there is nothing to model.
- main.py only starts the monitor.
