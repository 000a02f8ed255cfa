# Graphics2D: a verified model of the wrapper's control flow

Graphics2D is a small Windows library over Direct2D, DirectWrite and WIC (the
Windows Imaging Component). A process-wide, reference-counted engine holds one
Direct2D factory and one DirectWrite factory. A second, separately managed
singleton holds the WIC imaging factory. `G2DObject` binds one window to a
render target and brackets each frame with `BeginDraw` and `EndDraw`. Two free
functions load a bitmap from a file and a font collection from a font file.

This Dafny project models what that code decides:

- which native calls it issues, and in what order;
- which interface pointers it releases, under which conditions, and in which order among themselves (the releases are a separate sequence, so their place among the calls is not recorded);
- what it writes to its own fields, its globals and its out-parameters;
- what it returns.

Every native call is an oracle: its answer is a parameter. A creating call's
answer is a `Creation`, which is a failure status with a null out-pointer, or a
success status with a new object (`native.dfy`). Calls issued are collected as a
`seq<Api>`. Interface pointers released are collected as a `seq<Handle>`.

The modules are:

- `native.dfy`, module `Native`:
  - HRESULT as a signed 32-bit code, with `S_OK`, `E_FAIL` and `D2DERR_RECREATE_TARGET`;
  - `SUCCEEDED`;
  - `Ptr` and `Creation`;
  - `G2DCallback`;
  - `FirstFailure`, the first failing stage of an `if (SUCCEEDED(hr))` chain.
- `engine.dfy`, module `Engine`:
  - `_gd2a_Init` and `_gd2a_Uninit`, as the pure steps `InitStep`/`UninitStep`, plus lemmas over whole sequences of such calls;
  - the class `Globals`, holding the four globals, whose methods are proved equal to those steps;
  - `WICInitialize` and `WICUnInitialize`.
- `render.dfy`, module `Render`: the class `G2DObject` with its five fields, its constructor and destructor, `Initialize`, `Uninitialize`, `RefreshResource`, `BeginDraw`, `DrawControl`, `DrawProgressBar` and `EndDraw`. `Resize`, the accessors and `PixelAdjust` are not modelled; see "Left out".
- `loaders.dfy`, module `Loaders`: `LoadBitmapFromFile` and `CreateFontCollectionFromFile`.
  - Each is an imperative method whose result is stated against the first failing stage `k` of its oracle answers.
  - Lemmas derive the caller-visible consequences, such as the two-call size-query protocol.
- `window.dfy`, module `Window`: the `CreateCentralWindow` and `CreateCentralWindowEx` macros, with C++ truncating division.

The source's behaviours worth knowing about are modelled as written:

- **Engine start-up failure.** When DirectWrite factory creation fails after the Direct2D factory succeeded, `_gd2a_Init` throws. The counter stays 0 and the Direct2D factory stays stored. The following `_gd2a_Uninit` returns early, so that factory is never released (`Engine.FailedInitIsNotUndone`).
- **Font size check.** `CreateFontCollectionFromFile` runs its size check regardless of earlier failures. With `*BufSize == 0`, an earlier failure's status is replaced by `E_FAIL` and the size is set to 1 (`Loaders.EarlyFailureStatus`).
- **`len + 1` wraps.** The size written is `len + 1` in 32-bit unsigned arithmetic (`Loaders.RequiredSize`).
- **`EndDraw` status.** `EndDraw` reports true for every end-of-frame status other than `D2DERR_RECREATE_TARGET`, failing ones included.
- **`DrawControl` refusal.** `DrawControl` refuses only text without a text format.

## Model

| member | source | states |
|---|---|---|
| Native.FirstFailure | Graphics2D/Graphics2D.cpp:286-294 | the first failing stage of a SUCCEEDED chain: every earlier stage succeeded and that one failed, or the chain length when none fails |
| Native.FirstFailureIs | Graphics2D/Graphics2D.cpp:286-294 | the first failing stage is unique: any index with that characterisation is FirstFailure |
| Engine.InitStep | Graphics2D/Graphics2D.cpp:12-27 | at counter 0, CoInitialize, then the graphics factory, then the write factory only if the first gave S_OK; raises exactly when one of them is not S_OK, before counting; otherwise the counter goes up by one; pointers written before a raise stay written; never releases; preserves "factories present while counter positive" |
| Engine.UninitStep | Graphics2D/Graphics2D.cpp:29-41 | a no-op at 0; otherwise one fewer; on reaching 0 releases each non-null factory and nulls both; preserves the engine invariants |
| Engine.StepBalanced | Graphics2D/Graphics2D.cpp:12-41 | one successful Init or a non-underflowing Uninit moves the counter by one and creates a factory exactly when the counter comes alive, releasing one exactly when it dies |
| Engine.RunBalanced | Graphics2D/Graphics2D.cpp:7-41 | over any nested sequence of successful Inits and Uninits: no raise, the counter equals Inits minus Uninits, factories present exactly while the counter is positive, creations equal releases up to the one alive at either end |
| Engine.InitsThenUninits | Graphics2D/Graphics2D.cpp:7-41 | n successful Inits then n Uninits from the initial state restore counter 0 with both factories null and release every factory created |
| Engine.UninitsToZero | Graphics2D/Graphics2D.cpp:29-41 | n Uninits from counter n issue nothing and release exactly the two stored factory objects, once each |
| Engine.LiveInitsThenUninits | Graphics2D/Graphics2D.cpp:12-41 | on a live engine, further Inits only count, and the Uninits that bring the counter to 0 release exactly the stored factory objects |
| Engine.InitsThenUninitsReleaseStored | Graphics2D/Graphics2D.cpp:12-41 | n successful Inits then n Uninits issue CoInitialize and the two factory creations once, and release exactly the two objects the first Init stored, graphics factory first |
| Engine.FailedInitIsNotUndone | Graphics2D/Graphics2D.cpp:17-36 | a write-factory failure after a successful graphics factory raises at counter 0 with the graphics factory stored, and the next Uninit releases nothing |
| Engine.Globals.constructor | Graphics2D/Graphics2D.cpp:7-10 | counter 0 and all three factory pointers null |
| Engine.Globals.Init | Graphics2D/Graphics2D.cpp:12-27 | the new globals, the raise and the calls issued are exactly those of InitStep on the old globals; keeps the engine invariant |
| Engine.Globals.Uninit | Graphics2D/Graphics2D.cpp:29-41 | the new globals and the releases are exactly those of UninitStep on the old globals; keeps the engine invariant |
| Engine.Globals.WICInitialize | Graphics2D/Graphics2D.cpp:210-219 | an existing imaging factory is kept and nothing is called; otherwise CoCreateInstance's out-pointer is stored, its status ignored |
| Engine.Globals.WICUnInitialize | Graphics2D/Graphics2D.cpp:221-225 | the imaging factory is released when present and is null afterwards |
| Render.FillCalls | Graphics2D/Graphics2D.cpp:124-133 | a bitmap is drawn when given; otherwise a solid brush is created, the rectangle filled with it, and the brush released, in that order |
| Render.G2DObject.constructor | Graphics2D/Graphics2D.cpp:43-50 | all four pointers null, the scale taken from the system DPI |
| Render.G2DObject.Destroy | Graphics2D/Graphics2D.cpp:52-55 | releases exactly the render target, if any, and nothing of the engine |
| Render.G2DObject.Initialize | Graphics2D/Graphics2D.cpp:57-65 | joins the engine as InitStep says, issuing InitStep's calls and then, unless it raised, GetClientRect and CreateHwndRenderTarget; on a raise the object is untouched; otherwise window, shared factories and window DPI are bound and the target is rebuilt, with the old target released |
| Render.G2DObject.Uninitialize | Graphics2D/Graphics2D.cpp:67-79 | calls a given callback once; nulls window, target and factory; zeroes the scale; keeps the write factory; releases the old target plus what UninitStep releases |
| Render.G2DObject.RefreshResource | Graphics2D/Graphics2D.cpp:91-107 | releases the old target, issues GetClientRect and CreateHwndRenderTarget, stores the new target and returns true exactly when creation did not fail |
| Render.G2DObject.BeginDraw | Graphics2D/Graphics2D.cpp:109-118 | always runs BeginPaint/EndPaint; true and the target's BeginDraw exactly when there is a target |
| Render.G2DObject.DrawControl | Graphics2D/Graphics2D.cpp:120-141 | false with nothing drawn exactly when text is given without a format; otherwise the calls are exactly the background fill followed, when text is given, by create brush, draw text, release brush |
| Render.G2DObject.DrawProgressBar | Graphics2D/Graphics2D.cpp:143-166 | always true; fills background then progress part, each from its bitmap or a released brush |
| Render.G2DObject.EndDraw | Graphics2D/Graphics2D.cpp:168-178 | no target: false; a status other than RECREATE_TARGET: true with the target kept; RECREATE_TARGET: the calls are the target's EndDraw, then the callback once if given, then, unless it declined, GetClientRect and CreateHwndRenderTarget; a declining callback gives false with the target kept; otherwise RefreshResource's result, target and release |
| Loaders.LoadBitmapFromFile | Graphics2D/Graphics2D.cpp:227-276 | no imaging factory: E_FAIL and nothing else; otherwise the stages run through the first failing one, whose status is returned; decoder, frame and converter are released exactly when acquired, in that order; only the last stage writes the out-parameter; success exactly when all five stages succeed, leaving a bitmap |
| Loaders.BitmapRanLoaded | Graphics2D/Graphics2D.cpp:231-275 | the state after the chain, read against the first failing stage k: status, calls, out-parameter and releases |
| Loaders.BitmapReleases | Graphics2D/Graphics2D.cpp:272-274 | the three conditional releases are exactly the handles acquired before stage k |
| Loaders.CreateFontCollectionFromFile | Graphics2D/Graphics2D.cpp:278-309 | the stages run through the first failing one; the size check then replaces a too-small size by len + 1 and forces E_FAIL; GetString alone writes the buffer; the intermediates are released exactly when acquired, in the source's order; the collection is released on failure and written out only on success; success exactly when all eight stages succeed, the buffer exceeds the length and GetString succeeds |
| Loaders.FontChain | Graphics2D/Graphics2D.cpp:286-294 | every stage runs only while all earlier ones succeeded; the locals and len hold what the stages that ran wrote |
| Loaders.FontRanLoaded | Graphics2D/Graphics2D.cpp:295-307 | the state after size check, GetString, releases and out-write, read against the first failing stage k |
| Loaders.ChainEnd | Graphics2D/Graphics2D.cpp:293-294 | what the chain leaves for the size check: the failing status and the calls so far, and len is 0 unless GetStringLength ran |
| Loaders.FontChecked | Graphics2D/Graphics2D.cpp:295-300 | the size check and GetString: status, calls, size, buffer and collection out-parameter against stage k |
| Loaders.FontReleases | Graphics2D/Graphics2D.cpp:301-306 | the five conditional releases are exactly the intermediates acquired before stage k, and the collection is held exactly when its stage ran |
| Loaders.RequiredSize | Graphics2D/Graphics2D.cpp:297 | len + 1 as a 32-bit unsigned value: len + 1 below the maximum, 0 at the maximum |
| Loaders.SizeQueryRoundTrip | Graphics2D/Graphics2D.cpp:295-300 | a buffer not above the name length fails with E_FAIL, leaves buffer and collection alone and reports len + 1; a second call with that size reads the name and on success hands out the collection |
| Loaders.FailedQueryReleasesCollection | Graphics2D/Graphics2D.cpp:290-306 | a call that fails at or after GetFontFamily (first failing stage k > 4, or a failing size check or GetString) releases the collection it built |
| Loaders.EarlyFailureStatus | Graphics2D/Graphics2D.cpp:293-299 | a failure before GetStringLength returns that stage's status unless the size is 0, in which case E_FAIL and size 1 replace it; nothing is written out |
| Window.Half | Graphics2D/Graphics2D.h:26 | C++ division by 2, truncating toward zero: the remainder has the dividend's sign |
| Window.HalfVersusEuclidean | Graphics2D/Graphics2D.h:26 | truncating and Euclidean halving differ exactly on negative odd numbers, by one |
| Window.CentralOrigin | Graphics2D/Graphics2D.h:26-27 | the offset leaves margins that differ by at most one, and is negative exactly when the size exceeds the screen by two or more |
| Window.CreateCentralWindow | Graphics2D/Graphics2D.h:23-28 | extended style 0, every other argument forwarded, the position the truncated (screen - size) / 2 of CentralOrigin on each axis, so the window is centred to within one pixel |
| Window.CreateCentralWindowEx | Graphics2D/Graphics2D.h:29-34 | the same call as CreateCentralWindow with the given extended style |

## Left out

- Floating point: the DPI scale is the opaque `Scale` value. The value `USER_DEFAULT_SCREEN_DPI / dpi`, `PixelAdjust` (Graphics2D.cpp:205-208) and the progress-bar width (`Rect.right` at line 155) are not computed, because they are float arithmetic.
- `Resize` (Graphics2D.cpp:81-89) is not modelled: it only forwards to the render target's own `Resize`, a native call with no result.
- `LoadBitmapFromResource` is declared in Graphics2D.h:71 but has no body in Graphics2D.cpp, so there is nothing to model.
- The accessors `hWnd()`, `Factory()`, `Target()`, `WriteFactory()` and `DpiScale()` (Graphics2D.cpp:180-203) are not separate members: they return a field, and the model's callers read the Dafny field directly.
- File paths, rectangles, colours, the text string's content, render-target properties and the pointers passed only to native calls are not represented, because the wrapper hands them to native calls without inspecting them.
- `Render.G2DObject.RefreshResource` requires a drawing factory, and `Render.G2DObject.DrawControl` and `Render.G2DObject.DrawProgressBar` require a render target (when they draw). The source dereferences these pointers unconditionally (Graphics2D.cpp:96, 126-137, 147-163), so calling them without one is undefined behaviour and is not modelled.
- `Render.G2DObject.DrawControl` and `Render.G2DObject.DrawProgressBar`: every `CreateSolidColorBrush` is assumed to succeed. In the source a failed creation leaves the brush null, and the code then uses it and calls `Release` on it (Graphics2D.cpp:130-132, 136-138, 150-152, 160-162), which is undefined behaviour. The "true" these methods return is promised only on that assumption.
- The DPI values from `GetDpiForSystem` and `GetDpiForWindow` are inputs to the constructor and to `Initialize`, not recorded calls.
- Native answers are parameters. A failing creation is assumed to leave its out-pointer null, the COM convention.
- The callbacks' own side effects are not modelled; only whether one is present and what it answers for a null argument.
- `Engine.Globals.Init`: `_gd2a_counter` is an `unsigned long long`, modelled as an unbounded `nat`, so the wrap-around after 2^64 increments is not modelled.
- `Window.CreateCentralWindow`: `GetSystemMetrics(...) - nWidth` in `int` is modelled with unbounded integers, so 32-bit overflow of the subtraction is not modelled.
- The C++ exception thrown by `_gd2a_Init` is the `raised` result. Its propagation through `G2DObject::Initialize` is the early return. What a caller does with it is not modelled.
- Threads: the source's globals are unsynchronised; the model is single-threaded.
- The deleted copy constructor and copy assignment (Graphics2D.h:43-44) are captured only by Dafny's reference semantics for classes. No copy operation exists to call.
- The `G2D_EXPORT` import/export macros (Graphics2D.h:13-21) have no behaviour to model.
- `CoUninitialize` is commented out in the source and is not issued by the model either.
