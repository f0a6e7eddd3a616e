/**
 * The application's frame and reload lifecycle: the creation and teardown
 * order of the render target, the overlay and the block, the window
 * closure that reloads them, and the per-frame render tick.
 *
 * Resources are live flags; every call into the device, the window or a
 * user callback is an event appended to `trace`. What those calls return
 * is a parameter of the method that makes them.
 */
module App {
  import opened Wrappers

  /** A run closure's verdict: keep running, or stop the run loop. */
  const RUN_CONTINUE: bool := true
  const RUN_ABORT: bool := false

  /** `ui32` counters wrap at 2^32. */
  const U32_LIMIT: nat := 0x1_0000_0000

  datatype AppEvent =
    | TargetMake(vSync: bool, tripleBuffer: bool)
    | ShadingCreate
    | RendererCreate
    | InputAssign
    | OnCreateCall
    | OnDestroyCall
    | RendererDestroy
    | ShadingDestroy
    | TargetRelease
    | CameraCreate
    | CameraDestroy
    | ImguiSetup
    | ImguiCreate(frameCount: nat)
    | PassAddImgui
    | FontsUpload
    | FontsStage
    | ImguiDestroy
    | FontsDestroy
    | BlockCreate(frameCount: nat)
    | BlockCommandAdd
    | BlockDestroy
    | WaitForIdle
    | WindowStateUpdate
    | WindowSwitch(fullscreen: bool)
    | WindowIconSet
    | ResizeHandle
    | ShutDownCall
    | IdleSleep
    | FrameBegin
    | BlockProcess(frame: nat, steps: seq<BlockStep>)
    | FrameEnd
    | ConfigSave
    | ConfigClear
    | PipelineCacheDestroy
    | WindowDestroy
    | FsTerminate

  /** What each step of `create_target` returns, and the new swapchain's frame count. */
  datatype TargetSteps = TargetSteps(target: bool, shading: bool, renderer: bool, onCreate: bool, frameCount: nat)

  /** What `imgui.create` and `imgui.upload_fonts` return. */
  datatype ImguiSteps = ImguiSteps(create: bool, fonts: bool)

  /** The requests the window closure polls, in the order it polls them. */
  datatype WindowRequests = WindowRequests(close: bool, switchMode: bool, targetReload: bool, resize: bool)

  /** `create_target` succeeds when every step does, including `on_create` if one is set. */
  predicate TargetOk(s: TargetSteps, hasOnCreate: bool) {
    s.target && s.shading && s.renderer && (hasOnCreate ==> s.onCreate)
  }

  predicate ImguiOk(s: ImguiSteps) {
    s.create && s.fonts
  }

  /** The calls of a successful `create_target`. */
  function TargetCreation(vSync: bool, tripleBuffer: bool, hasOnCreate: bool): seq<AppEvent> {
    [TargetMake(vSync, tripleBuffer), ShadingCreate, RendererCreate, InputAssign]
      + (if hasOnCreate then [OnCreateCall] else [])
  }

  /**
   * `create_target` makes the target with the configured v-sync and triple
   * buffering, then shading, renderer and input, and calls `on_create`
   * exactly when one is set, last.
   */
  lemma TargetCreationOrder(vSync: bool, tripleBuffer: bool, hasOnCreate: bool)
    ensures var r := TargetCreation(vSync, tripleBuffer, hasOnCreate);
      && |r| == (if hasOnCreate then 5 else 4) && r[0] == TargetMake(vSync, tripleBuffer)
      && r[1] == ShadingCreate && r[2] == RendererCreate && r[3] == InputAssign
      && (OnCreateCall in r <==> hasOnCreate)
      && (hasOnCreate ==> r[|r| - 1] == OnCreateCall)
  {
  }

  /** How many of those calls a `create_target` with these outcomes makes before it stops. */
  function TargetStepsRun(s: TargetSteps, hasOnCreate: bool): (n: nat)
    ensures 1 <= n <= (if hasOnCreate then 5 else 4)
    ensures n == (if hasOnCreate then 5 else 4) <==> s.target && s.shading && s.renderer
  {
    if !s.target then 1
    else if !s.shading then 2
    else if !s.renderer then 3
    else if hasOnCreate then 5 else 4
  }

  /** The calls of `destroy_target`: the user's `on_destroy` first, then renderer, shading and target. */
  function TargetTeardown(hasOnDestroy: bool): seq<AppEvent> {
    (if hasOnDestroy then [OnDestroyCall] else []) + [RendererDestroy, ShadingDestroy, TargetRelease]
  }

  /**
   * The calls of a successful `create_imgui` over a target with `frameCount`
   * frames: set up, create, add the overlay's pipeline to the shading pass,
   * upload the fonts and stage them.
   */
  function ImguiCreation(frameCount: nat): seq<AppEvent> {
    [ImguiSetup, ImguiCreate(frameCount), PassAddImgui, FontsUpload, FontsStage]
  }

  /** How many of those calls a `create_imgui` with these outcomes makes before it stops. */
  function ImguiStepsRun(s: ImguiSteps): (n: nat)
    ensures 2 <= n <= 5
    ensures n == 5 <==> ImguiOk(s)
    ensures n > 2 <==> s.create
  {
    if !s.create then 2 else if !s.fonts then 4 else 5
  }

  /** The calls of `destroy_imgui`. */
  function ImguiTeardown(): seq<AppEvent> {
    [ImguiDestroy, FontsDestroy]
  }

  /** What the block's single command records for one frame. */
  datatype BlockStep = Stage(frame: nat) | OnProcessCall(frame: nat) | ShadingPass(frame: nat)

  /**
   * The command `create_block` registers: texture staging, then the user's
   * `on_process` if one is set, then the shading pass, all for the same frame.
   */
  function BlockCommand(hasOnProcess: bool, frame: nat): (steps: seq<BlockStep>)
    ensures |steps| == (if hasOnProcess then 3 else 2)
    ensures steps[0] == Stage(frame) && steps[|steps| - 1] == ShadingPass(frame)
    ensures OnProcessCall(frame) in steps <==> hasOnProcess
    ensures forall i :: 0 <= i < |steps| ==> steps[i].frame == frame
  {
    [Stage(frame)] + (if hasOnProcess then [OnProcessCall(frame)] else []) + [ShadingPass(frame)]
  }

  /**
   * `get_fps_info`: the format "%.f fps", then " (v-sync)" when v-sync is on,
   * then " (cap)" when an fps cap is set.
   */
  function FpsInfo(vSync: bool, fpsCap: nat): (s: string)
    ensures |s| >= 7 && s[..7] == "%.f fps"
    ensures vSync <==> |s| >= 16 && s[7..16] == " (v-sync)"
    ensures fpsCap != 0 <==> s[|s| - 6..] == " (cap)"
  {
    var head := "%.f fps" + (if vSync then " (v-sync)" else "");
    assert head[|head| - 6..][0] != " (cap)"[0];
    head + (if fpsCap != 0 then " (cap)" else "")
  }

  /** The fps text tells the four settings apart: it shows exactly whether v-sync is on and whether a cap is set. */
  lemma FpsInfoDistinguishes(v1: bool, c1: nat, v2: bool, c2: nat)
    ensures FpsInfo(v1, c1) == FpsInfo(v2, c2) <==> v1 == v2 && (c1 == 0 <==> c2 == 0)
  {
    if FpsInfo(v1, c1) == FpsInfo(v2, c2) {
      var s := FpsInfo(v1, c1);
      assert v1 <==> |s| >= 16 && s[7..16] == " (v-sync)";
      assert c1 != 0 <==> s[|s| - 6..] == " (cap)";
    }
  }

  /** `about_info_setting`. */
  datatype AboutInfoSetting = AboutInfoSetting(drawSeparator: bool, drawFps: bool, drawSpacing: bool)

  /** `about_info_setting::all`: every part of the about box is drawn. */
  function AboutInfoAll(): (s: AboutInfoSetting)
    ensures s.drawSeparator && s.drawFps && s.drawSpacing
  {
    AboutInfoSetting(true, true, true)
  }

  /** The keys the app's own shortcuts use; everything else is `OtherKey`. */
  datatype Key = KeyQ | KeyTab | KeyB | KeySpace | KeyP | KeyEnter | KeyBackspace | OtherKey

  /** A key event: the key, whether it is a press, and the control and alt modifier tests. */
  datatype KeyEvent = KeyEvent(key: Key, press: bool, control: bool, alt: bool)

  datatype KeyAction =
    | CapturedByImgui
    | ShutDown
    | ToggleImgui
    | StartBenchmark
    | TogglePause
    | TakeScreenshot
    | ToggleFullscreen
    | RequestVSyncToggle
    | PassToCamera
    | Ignored

  /**
   * The app's key listener: the overlay's keyboard capture wins; then, when
   * key handling is on, control shortcuts, or else alt shortcuts; then the
   * camera if active.
   */
  function KeyDispatch(e: KeyEvent, captured: bool, handleKeyEvents: bool, cameraActive: bool): (a: KeyAction)
    ensures captured ==> a == CapturedByImgui
    ensures a == RequestVSyncToggle <==>
              !captured && handleKeyEvents && !e.control && e.alt && e.press && e.key == KeyBackspace
    ensures a == ToggleFullscreen <==>
              !captured && handleKeyEvents && !e.control && e.alt && e.press && e.key == KeyEnter
    ensures a == ShutDown <==> !captured && handleKeyEvents && e.control && e.press && e.key == KeyQ
  {
    if captured then CapturedByImgui
    else if handleKeyEvents && e.control && e.press && e.key == KeyQ then ShutDown
    else if handleKeyEvents && e.control && e.press && e.key == KeyTab then ToggleImgui
    else if handleKeyEvents && e.control && e.press && e.key == KeyB then StartBenchmark
    else if handleKeyEvents && e.control && e.press && e.key == KeySpace then TogglePause
    else if handleKeyEvents && e.control && e.press && e.key == KeyP then TakeScreenshot
    else if handleKeyEvents && !e.control && e.alt && e.press && e.key == KeyEnter then ToggleFullscreen
    else if handleKeyEvents && !e.control && e.alt && e.press && e.key == KeyBackspace then RequestVSyncToggle
    else if cameraActive then PassToCamera
    else Ignored
  }

  class App {
    /** Whether the app runs without a window. */
    const headless: bool
    /** Whether the user set `on_create`, `on_destroy` and `on_process`. */
    const hasOnCreate: bool
    const hasOnDestroy: bool
    const hasOnProcess: bool

    /** `config.v_sync`, `config.triple_buffer`, `config.fps_cap`, `config.window_state->fullscreen`. */
    var vSync: bool
    var tripleBuffer: bool
    var fpsCap: nat
    var fullscreen: bool

    /** `m_toggle_v_sync`: a v-sync flip waiting for the next window pass. */
    var toggleVSync: bool
    /** `m_frame_counter`. */
    var frameCounter: nat
    /** `m_last_render_time`, in microseconds. */
    var lastRenderTime: int

    /** Whether `target` points to an object; `targetLive` whether that object is created and not yet destroyed. */
    var targetPresent: bool
    var targetLive: bool
    var imguiLive: bool
    var blockLive: bool
    /** The frame counts the target's swapchain, the overlay and the block were created with. */
    var targetFrameCount: nat
    var imguiFrameCount: nat
    var blockFrameCount: nat

    var trace: seq<AppEvent>

    ghost predicate Valid()
      reads this
    {
      fpsCap < U32_LIMIT && frameCounter < U32_LIMIT
    }

    /** A new app: configuration defaults, no pending toggle, no frame counted, nothing created. */
    constructor (headless: bool, hasOnCreate: bool, hasOnDestroy: bool, hasOnProcess: bool)
      ensures Valid()
      ensures this.headless == headless && this.hasOnCreate == hasOnCreate
      ensures this.hasOnDestroy == hasOnDestroy && this.hasOnProcess == hasOnProcess
      ensures !VSync() && TripleBuffer() && FpsCap() == 0 && GetFrameCounter() == 0
      ensures !toggleVSync
      ensures !targetPresent && !targetLive && !imguiLive && !blockLive && trace == []
    {
      this.headless := headless;
      this.hasOnCreate := hasOnCreate;
      this.hasOnDestroy := hasOnDestroy;
      this.hasOnProcess := hasOnProcess;
      vSync, tripleBuffer, fpsCap, fullscreen := false, true, 0, false;
      toggleVSync := false;
      frameCounter := 0;
      lastRenderTime := 0;
      targetPresent, targetLive, imguiLive, blockLive := false, false, false, false;
      targetFrameCount, imguiFrameCount, blockFrameCount := 0, 0, 0;
      trace := [];
    }

    /** `v_sync`. */
    function VSync(): (r: bool)
      reads this
      ensures r == vSync
    {
      vSync
    }

    /** `triple_buffer`. */
    function TripleBuffer(): (r: bool)
      reads this
      ensures r == tripleBuffer
    {
      tripleBuffer
    }

    /** `fps_cap`: 0 means no cap. */
    function FpsCap(): (r: nat)
      reads this
      requires Valid()
      ensures r < U32_LIMIT
    {
      fpsCap
    }

    /** `get_frame_counter`. */
    function GetFrameCounter(): (r: nat)
      reads this
      requires Valid()
      ensures r < U32_LIMIT
    {
      frameCounter
    }

    /** `get_fps_info` on this app's configuration. */
    function GetFpsInfo(): (r: string)
      reads this
      ensures |r| >= 7 && r[..7] == "%.f fps"
      ensures VSync() <==> |r| >= 16 && r[7..16] == " (v-sync)"
      ensures fpsCap != 0 <==> |r| >= 6 && r[|r| - 6..] == " (cap)"
    {
      FpsInfo(vSync, fpsCap)
    }

    /** `create_target`: target, shading, renderer, input assignment and `on_create`, stopping at the first failure. */
    method CreateTarget(s: TargetSteps) returns (ok: bool)
      modifies this`targetPresent, this`targetLive, this`targetFrameCount, this`trace
      ensures ok <==> TargetOk(s, hasOnCreate)
      ensures targetPresent == s.target && targetLive == s.target
      ensures targetFrameCount == if s.target then s.frameCount else old(targetFrameCount)
      ensures trace == old(trace) + TargetCreation(vSync, tripleBuffer, hasOnCreate)[..TargetStepsRun(s, hasOnCreate)]
      ensures ok ==> trace == old(trace) + TargetCreation(vSync, tripleBuffer, hasOnCreate)
    {
      trace := trace + [TargetMake(vSync, tripleBuffer)];
      targetPresent, targetLive := s.target, s.target;
      if !s.target {
        return false;
      }
      targetFrameCount := s.frameCount;
      trace := trace + [ShadingCreate];
      if !s.shading {
        return false;
      }
      trace := trace + [RendererCreate];
      if !s.renderer {
        return false;
      }
      trace := trace + [InputAssign];
      if hasOnCreate {
        trace := trace + [OnCreateCall];
        return s.onCreate;
      }
      return true;
    }

    /**
     * `destroy_target`: `on_destroy` if set, then renderer, shading and the
     * target itself. Nothing checks whether the target was already
     * destroyed: a second call repeats every one of these calls.
     */
    method DestroyTarget()
      requires targetPresent
      modifies this`targetLive, this`trace
      ensures !targetLive
      ensures trace == old(trace) + TargetTeardown(hasOnDestroy)
    {
      if hasOnDestroy {
        trace := trace + [OnDestroyCall];
      }
      trace := trace + [RendererDestroy, ShadingDestroy, TargetRelease];
      targetLive := false;
    }

    /** `create_imgui`: sets up and creates the overlay over the target's frame count, then uploads and stages its fonts. */
    method CreateImgui(s: ImguiSteps) returns (ok: bool)
      requires targetPresent
      modifies this`imguiLive, this`imguiFrameCount, this`trace
      ensures ok <==> ImguiOk(s)
      ensures imguiLive == s.create
      ensures s.create ==> imguiFrameCount == targetFrameCount
      ensures !s.create ==> imguiFrameCount == old(imguiFrameCount)
      ensures trace == old(trace) + ImguiCreation(targetFrameCount)[..ImguiStepsRun(s)]
    {
      trace := trace + [ImguiSetup, ImguiCreate(targetFrameCount)];
      imguiLive := s.create;
      if !s.create {
        return false;
      }
      imguiFrameCount := targetFrameCount;
      trace := trace + [PassAddImgui, FontsUpload];
      if !s.fonts {
        return false;
      }
      trace := trace + [FontsStage];
      return true;
    }

    /** `destroy_imgui`: destroys the overlay and its font texture. */
    method DestroyImgui()
      modifies this`imguiLive, this`trace
      ensures !imguiLive
      ensures trace == old(trace) + ImguiTeardown()
    {
      trace := trace + ImguiTeardown();
      imguiLive := false;
    }

    /** `create_block`: a block over the current target's frame count, then its single command. */
    method CreateBlock(createOk: bool) returns (ok: bool)
      requires targetPresent
      modifies this`blockLive, this`blockFrameCount, this`trace
      ensures ok == createOk
      ensures blockLive == (createOk || old(blockLive))
      ensures createOk ==> blockFrameCount == targetFrameCount
      ensures !createOk ==> blockFrameCount == old(blockFrameCount)
      ensures trace == old(trace) + [BlockCreate(targetFrameCount)] + (if createOk then [BlockCommandAdd] else [])
    {
      trace := trace + [BlockCreate(targetFrameCount)];
      if !createOk {
        return false;
      }
      blockLive := true;
      blockFrameCount := targetFrameCount;
      trace := trace + [BlockCommandAdd];
      return true;
    }

    /** `setup_render`: target, camera, overlay, block, stopping at the first failure. */
    method SetupRender(ts: TargetSteps, cameraOk: bool, overlay: ImguiSteps, blockOk: bool) returns (ok: bool)
      modifies this`targetPresent, this`targetLive, this`targetFrameCount, this`imguiLive, this`imguiFrameCount, this`blockLive, this`blockFrameCount, this`trace
      ensures ok <==> TargetOk(ts, hasOnCreate) && cameraOk && ImguiOk(overlay) && blockOk
      ensures ok ==> targetPresent && targetLive && imguiLive && blockLive
      ensures ok ==> targetFrameCount == ts.frameCount && imguiFrameCount == ts.frameCount
                     && blockFrameCount == ts.frameCount
      ensures ok ==> trace == old(trace) + TargetCreation(vSync, tripleBuffer, hasOnCreate) + [CameraCreate]
                              + ImguiCreation(ts.frameCount) + [BlockCreate(ts.frameCount), BlockCommandAdd]
      // each failure stops right after the step that failed
      ensures targetPresent == ts.target && targetLive == ts.target
      ensures imguiLive == if TargetOk(ts, hasOnCreate) && cameraOk then overlay.create else old(imguiLive)
      ensures blockLive == if TargetOk(ts, hasOnCreate) && cameraOk && ImguiOk(overlay) then blockOk || old(blockLive)
                           else old(blockLive)
      ensures !TargetOk(ts, hasOnCreate) ==>
                trace == old(trace) + TargetCreation(vSync, tripleBuffer, hasOnCreate)[..TargetStepsRun(ts, hasOnCreate)]
      ensures TargetOk(ts, hasOnCreate) && !cameraOk ==>
                trace == old(trace) + TargetCreation(vSync, tripleBuffer, hasOnCreate) + [CameraCreate]
      ensures TargetOk(ts, hasOnCreate) && cameraOk && !ImguiOk(overlay) ==>
                trace == old(trace) + TargetCreation(vSync, tripleBuffer, hasOnCreate) + [CameraCreate]
                         + ImguiCreation(ts.frameCount)[..ImguiStepsRun(overlay)]
      ensures TargetOk(ts, hasOnCreate) && cameraOk && ImguiOk(overlay) && !blockOk ==>
                trace == old(trace) + TargetCreation(vSync, tripleBuffer, hasOnCreate) + [CameraCreate]
                         + ImguiCreation(ts.frameCount) + [BlockCreate(ts.frameCount)]
    {
      ok := CreateTarget(ts);
      if !ok {
        return;
      }
      trace := trace + [CameraCreate];
      if !cameraOk {
        return false;
      }
      ok := CreateImgui(overlay);
      if !ok {
        return;
      }
      ok := CreateBlock(blockOk);
    }

    /** `handle_keys`, for the state it changes: alt+backspace asks for a v-sync flip on the next window pass. */
    method HandleKey(e: KeyEvent, captured: bool, handleKeyEvents: bool, cameraActive: bool) returns (a: KeyAction)
      modifies this`toggleVSync
      ensures a == KeyDispatch(e, captured, handleKeyEvents, cameraActive)
      ensures toggleVSync == (old(toggleVSync) || a == RequestVSyncToggle)
    {
      a := KeyDispatch(e, captured, handleKeyEvents, cameraActive);
      if a == RequestVSyncToggle {
        toggleVSync := true;
      }
    }

    /**
     * The `handle_window` run closure. `windowFullscreen` is what the
     * window reports when the configuration reads its state back; the other
     * parameters are what the polled requests and the called steps return.
     */
    method HandleWindow(req: WindowRequests, shutDownResult: bool, windowFullscreen: bool, switchOk: bool,
                        ts: TargetSteps, overlay: ImguiSteps, resizeResult: bool) returns (r: bool)
      requires targetPresent
      modifies this`targetPresent, this`targetLive, this`targetFrameCount, this`imguiLive, this`imguiFrameCount, this`vSync, this`toggleVSync, this`fullscreen, this`trace
      ensures blockLive == old(blockLive) && blockFrameCount == old(blockFrameCount)
      // a close request is handled before anything else
      ensures req.close ==>
                && r == shutDownResult && trace == old(trace) + [ShutDownCall]
                && targetPresent && targetLive == old(targetLive) && imguiLive == old(imguiLive) && vSync == old(vSync)
                && toggleVSync == old(toggleVSync) && fullscreen == old(fullscreen)
      // without a reload trigger, only a resize is handled
      ensures !req.close && !Reloads(req, old(toggleVSync)) ==>
                && r == (if req.resize then resizeResult else RUN_CONTINUE)
                && trace == old(trace) + (if req.resize then [ResizeHandle] else [])
                && targetPresent && targetLive == old(targetLive) && imguiLive == old(imguiLive) && vSync == old(vSync)
                && toggleVSync == old(toggleVSync) && fullscreen == old(fullscreen)
      ensures !req.close && Reloads(req, old(toggleVSync)) ==>
                ReloadDone(req.switchMode, windowFullscreen, switchOk, ts, overlay, r,
                           old(vSync), old(toggleVSync), old(fullscreen), old(trace))
    {
      if req.close {
        trace := trace + [ShutDownCall];
        return shutDownResult;
      }
      if req.switchMode || toggleVSync || req.targetReload {
        r := Reload(req.switchMode, windowFullscreen, switchOk, ts, overlay);
        return;
      }
      if req.resize {
        trace := trace + [ResizeHandle];
        return resizeResult;
      }
      return RUN_CONTINUE;
    }

    /**
     * What a reload pass leaves behind, given the state it started from: it
     * waits for the device, then tears down the target and then the overlay;
     * the fullscreen flag is flipped once from what the window reports; a
     * failed mode switch stops before anything is created again; otherwise
     * the pending v-sync flip is applied once and the target and then the
     * overlay are created again, each stopping at its first failed step.
     */
    ghost predicate ReloadDone(switchMode: bool, windowFullscreen: bool, switchOk: bool, ts: TargetSteps,
                               overlay: ImguiSteps, r: bool,
                               vSync0: bool, toggle0: bool, fullscreen0: bool, trace0: seq<AppEvent>)
      reads this
    {
      var torn := trace0 + ReloadTeardown(hasOnDestroy);
      var switched := if switchMode then torn + [WindowStateUpdate] + [WindowSwitch(fullscreen)] else torn;
      var ready := if switchMode then switched + [WindowStateUpdate, WindowIconSet] else torn;
      && torn <= trace
      && fullscreen == (if switchMode then !windowFullscreen else fullscreen0)
      && (switchMode && !switchOk ==>
            && r == RUN_ABORT && targetPresent && !targetLive && !imguiLive
            && vSync == vSync0 && toggleVSync == toggle0
            && trace == switched)
      && (!switchMode || switchOk ==>
            && vSync == (vSync0 != toggle0) && !toggleVSync
            && r == (TargetOk(ts, hasOnCreate) && ImguiOk(overlay))
            && targetPresent == ts.target && targetLive == ts.target
            && imguiLive == (TargetOk(ts, hasOnCreate) && overlay.create)
            && (ts.target ==> targetFrameCount == ts.frameCount)
            && (r ==> trace == ready + TargetCreation(vSync, tripleBuffer, hasOnCreate) + ImguiCreation(ts.frameCount))
            && (!TargetOk(ts, hasOnCreate) ==>
                  trace == ready + TargetCreation(vSync, tripleBuffer, hasOnCreate)[..TargetStepsRun(ts, hasOnCreate)])
            && (TargetOk(ts, hasOnCreate) ==>
                  trace == ready + TargetCreation(vSync, tripleBuffer, hasOnCreate)
                           + ImguiCreation(ts.frameCount)[..ImguiStepsRun(overlay)]))
    }

    /** The reload branch of `handle_window`. */
    method Reload(switchMode: bool, windowFullscreen: bool, switchOk: bool, ts: TargetSteps, overlay: ImguiSteps)
      returns (r: bool)
      requires targetPresent
      modifies this`targetPresent, this`targetLive, this`targetFrameCount, this`imguiLive, this`imguiFrameCount, this`vSync, this`toggleVSync, this`fullscreen, this`trace
      ensures ReloadDone(switchMode, windowFullscreen, switchOk, ts, overlay, r,
                         old(vSync), old(toggleVSync), old(fullscreen), old(trace))
    {
      TearDownForReload();
      if switchMode {
        var switched := SwitchMode(windowFullscreen, switchOk);
        if !switched {
          return false;
        }
      }
      ApplyVSyncToggle();
      r := Recreate(ts, overlay);
    }

    /** Wait for the device, then destroy the target and then the overlay. */
    method TearDownForReload()
      requires targetPresent
      modifies this`targetLive, this`imguiLive, this`trace
      ensures !targetLive && !imguiLive
      ensures trace == old(trace) + ReloadTeardown(hasOnDestroy)
    {
      trace := trace + [WaitForIdle];
      DestroyTarget();
      DestroyImgui();
      assert trace == old(trace) + ([WaitForIdle] + TargetTeardown(hasOnDestroy) + ImguiTeardown());
    }

    /** The mode-switch step: read the window state, flip fullscreen, switch; on success read back and set the icon. */
    method SwitchMode(windowFullscreen: bool, switchOk: bool) returns (ok: bool)
      modifies this`fullscreen, this`trace
      ensures ok == switchOk && fullscreen == !windowFullscreen
      ensures trace == old(trace) + [WindowStateUpdate] + [WindowSwitch(fullscreen)]
                       + (if ok then [WindowStateUpdate, WindowIconSet] else [])
    {
      trace := trace + [WindowStateUpdate];
      fullscreen := windowFullscreen;
      fullscreen := !fullscreen;
      trace := trace + [WindowSwitch(fullscreen)];
      if !switchOk {
        return false;
      }
      trace := trace + [WindowStateUpdate, WindowIconSet];
      return true;
    }

    /** The v-sync step: a pending toggle flips `v_sync` once and is cleared. */
    method ApplyVSyncToggle()
      modifies this`vSync, this`toggleVSync
      ensures vSync == (old(vSync) != old(toggleVSync)) && !toggleVSync
    {
      if toggleVSync {
        vSync := !vSync;
        toggleVSync := false;
      }
    }

    /** The closing step of a reload: the target again, then, if that worked, the overlay. */
    method Recreate(ts: TargetSteps, overlay: ImguiSteps) returns (r: bool)
      modifies this`targetPresent, this`targetLive, this`targetFrameCount, this`imguiLive, this`imguiFrameCount, this`trace
      ensures r == (TargetOk(ts, hasOnCreate) && ImguiOk(overlay))
      ensures targetPresent == ts.target && targetLive == ts.target && (ts.target ==> targetFrameCount == ts.frameCount)
      ensures imguiLive == if TargetOk(ts, hasOnCreate) then overlay.create else old(imguiLive)
      ensures old(trace) <= trace
      ensures r ==> trace == old(trace) + TargetCreation(vSync, tripleBuffer, hasOnCreate)
                                        + ImguiCreation(ts.frameCount)
      ensures !TargetOk(ts, hasOnCreate) ==>
                trace == old(trace) + TargetCreation(vSync, tripleBuffer, hasOnCreate)[..TargetStepsRun(ts, hasOnCreate)]
      ensures TargetOk(ts, hasOnCreate) ==>
                trace == old(trace) + TargetCreation(vSync, tripleBuffer, hasOnCreate)
                         + ImguiCreation(ts.frameCount)[..ImguiStepsRun(overlay)]
    {
      var created := CreateTarget(ts);
      if !created {
        return RUN_ABORT;
      }
      r := CreateImgui(overlay);
    }

    /** The state `setup_run` sets once its closures are registered: no frame counted yet. */
    method SetupRun()
      requires Valid()
      modifies this`frameCounter
      ensures Valid() && GetFrameCounter() == 0
    {
      frameCounter := 0;
    }

    /**
     * One pass of the `render` run closure. `iconified` is what the window
     * reports, `capWait` whether the fps cap's next render time is still
     * ahead of `now`, `frameIndex` what `begin_frame` acquires, and the last
     * two what `block.process` and `end_frame` return.
     */
    method RenderTick(iconified: bool, capWait: bool, now: int, frameIndex: Option<nat>,
                      processOk: bool, endOk: bool) returns (r: bool)
      requires Valid()
      modifies this`frameCounter, this`lastRenderTime, this`trace
      ensures Valid()
      // a minimised window only sleeps
      ensures iconified ==> r == RUN_CONTINUE && trace == old(trace) + [IdleSleep]
                            && frameCounter == old(frameCounter) && lastRenderTime == old(lastRenderTime)
      // a capped pass that comes too early does nothing at all
      ensures !iconified && fpsCap != 0 && capWait ==>
                r == RUN_CONTINUE && trace == old(trace)
                && frameCounter == old(frameCounter) && lastRenderTime == old(lastRenderTime)
      ensures !iconified && (fpsCap == 0 || !capWait) ==> lastRenderTime == now
      // no acquired frame: keep running, count nothing
      ensures !iconified && (fpsCap == 0 || !capWait) && frameIndex.None? ==>
                r == RUN_CONTINUE && trace == old(trace) + [FrameBegin] && frameCounter == old(frameCounter)
      // an acquired frame is counted, modulo 2^32, and processed: the block runs its command for that frame
      ensures !iconified && (fpsCap == 0 || !capWait) && frameIndex.Some? ==>
                frameCounter == (old(frameCounter) + 1) % U32_LIMIT
                && r == (processOk && endOk)
                && trace == old(trace) + [FrameBegin, BlockProcess(frameIndex.value, BlockCommand(hasOnProcess, frameIndex.value))]
                            + (if processOk then [FrameEnd] else [])
    {
      if iconified {
        trace := trace + [IdleSleep];
        return RUN_CONTINUE;
      }
      if fpsCap != 0 && capWait {
        return RUN_CONTINUE;
      }
      lastRenderTime := now;
      trace := trace + [FrameBegin];
      if frameIndex.None? {
        return RUN_CONTINUE;
      }
      frameCounter := (frameCounter + 1) % U32_LIMIT;
      trace := trace + [BlockProcess(frameIndex.value, BlockCommand(hasOnProcess, frameIndex.value))];
      if !processOk {
        return RUN_ABORT;
      }
      trace := trace + [FrameEnd];
      r := endOk;
    }

    /**
     * The run-end closure of `setup_run`: save the configuration, then tear
     * everything down. With a window it calls `destroy_target` whether or
     * not the target is still created, so after a reload that stopped
     * between teardown and re-creation the target is torn down a second
     * time (`AbortedReloadThenRunEnd`).
     */
    method RunEnd()
      requires !headless ==> targetPresent
      modifies this`targetLive, this`imguiLive, this`blockLive, this`trace
      ensures trace == old(trace) + RunEndEvents(headless, hasOnDestroy)
      ensures !headless ==> !targetLive && !imguiLive && !blockLive
      ensures headless ==> targetLive == old(targetLive) && imguiLive == old(imguiLive) && blockLive == old(blockLive)
    {
      if !headless {
        trace := trace + [WindowStateUpdate];
      }
      trace := trace + [ConfigSave, ConfigClear];
      if !headless {
        trace := trace + [CameraDestroy];
        DestroyImgui();
        trace := trace + [BlockDestroy];
        blockLive := false;
        DestroyTarget();
      }
      trace := trace + [PipelineCacheDestroy];
      if !headless {
        trace := trace + [WindowDestroy];
      }
      trace := trace + [FsTerminate];
    }
  }

  /** The calls the run-end closure makes, in order. */
  function RunEndEvents(headless: bool, hasOnDestroy: bool): seq<AppEvent> {
    if headless then
      [ConfigSave, ConfigClear, PipelineCacheDestroy, FsTerminate]
    else
      [WindowStateUpdate, ConfigSave, ConfigClear, CameraDestroy] + ImguiTeardown() + [BlockDestroy]
      + TargetTeardown(hasOnDestroy) + [PipelineCacheDestroy, WindowDestroy, FsTerminate]
  }

  /**
   * The run end saves the configuration before destroying anything and
   * ends with the file system; with a window it destroys the overlay
   * before the block and the block before the target, and only then the
   * window.
   */
  lemma RunEndOrder(headless: bool, hasOnDestroy: bool)
    ensures var r := RunEndEvents(headless, hasOnDestroy);
      && r[if headless then 0 else 1] == ConfigSave
      && r[|r| - 1] == FsTerminate
      && (WindowDestroy in r <==> !headless)
      && (BlockDestroy in r <==> !headless)
      && (OnDestroyCall in r <==> !headless && hasOnDestroy)
      && (!headless ==> r[4..7] == [ImguiDestroy, FontsDestroy, BlockDestroy]
                        && r[|r| - 5..] == [ShadingDestroy, TargetRelease, PipelineCacheDestroy, WindowDestroy, FsTerminate])
  {
    var r := RunEndEvents(headless, hasOnDestroy);
    if headless {
    } else if hasOnDestroy {
      assert r == [WindowStateUpdate, ConfigSave, ConfigClear, CameraDestroy, ImguiDestroy, FontsDestroy, BlockDestroy,
                   OnDestroyCall, RendererDestroy, ShadingDestroy, TargetRelease, PipelineCacheDestroy, WindowDestroy, FsTerminate];
    } else {
      assert r == [WindowStateUpdate, ConfigSave, ConfigClear, CameraDestroy, ImguiDestroy, FontsDestroy, BlockDestroy,
                   RendererDestroy, ShadingDestroy, TargetRelease, PipelineCacheDestroy, WindowDestroy, FsTerminate];
    }
  }

  /** Whether the window closure starts a reload: a mode switch, a pending v-sync flip or a target reload request. */
  predicate Reloads(req: WindowRequests, toggleVSync: bool) {
    req.switchMode || toggleVSync || req.targetReload
  }

  /** The start of every reload: wait for the device, then destroy the target, then the overlay. */
  function ReloadTeardown(hasOnDestroy: bool): seq<AppEvent> {
    [WaitForIdle] + TargetTeardown(hasOnDestroy) + ImguiTeardown()
  }

  /** True of the device-idle wait and of every destroy call of a reload. */
  predicate IsDestroy(e: AppEvent) {
    e.OnDestroyCall? || e.RendererDestroy? || e.ShadingDestroy? || e.TargetRelease?
    || e.ImguiDestroy? || e.FontsDestroy?
  }

  /**
   * A reload waits for the device exactly once, before anything else; then
   * `on_destroy` (when set), renderer, shading and target are destroyed,
   * and only after them the overlay and its fonts.
   */
  lemma ReloadTeardownOrder(hasOnDestroy: bool)
    ensures var r := ReloadTeardown(hasOnDestroy);
      && r[0] == WaitForIdle
      && (forall i :: 0 < i < |r| ==> IsDestroy(r[i]))
      && (OnDestroyCall in r <==> hasOnDestroy)
      && (hasOnDestroy ==> r[1] == OnDestroyCall)
      && r[|r| - 5..] == [RendererDestroy, ShadingDestroy, TargetRelease, ImguiDestroy, FontsDestroy]
  {
    var r := ReloadTeardown(hasOnDestroy);
    if hasOnDestroy {
      assert r == [WaitForIdle, OnDestroyCall, RendererDestroy, ShadingDestroy, TargetRelease, ImguiDestroy, FontsDestroy];
    } else {
      assert r == [WaitForIdle, RendererDestroy, ShadingDestroy, TargetRelease, ImguiDestroy, FontsDestroy];
    }
  }

  /**
   * A reload whose mode switch fails has already torn the target down
   * (the trace `ReloadDone` gives); the run end that follows tears it down
   * again: `destroy_target`'s whole call sequence (`on_destroy` when set,
   * renderer, shading, target) occurs once in the reload and once more in
   * the run end, with no target created in between.
   */
  lemma AbortedReloadThenRunEnd(hasOnDestroy: bool, fullscreen: bool)
    ensures var down := TargetTeardown(hasOnDestroy);
            var t := ReloadTeardown(hasOnDestroy) + [WindowStateUpdate] + [WindowSwitch(fullscreen)]
                     + RunEndEvents(false, hasOnDestroy);
      && |t| == 2 * |down| + 15
      && t[1..1 + |down|] == down
      && t[|t| - 3 - |down|..|t| - 3] == down
      && (forall k :: 0 <= k < |t| ==> !t[k].TargetMake?)
  {
    var down := TargetTeardown(hasOnDestroy);
    var t := ReloadTeardown(hasOnDestroy) + [WindowStateUpdate] + [WindowSwitch(fullscreen)]
             + RunEndEvents(false, hasOnDestroy);
    var a := [WaitForIdle];
    var b := [ImguiDestroy, FontsDestroy, WindowStateUpdate, WindowSwitch(fullscreen), WindowStateUpdate,
              ConfigSave, ConfigClear, CameraDestroy, ImguiDestroy, FontsDestroy, BlockDestroy];
    var c := [PipelineCacheDestroy, WindowDestroy, FsTerminate];
    assert t == a + down + b + down + c;
    assert t[1..1 + |down|] == down;
    assert t[|t| - 3 - |down|..|t| - 3] == down;
  }

  /**
   * A `create_target` that made the target object and then failed: the
   * object is made first and only once, the renderer is created only if
   * shading was, and `on_create` is called only if both were.
   */
  lemma FailedTargetCreation(ts: TargetSteps, vSync: bool, tripleBuffer: bool, hasOnCreate: bool)
    requires ts.target && !TargetOk(ts, hasOnCreate)
    ensures var made := TargetCreation(vSync, tripleBuffer, hasOnCreate)[..TargetStepsRun(ts, hasOnCreate)];
      && made[0] == TargetMake(vSync, tripleBuffer)
      && (forall k :: 0 < k < |made| ==> !made[k].TargetMake?)
      && (RendererCreate in made <==> ts.shading)
      && (OnCreateCall in made <==> ts.shading && ts.renderer && hasOnCreate)
  {
    var made := TargetCreation(vSync, tripleBuffer, hasOnCreate)[..TargetStepsRun(ts, hasOnCreate)];
    if !ts.shading {
      assert made == [TargetMake(vSync, tripleBuffer), ShadingCreate];
    } else if !ts.renderer {
      assert made == [TargetMake(vSync, tripleBuffer), ShadingCreate, RendererCreate];
    } else {
      assert made == [TargetMake(vSync, tripleBuffer), ShadingCreate, RendererCreate, InputAssign, OnCreateCall];
    }
  }

  /**
   * A reload without a mode switch whose `create_target` makes the new
   * target object but then fails returns run-abort with the trace
   * `ReloadDone` gives; the run end that follows destroys that object with
   * `destroy_target`'s whole call sequence. So `on_destroy`, renderer and
   * shading are destroyed a second time, with only the cut-short creation
   * (`FailedTargetCreation`) between the two teardowns.
   */
  lemma FailedRecreateThenRunEnd(ts: TargetSteps, vSync: bool, tripleBuffer: bool, hasOnCreate: bool, hasOnDestroy: bool)
    requires ts.target && !TargetOk(ts, hasOnCreate)
    ensures var down := TargetTeardown(hasOnDestroy);
            var made := TargetCreation(vSync, tripleBuffer, hasOnCreate)[..TargetStepsRun(ts, hasOnCreate)];
            var t := ReloadTeardown(hasOnDestroy) + made + RunEndEvents(false, hasOnDestroy);
      && (|made| < |TargetCreation(vSync, tripleBuffer, hasOnCreate)| || (hasOnCreate && !ts.onCreate))
      && |t| == 2 * |down| + |made| + 13
      && t[1..1 + |down|] == down
      && t[3 + |down|..3 + |down| + |made|] == made
      && t[|t| - 3 - |down|..|t| - 3] == down
  {
    var down := TargetTeardown(hasOnDestroy);
    var made := TargetCreation(vSync, tripleBuffer, hasOnCreate)[..TargetStepsRun(ts, hasOnCreate)];
    var t := ReloadTeardown(hasOnDestroy) + made + RunEndEvents(false, hasOnDestroy);
    var a := [WaitForIdle];
    var b := [ImguiDestroy, FontsDestroy];
    var c := [WindowStateUpdate, ConfigSave, ConfigClear, CameraDestroy, ImguiDestroy, FontsDestroy, BlockDestroy];
    var e := [PipelineCacheDestroy, WindowDestroy, FsTerminate];
    assert t == a + down + b + made + c + down + e;
    assert t[1..1 + |down|] == down;
    assert t[3 + |down|..3 + |down| + |made|] == made;
    assert t[|t| - 3 - |down|..|t| - 3] == down;
  }




}
