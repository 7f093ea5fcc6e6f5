/** The baseview application runner: the per-frame bookkeeping that detects a
    change of window size or user scale factor, the render and idle steps, and
    `handle_event`, which applies the translation of BaseviewEvents to the UI
    core's queue and modifier bitset.

    The runner owns the UI core's `Context` by value; the part of it that this
    layer reads and writes is the datatype `CoreContext`. Calls into the GPU,
    the native window and the UI core's own passes are recorded, in order, in
    the runner's `ops` log. */
module BaseviewRunner {
  import opened Common
  import opened BaseviewEvents

  /** A logical window size, before the user scale factor is applied. */
  datatype WindowSize = WindowSize(width: u32, height: u32)

  /** A Skia surface, known here only by its dimensions. */
  datatype SkSurface = SkSurface(width: int, height: int)

  /** The root window's surfaces: the one wrapping the framebuffer and the
      offscreen "dirty" surface made from it. */
  datatype SurfacePair = SurfacePair(primary: SkSurface, dirty: SkSurface)

  const ROOT: nat := 0

  /** The part of the UI core's state the runner touches. */
  datatype CoreContext = CoreContext(
    windowSize: WindowSize,
    userScaleFactor: real,
    scaleFactor: real,
    physicalWidth: real,
    physicalHeight: real,
    modifiers: set<Modifier>,
    queue: seq<Dispatch>,
    rootSurface: Option<SurfacePair>,
    refreshRequested: bool,
    current: nat)

  /** The idle callback, known only by identity. */
  datatype IdleCallback = IdleCallback(id: nat)

  /** Calls the runner makes into the window, the GPU and the UI core's passes. */
  datatype RunnerOp =
    | ProcessEvents
    | ResizeWindow(logicalWidth: real, logicalHeight: real)
    | QueryFramebuffer
    | WrapRenderTarget(width: int, height: int)
    | NewSurface(width: int, height: int)
    | MakeCurrent
    | ProcessStyleUpdates
    | MakeNotCurrent
    | ProcessAnimations
    | ProcessVisualUpdates
    | Draw
    | FlushAndSubmit
    | InvokeIdle(callback: nat, current: nat)

  // ---------------------------------------------------------------------
  // Specification functions

  /** The change detection of `on_frame_update`. */
  function ScaleChanged(size: WindowSize, userScale: real, storedSize: WindowSize, storedUserScale: real): (changed: bool)
    ensures !changed <==> size == storedSize && userScale == storedUserScale
  {
    size != storedSize || userScale != storedUserScale
  }

  /** The root surfaces are rebuilt only when there are root surfaces and the
      new physical size is not zero in both dimensions. */
  function RebuiltRoot(root: Option<SurfacePair>, nonEmpty: bool, primary: SkSurface, dirty: SkSurface): Option<SurfacePair>
  {
    if root.Some? && nonEmpty then Some(SurfacePair(primary, dirty)) else root
  }

  function RebuildOps(root: Option<SurfacePair>, nonEmpty: bool, primary: SkSurface, dirty: SkSurface): seq<RunnerOp>
  {
    if root.Some? && nonEmpty then
      [QueryFramebuffer, WrapRenderTarget(primary.width, primary.height), NewSurface(dirty.width, dirty.height)]
    else []
  }

  /** The surfaces the frame update wraps for a physical size given in floats. */
  function FramePrimary(pw: real, ph: real): (s: SkSurface)
    ensures 0.0 <= pw <= I32_MAX as real ==> s.width as real <= pw < s.width as real + 1.0
    ensures 0.0 <= ph <= I32_MAX as real ==> s.height as real <= ph < s.height as real + 1.0
    ensures pw >= 0.0 && ph >= 0.0 ==> s.width >= 0 && s.height >= 0
  {
    SkSurface(TruncateToI32(pw), TruncateToI32(ph))
  }

  function FrameDirty(pw: real, ph: real): (s: SkSurface)
    ensures s.width >= 1 && s.height >= 1
    ensures 1.0 <= pw <= I32_MAX as real && 1.0 <= ph <= I32_MAX as real ==> s == FramePrimary(pw, ph)
    ensures pw < 1.0 ==> s.width == 1
    ensures ph < 1.0 ==> s.height == 1
  {
    SkSurface(TruncateToI32(MaxReal(pw, 1.0)), TruncateToI32(MaxReal(ph, 1.0)))
  }

  /** The UI core's state after the resize branch of `on_frame_update` has
      applied the (already stored) logical size and user scale factor. */
  function FrameResizedContext(cx: CoreContext, windowScaleFactor: real): (r: CoreContext)
    ensures r.refreshRequested && r.queue == cx.queue && r.modifiers == cx.modifiers
  {
    var sf := Scale(windowScaleFactor, cx.userScaleFactor);
    var pw := Scale(cx.windowSize.width as real, sf);
    var ph := Scale(cx.windowSize.height as real, sf);
    cx.(scaleFactor := sf, physicalWidth := pw, physicalHeight := ph,
        rootSurface := RebuiltRoot(cx.rootSurface, pw != 0.0 || ph != 0.0, FramePrimary(pw, ph), FrameDirty(pw, ph)),
        refreshRequested := true)
  }

  function FrameResizeOps(cx: CoreContext, windowScaleFactor: real): seq<RunnerOp>
  {
    var sf := Scale(windowScaleFactor, cx.userScaleFactor);
    var pw := Scale(cx.windowSize.width as real, sf);
    var ph := Scale(cx.windowSize.height as real, sf);
    [ResizeWindow(Scale(cx.windowSize.width as real, cx.userScaleFactor), Scale(cx.windowSize.height as real, cx.userScaleFactor))]
    + RebuildOps(cx.rootSurface, pw != 0.0 || ph != 0.0, FramePrimary(pw, ph), FrameDirty(pw, ph))
  }

  /** The tail of every frame: the GL context is current exactly around the
      style pass, then the animation and visual passes run. */
  function StylePassOps(): seq<RunnerOp>
  {
    [MakeCurrent, ProcessStyleUpdates, MakeNotCurrent, ProcessAnimations, ProcessVisualUpdates]
  }

  /** The log of one whole frame update. */
  function FrameOps(resized: bool, cx: CoreContext, windowScaleFactor: real): seq<RunnerOp>
  {
    [ProcessEvents] + (if resized then FrameResizeOps(cx, windowScaleFactor) else []) + StylePassOps()
  }

  /** Sizes of a `Resized` notification, converted back to the size before the
      user scale factor: `(logical / user_scale).round() as u32`. A zero user
      scale gives an infinite quotient (saturating) or NaN (0). */
  function UnscaleDimension(logical: real, userScale: real): (d: u32)
    ensures userScale > 0.0 && 0.0 <= logical / userScale < U32_MAX as real ==>
      d as real - 0.5 <= logical / userScale < d as real + 0.5
    ensures logical <= 0.0 && userScale >= 0.0 ==> d == 0
  {
    if userScale == 0.0 then (if logical > 0.0 then U32_MAX else 0)
    else RoundToU32(logical / userScale)
  }

  function UnscaledSize(info: WindowInfo, userScale: real): WindowSize
  {
    WindowSize(UnscaleDimension(info.logicalWidth, userScale), UnscaleDimension(info.logicalHeight, userScale))
  }

  /** The UI core's state after a `Resized` notification. */
  function ResizedEventContext(cx: CoreContext, info: WindowInfo, size: WindowSize, windowScaleFactor: real): (r: CoreContext)
    ensures r.refreshRequested && r.queue == cx.queue && r.modifiers == cx.modifiers
  {
    var nonEmpty := info.physicalWidth != 0 || info.physicalHeight != 0;
    cx.(windowSize := size,
        scaleFactor := Scale(windowScaleFactor, cx.userScaleFactor),
        physicalWidth := info.physicalWidth as real,
        physicalHeight := info.physicalHeight as real,
        rootSurface := RebuiltRoot(cx.rootSurface, nonEmpty, EventPrimary(info), EventDirty(info)),
        refreshRequested := true)
  }

  function EventPrimary(info: WindowInfo): SkSurface
  {
    SkSurface(U32AsI32(info.physicalWidth), U32AsI32(info.physicalHeight))
  }

  function EventDirty(info: WindowInfo): SkSurface
  {
    SkSurface(U32AsI32(AtLeastOne(info.physicalWidth)), U32AsI32(AtLeastOne(info.physicalHeight)))
  }

  /** The UI core's state after the exit check at the head of `handle_event`. */
  function ExitContext(cx: CoreContext, event: NativeEvent, platform: Platform): CoreContext
  {
    cx.(queue := cx.queue + if RequestsExit(event, platform) then [Send(WindowMessage(WindowClose))] else [])
  }

  /** The UI core's state after the arm of `handle_event` for `event`. */
  function ArmContext(cx: CoreContext, event: NativeEvent, windowScaleFactor: real): CoreContext
  {
    cx.(queue := cx.queue + TranslateEvent(event, windowScaleFactor),
        modifiers := NextModifiers(cx.modifiers, event),
        refreshRequested := cx.refreshRequested || event == Window(Focused))
  }

  /** The UI core's state after any event other than `Resized`. */
  function EventContext(cx: CoreContext, event: NativeEvent, windowScaleFactor: real, platform: Platform): CoreContext
  {
    ArmContext(ExitContext(cx, event, platform), event, windowScaleFactor)
  }

  /** A `Resized` notification queues nothing and leaves the modifiers alone. */
  lemma ResizedIsSilent(mods: set<Modifier>, info: WindowInfo, windowScaleFactor: real, platform: Platform)
    ensures HandleEventDispatches(Window(Resized(info)), windowScaleFactor, platform) == []
    ensures NextModifiers(mods, Window(Resized(info))) == mods
  {
  }

  /** What an event other than `Resized` does to the queue and the modifiers. */
  lemma EventContextEffect(cx: CoreContext, event: NativeEvent, windowScaleFactor: real, platform: Platform)
    ensures EventContext(cx, event, windowScaleFactor, platform).queue == cx.queue + HandleEventDispatches(event, windowScaleFactor, platform)
    ensures EventContext(cx, event, windowScaleFactor, platform).modifiers == NextModifiers(cx.modifiers, event)
  {
    var exitPart: seq<Dispatch> := if RequestsExit(event, platform) then [Send(WindowMessage(WindowClose))] else [];
    assert cx.queue + exitPart + TranslateEvent(event, windowScaleFactor)
        == cx.queue + (exitPart + TranslateEvent(event, windowScaleFactor));
  }

  function ResizedEventOps(cx: CoreContext, info: WindowInfo): seq<RunnerOp>
  {
    RebuildOps(cx.rootSurface, info.physicalWidth != 0 || info.physicalHeight != 0, EventPrimary(info), EventDirty(info))
  }

  // ---------------------------------------------------------------------
  // Properties of the specification functions

  /** The frame's resize branch: the scale factor is the window scale times
      the user scale, the physical size is the logical size times that
      factor (a float product, not truncated), root surfaces stay present or
      absent, and the logical size, user scale and current entity are kept. */
  lemma FrameResizedContextEffect(cx: CoreContext, windowScaleFactor: real)
    ensures var r := FrameResizedContext(cx, windowScaleFactor);
      && r.scaleFactor == Scale(windowScaleFactor, cx.userScaleFactor)
      && r.physicalWidth == Scale(cx.windowSize.width as real, r.scaleFactor)
      && r.physicalHeight == Scale(cx.windowSize.height as real, r.scaleFactor)
      && r.windowSize == cx.windowSize && r.userScaleFactor == cx.userScaleFactor && r.current == cx.current
      && (r.rootSurface.Some? <==> cx.rootSurface.Some?)
  {
  }

  /** A `Resized` notification: the given size, the scale factor as the window
      scale times the user scale, the physical size as reported, root
      surfaces stay present or absent; a rebuilt pair in the i32 range has
      the reported size and, for the dirty surface, at least 1 by 1. */
  lemma ResizedEventContextEffect(cx: CoreContext, info: WindowInfo, size: WindowSize, windowScaleFactor: real)
    ensures var r := ResizedEventContext(cx, info, size, windowScaleFactor);
      && r.windowSize == size && r.scaleFactor == Scale(windowScaleFactor, cx.userScaleFactor)
      && r.physicalWidth == info.physicalWidth as real && r.physicalHeight == info.physicalHeight as real
      && r.userScaleFactor == cx.userScaleFactor && r.current == cx.current
      && (r.rootSurface.Some? <==> cx.rootSurface.Some?)
    ensures var r := ResizedEventContext(cx, info, size, windowScaleFactor);
      cx.rootSurface.Some? && (info.physicalWidth != 0 || info.physicalHeight != 0)
      && info.physicalWidth <= I32_MAX && info.physicalHeight <= I32_MAX ==>
        && r.rootSurface.value.primary == SkSurface(info.physicalWidth, info.physicalHeight)
        && r.rootSurface.value.dirty == SkSurface(AtLeastOne(info.physicalWidth), AtLeastOne(info.physicalHeight))
  {
  }

  /** In every frame the GL context is made current immediately before the
      style pass and released immediately after it, and it is bound nowhere
      else. */
  lemma StylePassBracketed(resized: bool, cx: CoreContext, windowScaleFactor: real)
    ensures var ops := FrameOps(resized, cx, windowScaleFactor);
      var k := |ops| - 4;
      1 <= k < |ops| && ops[k - 1] == MakeCurrent && ops[k] == ProcessStyleUpdates && ops[k + 1] == MakeNotCurrent
      && (forall j :: 0 <= j < |ops| && ops[j] == MakeCurrent ==> j == k - 1)
      && (forall j :: 0 <= j < |ops| && ops[j] == MakeNotCurrent ==> j == k + 1)
      && ops[0] == ProcessEvents
  {
    var ops := FrameOps(resized, cx, windowScaleFactor);
    var head := [ProcessEvents] + (if resized then FrameResizeOps(cx, windowScaleFactor) else []);
    assert ops == head + StylePassOps();
    forall j | 0 <= j < |head| ensures head[j] != MakeCurrent && head[j] != MakeNotCurrent {
      if j > 0 {
        var r := FrameResizeOps(cx, windowScaleFactor);
        assert head[j] == r[j - 1];
      }
    }
  }

  /** The surfaces are rebuilt whenever the new physical size is not zero in
      both dimensions, so a 0-by-h window still gets a 0-wide render target;
      and a rebuilt dirty surface is never smaller than 1 by 1. */
  lemma FrameRebuildGuard(cx: CoreContext, windowScaleFactor: real)
    requires cx.rootSurface.Some?
    ensures var r := FrameResizedContext(cx, windowScaleFactor);
      (r.rootSurface != cx.rootSurface || |FrameResizeOps(cx, windowScaleFactor)| == 4)
        <==> (r.physicalWidth != 0.0 || r.physicalHeight != 0.0)
    ensures var r := FrameResizedContext(cx, windowScaleFactor);
      (r.physicalWidth != 0.0 || r.physicalHeight != 0.0) ==>
        r.rootSurface.value.dirty.width >= 1 && r.rootSurface.value.dirty.height >= 1
  {
  }

  // ---------------------------------------------------------------------
  // The runner

  class ApplicationRunner {
    var context: CoreContext
    var shouldRedraw: bool
    /** Whether `Resized` notifications may change `windowScaleFactor`. */
    const useSystemScaling: bool
    var windowScaleFactor: real
    var currentUserScaleFactor: real
    var currentWindowSize: WindowSize
    const platform: Platform
    var ops: seq<RunnerOp>

    constructor (context: CoreContext, useSystemScaling: bool, windowScaleFactor: real, platform: Platform)
      ensures this.context == context && this.useSystemScaling == useSystemScaling
      ensures this.windowScaleFactor == windowScaleFactor && this.platform == platform
      ensures shouldRedraw
      ensures currentUserScaleFactor == context.userScaleFactor
      ensures currentWindowSize == context.windowSize
      ensures ops == []
    {
      this.context := context;
      this.shouldRedraw := true;
      this.useSystemScaling := useSystemScaling;
      this.windowScaleFactor := windowScaleFactor;
      this.currentUserScaleFactor := context.userScaleFactor;
      this.currentWindowSize := context.windowSize;
      this.platform := platform;
      this.ops := [];
    }

    /** The stored values agree with the UI core's: the next frame will not
        resize unless the UI core changes one of them. */
    ghost predicate InSync()
      reads this
    {
      !ScaleChanged(context.windowSize, context.userScaleFactor, currentWindowSize, currentUserScaleFactor)
    }

    /** Forward every message of the cross-thread queue, in order. */
    method DrainQueue(queued: seq<Message>)
      modifies this`context
      ensures context == old(context).(queue := old(context.queue) + seq(|queued|, i requires 0 <= i < |queued| => Send(queued[i])))
    {
      var i := 0;
      while i < |queued|
        invariant 0 <= i <= |queued|
        invariant context == old(context).(queue := old(context.queue) + seq(i, j requires 0 <= j < i => Send(queued[j])))
      {
        context := context.(queue := context.queue + [Send(queued[i])]);
        i := i + 1;
      }
    }

    /** The resize branch of `on_frame_update`, entered once the UI core's
        size or user scale factor differs from the stored values. */
    method ApplyScaleChange()
      modifies this`context, this`ops, this`currentWindowSize, this`currentUserScaleFactor
      ensures currentWindowSize == old(context.windowSize) && currentUserScaleFactor == old(context.userScaleFactor)
      ensures context == FrameResizedContext(old(context), windowScaleFactor)
      ensures ops == old(ops) + FrameResizeOps(old(context), windowScaleFactor)
    {
      currentWindowSize := context.windowSize;
      currentUserScaleFactor := context.userScaleFactor;

      ops := ops + [ResizeWindow(Scale(currentWindowSize.width as real, currentUserScaleFactor),
                                 Scale(currentWindowSize.height as real, currentUserScaleFactor))];

      var sf := Scale(windowScaleFactor, currentUserScaleFactor);
      context := context.(scaleFactor := sf);
      var pw := Scale(currentWindowSize.width as real, sf);
      var ph := Scale(currentWindowSize.height as real, sf);
      context := context.(physicalWidth := pw, physicalHeight := ph);

      if context.rootSurface.Some? {
        if pw != 0.0 || ph != 0.0 {
          ops := ops + [QueryFramebuffer];
          var primary := FramePrimary(pw, ph);
          ops := ops + [WrapRenderTarget(primary.width, primary.height)];
          var dirty := FrameDirty(pw, ph);
          ops := ops + [NewSurface(dirty.width, dirty.height)];
          context := context.(rootSurface := Some(SurfacePair(primary, dirty)));
        }
      }

      context := context.(refreshRequested := true);
    }

    /** One frame: drain the proxy queue, let the UI core process its events
        (after which it holds `coreSize` and `coreUserScale`), resize when
        either differs from the stored values, run the style pass with the GL
        context current, then the animation and visual passes. The UI core
        asks for a redraw when `styleWantsRedraw`. */
    method OnFrameUpdate(queued: seq<Message>, coreSize: WindowSize, coreUserScale: real, styleWantsRedraw: bool)
      modifies this
      ensures var resized := ScaleChanged(coreSize, coreUserScale, old(currentWindowSize), old(currentUserScaleFactor));
        var cx := old(context).(queue := old(context.queue) + seq(|queued|, i requires 0 <= i < |queued| => Send(queued[i])),
                                windowSize := coreSize, userScaleFactor := coreUserScale);
        && ops == old(ops) + FrameOps(resized, cx, old(windowScaleFactor))
        && context == (if resized then FrameResizedContext(cx, old(windowScaleFactor)) else cx)
      ensures currentWindowSize == coreSize && currentUserScaleFactor == coreUserScale
      ensures InSync()
      ensures shouldRedraw == (old(shouldRedraw) || styleWantsRedraw)
      ensures windowScaleFactor == old(windowScaleFactor)
    {
      DrainQueue(queued);
      ops := ops + [ProcessEvents];
      context := context.(windowSize := coreSize, userScaleFactor := coreUserScale);

      ghost var beforeBranch := ops;
      if context.windowSize != currentWindowSize || context.userScaleFactor != currentUserScaleFactor {
        ApplyScaleChange();
      }
      ghost var afterBranch := ops;

      ops := ops + [MakeCurrent, ProcessStyleUpdates, MakeNotCurrent];
      ops := ops + [ProcessAnimations, ProcessVisualUpdates];
      assert ops == afterBranch + StylePassOps();

      if styleWantsRedraw {
        shouldRedraw := true;
      }
    }

    method Render()
      modifies this`ops, this`shouldRedraw
      ensures !shouldRedraw
      ensures ops == old(ops) + [Draw, FlushAndSubmit]
    {
      ops := ops + [Draw];
      ops := ops + [FlushAndSubmit];
      shouldRedraw := false;
    }

    method HandleIdle(onIdle: Option<IdleCallback>)
      modifies this`context, this`ops
      ensures onIdle.None? ==> context == old(context) && ops == old(ops)
      ensures onIdle.Some? ==> context == old(context).(current := ROOT)
                               && ops == old(ops) + [InvokeIdle(onIdle.value.id, ROOT)]
    {
      if onIdle.Some? {
        context := context.(current := ROOT);
        ops := ops + [InvokeIdle(onIdle.value.id, context.current)];
      }
    }

    method Emit(d: Dispatch)
      modifies this`context
      ensures context == old(context).(queue := old(context.queue) + [d])
    {
      context := context.(queue := context.queue + [d]);
    }

    /** The mouse path's `update_modifiers`: the four bits, one by one. */
    method UpdateModifiers(m: set<KeyboardModifier>)
      modifies this`context
      ensures context == old(context).(modifiers := FromKeyboardModifiers(m))
    {
      context := context.(modifiers := SetFlag(context.modifiers, ShiftBit, Shift in m));
      context := context.(modifiers := SetFlag(context.modifiers, CtrlBit, Control in m));
      context := context.(modifiers := SetFlag(context.modifiers, SuperBit, Meta in m));
      context := context.(modifiers := SetFlag(context.modifiers, AltBit, Alt in m));
    }

    /** A `Resized` notification: store the size before the user scale
        factor, adopt the system scale when allowed, and rebuild the root
        surfaces for the new physical size. */
    method OnResized(info: WindowInfo)
      modifies this`context, this`ops, this`currentWindowSize, this`windowScaleFactor
      ensures currentWindowSize == UnscaledSize(info, old(context.userScaleFactor))
      ensures windowScaleFactor == if useSystemScaling then info.scale else old(windowScaleFactor)
      ensures context == ResizedEventContext(old(context), info, currentWindowSize, windowScaleFactor)
      ensures ops == old(ops) + ResizedEventOps(old(context), info)
    {
      currentWindowSize := context.windowSize;
      currentWindowSize := currentWindowSize.(width := UnscaleDimension(info.logicalWidth, context.userScaleFactor));
      currentWindowSize := currentWindowSize.(height := UnscaleDimension(info.logicalHeight, context.userScaleFactor));
      context := context.(windowSize := currentWindowSize);

      if useSystemScaling {
        windowScaleFactor := info.scale;
      }
      var userScale := context.userScaleFactor;
      context := context.(scaleFactor := Scale(windowScaleFactor, userScale));
      context := context.(physicalWidth := info.physicalWidth as real, physicalHeight := info.physicalHeight as real);

      if context.rootSurface.Some? {
        if info.physicalWidth != 0 || info.physicalHeight != 0 {
          ops := ops + [QueryFramebuffer];
          var primary := EventPrimary(info);
          ops := ops + [WrapRenderTarget(primary.width, primary.height)];
          var dirty := EventDirty(info);
          ops := ops + [NewSurface(dirty.width, dirty.height)];
          context := context.(rootSurface := Some(SurfacePair(primary, dirty)));
        }
      }

      context := context.(refreshRequested := true);
    }

    /** The mouse arm of `handle_event`. */
    method HandleMouse(m: MouseEvent)
      modifies this`context
      ensures context == ArmContext(old(context), Mouse(m), windowScaleFactor)
    {
      match m {
        case CursorMoved(x, y, mods) =>
          UpdateModifiers(mods);
          Emit(EmitFromRoot(MouseMove(Scale(x, windowScaleFactor), Scale(y, windowScaleFactor))));
        case ButtonPressed(button, mods) =>
          UpdateModifiers(mods);
          Emit(EmitFromRoot(MouseDown(TranslateMouseButton(button))));
        case ButtonReleased(button, mods) =>
          UpdateModifiers(mods);
          Emit(EmitFromRoot(MouseUp(TranslateMouseButton(button))));
        case WheelScrolled(delta, mods) =>
          UpdateModifiers(mods);
          var lines := ScrollLines(delta);
          Emit(EmitFromRoot(MouseScroll(lines.0, lines.1)));
        case CursorEntered =>
          Emit(EmitFromRoot(MouseEnter));
        case CursorLeft =>
          Emit(EmitFromRoot(MouseLeave));
        case DragAndDrop =>
      }
    }

    /** The modifier-key part of the keyboard arm. */
    method SetKeyModifier(k: KeyboardEvent)
      modifies this`context
      ensures context == old(context).(modifiers := NextModifiers(old(context.modifiers), Keyboard(k)))
    {
      var pressed := k.state == Down;
      match k.code {
        case ShiftLeft | ShiftRight =>
          context := context.(modifiers := SetFlag(context.modifiers, ShiftBit, pressed));
        case ControlLeft | ControlRight =>
          context := context.(modifiers := SetFlag(context.modifiers, CtrlBit, pressed));
        case AltLeft | AltRight =>
          context := context.(modifiers := SetFlag(context.modifiers, AltBit, pressed));
        case MetaLeft | MetaRight =>
          context := context.(modifiers := SetFlag(context.modifiers, SuperBit, pressed));
        case _ =>
      }
    }

    /** One `CharInput` per character of the typed text, in order. */
    method EmitCharInputs(written: string)
      modifies this`context
      ensures context == old(context).(queue := old(context.queue) + CharInputs(written))
    {
      for i := 0 to |written|
        invariant context == old(context).(queue := old(context.queue) + CharInputs(written[..i]))
      {
        CharInputsSnoc(written[..i], written[i]);
        assert written[..i + 1] == written[..i] + [written[i]];
        Emit(EmitFromRoot(CharInput(written[i])));
      }
      assert written[..|written|] == written;
    }

    /** The keyboard arm of `handle_event`: the modifier key's bit, then the
        character fan-out and the key event. */
    method HandleKeyboard(k: KeyboardEvent)
      modifies this`context
      ensures context == ArmContext(old(context), Keyboard(k), windowScaleFactor)
    {
      SetKeyModifier(k);
      if k.state == Down {
        if k.key.Character? {
          EmitCharInputs(k.key.text);
        }
        Emit(EmitFromRoot(KeyDown(k.code, Some(k.key))));
      } else {
        Emit(EmitFromRoot(KeyUp(k.code, Some(k.key))));
      }
    }

    /** The window arm of `handle_event`, `Resized` aside. */
    method HandleWindow(w: NativeWindowEvent)
      requires !w.Resized?
      modifies this`context
      ensures context == ArmContext(old(context), Window(w), windowScaleFactor)
    {
      match w {
        case Focused =>
          context := context.(refreshRequested := true);
        case WillClose =>
          Emit(Send(WindowMessage(WindowClose)));
        case Unfocused =>
      }
    }

    /** `handle_event` for every event except `Resized`: the exit request,
        then the arm of the event's kind. */
    method HandleNonResize(event: NativeEvent)
      requires !(event.Window? && event.window.Resized?)
      modifies this`context
      ensures context == EventContext(old(context), event, windowScaleFactor, platform)
      ensures context.queue == old(context.queue) + HandleEventDispatches(event, windowScaleFactor, platform)
      ensures context.modifiers == NextModifiers(old(context.modifiers), event)
    {
      EventContextEffect(context, event, windowScaleFactor, platform);
      if RequestsExit(event, platform) {
        Emit(Send(WindowMessage(WindowClose)));
      } else {
        assert old(context).queue + [] == old(context).queue;
      }
      assert context == ExitContext(old(context), event, platform);
      match event {
        case Mouse(m) =>
          HandleMouse(m);
        case Keyboard(k) =>
          HandleKeyboard(k);
        case Window(w) =>
          HandleWindow(w);
      }
    }

    /** The `Resized` arm, stated in the terms of `handle_event` as a whole:
        it queues nothing and keeps the modifiers. */
    method HandleResized(info: WindowInfo)
      modifies this`context, this`ops, this`currentWindowSize, this`windowScaleFactor
      ensures context.queue == old(context.queue) + HandleEventDispatches(Window(Resized(info)), old(windowScaleFactor), platform)
      ensures context.modifiers == NextModifiers(old(context.modifiers), Window(Resized(info)))
      ensures currentWindowSize == UnscaledSize(info, old(context.userScaleFactor))
      ensures windowScaleFactor == if useSystemScaling then info.scale else old(windowScaleFactor)
      ensures context == ResizedEventContext(old(context), info, currentWindowSize, windowScaleFactor)
      ensures ops == old(ops) + ResizedEventOps(old(context), info)
    {
      ResizedIsSilent(context.modifiers, info, windowScaleFactor, platform);
      assert context.queue + [] == context.queue;
      OnResized(info);
    }

    /** Translate one native event. `shouldQuit` is the caller's flag; the
        returned value is its new value. */
    method HandleEvent(event: NativeEvent, shouldQuit: bool) returns (quit: bool)
      modifies this
      ensures quit == (shouldQuit || RequestsExit(event, platform))
      ensures context.queue == old(context.queue) + HandleEventDispatches(event, old(windowScaleFactor), platform)
      ensures context.modifiers == NextModifiers(old(context.modifiers), event)
      ensures event.Window? && event.window.Resized? ==>
        var info := event.window.info;
        && currentWindowSize == UnscaledSize(info, old(context.userScaleFactor))
        && windowScaleFactor == (if useSystemScaling then info.scale else old(windowScaleFactor))
        && context == ResizedEventContext(old(context), info, currentWindowSize, windowScaleFactor)
        && ops == old(ops) + ResizedEventOps(old(context), info)
      ensures !(event.Window? && event.window.Resized?) ==>
        && currentWindowSize == old(currentWindowSize)
        && windowScaleFactor == old(windowScaleFactor)
        && ops == old(ops)
        && context == EventContext(old(context), event, old(windowScaleFactor), platform)
      ensures shouldRedraw == old(shouldRedraw) && currentUserScaleFactor == old(currentUserScaleFactor)
    {
      quit := shouldQuit || RequestsExit(event, platform);
      if event.Window? && event.window.Resized? {
        HandleResized(event.window.info);
      } else {
        HandleNonResize(event);
      }
    }
  }

  /** Two frames in a row with the same size and scale coming out of the UI
      core: the second one logs no resize, whatever the first did. */
  method RepeatedFrameDoesNotResize(runner: ApplicationRunner, size: WindowSize, userScale: real, redraw: bool)
    returns (firstFrame: seq<RunnerOp>, secondFrame: seq<RunnerOp>)
    modifies runner
    ensures runner.InSync()
    ensures runner.ops == old(runner.ops) + firstFrame + secondFrame
    ensures secondFrame == [ProcessEvents] + StylePassOps()
  {
    var start := runner.ops;
    runner.OnFrameUpdate([], size, userScale, redraw);
    var afterFirst := runner.ops;
    firstFrame := afterFirst[|start|..];
    runner.OnFrameUpdate([], size, userScale, redraw);
    secondFrame := runner.ops[|afterFirst|..];
    assert runner.ops == afterFirst + secondFrame;
    assert afterFirst == start + firstFrame;
  }
}
