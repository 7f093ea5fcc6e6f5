/** The baseview event translator: how one native event becomes a sequence of
    the toolkit's canonical window events, and how the modifier bitset follows
    the native events. Everything here is a pure function of the event and of
    the little state it reads (the modifier set, the window scale factor, the
    target platform); the runner in BaseviewRunner applies it. */
module BaseviewEvents {
  import opened Common

  // ---------------------------------------------------------------------
  // Native (baseview) events

  datatype NativeButton = Left | Right | Middle | Back | Forward | Other(id: u8)

  datatype ScrollDelta = Lines(x: real, y: real) | Pixels(x: real, y: real)

  /** The flags of a native keyboard-modifier set; lock keys and the rest are
      `OtherModifier`. */
  datatype KeyboardModifier = Shift | Control | Alt | Meta | OtherModifier(id: nat)

  datatype Code =
    | ShiftLeft | ShiftRight | ControlLeft | ControlRight
    | AltLeft | AltRight | MetaLeft | MetaRight
    | KeyQ | OtherCode(id: nat)

  datatype Key = Character(text: string) | Named(id: nat)

  datatype KeyState = Down | Up

  datatype KeyboardEvent = KeyboardEvent(
    state: KeyState, key: Key, code: Code, modifiers: set<KeyboardModifier>)

  /** What baseview reports with a resize: the logical size (which includes the
      user scale factor), the physical size in pixels and the system scale. */
  datatype WindowInfo = WindowInfo(
    logicalWidth: real, logicalHeight: real,
    physicalWidth: u32, physicalHeight: u32,
    scale: real)

  datatype MouseEvent =
    | CursorMoved(x: real, y: real, modifiers: set<KeyboardModifier>)
    | ButtonPressed(button: NativeButton, modifiers: set<KeyboardModifier>)
    | ButtonReleased(button: NativeButton, modifiers: set<KeyboardModifier>)
    | WheelScrolled(delta: ScrollDelta, modifiers: set<KeyboardModifier>)
    | CursorEntered
    | CursorLeft
    | DragAndDrop  // the drag-and-drop notifications, which the runner ignores

  datatype NativeWindowEvent = Resized(info: WindowInfo) | Focused | Unfocused | WillClose

  datatype NativeEvent =
    | Mouse(mouse: MouseEvent)
    | Keyboard(keyboard: KeyboardEvent)
    | Window(window: NativeWindowEvent)

  /** The operating system the runner was built for (`cfg(target_os)`). */
  datatype Platform = MacOS | OtherPlatform

  // ---------------------------------------------------------------------
  // Canonical (toolkit) events

  datatype MouseButton = Left | Right | Middle | Other(id: u16)

  datatype WindowEvent =
    | WindowClose
    | MouseMove(x: real, y: real)
    | MouseDown(button: MouseButton)
    | MouseUp(button: MouseButton)
    | MouseScroll(x: real, y: real)
    | MouseEnter
    | MouseLeave
    | CharInput(c: char)
    | KeyDown(code: Code, key: Option<Key>)
    | KeyUp(code: Code, key: Option<Key>)

  /** A message queued into the UI core: a window event, or an opaque message
      that another thread put into the proxy queue. */
  datatype Message = WindowMessage(event: WindowEvent) | ProxyMessage(id: nat)

  /** How a message entered the UI core's queue: `send_event` (no origin) or
      `emit_origin` (origin = the root entity). */
  datatype Dispatch = Send(message: Message) | EmitFromRoot(event: WindowEvent)

  /** The toolkit's modifier bitset. */
  datatype Modifier = ShiftBit | CtrlBit | AltBit | SuperBit

  // ---------------------------------------------------------------------
  // Pure translations

  /** Whether the event should make the application exit: the will-close
      notification, and on macOS Cmd-Q pressed with no other modifier. */
  function RequestsExit(event: NativeEvent, platform: Platform): (exit: bool)
    ensures event == Window(WillClose) ==> exit
    ensures exit ==> event == Window(WillClose) || (platform == MacOS && event.Keyboard?)
    ensures platform == MacOS && event.Keyboard? ==>
      (exit <==> event.keyboard.code == KeyQ && event.keyboard.modifiers == {Meta}
                 && event.keyboard.state == Down)
  {
    match event
    case Window(WillClose) => true
    case Keyboard(k) =>
      platform == MacOS && k.code == KeyQ && k.modifiers == {Meta} && k.state == Down
    case _ => false
  }

  function TranslateMouseButton(button: NativeButton): (b: MouseButton)
    ensures button.Left? <==> b.Left?
    ensures button.Right? <==> b.Right?
    ensures button.Middle? <==> b.Middle?
    ensures button.Back? ==> b == MouseButton.Other(4)
    ensures button.Forward? ==> b == MouseButton.Other(5)
    ensures button.Other? ==> b == MouseButton.Other(button.id)
  {
    match button
    case Left => MouseButton.Left
    case Right => MouseButton.Right
    case Middle => MouseButton.Middle
    case Other(id) => MouseButton.Other(id)
    case Back => MouseButton.Other(4)
    case Forward => MouseButton.Other(5)
  }

  /** The translation is one-to-one except that Back is indistinguishable
      from the fourth extra button and Forward from the fifth. */
  lemma ButtonTranslationCollisions(a: NativeButton, b: NativeButton)
    requires a != b
    ensures TranslateMouseButton(a) == TranslateMouseButton(b) <==>
      ({a, b} == {Back, NativeButton.Other(4)} || {a, b} == {Forward, NativeButton.Other(5)})
  {
    if {a, b} == {Back, NativeButton.Other(4)} {
      assert (a == Back && b == NativeButton.Other(4)) || (b == Back && a == NativeButton.Other(4));
    } else if {a, b} == {Forward, NativeButton.Other(5)} {
      assert (a == Forward && b == NativeButton.Other(5)) || (b == Forward && a == NativeButton.Other(5));
    } else {
      assert a in {a, b} && b in {a, b};
    }
  }

  /** One axis of a pixel scroll delta coarsened to whole lines. */
  function PixelsToLines(v: real): (lines: real)
    ensures lines == -1.0 || lines == 0.0 || lines == 1.0
    ensures lines < 0.0 <==> v < 0.0
    ensures lines > 0.0 <==> v > 1.0
  {
    if v < 0.0 then -1.0 else if v > 1.0 then 1.0 else 0.0
  }

  /** The scroll amount, in lines, that a wheel event reports. */
  function ScrollLines(delta: ScrollDelta): (lines: (real, real))
    ensures delta.Lines? ==> lines == (delta.x, delta.y)
    ensures delta.Pixels? ==>
      lines.0 in {-1.0, 0.0, 1.0} && lines.1 in {-1.0, 0.0, 1.0}
    ensures delta.Pixels? ==>
      (lines.0 < 0.0 <==> delta.x < 0.0) && (lines.0 > 0.0 <==> delta.x > 1.0)
      && (lines.1 < 0.0 <==> delta.y < 0.0) && (lines.1 > 0.0 <==> delta.y > 1.0)
  {
    match delta
    case Lines(x, y) => (x, y)
    case Pixels(x, y) => (PixelsToLines(x), PixelsToLines(y))
  }

  /** One `CharInput` per character of the typed text, in order. */
  function CharInputs(text: string): (inputs: seq<Dispatch>)
    ensures |inputs| == |text|
  {
    if text == [] then [] else [EmitFromRoot(CharInput(text[0]))] + CharInputs(text[1..])
  }

  lemma {:induction false} CharInputsAt(text: string)
    ensures |CharInputs(text)| == |text|
    ensures forall i :: 0 <= i < |text| ==> CharInputs(text)[i] == EmitFromRoot(CharInput(text[i]))
  {
    if text != [] {
      CharInputsAt(text[1..]);
    }
  }

  /** Appending one character appends one `CharInput`: the shape of the
      runner's `for` loop over the characters. */
  lemma {:induction false} CharInputsSnoc(text: string, c: char)
    ensures CharInputs(text + [c]) == CharInputs(text) + [EmitFromRoot(CharInput(c))]
  {
    if text == [] {
      assert text + [c] == [c];
    } else {
      assert (text + [c])[1..] == text[1..] + [c];
      CharInputsSnoc(text[1..], c);
    }
  }

  /** A coordinate or size multiplied by a scale factor. */
  function Scale(v: real, factor: real): real
  {
    v * factor
  }

  /** What a keyboard event emits. */
  function KeyEvents(k: KeyboardEvent): (ds: seq<Dispatch>)
    ensures |ds| == (if k.state == Down && k.key.Character? then |k.key.text| else 0) + 1
    ensures ds[|ds| - 1] == EmitFromRoot(if k.state == Down then KeyDown(k.code, Some(k.key)) else KeyUp(k.code, Some(k.key)))
  {
    match k.state
    case Down =>
      (if k.key.Character? then CharInputs(k.key.text) else [])
      + [EmitFromRoot(KeyDown(k.code, Some(k.key)))]
    case Up => [EmitFromRoot(KeyUp(k.code, Some(k.key)))]
  }

  /** A key-down carrying text fans out into one `CharInput` per character,
      in order, then exactly one `KeyDown`; any other key-down emits only the
      `KeyDown`; a key-up emits exactly one `KeyUp` and no `CharInput`. */
  lemma KeyEventsShape(k: KeyboardEvent)
    ensures k.state == Down && k.key.Character? ==>
      |KeyEvents(k)| == |k.key.text| + 1
      && (forall i :: 0 <= i < |k.key.text| ==>
            KeyEvents(k)[i] == EmitFromRoot(CharInput(k.key.text[i])))
      && KeyEvents(k)[|k.key.text|] == EmitFromRoot(KeyDown(k.code, Some(k.key)))
    ensures k.state == Down && !k.key.Character? ==>
      KeyEvents(k) == [EmitFromRoot(KeyDown(k.code, Some(k.key)))]
    ensures k.state == Up ==>
      KeyEvents(k) == [EmitFromRoot(KeyUp(k.code, Some(k.key)))]
  {
    if k.state == Down && k.key.Character? {
      CharInputsAt(k.key.text);
    }
  }

  /** The events the `match` of `handle_event` emits for one native event
      (the possible exit message is prepended by HandleEventDispatches). */
  function TranslateEvent(event: NativeEvent, windowScaleFactor: real): (ds: seq<Dispatch>)
    ensures event.Mouse? ==> |ds| == (if event.mouse.DragAndDrop? then 0 else 1)
    ensures event.Mouse? && ds != [] ==> ds[0].EmitFromRoot?
    ensures event.Keyboard? ==>
      (|ds| >= 1 && ds[|ds| - 1].EmitFromRoot? && (ds[|ds| - 1].event.KeyDown? <==> event.keyboard.state == Down))
    ensures event.Window? ==> (ds != [] <==> event.window == WillClose) && |ds| <= 1
  {
    match event
    case Mouse(CursorMoved(x, y, _)) =>
      [EmitFromRoot(MouseMove(Scale(x, windowScaleFactor), Scale(y, windowScaleFactor)))]
    case Mouse(ButtonPressed(b, _)) => [EmitFromRoot(MouseDown(TranslateMouseButton(b)))]
    case Mouse(ButtonReleased(b, _)) => [EmitFromRoot(MouseUp(TranslateMouseButton(b)))]
    case Mouse(WheelScrolled(d, _)) =>
      var lines := ScrollLines(d);
      [EmitFromRoot(MouseScroll(lines.0, lines.1))]
    case Mouse(CursorEntered) => [EmitFromRoot(MouseEnter)]
    case Mouse(CursorLeft) => [EmitFromRoot(MouseLeave)]
    case Mouse(DragAndDrop) => []
    case Keyboard(k) => KeyEvents(k)
    case Window(WillClose) => [Send(WindowMessage(WindowClose))]
    case Window(_) => []
  }

  /** Everything one call of `handle_event` queues, in order. */
  function HandleEventDispatches(event: NativeEvent, windowScaleFactor: real, platform: Platform): (ds: seq<Dispatch>)
    ensures |ds| == |TranslateEvent(event, windowScaleFactor)| + (if RequestsExit(event, platform) then 1 else 0)
    ensures RequestsExit(event, platform) ==> ds[0] == Send(WindowMessage(WindowClose))
  {
    (if RequestsExit(event, platform) then [Send(WindowMessage(WindowClose))] else [])
    + TranslateEvent(event, windowScaleFactor)
  }

  /** The arm's dispatches end every call's, after at most the exit message. */
  lemma ArmIsSuffix(event: NativeEvent, windowScaleFactor: real, platform: Platform)
    ensures var ds := HandleEventDispatches(event, windowScaleFactor, platform);
      var arm := TranslateEvent(event, windowScaleFactor);
      ds[|ds| - |arm|..] == arm && (!RequestsExit(event, platform) ==> ds == arm)
  {
  }

  function IsClose(d: Dispatch): bool
  {
    d == Send(WindowMessage(WindowClose))
  }

  function CountCloses(ds: seq<Dispatch>): nat
  {
    if ds == [] then 0 else (if IsClose(ds[0]) then 1 else 0) + CountCloses(ds[1..])
  }

  lemma {:induction false} CountClosesAppend(a: seq<Dispatch>, b: seq<Dispatch>)
    ensures CountCloses(a + b) == CountCloses(a) + CountCloses(b)
  {
    if a != [] {
      assert (a + b)[1..] == a[1..] + b;
      CountClosesAppend(a[1..], b);
    } else {
      assert a + b == b;
    }
  }

  lemma {:induction false} CharInputsHaveNoClose(text: string)
    ensures CountCloses(CharInputs(text)) == 0
  {
    if text != [] {
      CharInputsHaveNoClose(text[1..]);
    }
  }

  /** How many close requests one native event queues: a will-close
      notification reaches `WindowClose` twice (once because it requests exit,
      once from its own match arm), the macOS quit accelerator once,
      everything else never. */
  lemma CloseRequestsPerEvent(event: NativeEvent, windowScaleFactor: real, platform: Platform)
    ensures CountCloses(HandleEventDispatches(event, windowScaleFactor, platform)) ==
      if event == Window(WillClose) then 2
      else if RequestsExit(event, platform) then 1
      else 0
  {
    var pre: seq<Dispatch> := if RequestsExit(event, platform) then [Send(WindowMessage(WindowClose))] else [];
    var body := TranslateEvent(event, windowScaleFactor);
    CountClosesAppend(pre, body);
    assert CountCloses(pre) == if RequestsExit(event, platform) then 1 else 0;
    match event {
      case Keyboard(k) =>
        if k.state == Down && k.key.Character? {
          CharInputsHaveNoClose(k.key.text);
          CountClosesAppend(CharInputs(k.key.text), [EmitFromRoot(KeyDown(k.code, Some(k.key)))]);
        }
      case _ =>
    }
  }

  /** `modifiers.set(flag, on)`. */
  function SetFlag(mods: set<Modifier>, flag: Modifier, on: bool): (r: set<Modifier>)
    ensures flag in r <==> on
    ensures forall f :: f != flag ==> (f in r <==> f in mods)
  {
    if on then mods + {flag} else mods - {flag}
  }

  /** The modifier bitset that the mouse path writes: each of the four bits is
      overwritten from the native modifier set, whatever it was before. */
  function FromKeyboardModifiers(m: set<KeyboardModifier>): (r: set<Modifier>)
    ensures ShiftBit in r <==> Shift in m
    ensures CtrlBit in r <==> Control in m
    ensures AltBit in r <==> Alt in m
    ensures SuperBit in r <==> Meta in m
  {
    (if Shift in m then {ShiftBit} else {})
    + (if Control in m then {CtrlBit} else {})
    + (if Alt in m then {AltBit} else {})
    + (if Meta in m then {SuperBit} else {})
  }

  /** The modifier bit a key drives on the keyboard path, if it is a modifier key. */
  function ModifierOfCode(code: Code): (flag: Option<Modifier>)
    ensures flag == Some(ShiftBit) <==> code in {ShiftLeft, ShiftRight}
    ensures flag == Some(CtrlBit) <==> code in {ControlLeft, ControlRight}
    ensures flag == Some(AltBit) <==> code in {AltLeft, AltRight}
    ensures flag == Some(SuperBit) <==> code in {MetaLeft, MetaRight}
  {
    match code
    case ShiftLeft | ShiftRight => Some(ShiftBit)
    case ControlLeft | ControlRight => Some(CtrlBit)
    case AltLeft | AltRight => Some(AltBit)
    case MetaLeft | MetaRight => Some(SuperBit)
    case _ => None
  }

  /** The modifier bitset after `handle_event` has seen the event. */
  function NextModifiers(mods: set<Modifier>, event: NativeEvent): (next: set<Modifier>)
    ensures event.Window? || (event.Keyboard? && ModifierOfCode(event.keyboard.code).None?)
            || event == Mouse(CursorEntered) || event == Mouse(CursorLeft) || event == Mouse(DragAndDrop) ==>
      next == mods
  {
    match event
    case Mouse(CursorMoved(_, _, m)) => FromKeyboardModifiers(m)
    case Mouse(ButtonPressed(_, m)) => FromKeyboardModifiers(m)
    case Mouse(ButtonReleased(_, m)) => FromKeyboardModifiers(m)
    case Mouse(WheelScrolled(_, m)) => FromKeyboardModifiers(m)
    case Mouse(_) => mods
    case Keyboard(k) =>
      (match ModifierOfCode(k.code)
       case Some(flag) => SetFlag(mods, flag, k.state == Down)
       case None => mods)
    case Window(_) => mods
  }

  /** Which events touch the modifier bitset, and how: a modifier key sets
      its own bit to the pressed state and keeps the others; any other key,
      enter/leave, drag-and-drop and window events change nothing. */
  lemma ModifierTransitions(mods: set<Modifier>, event: NativeEvent)
    ensures event.Keyboard? && ModifierOfCode(event.keyboard.code).Some? ==>
      var flag := ModifierOfCode(event.keyboard.code).value;
      (flag in NextModifiers(mods, event) <==> event.keyboard.state == Down)
      && forall f :: f != flag ==> (f in NextModifiers(mods, event) <==> f in mods)
    ensures event.Keyboard? && ModifierOfCode(event.keyboard.code).None? ==>
      NextModifiers(mods, event) == mods
    ensures event.Window? || event == Mouse(CursorEntered) || event == Mouse(CursorLeft)
            || event == Mouse(DragAndDrop) ==>
      NextModifiers(mods, event) == mods
  {
  }

  /** On the mouse path the previous bitset is irrelevant: two runners that
      disagree on their modifiers agree after the same move, press, release
      or wheel event. */
  lemma MouseOverwritesModifiers(a: set<Modifier>, b: set<Modifier>, event: NativeEvent)
    requires event.Mouse? && (event.mouse.CursorMoved? || event.mouse.ButtonPressed?
                              || event.mouse.ButtonReleased? || event.mouse.WheelScrolled?)
    ensures NextModifiers(a, event) == NextModifiers(b, event) == FromKeyboardModifiers(event.mouse.modifiers)
  {
  }
}
