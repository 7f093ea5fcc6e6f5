# vizia windowing back ends in Dafny

This project models the back-end layer of the vizia GUI toolkit. That layer sits between the native window system and vizia's UI core. It covers three pieces:

- **The baseview application runner.** `ApplicationRunner` in `crates/vizia_baseview/src/application.rs`. It translates native baseview events into vizia's canonical `WindowEvent`s and keeps the modifier bitset (shift, ctrl, alt, super) up to date. It raises the quit flag on a close request. Once per frame it drains the cross-thread event queue and detects a change of window size or user scale factor. When one happens it resizes the window and rebuilds the root Skia surfaces. It then runs the style pass with the GL context current. It also renders, and calls the idle callback.
- **The Direct3D 12 surface manager.** `WinState` in `crates/vizia_winit/src/d3d.rs`. It owns a two-buffer swap chain and one Skia surface per buffer. Its `resize` is a small state machine over the inner size, the buffer size and the surfaces. It releases every reference into the old buffers before it reallocates them. It also chooses the adapter, the present arguments and the swap-chain flags.
- **The OpenGL surface manager.** `WinState` in `crates/vizia_winit/src/gl.rs`. It picks a framebuffer configuration by a `reduce` fold over the configurations offered. It creates a desktop OpenGL context and falls back to GLES. It rebuilds its primary and dirty surfaces on every non-degenerate resize.

The calls into the window system, the GPU and Skia whose order the contracts state are entries appended to an `ops` log, in call order:

- **The runner** (`RunnerOp`): the UI core's event, style, animation and visual passes; `window.resize`; the framebuffer query; wrapping the render target and making the dirty surface; the GL context made current and released; drawing, flushing, and the idle callback.
- **Direct3D** (`D3dOp`):
  - creating the command queue, the swap chain and the Skia contexts
  - the frame-latency wait and the initial present
  - freeing GPU resources, resetting the context and dropping the surfaces
  - `ResizeBuffers`, `GetBuffer` and wrapping each buffer
  - flushing a surface and `Present`
- **OpenGL** (`GlOp`):
  - each `create_context` attempt and creating the window surface
  - the context made current (and the release the source never makes)
  - creating the Skia context and querying the framebuffer binding
  - creating the primary and the dirty surface
  - resizing the window surface, flushing, and swapping buffers

The adapter enumeration, its `GetDesc1` and `D3D12CreateDevice` are not log entries. The adapter search takes their outcomes as a list and returns the indices it tried. Loading the GL function pointers is part of `SkiaContextCreated`. Values the calls report become method parameters:

- the framebuffer binding
- the window's inner size
- the monitor size
- the back-buffer index
- whether the window is minimized
- the tearing feature check
- the list of adapters
- whether context creation succeeds

The files:

- `common.dfy` (`Common`): Option and Result, the fixed-width integers, and the Rust numeric casts written out (`as i32`, `round() as u32`, `max(1)`).
- `baseview_events.dfy` (`BaseviewEvents`): the native and canonical event types, the pure translations, and the lemmas about them.
- `baseview_runner.dfy` (`BaseviewRunner`): the runner as a class. The slice of the UI core's `Context` that the runner reads and writes is a datatype field.
- `d3d.dfy` (`D3dSurfaces`) and `gl.dfy` (`GlSurfaces`): the two winit surface managers.

The points below are places where the code does something a reader of it would not expect. The model follows the code. Each point names the member whose contract states it.

- **A will-close notification queues `WindowClose` twice.** One close event per close request would be the expected behaviour. The code sends one because the notification requests exit, and another from its own match arm. See `BaseviewEvents.CloseRequestsPerEvent`.
- **Mouse events also write the modifier bitset.** One would expect only modifier keys to change it. The code overwrites all four bits on every mouse move, press, release and wheel event. See `BaseviewEvents.MouseOverwritesModifiers`.
- **A window that is zero in only one dimension still gets new root surfaces.** The guard skips surface creation only when both physical dimensions are zero. So a 0×h window gets a 0-wide render target. See `BaseviewRunner.FrameRebuildGuard`.
- **The OpenGL `resize` does not return early for an unchanged size.** It rebuilds and returns true again. Only the Direct3D one returns early. See `GlSurfaces.RepeatedResizeRebuilds`.
- **The OpenGL `resize` leaves the context current.** The log vocabulary has a release (`ContextMadeNotCurrent`), and `resize` never logs one. See `GlSurfaces.WinState.Resize`, whose log ends with the context current (`IsCurrentAfter`).
- **The OpenGL `swap_buffers` ignores the dirty rectangle.** It flushes and swaps even for an empty region. See `GlSurfaces.WinState.SwapBuffers`.
- **The configuration fold keeps the config with fewer samples.** The comment next to it says "maximum". See `GlSurfaces.SelectedConfigHasFewestSamples`.
- **The ordering of transparency and sample count in the fold.** A transparent accumulator loses to an opaque config that has fewer samples: for every such pair, offered in that order, the opaque one is selected. See `GlSurfaces.TransparencyCanBeDisplaced`.
- **Render-target sizes are truncated, not rounded.** In the frame update only the dimensions of the render target and the dirty surface are truncated (`as i32`). The physical size handed to the UI core stays the float product of the logical size and the scale factor. See `BaseviewRunner.FramePrimary`, `BaseviewRunner.FrameDirty` and `BaseviewRunner.FrameResizedContext`. A `Resized` notification takes the physical size from the operating system.
- **The Direct3D buffers can end up smaller than the window.** When the window outgrows its buffers, they are resized to the monitor size. If the monitor is smaller than the window, the buffers stay smaller than the window. See `D3dSurfaces.WinState.Resize` and `D3dSurfaces.WinState.GrowBuffers`.

## Model

| member | source | states |
|---|---|---|
| Common.AtLeastOne | crates/vizia_winit/src/gl.rs:112-113 | `x.max(1)` is at least 1, at least x, and equal to x when x is already positive |
| Common.MaxReal | crates/vizia_winit/src/d3d.rs:199-202 | `f32::max`: the result is one of the two arguments and no smaller than either |
| Common.U32AsI32 | crates/vizia_baseview/src/application.rs:467 | `u32 as i32` reinterprets the bits: the value is kept up to i32::MAX and wraps to a negative congruent value above it |
| Common.TruncateToI32 | crates/vizia_baseview/src/application.rs:247 | `f32 as i32` truncates toward zero and saturates at the i32 bounds; a non-negative input gives a non-negative result |
| Common.RoundToU32 | crates/vizia_baseview/src/application.rs:427 | `round() as u32` is within one half of the input in range, 0 for non-positive input and u32::MAX above the range |
| BaseviewEvents.RequestsExit | crates/vizia_baseview/src/application.rs:514-530 | exit is requested by will-close, and on macOS by KeyQ pressed with exactly META held; by nothing else |
| BaseviewEvents.TranslateMouseButton | crates/vizia_baseview/src/application.rs:532-541 | Left, Right and Middle keep their identity; Back becomes Other(4), Forward becomes Other(5), and Other(id) keeps its id |
| BaseviewEvents.ButtonTranslationCollisions | crates/vizia_baseview/src/application.rs:532-541 | two distinct native buttons translate to the same button iff they are Back and Other(4), or Forward and Other(5) |
| BaseviewEvents.PixelsToLines | crates/vizia_baseview/src/application.rs:353-368 | a pixel axis maps to -1, 0 or 1: negative iff v < 0, positive iff v > 1, and 0 on [0, 1] |
| BaseviewEvents.ScrollLines | crates/vizia_baseview/src/application.rs:351-371 | a line delta passes through unchanged; a pixel delta is thresholded on each axis independently |
| BaseviewEvents.CharInputsAt | crates/vizia_baseview/src/application.rs:406-410 | the fan-out has one CharInput per character, and the i-th one carries the i-th character |
| BaseviewEvents.CharInputs | crates/vizia_baseview/src/application.rs:406-410 | reference definition of the character fan-out that EmitCharInputs is proved against; one dispatch per character |
| BaseviewEvents.CharInputsSnoc | crates/vizia_baseview/src/application.rs:407-409 | one more character appends exactly one CharInput at the end, which is the step of the `for` loop |
| BaseviewEvents.KeyEvents | crates/vizia_baseview/src/application.rs:404-417 | reference definition of what a keyboard event queues, which HandleKeyboard is proved against; the fan-out length plus one, ending in KeyDown for a press and KeyUp for a release |
| BaseviewEvents.KeyEventsShape | crates/vizia_baseview/src/application.rs:404-417 | a key-down with text gives one CharInput per character, in order, then exactly one KeyDown; any other key-down gives only the KeyDown; a key-up gives exactly one KeyUp |
| BaseviewEvents.CharInputsHaveNoClose | crates/vizia_baseview/src/application.rs:406-410 | the character fan-out never queues a close request |
| BaseviewEvents.TranslateEvent | crates/vizia_baseview/src/application.rs:319-497 | reference definition of the `match` of `handle_event`, which the arm methods are proved against; a mouse event queues one root-emitted event except drag-and-drop, which queues none; a keyboard event ends in its key event; a window event queues at most one, and one iff it is will-close |
| BaseviewEvents.HandleEventDispatches | crates/vizia_baseview/src/application.rs:300-497 | reference definition of everything one `handle_event` queues, which HandleEvent is proved against; one dispatch more than the arm's iff exit is requested, and then the first is WindowClose |
| BaseviewEvents.ArmIsSuffix | crates/vizia_baseview/src/application.rs:300-497 | the arm's dispatches end every call's queue, and are all of it when exit is not requested |
| BaseviewEvents.CloseRequestsPerEvent | crates/vizia_baseview/src/application.rs:303-306 | one event queues two WindowClose messages for will-close (here, and again from the arm at line 496), one for the macOS quit key, and none otherwise |
| BaseviewEvents.SetFlag | crates/vizia_baseview/src/application.rs:392 | `Modifiers::set` puts the flag in the set iff `on`, and leaves every other flag as it was |
| BaseviewEvents.FromKeyboardModifiers | crates/vizia_baseview/src/application.rs:308-317 | each of SHIFT, CTRL, ALT and SUPER is set iff the native set holds Shift, Control, Alt or Meta respectively |
| BaseviewEvents.ModifierOfCode | crates/vizia_baseview/src/application.rs:390-402 | the left and right Shift, Control, Alt and Meta codes drive SHIFT, CTRL, ALT and SUPER; no other code drives a bit |
| BaseviewEvents.NextModifiers | crates/vizia_baseview/src/application.rs:308-402 | reference definition of the modifier bitset after an event, which HandleEvent is proved against; only a modifier key or a move, press, release or wheel event can change it |
| BaseviewEvents.ModifierTransitions | crates/vizia_baseview/src/application.rs:390-402 | a modifier key sets its own bit to the pressed state and keeps the others; other keys, enter and leave, drag-and-drop and window events leave the bitset unchanged |
| BaseviewEvents.MouseOverwritesModifiers | crates/vizia_baseview/src/application.rs:320-349 | after a move, press, release or wheel event the bitset is the event's modifiers, whatever it was before |
| BaseviewRunner.ScaleChanged | crates/vizia_baseview/src/application.rs:210-211 | the resize branch is entered iff the size or the user scale factor differs from the stored values |
| BaseviewRunner.FrameDirty | crates/vizia_baseview/src/application.rs:263-268 | the dirty surface of a frame resize is `max(1.0) as i32` of each dimension: at least 1 by 1, exactly 1 in a dimension below 1, and equal to the truncated render target when both dimensions are in 1 to i32::MAX |
| BaseviewRunner.FramePrimary | crates/vizia_baseview/src/application.rs:245-249 | the render target of a frame resize truncates each physical dimension to its integer part, never negative for a non-negative size |
| BaseviewRunner.FrameResizedContext | crates/vizia_baseview/src/application.rs:225-270 | reference definition of the context after the frame's resize branch, which ApplyScaleChange is proved against; a refresh is requested and the queue and modifiers are kept |
| BaseviewRunner.FrameResizedContextEffect | crates/vizia_baseview/src/application.rs:225-231 | scale factor = window scale × user scale, physical size = logical size × scale factor (not truncated), root surfaces stay present or absent, logical size and user scale kept |
| BaseviewRunner.UnscaleDimension | crates/vizia_baseview/src/application.rs:426-429 | the stored size is logical/user-scale rounded to the nearest integer; it is 0 for a non-positive logical size |
| BaseviewRunner.ResizedEventContext | crates/vizia_baseview/src/application.rs:422-494 | reference definition of the context after a `Resized` notification, which OnResized is proved against; a refresh is requested and the queue and modifiers are kept |
| BaseviewRunner.ResizedEventContextEffect | crates/vizia_baseview/src/application.rs:422-494 | the given size, scale factor = window scale × user scale, physical size as reported, root surfaces stay present or absent; rebuilt surfaces in the i32 range take the reported size, and max(·,1) of it for the dirty one; those surfaces are `EventPrimary` and `EventDirty` |
| BaseviewRunner.StylePassBracketed | crates/vizia_baseview/src/application.rs:279-286 | every frame makes the GL context current exactly once, just before the style pass; releases it exactly once, just after; and begins with the event pass; stated over `FrameOps`, the frame log: the event pass, `FrameResizeOps` when the size or scale changed, then `StylePassOps` |
| BaseviewRunner.FrameRebuildGuard | crates/vizia_baseview/src/application.rs:233-270 | with root surfaces present, they are rebuilt iff the physical size is not zero in both dimensions; a rebuilt dirty surface is at least 1 by 1 |
| BaseviewRunner.EventContextEffect | crates/vizia_baseview/src/application.rs:300-419 | an event other than Resized appends exactly its dispatches (exit message first) to the queue and leaves the modifiers as the translation sets them; stated about `EventContext`, which is `ExitContext` followed by `ArmContext` |
| BaseviewRunner.ResizedIsSilent | crates/vizia_baseview/src/application.rs:422-494 | a `Resized` notification queues nothing and leaves the modifiers unchanged |
| BaseviewRunner.ApplicationRunner.constructor | crates/vizia_baseview/src/application.rs:178-196 | should_redraw starts true; the stored size and user scale factor are the UI core's |
| BaseviewRunner.ApplicationRunner.DrainQueue | crates/vizia_baseview/src/application.rs:203-205 | every queued message is sent to the UI core, in order, and nothing else in the context changes |
| BaseviewRunner.ApplicationRunner.ApplyScaleChange | crates/vizia_baseview/src/application.rs:213-273 | stores the UI core's size and scale, resizes the window to size × user scale, sets the scale factor and physical size, rebuilds the root surfaces under the guard, and requests a refresh; the log gains `FrameResizeOps` |
| BaseviewRunner.ApplicationRunner.OnFrameUpdate | crates/vizia_baseview/src/application.rs:200-291 | a frame drains the queue, resizes iff the size or scale changed, runs the bracketed style pass and then the animation and visual passes; the runner ends in sync, and should_redraw is raised iff the style asks for it; the log gains `FrameOps` |
| BaseviewRunner.ApplicationRunner.Render | crates/vizia_baseview/src/application.rs:293-298 | draws, flushes, and clears should_redraw |
| BaseviewRunner.ApplicationRunner.HandleIdle | crates/vizia_baseview/src/application.rs:503-509 | with no callback nothing changes; otherwise current is set to the root, then the callback is called once; the log records that the root is current when it runs |
| BaseviewRunner.ApplicationRunner.Emit | crates/vizia_baseview/src/application.rs:304 | one dispatch is appended to the UI core's queue, and nothing else changes |
| BaseviewRunner.ApplicationRunner.UpdateModifiers | crates/vizia_baseview/src/application.rs:308-317 | the four sets, done one by one, leave exactly the bitset of the native modifiers |
| BaseviewRunner.ApplicationRunner.OnResized | crates/vizia_baseview/src/application.rs:422-494 | stores the unscaled logical size, adopts the system scale only under the system-scaling policy, sets scale and physical size, rebuilds the surfaces under the both-zero guard, and requests a refresh; the context is `ResizedEventContext`, the log gains `ResizedEventOps` and the rebuilt surfaces are `EventPrimary` and `EventDirty` |
| BaseviewRunner.ApplicationRunner.HandleMouse | crates/vizia_baseview/src/application.rs:320-383 | the mouse arm queues the translated event and overwrites the modifiers for move, press, release and wheel events; the new context is `ArmContext` of the old one |
| BaseviewRunner.ApplicationRunner.SetKeyModifier | crates/vizia_baseview/src/application.rs:390-402 | a modifier key sets its bit to the pressed state; other keys change nothing |
| BaseviewRunner.ApplicationRunner.EmitCharInputs | crates/vizia_baseview/src/application.rs:406-410 | the `for` loop queues one CharInput per character, in order |
| BaseviewRunner.ApplicationRunner.HandleKeyboard | crates/vizia_baseview/src/application.rs:384-419 | the keyboard arm updates the modifier key's bit, then queues the character fan-out and the key event; the new context is `ArmContext` of the old one |
| BaseviewRunner.ApplicationRunner.HandleWindow | crates/vizia_baseview/src/application.rs:420-499 | focus requests a refresh, will-close queues WindowClose, other window events (Resized aside) do nothing; the new context is `ArmContext` of the old one |
| BaseviewRunner.ApplicationRunner.HandleNonResize | crates/vizia_baseview/src/application.rs:300-501 | for every event except Resized: the exit message first, then the arm's events; a refresh is requested on focus; the new context is `EventContext`, i.e. `ExitContext` then `ArmContext` |
| BaseviewRunner.ApplicationRunner.HandleResized | crates/vizia_baseview/src/application.rs:422-494 | the Resized arm, in the terms of HandleEvent: the queue grows by that event's (empty) dispatches, the modifiers follow NextModifiers, and the state is that of OnResized |
| BaseviewRunner.ApplicationRunner.HandleEvent | crates/vizia_baseview/src/application.rs:300-501 | should_quit becomes true iff exit is requested and is otherwise kept; the queue and modifiers follow the translation; only Resized touches the stored size, the scale factor and the log |
| BaseviewRunner.RepeatedFrameDoesNotResize | crates/vizia_baseview/src/application.rs:210-214 | a second frame with unchanged size and scale logs no resize |
| D3dSurfaces.BufferSurfaces | crates/vizia_winit/src/d3d.rs:229-259 | exactly BUFFER_COUNT (2) entries; entry i wraps buffer i at the inner size |
| D3dSurfaces.SurfaceOpsAt | crates/vizia_winit/src/d3d.rs:233-259 | building n surfaces fetches buffer i and then wraps it, for i = 0 up to n-1 in order |
| D3dSurfaces.SurfaceOpsHaveNoResize | crates/vizia_winit/src/d3d.rs:229-259 | building surfaces never resizes the buffers |
| D3dSurfaces.ReleasesBeforeResizeAppend | crates/vizia_winit/src/d3d.rs:151-167 | the release-before-ResizeBuffers ordering of two logs survives concatenation |
| D3dSurfaces.Outgrows | crates/vizia_winit/src/d3d.rs:145-147 | the buffers are kept iff the new size fits in them in both dimensions |
| D3dSurfaces.ResizeOrdering | crates/vizia_winit/src/d3d.rs:145-170 | ResizeBuffers is issued iff the window outgrew its buffers; it comes straight after free, reset and clear, and before every GetBuffer; the rebuild fetches buffers 0 then 1; stated over `ResizeOps`, the log of one accepted resize |
| D3dSurfaces.ResizeKeepsOrdering | crates/vizia_winit/src/d3d.rs:145-170 | appending an accepted resize to a well-ordered log keeps every ResizeBuffers straight after free, reset and clear (`ResizeOps`) |
| D3dSurfaces.AppendWithoutResize | crates/vizia_winit/src/d3d.rs:206-226 | presenting, which issues no ResizeBuffers, keeps the ordering of the log |
| D3dSurfaces.SetUpOrdered | crates/vizia_winit/src/d3d.rs:77-116 | the set-up log (swap chain, wait, present, then the surfaces) satisfies the ordering |
| D3dSurfaces.ShouldPresent | crates/vizia_winit/src/d3d.rs:188-194 | presents iff the dirty region has positive width and height and the window is not minimized |
| D3dSurfaces.ClampEdge | crates/vizia_winit/src/d3d.rs:199-202 | an edge is clamped at zero and then truncated: never negative, 0 for a negative input, the integer part otherwise |
| D3dSurfaces.PresentRect | crates/vizia_winit/src/d3d.rs:196-204 | every edge of the presented RECT is clamped to be at least 0 |
| D3dSurfaces.PresentRectOrdered | crates/vizia_winit/src/d3d.rs:196-204 | for a region of positive extent, right is at least left and bottom is at least top after clamping |
| D3dSurfaces.GetPresentArgs | crates/vizia_winit/src/d3d.rs:304-328 | vsync gives (1, 0); without vsync the interval is 0, and ALLOW_TEARING is set iff the feature check succeeds and reports TRUE; no other flag is ever set |
| D3dSurfaces.SwapChainFlags | crates/vizia_winit/src/d3d.rs:339-343 | FRAME_LATENCY_WAITABLE_OBJECT is always set; ALLOW_TEARING is set iff the present flags allow tearing; nothing else is set |
| D3dSurfaces.SearchFrom | crates/vizia_winit/src/d3d.rs:268-288 | reference definition of the adapter loop from index i, which GetHardwareAdapter is proved against; Ok is the first usable adapter from i, after passing over only software or device-refusing ones; a description failure names the adapter; AdapterNotFound iff every adapter from i is passed over |
| D3dSurfaces.SelectAdapter | crates/vizia_winit/src/d3d.rs:265-291 | reference definition of the whole search; the factory error iff the factory fails, AdapterNotFound iff the factory works and every adapter is passed over |
| D3dSurfaces.GetHardwareAdapter | crates/vizia_winit/src/d3d.rs:265-291 | the first adapter in enumeration order that is not SOFTWARE and creates a device; device creation is never tried on a software adapter; a description failure, the end of the enumeration or a factory failure is an error |
| D3dSurfaces.WinState.constructor | crates/vizia_winit/src/d3d.rs:71-116 | creates the command queue, then the swap chain at the buffer size with the derived flags, waits once, presents once, creates the Skia contexts, then builds the surfaces for the inner size |
| D3dSurfaces.WinState.Open | crates/vizia_winit/src/d3d.rs:53-117 | fails exactly when the adapter search fails; otherwise uses vsync (1, 0), sizes the buffers to the monitor or the window, logs the queue, swap chain, wait, present, Skia contexts and surfaces in that order, and starts from valid surfaces; the buffer size is `MonitorOr` of the monitor and the inner size |
| D3dSurfaces.WinState.FreeGpuResources | crates/vizia_winit/src/d3d.rs:153 | Skia's context no longer holds resources made from the buffers |
| D3dSurfaces.WinState.ResetContext | crates/vizia_winit/src/d3d.rs:154 | Skia's context no longer tracks state referring to the buffers |
| D3dSurfaces.WinState.ClearSurfaces | crates/vizia_winit/src/d3d.rs:155 | the surfaces are dropped |
| D3dSurfaces.WinState.ResizeBuffers | crates/vizia_winit/src/d3d.rs:157-167 | callable only once no reference into the buffers is left; the swap chain takes the new size |
| D3dSurfaces.WinState.CreateSurfaces | crates/vizia_winit/src/d3d.rs:229-260 | the surfaces become the two wraps of buffers 0 and 1 at the inner size |
| D3dSurfaces.WinState.Resize | crates/vizia_winit/src/d3d.rs:131-173 | returns false and changes nothing for a zero or unchanged size; otherwise adopts the size and returns true; reallocates to the monitor size iff it outgrew the buffers; keeps every state invariant, including the release-before-ResizeBuffers ordering of the whole log; the log gains `ResizeOps` and the new buffer size is `MonitorOr` (the monitor size if known, else the window size) |
| D3dSurfaces.WinState.GrowBuffers | crates/vizia_winit/src/d3d.rs:145-168 | the growth branch frees, resets and clears, and only then resizes the buffers to the monitor size, through `MonitorOr`, which falls back to the window size when no monitor is known |
| D3dSurfaces.WinState.SurfacesMut | crates/vizia_winit/src/d3d.rs:179-185 | (s0, s1) for back-buffer index 0 and (s1, s0) otherwise; both are at the inner size |
| D3dSurfaces.WinState.SwapBuffers | crates/vizia_winit/src/d3d.rs:187-227 | nothing happens for an empty region or a minimized window; otherwise it waits, flushes the current back buffer's surface and presents the clamped rectangle |
| GlSurfaces.Prefer | crates/vizia_winit/src/gl.rs:72-81 | the candidate replaces the accumulator iff it brings transparency the accumulator lacks or has fewer samples |
| GlSurfaces.SelectConfig | crates/vizia_winit/src/gl.rs:71-83 | a configuration is selected iff at least one is offered |
| GlSurfaces.Reduce | crates/vizia_winit/src/gl.rs:69-83 | reference definition of the `reduce` fold, which SelectConfig and the fold lemmas use; it ends on its start value or on one of the remaining configs |
| GlSurfaces.SelectedConfigIsOffered | crates/vizia_winit/src/gl.rs:71-82 | the selected configuration is an element of the non-empty input |
| GlSurfaces.ReduceFewestSamples | crates/vizia_winit/src/gl.rs:72-81 | with uniform transparency the fold ends on a config with no more samples than any it saw |
| GlSurfaces.SelectedConfigHasFewestSamples | crates/vizia_winit/src/gl.rs:69-82 | among configs that agree on transparency the selection has the fewest samples |
| GlSurfaces.TransparencyCanBeDisplaced | crates/vizia_winit/src/gl.rs:72-81 | for every transparent config followed by an opaque one with fewer samples, the opaque one is selected |
| GlSurfaces.CreateContext | crates/vizia_winit/src/gl.rs:100-106 | desktop OpenGL is tried first; GLES is tried iff that fails; the context made is the last one tried |
| GlSurfaces.PrimarySurface | crates/vizia_winit/src/gl.rs:248-262 | the primary surface has the window's inner size and the configuration's samples and stencil |
| GlSurfaces.ResizedDirtySurface | crates/vizia_winit/src/gl.rs:224-227 | the dirty surface is (max(w,1), max(h,1)) cast to i32 |
| GlSurfaces.ClampedWindowSurface | crates/vizia_winit/src/gl.rs:229-233 | the GL surface is at least 1 by 1 and takes every positive dimension unchanged |
| GlSurfaces.WinState.constructor | crates/vizia_winit/src/gl.rs:171-185 | the state holds the given context, surfaces, configuration and log |
| GlSurfaces.ContextRequests | crates/vizia_winit/src/gl.rs:100-106 | one create_context log entry per API tried, in the order tried |
| GlSurfaces.WinState.Open | crates/vizia_winit/src/gl.rs:58-186 | fails iff no configuration is offered, or neither context kind can be created; otherwise the GL surface is clamped to at least 1 by 1, the primary surface takes the inner size, and the dirty surface takes the inner size unclamped; the log is the context attempts, the window surface, make-current, the Skia context, the framebuffer query, then the primary and the dirty surface, with the context current at the end |
| GlSurfaces.WinState.MakeCurrent | crates/vizia_winit/src/gl.rs:193-195 | logs one make-current, after which the context is current |
| GlSurfaces.WinState.Resize | crates/vizia_winit/src/gl.rs:197-236 | always makes the context current first; returns false and keeps the surfaces for a zero dimension; otherwise, after the make-current, logs the framebuffer query, the primary surface at the window's inner size, the dirty surface at max(·,1) of the argument, then the window-surface resize at max(·,1), and returns true; in both cases the context is current afterwards and no release is logged |
| GlSurfaces.WinState.SurfacesMut | crates/vizia_winit/src/gl.rs:238-240 | always Some((surface, dirty_surface)), in that order |
| GlSurfaces.WinState.SwapBuffers | crates/vizia_winit/src/gl.rs:242-245 | flushes and swaps, whatever the dirty rectangle, and does not change whether the context is current |
| GlSurfaces.RepeatedResizeRebuilds | crates/vizia_winit/src/gl.rs:197-236 | a second resize to the same nonzero size logs the whole rebuild (framebuffer query, both surfaces, window-surface resize) again |

## Left out

- Floating point: f32/f64 arithmetic is modelled as exact real arithmetic. Rounding error and NaN are not modelled. Infinity appears only where a size is divided by a zero user scale factor.
- BaseviewRunner.ApplicationRunner.HandleMouse: the cursor position is the exact real product of position and window scale factor. The f64 multiplication and the conversion to f32 are not modelled.
- BaseviewRunner.ApplicationRunner.ApplyScaleChange: the scale factor and physical size are exact real products. The f64 and f32 intermediate values are not modelled.
- BaseviewRunner.ApplicationRunner.OnFrameUpdate: the UI core's passes appear only as log entries. The cross-thread `queue_get` drain is an input sequence. The size and user scale factor the UI core holds after its event pass are inputs, and so is its request to redraw.
- BaseviewRunner.ApplicationRunner.HandleIdle: the idle callback is known only by its identity. What it does to the context is not modelled; the log records only which entity is current when it is called.
- Foreign calls are the log entries listed at the top; what they do inside is not modelled. Their `unwrap`/`expect` panics are assumed not to happen. The exceptions are the adapter search, the GL configuration choice and the GL context creation, which are modelled as errors.
- GlSurfaces.WinState.Resize: requires the window's inner size to fit in i32, which is where `create_surface` panics. A negative framebuffer binding would panic in `try_into`; the model takes the binding as a u32.
- GlSurfaces.WinState.Open: the same i32 requirement as Resize. The first dirty surface takes `inner_size as i32` without the `max(1)` clamp. Skia's refusal of a zero-sized surface is not modelled.
- Skia's refusal of a non-positive surface dimension is not modelled anywhere: a dirty surface keeps the wrapped i32 value.
- Both `WaitForSingleObject` waits in d3d.rs are a `WaitFrameLatency` log entry. Their blocking and their 1000 ms timeout are not modelled.
- The vsync setting in the OpenGL `new` is commented out in the source and is not modelled.
- The D3D12 `make_current` does nothing, so it is not modelled. Nor is the OpenGL `Drop`, which makes the context current.
- Window identity and flags carry no logic here, so they are not modelled: `window()`, `hwnd()`, `entity`, `id`, `should_close`, `is_initially_cloaked` and `is_moving_or_resizing`.
- The `Application` builder and the window opening of application.rs (lines 32-150) are not part of this model: they configure and start the runner.
- crates/vizia_winit/src/lib.rs is not part of this model. It holds compile-time backend exclusivity and a closure over the UI core's view lookup.
- examples/views/picklist.rs is not part of this model. It is an example application.
