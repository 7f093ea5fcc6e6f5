/** The Direct3D12 surface manager of the winit backend: a swap chain of
    `BUFFER_COUNT` buffers, one Skia surface wrapped around each buffer, the
    resize state machine over `innerSize`, `bufferSize` and `surfaces`, and the
    small selections made when the swap chain is set up and presented.

    DXGI, D3D12 and Skia are not modelled; each call into them is an entry of
    the `ops` log. DXGI's rule that no reference into the old buffers may be
    outstanding when `ResizeBuffers` is issued is the precondition of the
    method that stands for that call. */
module D3dSurfaces {
  import opened Common

  const BUFFER_COUNT: nat := 2

  const DXGI_PRESENT_ALLOW_TEARING: bv32 := 0x200
  const DXGI_SWAP_CHAIN_FLAG_FRAME_LATENCY_WAITABLE_OBJECT: bv32 := 0x40
  const DXGI_SWAP_CHAIN_FLAG_ALLOW_TEARING: bv32 := 0x800

  /** `BackendRenderTarget::new_d3d` over swap-chain buffer `buffer`. */
  datatype RenderTarget = RenderTarget(buffer: nat, width: u32, height: u32)

  /** The Skia surface wrapped around a render target. */
  datatype Surface = Surface(buffer: nat, width: u32, height: u32)

  /** A Win32 `RECT`. */
  datatype Rect = Rect(left: int, top: int, right: int, bottom: int)

  datatype D3dOp =
    | CreateCommandQueue
    | CreateSwapChain(width: u32, height: u32, bufferCount: nat, flags: bv32)
    | WaitFrameLatency
    | PresentInitial(syncInterval: nat, flags: bv32)
    | CreateSkiaContexts
    | FreeGpuResources
    | ResetContext
    | ClearSurfaces
    | ResizeBuffers(bufferCount: nat, width: u32, height: u32)
    | GetBuffer(buffer: nat)
    | WrapRenderTarget(buffer: nat, width: u32, height: u32)
    | FlushSurface(buffer: nat)
    | Present(syncInterval: nat, flags: bv32, dirty: Rect)

  /** A graphics adapter as the enumeration reports it: whether its
      description can be read, whether it is flagged SOFTWARE, and whether
      `D3D12CreateDevice` succeeds on it. */
  datatype Adapter = Adapter(describable: bool, software: bool, createsDevice: bool)

  datatype D3dError = FactoryCreationFailed | AdapterNotFound | DescriptionFailed(index: nat)

  // ---------------------------------------------------------------------
  // Surfaces

  function SurfaceFor(i: nat, size: PhysicalSize): (Surface, RenderTarget)
  {
    (Surface(i, size.width, size.height), RenderTarget(i, size.width, size.height))
  }

  /** The surfaces `create_surfaces` builds: entry i wraps buffer i at `size`. */
  function BufferSurfaces(size: PhysicalSize): (s: seq<(Surface, RenderTarget)>)
    ensures |s| == BUFFER_COUNT
    ensures forall i :: 0 <= i < |s| ==>
      s[i].0.buffer == i && s[i].1.buffer == i
      && s[i].0.width == s[i].1.width == size.width && s[i].0.height == s[i].1.height == size.height
  {
    seq(BUFFER_COUNT, i requires 0 <= i => SurfaceFor(i, size))
  }

  /** The calls `create_surfaces` makes for the first `n` buffers. */
  function SurfaceOps(n: nat, size: PhysicalSize): seq<D3dOp>
  {
    if n == 0 then [] else SurfaceOps(n - 1, size) + [GetBuffer(n - 1), WrapRenderTarget(n - 1, size.width, size.height)]
  }

  lemma {:induction false} SurfaceOpsAt(n: nat, size: PhysicalSize)
    ensures |SurfaceOps(n, size)| == 2 * n
    ensures forall i :: 0 <= i < n ==>
      SurfaceOps(n, size)[2 * i] == GetBuffer(i)
      && SurfaceOps(n, size)[2 * i + 1] == WrapRenderTarget(i, size.width, size.height)
  {
    if n > 0 {
      SurfaceOpsAt(n - 1, size);
    }
  }

  // ---------------------------------------------------------------------
  // The ordering obligation of ResizeBuffers

  /** Every `ResizeBuffers` in the log comes straight after the context has
      freed its resources, been reset and the surfaces have been dropped. */
  ghost predicate ReleasesBeforeResize(ops: seq<D3dOp>)
  {
    forall k :: 0 <= k < |ops| && ops[k].ResizeBuffers? ==>
      3 <= k && ops[k - 3] == FreeGpuResources && ops[k - 2] == ResetContext && ops[k - 1] == ClearSurfaces
  }

  lemma {:induction false} ReleasesBeforeResizeAppend(a: seq<D3dOp>, b: seq<D3dOp>)
    requires ReleasesBeforeResize(a) && ReleasesBeforeResize(b)
    ensures ReleasesBeforeResize(a + b)
  {
    forall k | 0 <= k < |a + b| && (a + b)[k].ResizeBuffers?
      ensures 3 <= k && (a + b)[k - 3] == FreeGpuResources && (a + b)[k - 2] == ResetContext
              && (a + b)[k - 1] == ClearSurfaces
    {
      if k >= |a| {
        assert b[k - |a|] == (a + b)[k];
        var j := k - |a|;
        assert 3 <= j && b[j - 3] == FreeGpuResources && b[j - 2] == ResetContext && b[j - 1] == ClearSurfaces;
      } else {
        assert a[k] == (a + b)[k];
      }
    }
  }

  lemma {:induction false} SurfaceOpsHaveNoResize(n: nat, size: PhysicalSize)
    ensures forall k :: 0 <= k < |SurfaceOps(n, size)| ==> !SurfaceOps(n, size)[k].ResizeBuffers?
  {
    if n > 0 {
      SurfaceOpsHaveNoResize(n - 1, size);
      var prefix := SurfaceOps(n - 1, size);
      assert SurfaceOps(n, size) == prefix + [GetBuffer(n - 1), WrapRenderTarget(n - 1, size.width, size.height)];
    }
  }

  /** Whether the new inner size overflows the allocated buffers. */
  function Outgrows(size: PhysicalSize, buffer: PhysicalSize): (grows: bool)
    ensures !grows <==> size.width <= buffer.width && size.height <= buffer.height
  {
    size.width > buffer.width || size.height > buffer.height
  }

  /** `current_monitor().map_or(size, |m| m.size())`. */
  function MonitorOr(monitor: Option<PhysicalSize>, size: PhysicalSize): PhysicalSize
  {
    if monitor.Some? then monitor.value else size
  }

  /** The calls one accepted `resize` makes. */
  function ResizeOps(grows: bool, buffer: PhysicalSize, inner: PhysicalSize): seq<D3dOp>
  {
    (if grows then [FreeGpuResources, ResetContext, ClearSurfaces, ResizeBuffers(BUFFER_COUNT, buffer.width, buffer.height)] else [])
    + [ClearSurfaces] + SurfaceOps(BUFFER_COUNT, inner)
  }

  /** `ResizeBuffers` is issued exactly when the window outgrows its buffers,
      only after the releases, and before every `GetBuffer` of the rebuild,
      which then fetches buffers 0 and 1 in that order. */
  lemma ResizeOrdering(grows: bool, buffer: PhysicalSize, inner: PhysicalSize)
    ensures var ops := ResizeOps(grows, buffer, inner);
      && ReleasesBeforeResize(ops)
      && (grows <==> exists k :: 0 <= k < |ops| && ops[k].ResizeBuffers?)
      && (forall k, j :: 0 <= k < |ops| && 0 <= j < |ops| && ops[k].ResizeBuffers? && ops[j].GetBuffer? ==> k < j)
      && |ops| >= 5 && ops[|ops| - 4] == GetBuffer(0) && ops[|ops| - 2] == GetBuffer(1)
  {
    var ops := ResizeOps(grows, buffer, inner);
    var head: seq<D3dOp> := if grows then [FreeGpuResources, ResetContext, ClearSurfaces, ResizeBuffers(BUFFER_COUNT, buffer.width, buffer.height)] else [];
    var tail := [ClearSurfaces] + SurfaceOps(BUFFER_COUNT, inner);
    assert ops == head + tail;
    SurfaceOpsAt(BUFFER_COUNT, inner);
    SurfaceOpsHaveNoResize(BUFFER_COUNT, inner);
    assert forall k :: 0 <= k < |tail| ==> !tail[k].ResizeBuffers? by {
      forall k | 0 <= k < |tail| ensures !tail[k].ResizeBuffers? {
        if k > 0 { assert tail[k] == SurfaceOps(BUFFER_COUNT, inner)[k - 1]; }
      }
    }
    forall k | 0 <= k < |ops| && ops[k].ResizeBuffers?
      ensures grows && k == 3
    {
    }
    if grows {
      assert ops[3].ResizeBuffers?;
    }
    forall k, j | 0 <= k < |ops| && 0 <= j < |ops| && ops[k].ResizeBuffers? && ops[j].GetBuffer?
      ensures k < j
    {
    }
  }

  /** An accepted resize keeps the ordering of the whole log. */
  lemma ResizeKeepsOrdering(before: seq<D3dOp>, grows: bool, buffer: PhysicalSize, inner: PhysicalSize)
    requires ReleasesBeforeResize(before)
    ensures ReleasesBeforeResize(before + ResizeOps(grows, buffer, inner))
  {
    ResizeOrdering(grows, buffer, inner);
    ReleasesBeforeResizeAppend(before, ResizeOps(grows, buffer, inner));
  }

  /** Entries other than `ResizeBuffers` keep the ordering of the log. */
  lemma AppendWithoutResize(before: seq<D3dOp>, extra: seq<D3dOp>)
    requires ReleasesBeforeResize(before)
    requires forall k :: 0 <= k < |extra| ==> !extra[k].ResizeBuffers?
    ensures ReleasesBeforeResize(before + extra)
  {
    ReleasesBeforeResizeAppend(before, extra);
  }

  /** Setting up without `ResizeBuffers` and then building the surfaces
      gives a log with the ordering. */
  lemma SetUpOrdered(prefix: seq<D3dOp>, inner: PhysicalSize)
    requires forall k :: 0 <= k < |prefix| ==> !prefix[k].ResizeBuffers?
    ensures ReleasesBeforeResize(prefix + [ClearSurfaces] + SurfaceOps(BUFFER_COUNT, inner))
  {
    ResizeOrdering(false, inner, inner);
    ReleasesBeforeResizeAppend(prefix, ResizeOps(false, inner, inner));
    assert prefix + ResizeOps(false, inner, inner) == prefix + [ClearSurfaces] + SurfaceOps(BUFFER_COUNT, inner);
  }

  // ---------------------------------------------------------------------
  // Presenting

  /** `swap_buffers` presents only a region of positive extent, and only
      when the window is not minimized. */
  function ShouldPresent(dirty: BoundingBox, minimized: Option<bool>): (present: bool)
    ensures present ==> dirty.w > 0.0 && dirty.h > 0.0
    ensures minimized == Some(true) ==> !present
    ensures dirty.w > 0.0 && dirty.h > 0.0 && minimized != Some(true) ==> present
  {
    !(dirty.w <= 0.0 || dirty.h <= 0.0) && minimized != Some(true)
  }

  /** One edge of the dirty rectangle: clamped at zero, then truncated to i32. */
  function ClampEdge(v: real): (e: int)
    ensures 0 <= e <= I32_MAX
    ensures v <= 0.0 ==> e == 0
    ensures 0.0 <= v <= I32_MAX as real ==> e as real <= v < e as real + 1.0
  {
    TruncateToI32(MaxReal(v, 0.0))
  }

  /** The rectangle handed to `Present1`. */
  function PresentRect(dirty: BoundingBox): (r: Rect)
    ensures r.left >= 0 && r.top >= 0 && r.right >= 0 && r.bottom >= 0
    ensures r.left == ClampEdge(dirty.x) && r.top == ClampEdge(dirty.y)
    ensures r.right == ClampEdge(dirty.x + dirty.w) && r.bottom == ClampEdge(dirty.y + dirty.h)
  {
    Rect(ClampEdge(dirty.x), ClampEdge(dirty.y), ClampEdge(dirty.x + dirty.w), ClampEdge(dirty.y + dirty.h))
  }

  /** A rectangle of positive extent keeps a right edge no smaller than its left edge and a bottom edge no smaller
      than its top edge. */
  lemma PresentRectOrdered(dirty: BoundingBox)
    requires dirty.w > 0.0 && dirty.h > 0.0
    ensures PresentRect(dirty).left <= PresentRect(dirty).right
    ensures PresentRect(dirty).top <= PresentRect(dirty).bottom
  {
    TruncateMonotone(MaxReal(dirty.x, 0.0), MaxReal(dirty.x + dirty.w, 0.0));
    TruncateMonotone(MaxReal(dirty.y, 0.0), MaxReal(dirty.y + dirty.h, 0.0));
  }

  lemma TruncateMonotone(a: real, b: real)
    requires 0.0 <= a <= b
    ensures TruncateToI32(a) <= TruncateToI32(b)
  {
    if b < I32_MAX as real {
      assert a.Floor <= b.Floor;
    }
  }

  /** `get_present_args`: the sync interval and the present flags. */
  method GetPresentArgs(vsync: bool, tearingSupport: Option<bool>) returns (syncInterval: nat, presentFlags: bv32)
    ensures vsync ==> syncInterval == 1 && presentFlags == 0
    ensures !vsync ==> syncInterval == 0
    ensures !vsync ==> (presentFlags & DXGI_PRESENT_ALLOW_TEARING != 0 <==> tearingSupport == Some(true))
    ensures presentFlags & !DXGI_PRESENT_ALLOW_TEARING == 0
  {
    syncInterval := 1;
    presentFlags := 0;

    if vsync == false {
      syncInterval := 0;

      // `tearingSupport` is the feature check: None when the call fails,
      // otherwise the value it reports.
      var allowTearing := false;
      var callSucceeded := tearingSupport.Some?;
      if callSucceeded {
        allowTearing := tearingSupport.value;
      }
      if callSucceeded && allowTearing {
        presentFlags := presentFlags | DXGI_PRESENT_ALLOW_TEARING;
      }
    }
  }

  /** The swap-chain flags `create_swap_chain` derives from the present flags. */
  function SwapChainFlags(presentFlags: bv32): (flags: bv32)
    ensures flags & DXGI_SWAP_CHAIN_FLAG_FRAME_LATENCY_WAITABLE_OBJECT != 0
    ensures flags & DXGI_SWAP_CHAIN_FLAG_ALLOW_TEARING != 0 <==> presentFlags & DXGI_PRESENT_ALLOW_TEARING != 0
    ensures flags & !(DXGI_SWAP_CHAIN_FLAG_FRAME_LATENCY_WAITABLE_OBJECT | DXGI_SWAP_CHAIN_FLAG_ALLOW_TEARING) == 0
  {
    var flags := DXGI_SWAP_CHAIN_FLAG_FRAME_LATENCY_WAITABLE_OBJECT;
    if presentFlags & DXGI_PRESENT_ALLOW_TEARING != 0 then flags | DXGI_SWAP_CHAIN_FLAG_ALLOW_TEARING else flags
  }

  // ---------------------------------------------------------------------
  // Device acquisition

  /** An adapter the search passes over: one it can describe and that is
      either a software renderer or refuses to create a device. */
  predicate PassedOver(a: Adapter)
  {
    a.describable && (a.software || !a.createsDevice)
  }

  /** The adapter search as a recursion over the enumeration from index `i`. */
  function SearchFrom(adapters: seq<Adapter>, i: nat): (r: Result<nat, D3dError>)
    requires i <= |adapters|
    ensures r.Ok? ==>
      && i <= r.value < |adapters|
      && adapters[r.value].describable && !adapters[r.value].software && adapters[r.value].createsDevice
      && forall j :: i <= j < r.value ==> PassedOver(adapters[j])
    ensures r.Err? && r.error.DescriptionFailed? ==>
      && i <= r.error.index < |adapters| && !adapters[r.error.index].describable
      && forall j :: i <= j < r.error.index ==> PassedOver(adapters[j])
    ensures r == Err(AdapterNotFound) <==> forall j :: i <= j < |adapters| ==> PassedOver(adapters[j])
    ensures r != Err(FactoryCreationFailed)
    decreases |adapters| - i
  {
    if i == |adapters| then Err(AdapterNotFound)
    else if !adapters[i].describable then Err(DescriptionFailed(i))
    else if !adapters[i].software && adapters[i].createsDevice then Ok(i)
    else SearchFrom(adapters, i + 1)
  }

  /** The outcome of the adapter search, the factory creation included. */
  function SelectAdapter(factoryOk: bool, adapters: seq<Adapter>): (r: Result<nat, D3dError>)
    ensures r == Err(FactoryCreationFailed) <==> !factoryOk
    ensures r == Err(AdapterNotFound) <==> factoryOk && forall j :: 0 <= j < |adapters| ==> PassedOver(adapters[j])
  {
    if !factoryOk then Err(FactoryCreationFailed) else SearchFrom(adapters, 0)
  }

  /** `get_hardware_adapter_and_device`: the index of the adapter selected,
      in enumeration order, and the indices on which a device creation was
      attempted. The enumeration fails past the last adapter. */
  method GetHardwareAdapter(factoryOk: bool, adapters: seq<Adapter>) returns (r: Result<nat, D3dError>, tried: seq<nat>)
    ensures r == SelectAdapter(factoryOk, adapters)
    ensures !factoryOk ==> r == Err(FactoryCreationFailed) && tried == []
    ensures r.Ok? ==>
      && factoryOk && r.value < |adapters|
      && adapters[r.value].describable && !adapters[r.value].software && adapters[r.value].createsDevice
      && (forall j :: 0 <= j < r.value ==> PassedOver(adapters[j]))
    ensures r == Err(AdapterNotFound) ==> factoryOk && forall j :: 0 <= j < |adapters| ==> PassedOver(adapters[j])
    ensures r.Err? && r.error.DescriptionFailed? ==>
      && factoryOk && r.error.index < |adapters| && !adapters[r.error.index].describable
      && (forall j :: 0 <= j < r.error.index ==> PassedOver(adapters[j]))
    ensures forall k :: 0 <= k < |tried| ==> tried[k] < |adapters| && !adapters[tried[k]].software
    ensures r.Ok? ==> |tried| > 0 && tried[|tried| - 1] == r.value
    ensures forall j :: 0 <= j < |adapters| && adapters[j].describable && !adapters[j].software
                        && (r.Ok? ==> j <= r.value)
                        && (r.Err? && r.error.DescriptionFailed? ==> j < r.error.index)
                        && factoryOk
                     ==> j in tried
  {
    tried := [];
    if !factoryOk {
      return Err(FactoryCreationFailed), tried;
    }
    var i := 0;
    while i < |adapters|
      invariant 0 <= i <= |adapters|
      invariant forall j :: 0 <= j < i ==> PassedOver(adapters[j])
      invariant forall k :: 0 <= k < |tried| ==> tried[k] < i && !adapters[tried[k]].software
      invariant forall j :: 0 <= j < i && !adapters[j].software ==> j in tried
      invariant SearchFrom(adapters, i) == SelectAdapter(factoryOk, adapters)
    {
      var adapter := adapters[i];
      if !adapter.describable {
        return Err(DescriptionFailed(i)), tried;
      }
      if adapter.software {
        i := i + 1;
        continue;
      }
      tried := tried + [i];
      if adapter.createsDevice {
        return Ok(i), tried;
      }
      i := i + 1;
    }
    return Err(AdapterNotFound), tried;
  }

  // ---------------------------------------------------------------------
  // The window state

  class WinState {
    var innerSize: PhysicalSize
    var bufferSize: PhysicalSize
    var surfaces: seq<(Surface, RenderTarget)>
    /** The size the swap chain's buffers were last created or resized to. */
    var swapChainSize: PhysicalSize
    /** Skia's context holds GPU resources made from the buffers. */
    var contextCachesResources: bool
    /** Skia's context still tracks backend state that refers to the buffers. */
    var contextTracksState: bool
    const syncInterval: nat
    const presentFlags: bv32
    var ops: seq<D3dOp>

    ghost predicate Valid()
      reads this
    {
      && surfaces == BufferSurfaces(innerSize)
      && swapChainSize == bufferSize
      && ReleasesBeforeResize(ops)
    }

    /** Nothing refers to the swap chain's buffers any more. */
    ghost predicate ReleasedForResize()
      reads this
    {
      surfaces == [] && !contextCachesResources && !contextTracksState
    }

    constructor (innerSize: PhysicalSize, bufferSize: PhysicalSize, syncInterval: nat, presentFlags: bv32)
      ensures Valid()
      ensures this.innerSize == innerSize && this.bufferSize == bufferSize
      ensures this.syncInterval == syncInterval && this.presentFlags == presentFlags
      ensures ops == [CreateCommandQueue,
                      CreateSwapChain(bufferSize.width, bufferSize.height, BUFFER_COUNT, SwapChainFlags(presentFlags)),
                      WaitFrameLatency, PresentInitial(syncInterval, presentFlags), CreateSkiaContexts,
                      D3dOp.ClearSurfaces]
                     + SurfaceOps(BUFFER_COUNT, innerSize)
    {
      this.innerSize := innerSize;
      this.bufferSize := bufferSize;
      this.syncInterval := syncInterval;
      this.presentFlags := presentFlags;
      this.swapChainSize := bufferSize;
      this.surfaces := [];
      this.contextCachesResources := false;
      this.contextTracksState := false;
      this.ops := [CreateCommandQueue,
                   CreateSwapChain(bufferSize.width, bufferSize.height, BUFFER_COUNT, SwapChainFlags(presentFlags)),
                   WaitFrameLatency, PresentInitial(syncInterval, presentFlags), CreateSkiaContexts];
      new;
      SetUpOrdered(ops, innerSize);
      CreateSurfaces();
    }

    /** `WinState::new` after the window is shown: find an adapter and a
        device (the source panics when there is none), use vsync, size the
        buffers to the monitor, create the swap chain and the surfaces. */
    static method Open(factoryOk: bool, adapters: seq<Adapter>, innerSize: PhysicalSize, monitor: Option<PhysicalSize>)
      returns (r: Result<WinState, D3dError>)
      ensures r.Err? <==> SelectAdapter(factoryOk, adapters).Err?
      ensures r.Err? ==> r.error == SelectAdapter(factoryOk, adapters).error
      ensures r.Ok? ==>
        && fresh(r.value) && r.value.Valid()
        && r.value.innerSize == innerSize && r.value.bufferSize == MonitorOr(monitor, innerSize)
        && r.value.syncInterval == 1 && r.value.presentFlags == 0
        && r.value.ops == [CreateCommandQueue,
                           CreateSwapChain(r.value.bufferSize.width, r.value.bufferSize.height, BUFFER_COUNT,
                                           DXGI_SWAP_CHAIN_FLAG_FRAME_LATENCY_WAITABLE_OBJECT),
                           WaitFrameLatency, PresentInitial(1, 0), CreateSkiaContexts, D3dOp.ClearSurfaces]
                          + SurfaceOps(BUFFER_COUNT, innerSize)
    {
      var adapter, _ := GetHardwareAdapter(factoryOk, adapters);
      if adapter.Err? {
        return Err(adapter.error);
      }
      var vsync := true;
      var bufferSize := MonitorOr(monitor, innerSize);
      // With vsync on, the tearing feature check is never made.
      var syncInterval, presentFlags := GetPresentArgs(vsync, None);
      var state := new WinState(innerSize, bufferSize, syncInterval, presentFlags);
      return Ok(state);
    }

    method FreeGpuResources()
      modifies this`contextCachesResources, this`ops
      ensures !contextCachesResources && ops == old(ops) + [D3dOp.FreeGpuResources]
    {
      contextCachesResources := false;
      ops := ops + [D3dOp.FreeGpuResources];
    }

    method ResetContext()
      modifies this`contextTracksState, this`ops
      ensures !contextTracksState && ops == old(ops) + [D3dOp.ResetContext]
    {
      contextTracksState := false;
      ops := ops + [D3dOp.ResetContext];
    }

    method ClearSurfaces()
      modifies this`surfaces, this`ops
      ensures surfaces == [] && ops == old(ops) + [D3dOp.ClearSurfaces]
    {
      surfaces := [];
      ops := ops + [D3dOp.ClearSurfaces];
    }

    /** `IDXGISwapChain::ResizeBuffers`, which DXGI only accepts once every
        reference into the old buffers is gone. */
    method ResizeBuffers(bufferCount: nat, width: u32, height: u32)
      requires ReleasedForResize()
      requires bufferCount == BUFFER_COUNT
      modifies this`swapChainSize, this`ops
      ensures swapChainSize == PhysicalSize(width, height)
      ensures ops == old(ops) + [D3dOp.ResizeBuffers(bufferCount, width, height)]
    {
      swapChainSize := PhysicalSize(width, height);
      ops := ops + [D3dOp.ResizeBuffers(bufferCount, width, height)];
    }

    /** Rebuild every surface from the swap chain's buffers at `innerSize`. */
    method CreateSurfaces()
      modifies this`surfaces, this`ops, this`contextCachesResources, this`contextTracksState
      ensures surfaces == BufferSurfaces(innerSize)
      ensures contextCachesResources && contextTracksState
      ensures ops == old(ops) + [D3dOp.ClearSurfaces] + SurfaceOps(BUFFER_COUNT, innerSize)
    {
      var size := innerSize;
      ClearSurfaces();
      ghost var afterClear := ops;
      var i := 0;
      while i < BUFFER_COUNT
        invariant 0 <= i <= BUFFER_COUNT
        invariant surfaces == seq(i, j requires 0 <= j => SurfaceFor(j, size))
        invariant ops == afterClear + SurfaceOps(i, size)
        invariant i > 0 ==> contextCachesResources && contextTracksState
      {
        ops := ops + [GetBuffer(i)];
        var target := RenderTarget(i, size.width, size.height);
        ops := ops + [WrapRenderTarget(i, target.width, target.height)];
        var surface := Surface(i, target.width, target.height);
        contextCachesResources, contextTracksState := true, true;
        surfaces := surfaces + [(surface, target)];
        i := i + 1;
      }
    }

    /** `resize`: refuse a degenerate or unchanged size; otherwise adopt it,
        reallocate the buffers if the window outgrew them (after releasing
        every reference into them) and rebuild the surfaces. */
    method Resize(size: PhysicalSize, monitor: Option<PhysicalSize>) returns (resized: bool)
      requires Valid()
      modifies this
      ensures Valid()
      ensures resized == (size.width != 0 && size.height != 0 && size != old(innerSize))
      ensures innerSize == if resized then size else old(innerSize)
      ensures bufferSize == if resized && Outgrows(size, old(bufferSize)) then MonitorOr(monitor, size) else old(bufferSize)
      ensures ops == old(ops) + if resized then ResizeOps(Outgrows(size, old(bufferSize)), bufferSize, size) else []
      ensures !resized ==> surfaces == old(surfaces) && contextCachesResources == old(contextCachesResources)
                           && contextTracksState == old(contextTracksState)
    {
      var (w, h) := (innerSize.width, innerSize.height);

      if size.width == 0 || size.height == 0 {
        return false;
      }
      if size.width == w && size.height == h {
        return false;
      }

      innerSize := size;
      ghost var before := ops;
      ghost var grows := Outgrows(size, old(bufferSize));

      if innerSize.width > bufferSize.width || innerSize.height > bufferSize.height {
        GrowBuffers(monitor);
      }

      CreateSurfaces();
      assert ops == before + ResizeOps(grows, bufferSize, size);
      ResizeKeepsOrdering(before, grows, bufferSize, size);
      return true;
    }

    /** The growth branch of `resize`: size the buffers to the monitor, drop
        every reference into the old buffers, then reallocate them. */
    method GrowBuffers(monitor: Option<PhysicalSize>)
      modifies this`bufferSize, this`surfaces, this`contextCachesResources, this`contextTracksState,
               this`swapChainSize, this`ops
      ensures bufferSize == MonitorOr(monitor, innerSize) && swapChainSize == bufferSize
      ensures surfaces == [] && !contextCachesResources && !contextTracksState
      ensures ops == old(ops) + [D3dOp.FreeGpuResources, D3dOp.ResetContext, D3dOp.ClearSurfaces,
                                 D3dOp.ResizeBuffers(BUFFER_COUNT, bufferSize.width, bufferSize.height)]
    {
      bufferSize := MonitorOr(monitor, innerSize);

      FreeGpuResources();
      ResetContext();
      ClearSurfaces();
      assert ReleasedForResize();
      ResizeBuffers(BUFFER_COUNT, bufferSize.width, bufferSize.height);
    }

    /** The surface to draw into and the other one: the first wraps the
        current back buffer. */
    function SurfacesMut(backBufferIndex: nat): (pair: (Surface, Surface))
      reads this
      requires Valid()
      ensures pair.0.buffer == (if backBufferIndex == 0 then 0 else 1)
      ensures pair.1.buffer == 1 - pair.0.buffer
      ensures pair.0.width == pair.1.width == innerSize.width && pair.0.height == pair.1.height == innerSize.height
    {
      var s0 := surfaces[0].0;
      var s1 := surfaces[1].0;
      if backBufferIndex == 0 then (s0, s1) else (s1, s0)
    }

    /** `swap_buffers`: wait for the swap chain, flush the current back
        buffer's surface and present the clamped dirty rectangle, unless the
        region is empty or the window is minimized. */
    method SwapBuffers(dirty: BoundingBox, minimized: Option<bool>, backBufferIndex: nat)
      requires Valid()
      requires backBufferIndex < BUFFER_COUNT
      modifies this`ops
      ensures Valid()
      ensures ops == old(ops) +
        if ShouldPresent(dirty, minimized)
        then [WaitFrameLatency, FlushSurface(backBufferIndex), Present(syncInterval, presentFlags, PresentRect(dirty))]
        else []
    {
      if dirty.w <= 0.0 || dirty.h <= 0.0 {
        return;
      }
      if minimized == Some(true) {
        return;
      }

      var rect := PresentRect(dirty);
      var surface := surfaces[backBufferIndex].0;
      AppendWithoutResize(ops, [WaitFrameLatency, FlushSurface(surface.buffer), Present(syncInterval, presentFlags, rect)]);
      ops := ops + [WaitFrameLatency, FlushSurface(surface.buffer), Present(syncInterval, presentFlags, rect)];
    }
  }
}
