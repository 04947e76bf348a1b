/** The camera of the engine, as far as its bookkeeping goes: the centre
    chunk it tracks and the chunks it has loaded around it, the depth sorter
    it dispatches to, the multi-pass rendering state, the frustum test and
    the plain field updates. Matrices, shaders and everything computed in
    floating point stay outside; the values the camera derives from them
    arrive as integer inputs. */
module CameraCore {
  import opened ChunkPaging
  import opened SortDispatch
  import opened MultiPass
  import opened JavaInt
  import Frustum

  /** The configuration values the camera reads. */
  datatype Config = Config(
    mapUseChunks: bool,          // the map is chunked
    mapChunkSwitch: bool,        // chunks are loaded around any centre, not only the origin
    depthSorter: int,            // which sorter to use
    singleBatchRendering: bool)  // multi-pass rendering replays the batch

  /** What the camera computes in floating point from its position and
      viewport, as integers: the visible left and right borders in grid
      units, the chunk column of its focus point, and the chunk row of its
      position. */
  datatype View = View(leftBorder: int, rightBorder: int, focusChunkX: int, focusChunkY: int)

  /** An entity the camera can follow. `centreX`/`centreY` is the
      view-space point the camera centres on for it. */
  class Entity {
    var spawned: bool
    var centreX: int
    var centreY: int
  }

  /** The sprite batch the camera renders into, reduced to its write index. */
  class SpriteBatch {
    var idx: int
  }

  /** How a render call ended. */
  datatype RenderOutcome =
    | Skipped              // camera disabled or no map
    | Deactivated          // no shader: the camera disabled itself
    | NullSorter           // the pass needed the sorter and there was none
    | Rendered(steps: seq<Step>)

  class Camera {
    /** The map's chunk store and the message bus, shared with the rest of the engine. */
    const store: ChunkStore
    const bus: MessageBus

    /** Position in view space (Y up). */
    var posX: int
    var posY: int
    /** The output rectangle on the window. */
    var screenPosX: int
    var screenPosY: int
    var screenWidth: int
    var screenHeight: int
    var fullWindow: bool
    /** View-space size of the visible area after zoom. */
    var widthAfterProj: int
    var heightAfterProj: int
    var focus: Entity?
    var active: bool

    var centerChunkX: int
    var centerChunkY: int
    var lastCenterX: int
    var lastCenterY: int
    var loadingRadius: int

    var sorter: Sorter?
    var sorterId: int

    var multiRendering: bool
    var multiPassLastIdx: int

    /** The loading radius lies between its reduced and its initial value,
        and the active sorter is registered once for each event. */
    ghost predicate Valid()
      reads this`loadingRadius, this`sorter, bus
    {
      && ReducedLoadingRadius <= loadingRadius <= InitialLoadingRadius
      && (sorter != null ==> SubscribedOnce(bus.subscriptions, sorter))
    }

    /** The dispatcher's part of the state. */
    function Dispatcher(): Dispatch
      reads this`sorter, this`sorterId, bus
    {
      Dispatch(sorter, sorterId, bus.subscriptions)
    }

    /** The multi-pass part of the state. */
    function Passes(): PassState
      reads this`multiRendering, this`multiPassLastIdx
    {
      PassState(multiRendering, multiPassLastIdx)
    }

    /** A camera at a point, or following a spawned entity, on the window
        rectangle (x, y, width, height); `full` is set by the constructor
        that covers the whole window. It picks its sorter, takes the
        chunk (initialChunkX, initialChunkY) as its centre and, on a chunked
        map, runs a chunk check around it. */
    constructor (store: ChunkStore, bus: MessageBus, config: Config,
                 x: int, y: int, width: int, height: int, full: bool,
                 widthAfterProj: int, heightAfterProj: int,
                 focus: Entity?, pointX: int, pointY: int,
                 initialChunkX: int, initialChunkY: int)
      requires focus != null ==> focus.spawned
      modifies store, bus
      ensures Valid()
      ensures this.store == store && this.bus == bus
      ensures screenPosX == x && screenPosY == y && screenWidth == width && screenHeight == height
      ensures fullWindow == full
      ensures this.widthAfterProj == widthAfterProj && this.heightAfterProj == heightAfterProj
      ensures this.focus == focus
      ensures focus != null ==> posX == focus.centreX && posY == focus.centreY
      ensures focus == null ==> posX == pointX && posY == pointY
      ensures active && !multiRendering && multiPassLastIdx == 0
      ensures Dispatcher() == SortDispatch.InitSorter(Dispatch(null, 0, old(bus.subscriptions)), config.depthSorter, sorter)
      ensures KindFor(config.depthSorter).Some? ==> fresh(sorter) && sorter.kind == KindFor(config.depthSorter).value
      ensures centerChunkX == initialChunkX && centerChunkY == initialChunkY
      ensures lastCenterX == 0 && lastCenterY == 0
      ensures config.mapUseChunks ==>
        PassEffect(old(store.loaded), old(store.requests), store.loaded, store.requests,
                   InitialLoadingRadius, loadingRadius, centerChunkX, centerChunkY, config.mapChunkSwitch)
      ensures !config.mapUseChunks ==>
        store.loaded == old(store.loaded) && store.requests == old(store.requests) && loadingRadius == InitialLoadingRadius
    {
      this.store := store;
      this.bus := bus;
      screenPosX, screenPosY, screenWidth, screenHeight := x, y, width, height;
      fullWindow := full;
      this.widthAfterProj, this.heightAfterProj := widthAfterProj, heightAfterProj;
      this.focus := focus;
      if focus != null {
        posX, posY := focus.centreX, focus.centreY;
      } else {
        posX, posY := pointX, pointY;
      }
      active := true;
      loadingRadius := InitialLoadingRadius;
      sorter, sorterId := null, 0;
      multiRendering, multiPassLastIdx := false, 0;
      lastCenterX, lastCenterY := 0, 0;
      centerChunkX, centerChunkY := initialChunkX, initialChunkY;
      new;
      assert Dispatcher() == Dispatch(null, 0, old(bus.subscriptions));
      assert store.loaded == old(store.loaded) && store.requests == old(store.requests);
      Start(config);
    }

    /** What the constructor does once the fields are set: pick the sorter
        and, on a chunked map, run a chunk check around the centre. */
    method Start(config: Config)
      requires Valid()
      modifies this`sorter, this`sorterId, bus, this`loadingRadius, store
      ensures Valid()
      ensures Dispatcher() == SortDispatch.InitSorter(old(Dispatcher()), config.depthSorter, sorter)
      ensures NeedsInit(old(Dispatcher()), config.depthSorter) && KindFor(config.depthSorter).Some? ==>
        fresh(sorter) && sorter.kind == KindFor(config.depthSorter).value
      ensures config.mapUseChunks ==>
        PassEffect(old(store.loaded), old(store.requests), store.loaded, store.requests,
                   old(loadingRadius), loadingRadius, centerChunkX, centerChunkY, config.mapChunkSwitch)
      ensures !config.mapUseChunks ==>
        store.loaded == old(store.loaded) && store.requests == old(store.requests) && loadingRadius == old(loadingRadius)
    {
      InitSorter(config.depthSorter);
      if config.mapUseChunks {
        CheckNeededChunks(config.mapChunkSwitch);
      }
    }

    /** One frame's update of an enabled camera: recompute the centre chunk
        (loading chunks if it moved) and re-check the configured sorter. A
        disabled camera does nothing. */
    method Update(view: View, config: Config)
      requires Valid()
      modifies this`centerChunkX, this`centerChunkY, this`lastCenterX, this`lastCenterY,
               this`loadingRadius, this`sorter, this`sorterId, store, bus
      ensures Valid()
      ensures !old(active) ==>
        && unchanged(this) && store.loaded == old(store.loaded) && store.requests == old(store.requests)
        && bus.subscriptions == old(bus.subscriptions)
      ensures old(active) ==>
        && centerChunkX == StepCenterX(old(centerChunkX), view.leftBorder, view.rightBorder, view.focusChunkX, store.blocksX)
        && centerChunkY == view.focusChunkY
        && lastCenterX == centerChunkX && lastCenterY == centerChunkY
        && Dispatcher() == SortDispatch.InitSorter(old(Dispatcher()), config.depthSorter, sorter)
      ensures old(active) && NeedsInit(old(Dispatcher()), config.depthSorter) && KindFor(config.depthSorter).Some? ==>
        fresh(sorter) && sorter.kind == KindFor(config.depthSorter).value
      ensures old(active) && (old(lastCenterX), old(lastCenterY)) != (centerChunkX, centerChunkY) ==>
        PassEffect(old(store.loaded), old(store.requests), store.loaded, store.requests,
                   old(loadingRadius), loadingRadius, centerChunkX, centerChunkY, config.mapChunkSwitch)
      ensures (old(lastCenterX), old(lastCenterY)) == (centerChunkX, centerChunkY) ==>
        store.loaded == old(store.loaded) && store.requests == old(store.requests) && loadingRadius == old(loadingRadius)
    {
      if active {
        UpdateCenter(view, config.mapChunkSwitch);
        InitSorter(config.depthSorter);
      }
    }

    /** Re-check the configured sorter id: on a change (or with no sorter
        yet) unregister the current sorter, construct the selected one (an
        unknown id keeps the current one), register it for both events and
        record the id. */
    method InitSorter(configured: int)
      requires Valid()
      modifies this`sorter, this`sorterId, bus
      ensures Valid()
      ensures Dispatcher() == SortDispatch.InitSorter(old(Dispatcher()), configured, sorter)
      ensures NeedsInit(old(Dispatcher()), configured) && KindFor(configured).Some? ==>
        fresh(sorter) && sorter.kind == KindFor(configured).value
    {
      ghost var d0 := Dispatcher();
      if configured != sorterId || sorter == null {
        var next := sorter;
        match KindFor(configured) {
          case Some(kind) =>
            next := new Sorter(kind);
          case None =>
        }
        assert next != d0.sorter ==> Unsubscribed(d0.subs, next);
        InitSorterKeepsSubscription(d0, configured, next);
        MoveListener(sorter, next);
        sorter, sorterId := next, configured;
      }
    }

    /** Unregister `from` from both events the sorter listens to, then
        register `to` for both. */
    method MoveListener(from: Sorter?, to: Sorter?)
      modifies bus
      ensures bus.subscriptions == Resubscribed(old(bus.subscriptions), from, to)
    {
      bus.RemoveListener(from, MapChanged);
      bus.RemoveListener(from, RenderStorageChanged);
      bus.AddListener(to, MapChanged);
      bus.AddListener(to, RenderStorageChanged);
      ResubscribedStepwise(old(bus.subscriptions), from, to);
    }

    /** Track the centre chunk: step X by one chunk when the visible border
        crosses a chunk boundary, snap it to the focus point's chunk when
        that is two or more chunks away from the old centre, and take Y
        from the position. If the centre differs from the last centre seen,
        record it and check the chunks around it. */
    method UpdateCenter(view: View, chunkSwitch: bool)
      requires Valid()
      modifies this`centerChunkX, this`centerChunkY, this`lastCenterX, this`lastCenterY, this`loadingRadius, store
      ensures Valid()
      ensures centerChunkX == StepCenterX(old(centerChunkX), view.leftBorder, view.rightBorder, view.focusChunkX, store.blocksX)
      ensures centerChunkY == view.focusChunkY
      ensures lastCenterX == centerChunkX && lastCenterY == centerChunkY
      ensures (old(lastCenterX), old(lastCenterY)) != (centerChunkX, centerChunkY) ==>
        PassEffect(old(store.loaded), old(store.requests), store.loaded, store.requests,
                   old(loadingRadius), loadingRadius, centerChunkX, centerChunkY, chunkSwitch)
      ensures (old(lastCenterX), old(lastCenterY)) == (centerChunkX, centerChunkY) ==>
        store.loaded == old(store.loaded) && store.requests == old(store.requests) && loadingRadius == old(loadingRadius)
    {
      StepCenter(view);
      RecordCenter(chunkSwitch);
    }

    /** The first half of `UpdateCenter`: the new centre chunk. */
    method StepCenter(view: View)
      modifies this`centerChunkX, this`centerChunkY
      ensures centerChunkX == StepCenterX(old(centerChunkX), view.leftBorder, view.rightBorder, view.focusChunkX, store.blocksX)
      ensures centerChunkY == view.focusChunkY
    {
      var oldX := centerChunkX;
      if view.leftBorder < (centerChunkX - 1) * store.blocksX {
        centerChunkX := centerChunkX - 1;
      }
      if view.rightBorder >= (centerChunkX + 2) * store.blocksX {
        centerChunkX := centerChunkX + 1;
      }
      var dxMovement := view.focusChunkX - oldX;
      if dxMovement * dxMovement > 1 {
        centerChunkX := view.focusChunkX;
      }
      centerChunkY := view.focusChunkY;
    }

    /** The second half of `UpdateCenter`: a centre that differs from the
        last one seen is recorded and the chunks around it are checked. */
    method RecordCenter(chunkSwitch: bool)
      requires Valid()
      modifies this`lastCenterX, this`lastCenterY, this`loadingRadius, store
      ensures Valid()
      ensures lastCenterX == centerChunkX && lastCenterY == centerChunkY
      ensures (old(lastCenterX), old(lastCenterY)) != (centerChunkX, centerChunkY) ==>
        PassEffect(old(store.loaded), old(store.requests), store.loaded, store.requests,
                   old(loadingRadius), loadingRadius, centerChunkX, centerChunkY, chunkSwitch)
      ensures (old(lastCenterX), old(lastCenterY)) == (centerChunkX, centerChunkY) ==>
        store.loaded == old(store.loaded) && store.requests == old(store.requests) && loadingRadius == old(loadingRadius)
    {
      if lastCenterX != centerChunkX || lastCenterY != centerChunkY {
        lastCenterX := centerChunkX;
        lastCenterY := centerChunkY;
        CheckNeededChunks(chunkSwitch);
      }
    }

    /** At the origin chunk, or with chunk switching configured, request
        every missing chunk of the neighbourhood around the centre, then
        reduce the loading radius to 2. */
    method CheckNeededChunks(chunkSwitch: bool)
      requires Valid()
      modifies this`loadingRadius, store
      ensures Valid()
      ensures PassEffect(old(store.loaded), old(store.requests), store.loaded, store.requests,
                         old(loadingRadius), loadingRadius, centerChunkX, centerChunkY, chunkSwitch)
    {
      if (centerChunkX == 0 && centerChunkY == 0) || chunkSwitch {
        ghost var loaded0, log0 := store.loaded, store.requests;
        ghost var cx, cy, radius := centerChunkX, centerChunkY, loadingRadius;
        PassStarts(loaded0, log0, cx, cy, radius);
        var x := -loadingRadius;
        while x <= loadingRadius
          invariant -radius <= x <= radius + 1
          invariant PassedUpTo(loaded0, log0, store.loaded, store.requests, cx, cy, radius, x, -HalfHeight(radius))
          modifies store
        {
          CheckColumn(x, loaded0, log0);
          NextColumn(loaded0, log0, store.loaded, store.requests, cx, cy, radius, x);
          x := x + 1;
        }
        PassEnds(loaded0, log0, store.loaded, store.requests, cx, cy, radius);
        if loadingRadius > 2 {
          loadingRadius := 2;
        }
      }
    }

    /** One column of the chunk check: request every missing chunk at
        horizontal offset `x` from the centre, over the vertical half-range
        the loading radius gives. */
    method CheckColumn(x: int, ghost loaded0: set<ChunkCoord>, ghost log0: seq<ChunkCoord>)
      requires -loadingRadius <= x <= loadingRadius
      requires PassedUpTo(loaded0, log0, store.loaded, store.requests, centerChunkX, centerChunkY,
                          loadingRadius, x, -HalfHeight(loadingRadius))
      modifies store
      ensures PassedUpTo(loaded0, log0, store.loaded, store.requests, centerChunkX, centerChunkY,
                         loadingRadius, x, HalfHeight(loadingRadius) + 1)
    {
      ghost var cx, cy, radius := centerChunkX, centerChunkY, loadingRadius;
      var lRad := loadingRadius / 2;
      if lRad < 2 {
        lRad := 2;
      }
      var y := -lRad;
      while y <= lRad
        invariant lRad == HalfHeight(radius)
        invariant -lRad <= y <= lRad + 1
        invariant PassedUpTo(loaded0, log0, store.loaded, store.requests, cx, cy, radius, x, y)
        modifies store
      {
        ghost var loaded, log := store.loaded, store.requests;
        if !store.HasChunk(centerChunkX + x, centerChunkY + y) {
          store.LoadChunk(centerChunkX + x, centerChunkY + y);
        }
        VisitOne(loaded0, log0, loaded, log, store.loaded, store.requests, cx, cy, radius, x, y);
        y := y + 1;
      }
    }

    /** Render the frame. A disabled camera, or one without a map, does
        nothing; one without a shader disables itself. Otherwise the pass
        runs as the multi-pass state machine says; a pass that needs the
        sorter while there is none fails and changes nothing. */
    method Render(config: Config, mapLoaded: bool, hasShader: bool, batch: SpriteBatch, drawn: nat)
      returns (outcome: RenderOutcome)
      requires Valid()
      modifies this`active, this`multiPassLastIdx, batch
      ensures Valid()
      ensures !old(active) || !mapLoaded ==>
        outcome == Skipped && unchanged(this) && unchanged(batch)
      ensures old(active) && mapLoaded && !hasShader ==>
        outcome == Deactivated && !active && multiPassLastIdx == old(multiPassLastIdx) && unchanged(batch)
      ensures old(active) && mapLoaded && hasShader ==>
        var r := MultiPass.Render(old(Passes()), config.singleBatchRendering, old(batch.idx), drawn);
        && active
        && (sorter == null && UsesSorter(r.steps) ==>
              outcome == NullSorter && multiPassLastIdx == old(multiPassLastIdx) && batch.idx == old(batch.idx))
        && (sorter != null || !UsesSorter(r.steps) ==>
              outcome == Rendered(r.steps) && multiPassLastIdx == r.state.lastIdx && batch.idx == r.batchIdx)
    {
      if !active || !mapLoaded {
        return Skipped;
      }
      if !hasShader {
        // setActive(false) on an enabled camera only clears the flag
        active := false;
        return Deactivated;
      }
      if !multiRendering || (config.singleBatchRendering && multiPassLastIdx == 0) {
        if sorter == null {
          return NullSorter;
        }
        batch.idx := batch.idx + drawn;
        multiPassLastIdx := batch.idx;
        outcome := Rendered([RenderSorted]);
      } else if config.singleBatchRendering {
        batch.idx := multiPassLastIdx;
        outcome := Rendered([RewindBatch]);
      } else {
        var steps := [];
        if multiPassLastIdx == 0 {
          if sorter == null {
            return NullSorter;
          }
          steps := [CreateDepthList];
        }
        batch.idx := batch.idx + drawn;
        multiPassLastIdx := batch.idx;
        outcome := Rendered(steps + [DrawDepthList]);
      }
    }

    /** Begin rendering several passes without sorting again. */
    method StartMultiRendering()
      modifies this`multiRendering, this`multiPassLastIdx
      ensures Passes() == Started()
    {
      multiRendering := true;
      multiPassLastIdx := 0;
    }

    /** Stop multi-pass rendering; the resume index is kept. */
    method EndMultiRendering()
      modifies this`multiRendering
      ensures !multiRendering && multiPassLastIdx == old(multiPassLastIdx)
    {
      multiRendering := false;
    }

    /** The frustum test against the camera's position and visible area, in
        its corrected form: the squares are not wrapped to 32 bits. Within
        46340 pixels of distance and reach it is the test as written. */
    function InViewFrustum(vspX: int, vspY: int, cell: Frustum.CellSize): (r: bool)
      reads this
      ensures r <==> Frustum.VerticallyVisible(posY, heightAfterProj, vspY, cell)
                     && Abs(vspX - posX) < Abs(Frustum.HorizontalReach(widthAfterProj, cell))
      ensures Abs(vspX - posX) <= Frustum.MaxSquarable
              && Abs(Frustum.HorizontalReach(widthAfterProj, cell)) <= Frustum.MaxSquarable
              ==> r == Frustum.InViewAsWritten(posX, posY, widthAfterProj, heightAfterProj, vspX, vspY, cell)
    {
      if Abs(vspX - posX) <= Frustum.MaxSquarable
         && Abs(Frustum.HorizontalReach(widthAfterProj, cell)) <= Frustum.MaxSquarable then
        Frustum.AsWrittenAgreesInRange(posX, posY, widthAfterProj, heightAfterProj, vspX, vspY, cell);
        Frustum.InView(posX, posY, widthAfterProj, heightAfterProj, vspX, vspY, cell)
      else
        Frustum.InView(posX, posY, widthAfterProj, heightAfterProj, vspX, vspY, cell)
    }

    /** Move by (x, y): a followed, spawned entity is moved instead of the
        camera; otherwise the camera moves right by x and up by half of y,
        halved with Java's truncating division. Then the centre chunk is
        updated for the view after the move. */
    method Move(x: int, y: int, view: View, chunkSwitch: bool)
      requires Valid()
      modifies this`posX, this`posY, this`centerChunkX, this`centerChunkY,
               this`lastCenterX, this`lastCenterY, this`loadingRadius, store
      ensures Valid()
      ensures focus != null && focus.spawned ==> posX == old(posX) && posY == old(posY)
      ensures !(focus != null && focus.spawned) ==> posX == old(posX) + x && posY == old(posY) - TruncatedHalf(y)
      ensures centerChunkX == StepCenterX(old(centerChunkX), view.leftBorder, view.rightBorder, view.focusChunkX, store.blocksX)
      ensures centerChunkY == view.focusChunkY
      ensures lastCenterX == centerChunkX && lastCenterY == centerChunkY
      ensures (old(lastCenterX), old(lastCenterY)) != (centerChunkX, centerChunkY) ==>
        PassEffect(old(store.loaded), old(store.requests), store.loaded, store.requests,
                   old(loadingRadius), loadingRadius, centerChunkX, centerChunkY, chunkSwitch)
      ensures (old(lastCenterX), old(lastCenterY)) == (centerChunkX, centerChunkY) ==>
        store.loaded == old(store.loaded) && store.requests == old(store.requests) && loadingRadius == old(loadingRadius)
    {
      if !(focus != null && focus.spawned) {
        posX := posX + x;
        posY := posY - TruncatedHalf(y);
      }
      UpdateCenter(view, chunkSwitch);
    }

    /** Enable or disable the camera; turning it on runs a chunk check on a
        chunked map. */
    method SetActive(newActive: bool, config: Config)
      requires Valid()
      modifies this`active, this`loadingRadius, store
      ensures Valid()
      ensures active == newActive
      ensures !old(active) && newActive && config.mapUseChunks ==>
        PassEffect(old(store.loaded), old(store.requests), store.loaded, store.requests,
                   old(loadingRadius), loadingRadius, centerChunkX, centerChunkY, config.mapChunkSwitch)
      ensures !(!old(active) && newActive && config.mapUseChunks) ==>
        store.loaded == old(store.loaded) && store.requests == old(store.requests) && loadingRadius == old(loadingRadius)
    {
      if !active && newActive {
        if config.mapUseChunks {
          CheckNeededChunks(config.mapChunkSwitch);
        }
      }
      active := newActive;
    }

    /** Centre the camera on a view-space point; this ends following an entity. */
    method SetCenter(x: int, y: int)
      modifies this`focus, this`posX, this`posY
      ensures focus == null && posX == x && posY == y
    {
      focus := null;
      posX, posY := x, y;
    }

    /** Follow an entity; a different, spawned entity also moves the camera onto it. */
    method SetFocusEntity(e: Entity)
      modifies this`focus, this`posX, this`posY
      ensures focus == e
      ensures old(focus) != e && e.spawned ==> posX == e.centreX && posY == e.centreY
      ensures old(focus) == e || !e.spawned ==> posX == old(posX) && posY == old(posY)
    {
      if focus != e {
        focus := e;
        if e.spawned {
          posX, posY := e.centreX, e.centreY;
        }
      }
    }

    /** Make the output cover the window (of the given size) or not. */
    method SetFullWindow(full: bool, windowWidth: int, windowHeight: int)
      modifies this`fullWindow, this`screenWidth, this`screenHeight, this`screenPosX, this`screenPosY
      ensures fullWindow == full
      ensures full ==> screenWidth == windowWidth && screenHeight == windowHeight && screenPosX == 0 && screenPosY == 0
      ensures !full ==>
        screenWidth == old(screenWidth) && screenHeight == old(screenHeight)
        && screenPosX == old(screenPosX) && screenPosY == old(screenPosY)
    {
      fullWindow := full;
      if full {
        screenWidth, screenHeight := windowWidth, windowHeight;
        screenPosX, screenPosY := 0, 0;
      }
    }

    /** The window was resized: a full-window camera takes the new size. */
    method Resize(width: int, height: int)
      modifies this`screenWidth, this`screenHeight, this`screenPosX, this`screenPosY
      ensures fullWindow ==> screenWidth == width && screenHeight == height && screenPosX == 0 && screenPosY == 0
      ensures !fullWindow ==> unchanged(this)
    {
      if fullWindow {
        screenWidth, screenHeight := width, height;
        screenPosX, screenPosY := 0, 0;
      }
    }

    /** Set the output size; a size smaller than the window in either
        dimension ends full-window mode. */
    method SetScreenSize(width: int, height: int, windowWidth: int, windowHeight: int)
      modifies this`fullWindow, this`screenWidth, this`screenHeight
      ensures screenWidth == width && screenHeight == height
      ensures fullWindow == (old(fullWindow) && width >= windowWidth && height >= windowHeight)
    {
      if width < windowWidth || height < windowHeight {
        fullWindow := false;
      }
      screenWidth, screenHeight := width, height;
    }

    /** Unregister the sorter from both events. */
    method Dispose()
      requires Valid()
      modifies bus
      ensures bus.subscriptions == old(bus.subscriptions) - Registrations(sorter)
      ensures sorter != null ==> Unsubscribed(bus.subscriptions, sorter)
    {
      bus.RemoveListener(sorter, MapChanged);
      bus.RemoveListener(sorter, RenderStorageChanged);
      UnsubscribedStepwise(old(bus.subscriptions), sorter);
    }
  }
}
