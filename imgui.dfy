/**
 * The overlay's per-frame draw-buffer pool (one vertex and one index
 * buffer per frame in flight, grown only when too small), the slot
 * rotation of `render`, the command walk of `render_draw_lists`, and the
 * input latches that feed ImGui's IO state.
 *
 * Vulkan calls are recorded as events in `trace`; the outcome of each
 * buffer creation is a parameter.
 */
module Imgui {
  import opened ImguiDraw

  /** Alignments the model admits: positive and at most 2^32 (taken as given: the value comes from the device's limits). */
  const ALIGN_LIMIT: nat := 0x1_0000_0000

  /** A buffer slot: not (or no longer) created, or created with a byte size and its mapped memory. */
  datatype GpuBuffer<T> = Invalid | Created(size: nat, mapped: seq<T>)

  function Capacity<T>(b: GpuBuffer<T>): nat {
    if b.Created? then b.size else 0
  }

  /** A buffer's mapped memory holds as many elements as its byte size allows. */
  predicate MappedFits<T>(b: GpuBuffer<T>, elemSize: nat)
    requires elemSize > 0
  {
    b.Created? ==> |b.mapped| == b.size / elemSize
  }

  /** `m_max_frames` fresh `buffer::make()` objects, none created yet. */
  function Invalids<T>(n: nat): (r: seq<GpuBuffer<T>>)
    ensures |r| == n
    ensures forall i :: 0 <= i < n ==> r[i] == Invalid
  {
    if n == 0 then [] else Invalids(n - 1) + [Invalid]
  }

  /** The byte sizes `prepare_draw_lists` requires. */
  function VertexBytes(dd: DrawData): nat {
    dd.totalVtxCount * DRAW_VERT_SIZE
  }

  function IndexBytes(dd: DrawData): nat {
    dd.totalIdxCount * DRAW_IDX_SIZE
  }

  /**
   * The (created, capacity) shape of a slot's buffer after the grow step:
   * regrown to the aligned size when missing or too small (or left
   * invalid if creation fails), otherwise reused unchanged.
   */
  function AfterGrow(created: bool, capacity: nat, required: nat, createOk: bool, align: nat): (bool, nat)
    requires required < SIZE_LIMIT && 0 < align < SIZE_LIMIT
  {
    if NeedsGrow(created, capacity, required) then
      if createOk then (true, AlignedSize(required, align)) else (false, 0)
    else (created, capacity)
  }

  /**
   * A grow step whose creation succeeds leaves a created buffer at least as
   * large as the request and never smaller than before; a regrown one has
   * an aligned size below request plus alignment.
   */
  lemma GrowNeverShrinks(created: bool, capacity: nat, required: nat, align: nat)
    requires 0 < required && 0 < align <= ALIGN_LIMIT && required + align <= SIZE_LIMIT
    ensures var after := AfterGrow(created, capacity, required, true, align);
      && after.0 && required <= after.1
      && (created ==> capacity <= after.1)
      && (NeedsGrow(created, capacity, required) ==> after.1 % align == 0 && after.1 < required + align)
  {
    if NeedsGrow(created, capacity, required) {
      AlignedSizeIsLeastMultiple(required, align);
    }
  }

  /** After a successful grow, a request no larger than the last one reuses the buffer as it is. */
  lemma GrowThenSmallerRequestReuses(created: bool, capacity: nat, required: nat, next: nat, align: nat, ok: bool)
    requires 0 < required && 0 < align <= ALIGN_LIMIT && required + align <= SIZE_LIMIT && next <= required
    ensures var after := AfterGrow(created, capacity, required, true, align);
      && !NeedsGrow(after.0, after.1, next)
      && AfterGrow(after.0, after.1, next, ok, align) == after
  {
    GrowNeverShrinks(created, capacity, required, align);
  }

  /**
   * The index path has no guard against an empty request: a missing index
   * buffer asked for 0 bytes is created with the wrapped size 0 whenever the
   * alignment divides 2^64.
   */
  lemma EmptyIndexRequestWraps(align: nat)
    requires 0 < align <= ALIGN_LIMIT && SIZE_LIMIT % align == 0
    ensures AfterGrow(false, 0, 0, true, align) == (true, 0)
  {
    AlignedSizeOfZero(align);
  }

  function Shape<T>(b: GpuBuffer<T>): (bool, nat) {
    (b.Created?, Capacity(b))
  }

  datatype GpuEvent =
    | Flush(slot: nat)
    | BindLayout
    | BindVertexBuffer(slot: nat, created: bool)
    | BindIndexBuffer(slot: nat, created: bool)
    | SetViewport
    | PushScale
    | PushTranslate
    | Draw(event: DrawEvent)

  /** The binds and state set before the walk; `created` says whether a live buffer is bound. */
  function BindEvents(slot: nat, vertexCreated: bool, indexCreated: bool): seq<GpuEvent> {
    [BindLayout, BindVertexBuffer(slot, vertexCreated), BindIndexBuffer(slot, indexCreated),
     SetViewport, PushScale, PushTranslate]
  }

  function DrawEvents(walk: seq<DrawEvent>): (r: seq<GpuEvent>)
    ensures |r| == |walk|
    ensures forall k :: 0 <= k < |walk| ==> r[k] == Draw(walk[k])
  {
    seq(|walk|, k requires 0 <= k < |walk| => Draw(walk[k]))
  }

  lemma DrawEventsSnoc(walk: seq<DrawEvent>, e: DrawEvent)
    ensures DrawEvents(walk + [e]) == DrawEvents(walk) + [Draw(e)]
  {
  }

  lemma DrawEventsAppend(a: seq<DrawEvent>, b: seq<DrawEvent>)
    ensures DrawEvents(a + b) == DrawEvents(a) + DrawEvents(b)
  {
  }

  lemma MulMonotone(a: nat, b: nat, c: nat)
    requires a <= b
    ensures a * c <= b * c
  {
    assert b * c == a * c + (b - a) * c;
  }

  /** A byte size that holds `count` elements leaves room for them in mapped memory. */
  lemma RoomFor(size: nat, count: nat, elemSize: nat)
    requires elemSize > 0 && count * elemSize <= size
    ensures count <= size / elemSize
  {
    var q := size / elemSize;
    assert (q + 1) * elemSize > size;
    if count > q {
      MulMonotone(q + 1, count, elemSize);
    }
  }

  /**
   * One buffer's grow step in `prepare_draw_lists`: a missing or too small
   * buffer is destroyed and created again at the aligned size, and stays
   * invalid when creation fails; one that is large enough is kept. What
   * freshly mapped memory holds is unspecified; `fill` stands for it.
   */
  method Grow<T>(b: GpuBuffer<T>, required: nat, elemSize: nat, align: nat, createOk: bool, fill: T)
    returns (nb: GpuBuffer<T>)
    requires 0 < elemSize && required < SIZE_LIMIT && 0 < align <= ALIGN_LIMIT
    requires MappedFits(b, elemSize)
    ensures MappedFits(nb, elemSize)
    ensures Shape(nb) == AfterGrow(b.Created?, Capacity(b), required, createOk, align)
    ensures !NeedsGrow(b.Created?, Capacity(b), required) ==> nb == b
    ensures !nb.Created? <==> NeedsGrow(b.Created?, Capacity(b), required) && !createOk
    ensures nb.Created? && required + align <= SIZE_LIMIT ==> required <= nb.size
  {
    if !b.Created? || b.size < required {
      if !createOk {
        return Invalid;
      }
      var size := AlignedSize(required, align);
      nb := Created(size, seq(size / elemSize, _ => fill));
      if 0 < required && required + align <= SIZE_LIMIT {
        AlignedSizeIsLeastMultiple(required, align);
      }
    } else {
      nb := b;
    }
  }

  /** Whether the vertex grow step fails, which ends `prepare_draw_lists` before the index step. */
  predicate VertexFails(dd: DrawData, vertexCreateOk: bool, v0: GpuBuffer<DrawVert>) {
    NeedsGrow(v0.Created?, Capacity(v0), VertexBytes(dd)) && !vertexCreateOk
  }

  /** Whether `prepare_draw_lists`, starting from the slot's buffers `v0` and `i0`, reaches the copy and the flush. */
  predicate SlotCopies(dd: DrawData, vertexCreateOk: bool, indexCreateOk: bool,
                       v0: GpuBuffer<DrawVert>, i0: GpuBuffer<DrawIdx>) {
    && !VertexFails(dd, vertexCreateOk, v0)
    && !(NeedsGrow(i0.Created?, Capacity(i0), IndexBytes(dd)) && !indexCreateOk)
  }

  /**
   * What `prepare_draw_lists` leaves in a slot whose buffers were `v0` and
   * `i0`: the vertex buffer grown as `AfterGrow` says; the index buffer
   * untouched when the vertex step failed and grown otherwise; when both
   * exist, every list's vertices and indices back to back at the start of
   * their mapped memory, and a buffer that needed no grow keeps what it
   * held past them; a vertex buffer that needed no grow and was not copied
   * into kept as it was.
   */
  predicate SlotPrepared(dd: DrawData, vertexCreateOk: bool, indexCreateOk: bool, align: nat,
                         v0: GpuBuffer<DrawVert>, i0: GpuBuffer<DrawIdx>,
                         v: GpuBuffer<DrawVert>, i: GpuBuffer<DrawIdx>)
    requires WellFormed(dd) && 0 < align <= ALIGN_LIMIT
  {
    && Shape(v) == AfterGrow(v0.Created?, Capacity(v0), VertexBytes(dd), vertexCreateOk, align)
    && (VertexFails(dd, vertexCreateOk, v0) ==> i == i0)
    && (!VertexFails(dd, vertexCreateOk, v0) ==>
          Shape(i) == AfterGrow(i0.Created?, Capacity(i0), IndexBytes(dd), indexCreateOk, align))
    && (SlotCopies(dd, vertexCreateOk, indexCreateOk, v0, i0) ==>
          && v.Created? && i.Created?
          && |v.mapped| >= dd.totalVtxCount && v.mapped[..dd.totalVtxCount] == AllVertices(dd.lists)
          && |i.mapped| >= dd.totalIdxCount && i.mapped[..dd.totalIdxCount] == AllIndices(dd.lists))
    && ((SlotCopies(dd, vertexCreateOk, indexCreateOk, v0, i0) && !NeedsGrow(v0.Created?, Capacity(v0), VertexBytes(dd))) ==>
          |v.mapped| == |v0.mapped| && v.mapped[dd.totalVtxCount..] == v0.mapped[dd.totalVtxCount..])
    && ((SlotCopies(dd, vertexCreateOk, indexCreateOk, v0, i0) && !NeedsGrow(i0.Created?, Capacity(i0), IndexBytes(dd))) ==>
          |i.mapped| == |i0.mapped| && i.mapped[dd.totalIdxCount..] == i0.mapped[dd.totalIdxCount..])
    && ((!SlotCopies(dd, vertexCreateOk, indexCreateOk, v0, i0) && !NeedsGrow(v0.Created?, Capacity(v0), VertexBytes(dd)))
        ==> v == v0)
  }

  /** `ImGuiIO`, the part of ImGui's process-wide state the backend writes. */
  class ImGuiIO {
    const keysDown: array<bool>
    const mouseDown: array<bool>
    var keyCtrl: bool
    var keyShift: bool
    var keyAlt: bool
    var keySuper: bool
    /** Characters queued by `AddInputCharacter`. */
    var inputQueue: seq<U16>

    constructor ()
      ensures keysDown.Length == KEYS_DOWN_COUNT && mouseDown.Length == MOUSE_BUTTON_COUNT
      ensures fresh(keysDown) && fresh(mouseDown)
      ensures forall k :: 0 <= k < keysDown.Length ==> !keysDown[k]
      ensures forall b :: 0 <= b < mouseDown.Length ==> !mouseDown[b]
      ensures !keyCtrl && !keyShift && !keyAlt && !keySuper && inputQueue == []
    {
      keysDown := new bool[KEYS_DOWN_COUNT](_ => false);
      mouseDown := new bool[MOUSE_BUTTON_COUNT](_ => false);
      keyCtrl, keyShift, keyAlt, keySuper := false, false, false, false;
      inputQueue := [];
    }
  }

  /** The char callback installed by `setup`: only code points in (0, 0x10000) reach the input queue. */
  method CharCallback(io: ImGuiIO, c: int)
    modifies io
    ensures io.inputQueue == old(io.inputQueue) + FilterChar(c)
    ensures io.keyCtrl == old(io.keyCtrl) && io.keyShift == old(io.keyShift)
    ensures io.keyAlt == old(io.keyAlt) && io.keySuper == old(io.keySuper)
  {
    if 0 < c < 0x1_0000 {
      io.inputQueue := io.inputQueue + [c];
    }
  }

  class Imgui {
    /** `m_buffer_memory_alignment`. */
    const alignment: nat
    /** `m_mouse_just_pressed`: presses seen since the last frame. */
    const mouseJustPressed: array<bool>
    /** `m_max_frames`. */
    var maxFrames: nat
    /** `m_frame`: the slot written this frame. */
    var frame: nat
    /** `m_vertex_buffers` and `m_index_buffers`, one per slot. */
    var vertexBuffers: seq<GpuBuffer<DrawVert>>
    var indexBuffers: seq<GpuBuffer<DrawIdx>>
    /** `m_initialized`. */
    var initialized: bool
    /** The registered layers, in registration order. */
    var layers: seq<Layer>
    /** Vulkan commands recorded and calls issued, oldest first. */
    var trace: seq<GpuEvent>

    /** Holds in every state, created or not. */
    ghost predicate Inv()
      reads this
    {
      && 0 < alignment <= ALIGN_LIMIT
      && mouseJustPressed.Length == MOUSE_BUTTON_COUNT
      && |vertexBuffers| == |indexBuffers|
      && (forall j :: 0 <= j < |vertexBuffers| ==> MappedFits(vertexBuffers[j], DRAW_VERT_SIZE))
      && (forall j :: 0 <= j < |indexBuffers| ==> MappedFits(indexBuffers[j], DRAW_IDX_SIZE))
    }

    /** A created overlay: the current slot indexes both buffer vectors. */
    ghost predicate Valid()
      reads this
    {
      Inv() && 0 < maxFrames <= |vertexBuffers| && frame < maxFrames
    }

    constructor (alignment: nat)
      requires 0 < alignment <= ALIGN_LIMIT
      ensures Inv() && this.alignment == alignment
      ensures fresh(mouseJustPressed)
      ensures forall b :: 0 <= b < mouseJustPressed.Length ==> !mouseJustPressed[b]
      ensures frame == 0 && vertexBuffers == [] && indexBuffers == [] && !initialized
      ensures layers == [] && trace == []
    {
      this.alignment := alignment;
      mouseJustPressed := new bool[MOUSE_BUTTON_COUNT](_ => false);
      maxFrames := 0;
      frame := 0;
      vertexBuffers, indexBuffers := [], [];
      initialized := false;
      layers := [];
      trace := [];
    }

    /**
     * `create`: appends one not-yet-created vertex buffer and one index
     * buffer per frame in flight, then builds the device objects
     * (`deviceObjectsOk` is whether shaders, descriptor, pool and layout all
     * succeed). `m_frame` is left as it was.
     */
    method Create(mf: nat, deviceObjectsOk: bool) returns (ok: bool)
      requires Inv()
      modifies this
      ensures Inv()
      ensures maxFrames == mf && frame == old(frame)
      ensures vertexBuffers == old(vertexBuffers) + Invalids(mf)
      ensures indexBuffers == old(indexBuffers) + Invalids(mf)
      ensures ok == deviceObjectsOk
      ensures initialized == (ok || old(initialized))
      ensures layers == old(layers) && trace == old(trace)
      ensures 0 < mf && old(frame) < mf ==> Valid()
    {
      maxFrames := mf;
      var i := 0;
      while i < mf
        invariant 0 <= i <= mf
        invariant vertexBuffers == old(vertexBuffers) + Invalids(i)
        invariant indexBuffers == old(indexBuffers) + Invalids(i)
        invariant maxFrames == mf && frame == old(frame) && initialized == old(initialized)
        invariant layers == old(layers) && trace == old(trace)
        invariant Inv()
      {
        vertexBuffers := vertexBuffers + [Invalid];
        indexBuffers := indexBuffers + [Invalid];
        i := i + 1;
      }
      ok := deviceObjectsOk;
      if ok {
        initialized := true;
      }
    }

    /** `destroy`: a no-op unless created; otherwise drops every buffer. */
    method Destroy()
      requires Inv()
      modifies this
      ensures Inv() && !initialized
      ensures old(initialized) ==> vertexBuffers == [] && indexBuffers == []
      ensures !old(initialized) ==> vertexBuffers == old(vertexBuffers) && indexBuffers == old(indexBuffers)
      ensures frame == old(frame) && maxFrames == old(maxFrames)
      ensures layers == old(layers) && trace == old(trace)
    {
      if !initialized {
        return;
      }
      vertexBuffers, indexBuffers := [], [];
      initialized := false;
    }

    /**
     * `prepare_draw_lists`: grows the current slot's vertex buffer, then its
     * index buffer, returning early when a creation fails; then copies every
     * list's vertices and indices back to back and flushes both buffers.
     */
    method PrepareDrawLists(dd: DrawData, vertexCreateOk: bool, indexCreateOk: bool)
      requires Valid() && WellFormed(dd)
      modifies this
      ensures Valid()
      ensures frame == old(frame) && maxFrames == old(maxFrames) && initialized == old(initialized)
      ensures layers == old(layers)
      ensures |vertexBuffers| == old(|vertexBuffers|)
      ensures forall j :: 0 <= j < |vertexBuffers| && j != frame ==>
                vertexBuffers[j] == old(vertexBuffers[j]) && indexBuffers[j] == old(indexBuffers[j])
      ensures SlotPrepared(dd, vertexCreateOk, indexCreateOk, alignment,
                           old(vertexBuffers[frame]), old(indexBuffers[frame]), vertexBuffers[frame], indexBuffers[frame])
      ensures SlotCopies(dd, vertexCreateOk, indexCreateOk, old(vertexBuffers[frame]), old(indexBuffers[frame])) ==>
                trace == old(trace) + [Flush(frame)]
      ensures !SlotCopies(dd, vertexCreateOk, indexCreateOk, old(vertexBuffers[frame]), old(indexBuffers[frame])) ==>
                trace == old(trace)
    {
      var vb := Grow(vertexBuffers[frame], VertexBytes(dd), DRAW_VERT_SIZE, alignment, vertexCreateOk, DrawVert(0));
      vertexBuffers := vertexBuffers[frame := vb];
      if !vb.Created? {
        return;
      }
      var ib := Grow(indexBuffers[frame], IndexBytes(dd), DRAW_IDX_SIZE, alignment, indexCreateOk, 0);
      indexBuffers := indexBuffers[frame := ib];
      if !ib.Created? {
        return;
      }
      RoomFor(vb.size, dd.totalVtxCount, DRAW_VERT_SIZE);
      RoomFor(ib.size, dd.totalIdxCount, DRAW_IDX_SIZE);
      CopyDrawLists(dd);
      trace := trace + [Flush(frame)];
    }

    /** The copy loop: `vtx_dst` and `idx_dst` advance by each list's sizes. */
    method CopyDrawLists(dd: DrawData)
      requires Valid() && WellFormed(dd)
      requires vertexBuffers[frame].Created? && indexBuffers[frame].Created?
      requires dd.totalVtxCount <= |vertexBuffers[frame].mapped|
      requires dd.totalIdxCount <= |indexBuffers[frame].mapped|
      modifies this
      ensures Valid()
      ensures frame == old(frame) && maxFrames == old(maxFrames) && initialized == old(initialized)
      ensures layers == old(layers) && trace == old(trace)
      ensures |vertexBuffers| == old(|vertexBuffers|)
      ensures forall j :: 0 <= j < |vertexBuffers| && j != frame ==>
                vertexBuffers[j] == old(vertexBuffers[j]) && indexBuffers[j] == old(indexBuffers[j])
      ensures Shape(vertexBuffers[frame]) == old(Shape(vertexBuffers[frame]))
      ensures Shape(indexBuffers[frame]) == old(Shape(indexBuffers[frame]))
      ensures |vertexBuffers[frame].mapped| >= dd.totalVtxCount
      ensures vertexBuffers[frame].mapped[..dd.totalVtxCount] == AllVertices(dd.lists)
      ensures |indexBuffers[frame].mapped| >= dd.totalIdxCount
      ensures indexBuffers[frame].mapped[..dd.totalIdxCount] == AllIndices(dd.lists)
      // memory past the copied data keeps what it held
      ensures |vertexBuffers[frame].mapped| == old(|vertexBuffers[frame].mapped|)
      ensures |indexBuffers[frame].mapped| == old(|indexBuffers[frame].mapped|)
      ensures vertexBuffers[frame].mapped[dd.totalVtxCount..] == old(vertexBuffers[frame].mapped)[dd.totalVtxCount..]
      ensures indexBuffers[frame].mapped[dd.totalIdxCount..] == old(indexBuffers[frame].mapped)[dd.totalIdxCount..]
    {
      var lists := dd.lists;
      var vmem := vertexBuffers[frame].mapped;
      var imem := indexBuffers[frame].mapped;
      ghost var vmem0, imem0 := vmem, imem;
      ghost var vlen, ilen := |vmem|, |imem|;
      var vtxDst, idxDst := 0, 0;
      var i := 0;
      while i < |lists|
        invariant 0 <= i <= |lists|
        invariant unchanged(this)
        invariant |vmem| == vlen && |imem| == ilen
        invariant vtxDst == |AllVertices(lists[..i])| && idxDst == |AllIndices(lists[..i])|
        invariant vtxDst <= vlen && idxDst <= ilen
        invariant vmem[..vtxDst] == AllVertices(lists[..i])
        invariant imem[..idxDst] == AllIndices(lists[..i])
        invariant vmem[vtxDst..] == vmem0[vtxDst..] && imem[idxDst..] == imem0[idxDst..]
      {
        assert lists[..i + 1][..i] == lists[..i];
        assert AllVertices(lists[..i + 1]) == AllVertices(lists[..i]) + lists[i].vtx;
        assert AllIndices(lists[..i + 1]) == AllIndices(lists[..i]) + lists[i].idx;
        PrefixFits(lists, i + 1);
        WriteAfterPrefix(vmem, AllVertices(lists[..i]), lists[i].vtx);
        WriteAfterPrefix(imem, AllIndices(lists[..i]), lists[i].idx);
        SuffixOfSuffix(vmem, vmem0, vtxDst, vtxDst + |lists[i].vtx|);
        SuffixOfSuffix(imem, imem0, idxDst, idxDst + |lists[i].idx|);
        vmem := WriteAt(vmem, vtxDst, lists[i].vtx);
        imem := WriteAt(imem, idxDst, lists[i].idx);
        vtxDst := vtxDst + |lists[i].vtx|;
        idxDst := idxDst + |lists[i].idx|;
        i := i + 1;
      }
      assert lists[..|lists|] == lists;
      vertexBuffers := vertexBuffers[frame := Created(vertexBuffers[frame].size, vmem)];
      indexBuffers := indexBuffers[frame := Created(indexBuffers[frame].size, imem)];
    }

    /** `render_draw_lists`: nothing for empty draw data; otherwise prepare, bind and walk every command. */
    method RenderDrawLists(dd: DrawData, vertexCreateOk: bool, indexCreateOk: bool)
      requires Valid() && WellFormed(dd)
      modifies this
      ensures Valid()
      ensures frame == old(frame) && maxFrames == old(maxFrames) && initialized == old(initialized)
      ensures layers == old(layers)
      ensures |vertexBuffers| == old(|vertexBuffers|)
      ensures dd.totalVtxCount == 0 ==>
                trace == old(trace) && vertexBuffers == old(vertexBuffers) && indexBuffers == old(indexBuffers)
      ensures dd.totalVtxCount > 0 ==>
                trace == old(trace)
                         + (if SlotCopies(dd, vertexCreateOk, indexCreateOk, old(vertexBuffers[frame]), old(indexBuffers[frame]))
                            then [Flush(frame)] else [])
                         + BindEvents(frame, vertexBuffers[frame].Created?, indexBuffers[frame].Created?)
                         + DrawEvents(Walk(dd.lists))
      ensures dd.totalVtxCount > 0 ==>
                SlotPrepared(dd, vertexCreateOk, indexCreateOk, alignment,
                             old(vertexBuffers[frame]), old(indexBuffers[frame]), vertexBuffers[frame], indexBuffers[frame])
      ensures forall j :: 0 <= j < |vertexBuffers| && j != frame ==>
                vertexBuffers[j] == old(vertexBuffers[j]) && indexBuffers[j] == old(indexBuffers[j])
    {
      if dd.totalVtxCount == 0 {
        return;
      }
      PrepareDrawLists(dd, vertexCreateOk, indexCreateOk);
      trace := trace + BindEvents(frame, vertexBuffers[frame].Created?, indexBuffers[frame].Created?);
      WalkCommands(dd.lists);
    }

    /** The outer loop of the walk: `vtx_offset` grows by each list's vertex count. */
    method WalkCommands(lists: seq<DrawList>)
      modifies this`trace
      ensures trace == old(trace) + DrawEvents(Walk(lists))
    {
      var vtxOffset, idxOffset := 0, 0;
      var i := 0;
      while i < |lists|
        invariant 0 <= i <= |lists|
        invariant vtxOffset == VtxTotal(lists[..i]) && idxOffset == IdxTotal(lists[..i])
        invariant trace == old(trace) + DrawEvents(Walk(lists[..i]))
      {
        assert lists[..i + 1][..i] == lists[..i];
        DrawEventsAppend(Walk(lists[..i]), ListEvents(lists[i].cmds, i, vtxOffset, idxOffset));
        idxOffset := WalkList(lists[i].cmds, i, vtxOffset, idxOffset);
        vtxOffset := vtxOffset + |lists[i].vtx|;
        i := i + 1;
      }
      assert lists[..|lists|] == lists;
    }

    /** The inner loop: one event per command, `idx_offset` growing by every command's count. */
    method WalkList(cmds: seq<DrawCmd>, list: nat, vtxOffset: nat, idxOffset: nat) returns (idxEnd: nat)
      modifies this`trace
      ensures idxEnd == idxOffset + ElemTotal(cmds)
      ensures trace == old(trace) + DrawEvents(ListEvents(cmds, list, vtxOffset, idxOffset))
    {
      idxEnd := idxOffset;
      var c := 0;
      while c < |cmds|
        invariant 0 <= c <= |cmds|
        invariant idxEnd == idxOffset + ElemTotal(cmds[..c])
        invariant trace == old(trace) + DrawEvents(ListEvents(cmds[..c], list, vtxOffset, idxOffset))
      {
        assert cmds[..c + 1][..c] == cmds[..c];
        var e := CmdEvent(cmds[c], list, c, vtxOffset, idxEnd);
        DrawEventsSnoc(ListEvents(cmds[..c], list, vtxOffset, idxOffset), e);
        trace := trace + [Draw(e)];
        idxEnd := idxEnd + cmds[c].elemCount;
        c := c + 1;
      }
      assert cmds[..|cmds|] == cmds;
    }

    /** `render`: draws this frame's data, then moves to the next slot whether or not anything was drawn. */
    method Render(dd: DrawData, vertexCreateOk: bool, indexCreateOk: bool)
      requires Valid() && WellFormed(dd)
      modifies this
      ensures Valid()
      ensures frame == (old(frame) + 1) % maxFrames
      ensures maxFrames == old(maxFrames) && initialized == old(initialized) && layers == old(layers)
      ensures |vertexBuffers| == old(|vertexBuffers|)
      // empty draw data: nothing recorded, no buffer touched
      ensures dd.totalVtxCount == 0 ==>
                trace == old(trace) && vertexBuffers == old(vertexBuffers) && indexBuffers == old(indexBuffers)
      // otherwise the old slot is prepared, bound and drawn from
      ensures dd.totalVtxCount > 0 ==>
                trace == old(trace)
                         + (if SlotCopies(dd, vertexCreateOk, indexCreateOk, old(vertexBuffers[frame]), old(indexBuffers[frame]))
                            then [Flush(old(frame))] else [])
                         + BindEvents(old(frame), vertexBuffers[old(frame)].Created?, indexBuffers[old(frame)].Created?)
                         + DrawEvents(Walk(dd.lists))
      ensures dd.totalVtxCount > 0 ==>
                SlotPrepared(dd, vertexCreateOk, indexCreateOk, alignment, old(vertexBuffers[frame]),
                             old(indexBuffers[frame]), vertexBuffers[old(frame)], indexBuffers[old(frame)])
      ensures forall j :: 0 <= j < |vertexBuffers| && j != old(frame) ==>
                vertexBuffers[j] == old(vertexBuffers[j]) && indexBuffers[j] == old(indexBuffers[j])
    {
      RenderDrawLists(dd, vertexCreateOk, indexCreateOk);
      frame := (frame + 1) % maxFrames;
    }

    /** `handle_mouse_button_event`: latches a press of a button the latch array covers. */
    method HandleMouseButtonEvent(button: int, action: int)
      requires Inv()
      modifies mouseJustPressed
      ensures 0 <= button < mouseJustPressed.Length && action == PRESS ==>
                mouseJustPressed[..] == old(mouseJustPressed[..])[button := true]
      ensures !(0 <= button < mouseJustPressed.Length && action == PRESS) ==>
                mouseJustPressed[..] == old(mouseJustPressed[..])
    {
      if action == PRESS && button >= 0 && button < mouseJustPressed.Length {
        mouseJustPressed[button] := true;
      }
    }

    /** The button loop of `update_mouse_pos_and_buttons`: a button is down if latched or held; every latch is cleared. */
    method UpdateMouseButtons(io: ImGuiIO, held: seq<bool>)
      requires Inv() && io.mouseDown.Length == MOUSE_BUTTON_COUNT && |held| == MOUSE_BUTTON_COUNT
      requires io.mouseDown != mouseJustPressed
      modifies io.mouseDown, mouseJustPressed
      ensures forall b :: 0 <= b < MOUSE_BUTTON_COUNT ==>
                io.mouseDown[b] == (old(mouseJustPressed[b]) || held[b]) && !mouseJustPressed[b]
    {
      var i := 0;
      while i < MOUSE_BUTTON_COUNT
        invariant 0 <= i <= MOUSE_BUTTON_COUNT
        invariant forall b :: 0 <= b < i ==>
                    io.mouseDown[b] == (old(mouseJustPressed[b]) || held[b]) && !mouseJustPressed[b]
        invariant forall b :: i <= b < MOUSE_BUTTON_COUNT ==> mouseJustPressed[b] == old(mouseJustPressed[b])
      {
        io.mouseDown[i] := mouseJustPressed[i] || held[i];
        mouseJustPressed[i] := false;
        i := i + 1;
      }
    }

    /** `handle_key_event`: a press sets the key, a release clears it; each modifier is left OR right. */
    method HandleKeyEvent(io: ImGuiIO, key: int, action: int)
      requires io.keysDown.Length == KEYS_DOWN_COUNT
      requires action == PRESS || action == RELEASE ==> 0 <= key < KEYS_DOWN_COUNT
      modifies io, io.keysDown
      ensures io.keysDown[..] == if action == PRESS then old(io.keysDown[..])[key := true]
                                 else if action == RELEASE then old(io.keysDown[..])[key := false]
                                 else old(io.keysDown[..])
      ensures io.keyCtrl == (io.keysDown[KEY_LEFT_CONTROL] || io.keysDown[KEY_RIGHT_CONTROL])
      ensures io.keyShift == (io.keysDown[KEY_LEFT_SHIFT] || io.keysDown[KEY_RIGHT_SHIFT])
      ensures io.keyAlt == (io.keysDown[KEY_LEFT_ALT] || io.keysDown[KEY_RIGHT_ALT])
      ensures io.keySuper == (io.keysDown[KEY_LEFT_SUPER] || io.keysDown[KEY_RIGHT_SUPER])
      ensures io.inputQueue == old(io.inputQueue)
    {
      if action == PRESS {
        io.keysDown[key] := true;
      }
      if action == RELEASE {
        io.keysDown[key] := false;
      }
      io.keyCtrl := io.keysDown[KEY_LEFT_CONTROL] || io.keysDown[KEY_RIGHT_CONTROL];
      io.keyShift := io.keysDown[KEY_LEFT_SHIFT] || io.keysDown[KEY_RIGHT_SHIFT];
      io.keyAlt := io.keysDown[KEY_LEFT_ALT] || io.keysDown[KEY_RIGHT_ALT];
      io.keySuper := io.keysDown[KEY_LEFT_SUPER] || io.keysDown[KEY_RIGHT_SUPER];
    }

    /** `on_draw`: calls every active layer's function, skipping inactive ones, in registration order. */
    method OnDraw() returns (calls: seq<nat>)
      ensures calls == ActiveIds(layers)
      ensures forall id :: id in calls <==>
                exists i :: 0 <= i < |layers| && layers[i].id == id && layers[i].active
    {
      calls := [];
      var i := 0;
      while i < |layers|
        invariant 0 <= i <= |layers|
        invariant calls == ActiveIds(layers[..i])
      {
        assert layers[..i + 1][..i] == layers[..i];
        if !layers[i].active {
          i := i + 1;
          continue;
        }
        calls := calls + [layers[i].id];
        i := i + 1;
      }
      assert layers[..|layers|] == layers;
      forall id {
        ActiveIdsExact(layers, id);
      }
    }
  }

  /** A prefix of the lists copies no more than the whole draw data. */
  lemma PrefixFits(lists: seq<DrawList>, i: nat)
    requires i <= |lists|
    ensures |AllVertices(lists[..i])| <= |AllVertices(lists)|
    ensures |AllIndices(lists[..i])| <= |AllIndices(lists)|
  {
    if i < |lists| {
      VerticesPlacedAtOffset(lists, i);
      VtxTotalIsCopiedLength(lists[..i]);
      AllIndicesPrefix(lists, i);
    } else {
      assert lists[..i] == lists;
    }
  }

  lemma {:induction false} AllIndicesPrefix(lists: seq<DrawList>, i: nat)
    requires i <= |lists|
    ensures |AllIndices(lists[..i])| <= |AllIndices(lists)|
  {
    if i < |lists| {
      var n := |lists| - 1;
      assert lists[..n][..i] == lists[..i];
      AllIndicesPrefix(lists[..n], i);
    } else {
      assert lists[..i] == lists;
    }
  }
}
