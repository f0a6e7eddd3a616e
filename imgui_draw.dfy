/**
 * The pure side of the overlay's per-frame upload: ImGui's draw data, the
 * buffer-size rounding of `prepare_draw_lists`, the concatenation its copy
 * loop produces, and the running offsets of the draw walk in
 * `render_draw_lists`.
 */
module ImguiDraw {

  /** `size_t` and `VkDeviceSize` are 64-bit unsigned. */
  const SIZE_LIMIT: int := 0x1_0000_0000_0000_0000

  /** `sizeof(ImDrawVert)`: two float pairs and a packed colour. */
  const DRAW_VERT_SIZE: nat := 20

  /** `sizeof(ImDrawIdx)`: 16-bit indices (`VK_INDEX_TYPE_UINT16`). */
  const DRAW_IDX_SIZE: nat := 2

  /** ImGui counts vertices and indices in a C `int`. */
  const INT_LIMIT: nat := 0x8000_0000

  /** A vertex record; only its identity matters to the upload. */
  datatype DrawVert = DrawVert(id: int)

  /** An unsigned 16-bit value (`ImDrawIdx`, `unsigned short`). */
  type U16 = x: int | 0 <= x < 0x1_0000

  type DrawIdx = U16

  datatype DrawCmd = DrawCmd(elemCount: nat, userCallback: bool)

  datatype DrawList = DrawList(vtx: seq<DrawVert>, idx: seq<DrawIdx>, cmds: seq<DrawCmd>)

  /** `ImDrawData`: the command lists and the totals ImGui computed for them. */
  datatype DrawData = DrawData(lists: seq<DrawList>, totalVtxCount: nat, totalIdxCount: nat)

  // ---------------------------------------------------------------------------
  // Buffer size rounding: `((size - 1) / align + 1) * align` in 64-bit
  // unsigned arithmetic.

  function Wrap64(x: int): (r: nat)
    ensures r < SIZE_LIMIT
  {
    x % SIZE_LIMIT
  }

  /** The size `prepare_draw_lists` asks a new buffer for, wrap-around included. */
  function AlignedSize(size: nat, align: nat): (r: nat)
    requires size < SIZE_LIMIT && 0 < align < SIZE_LIMIT
    ensures r < SIZE_LIMIT
  {
    Wrap64((Wrap64(size - 1) / align + 1) * align)
  }

  /** For a positive size that does not overflow, the rounding is the least multiple of the alignment at or above it. */
  lemma AlignedSizeIsLeastMultiple(size: nat, align: nat)
    requires 0 < size && 0 < align && size + align <= SIZE_LIMIT
    ensures AlignedSize(size, align) % align == 0
    ensures size <= AlignedSize(size, align) < size + align
  {
    var q := (size - 1) / align;
    var m := (size - 1) % align;
    assert size - 1 == q * align + m && 0 <= m < align;
    var up := (q + 1) * align;
    assert up == q * align + align;
    assert size <= up < size + align;
    assert Wrap64(size - 1) == size - 1;
    assert Wrap64(up) == up;
    MultipleMod(q + 1, align);
  }

  lemma MultipleMod(k: nat, a: nat)
    requires a > 0
    ensures (k * a) % a == 0
  {
    var d := (k * a) / a;
    var r := (k * a) % a;
    assert k * a == d * a + r && 0 <= r < a;
    assert (k - d) * a == r;
    SmallMultipleIsZero(k - d, a, r);
  }

  lemma SmallMultipleIsZero(x: int, a: int, r: int)
    requires a > 0 && 0 <= r < a && x * a == r
    ensures r == 0
  {
  }

  /** For a size of zero the subtraction wraps; an alignment dividing 2^64 then yields a size of zero. */
  lemma AlignedSizeOfZero(align: nat)
    requires 0 < align < SIZE_LIMIT && SIZE_LIMIT % align == 0
    ensures AlignedSize(0, align) == 0
  {
    var k := SIZE_LIMIT / align;
    assert k * align == SIZE_LIMIT;
    var q := (SIZE_LIMIT - 1) / align;
    var m := (SIZE_LIMIT - 1) % align;
    assert SIZE_LIMIT - 1 == q * align + m && 0 <= m < align;
    assert (k - 1) * align == SIZE_LIMIT - align;
    assert q * align == SIZE_LIMIT - 1 - m;
    assert (q - (k - 1)) * align == align - 1 - m;
    assert q == k - 1;
    assert Wrap64(0 - 1) == SIZE_LIMIT - 1;
  }

  /** A buffer is regrown only when it does not exist or is smaller than the request. */
  predicate NeedsGrow(valid: bool, capacity: nat, required: nat) {
    !valid || capacity < required
  }

  // ---------------------------------------------------------------------------
  // The copy: each list's vertices and indices right after the previous list's.

  function AllVertices(lists: seq<DrawList>): seq<DrawVert> {
    if lists == [] then [] else AllVertices(lists[..|lists| - 1]) + lists[|lists| - 1].vtx
  }

  function AllIndices(lists: seq<DrawList>): seq<DrawIdx> {
    if lists == [] then [] else AllIndices(lists[..|lists| - 1]) + lists[|lists| - 1].idx
  }

  /** The running `vtx_offset`: the vertex counts of the lists walked so far. */
  function VtxTotal(lists: seq<DrawList>): nat {
    if lists == [] then 0 else VtxTotal(lists[..|lists| - 1]) + |lists[|lists| - 1].vtx|
  }

  function ElemTotal(cmds: seq<DrawCmd>): nat {
    if cmds == [] then 0 else ElemTotal(cmds[..|cmds| - 1]) + cmds[|cmds| - 1].elemCount
  }

  /** The running `idx_offset`: the element counts of every command walked so far. */
  function IdxTotal(lists: seq<DrawList>): nat {
    if lists == [] then 0 else IdxTotal(lists[..|lists| - 1]) + ElemTotal(lists[|lists| - 1].cmds)
  }

  /**
   * What ImGui guarantees of its draw data: the totals are the sums over the
   * lists, fit a C `int`, and each list's commands consume exactly its index
   * buffer.
   */
  predicate WellFormed(dd: DrawData) {
    && dd.totalVtxCount == |AllVertices(dd.lists)| < INT_LIMIT
    && dd.totalIdxCount == |AllIndices(dd.lists)| < INT_LIMIT
    && forall i :: 0 <= i < |dd.lists| ==> ElemTotal(dd.lists[i].cmds) == |dd.lists[i].idx|
  }

  /** The vertex offset counter equals the length of the vertices copied so far. */
  lemma {:induction false} VtxTotalIsCopiedLength(lists: seq<DrawList>)
    ensures VtxTotal(lists) == |AllVertices(lists)|
  {
    if lists != [] {
      VtxTotalIsCopiedLength(lists[..|lists| - 1]);
    }
  }

  /** With well-formed lists, the index offset counter equals the length of the indices copied so far. */
  lemma {:induction false} IdxTotalIsCopiedLength(lists: seq<DrawList>)
    requires forall i :: 0 <= i < |lists| ==> ElemTotal(lists[i].cmds) == |lists[i].idx|
    ensures IdxTotal(lists) == |AllIndices(lists)|
  {
    if lists != [] {
      IdxTotalIsCopiedLength(lists[..|lists| - 1]);
    }
  }

  /** List `i`'s vertices sit in the concatenation at the offset the draw walk uses for it. */
  lemma {:induction false} VerticesPlacedAtOffset(lists: seq<DrawList>, i: nat)
    requires i < |lists|
    ensures VtxTotal(lists[..i]) + |lists[i].vtx| <= |AllVertices(lists)|
    ensures AllVertices(lists)[VtxTotal(lists[..i])..VtxTotal(lists[..i]) + |lists[i].vtx|] == lists[i].vtx
  {
    var n := |lists| - 1;
    assert lists[..n + 1] == lists;
    VtxTotalIsCopiedLength(lists[..i]);
    if i == n {
      assert lists[..i] == lists[..n];
    } else {
      VerticesPlacedAtOffset(lists[..n], i);
      assert lists[..n][..i] == lists[..i];
      assert lists[..n][i] == lists[i];
    }
  }

  /** List `i`'s indices sit in the concatenation at the offset the draw walk uses for its first command. */
  lemma {:induction false} IndicesPlacedAtOffset(lists: seq<DrawList>, i: nat)
    requires i < |lists|
    requires forall j :: 0 <= j < |lists| ==> ElemTotal(lists[j].cmds) == |lists[j].idx|
    ensures IdxTotal(lists[..i]) + |lists[i].idx| <= |AllIndices(lists)|
    ensures AllIndices(lists)[IdxTotal(lists[..i])..IdxTotal(lists[..i]) + |lists[i].idx|] == lists[i].idx
  {
    var n := |lists| - 1;
    assert lists[..n + 1] == lists;
    IdxTotalIsCopiedLength(lists[..i]);
    if i == n {
      assert lists[..i] == lists[..n];
    } else {
      IndicesPlacedAtOffset(lists[..n], i);
      assert lists[..n][..i] == lists[..i];
      assert lists[..n][i] == lists[i];
    }
  }

  /** `dst[off..off + |chunk|] := chunk`, the effect of one `memcpy` into mapped memory. */
  function WriteAt<T>(dst: seq<T>, off: nat, chunk: seq<T>): (r: seq<T>)
    requires off + |chunk| <= |dst|
    ensures |r| == |dst|
    ensures r[..off] == dst[..off] && r[off..off + |chunk|] == chunk
    ensures r[off + |chunk|..] == dst[off + |chunk|..]
  {
    dst[..off] + chunk + dst[off + |chunk|..]
  }

  /** Writing the next chunk right after a written prefix extends the prefix. */
  lemma WriteAfterPrefix<T>(dst: seq<T>, prefix: seq<T>, chunk: seq<T>)
    requires |prefix| + |chunk| <= |dst| && dst[..|prefix|] == prefix
    ensures WriteAt(dst, |prefix|, chunk)[..|prefix| + |chunk|] == prefix + chunk
  {
    var r := WriteAt(dst, |prefix|, chunk);
    assert r[..|prefix| + |chunk|] == r[..|prefix|] + r[|prefix|..|prefix| + |chunk|];
  }

  /** Two sequences of one length that agree from `k` on agree from every later position on. */
  lemma SuffixOfSuffix<T>(a: seq<T>, b: seq<T>, k: nat, m: nat)
    requires |a| == |b| && k <= m <= |a| && a[k..] == b[k..]
    ensures a[m..] == b[m..]
  {
    assert a[m..] == a[k..][m - k..];
    assert b[m..] == b[k..][m - k..];
  }

  // ---------------------------------------------------------------------------
  // The draw walk: one event per command, with the running offsets.

  datatype DrawEvent =
    | UserCallback(list: nat, cmd: nat)
    | DrawIndexed(elemCount: nat, firstIndex: nat, vertexOffset: nat)

  function CmdEvent(cmd: DrawCmd, list: nat, c: nat, vtxOffset: nat, idxOffset: nat): DrawEvent {
    if cmd.userCallback then UserCallback(list, c) else DrawIndexed(cmd.elemCount, idxOffset, vtxOffset)
  }

  /** The inner loop over one list's commands, `idx_offset` growing by every command's count. */
  function ListEvents(cmds: seq<DrawCmd>, list: nat, vtxOffset: nat, idxOffset: nat): (r: seq<DrawEvent>)
    ensures |r| == |cmds|
  {
    if cmds == [] then []
    else
      var n := |cmds| - 1;
      ListEvents(cmds[..n], list, vtxOffset, idxOffset)
        + [CmdEvent(cmds[n], list, n, vtxOffset, idxOffset + ElemTotal(cmds[..n]))]
  }

  /** The outer loop over the lists, `vtx_offset` growing by each list's vertex count. */
  function Walk(lists: seq<DrawList>): seq<DrawEvent> {
    if lists == [] then []
    else
      var n := |lists| - 1;
      Walk(lists[..n]) + ListEvents(lists[n].cmds, n, VtxTotal(lists[..n]), IdxTotal(lists[..n]))
  }

  /** Every command of every list, in walk order. */
  function AllCmds(lists: seq<DrawList>): seq<DrawCmd> {
    if lists == [] then [] else AllCmds(lists[..|lists| - 1]) + lists[|lists| - 1].cmds
  }

  lemma {:induction false} ElemTotalAppend(a: seq<DrawCmd>, b: seq<DrawCmd>)
    ensures ElemTotal(a + b) == ElemTotal(a) + ElemTotal(b)
  {
    if b == [] {
      assert a + b == a;
    } else {
      assert (a + b)[..|a + b| - 1] == a + b[..|b| - 1];
      assert (a + b)[|a + b| - 1] == b[|b| - 1];
      ElemTotalAppend(a, b[..|b| - 1]);
    }
  }

  /** `idx_offset` ends at the element count of every command, user callbacks included. */
  lemma {:induction false} IdxTotalIsElemTotal(lists: seq<DrawList>)
    ensures IdxTotal(lists) == ElemTotal(AllCmds(lists))
  {
    if lists != [] {
      var n := |lists| - 1;
      IdxTotalIsElemTotal(lists[..n]);
      ElemTotalAppend(AllCmds(lists[..n]), lists[n].cmds);
    }
  }

  /** Command `c` of a list gets the list's start offset plus the counts of the commands before it. */
  lemma {:induction false} ListEventsAt(cmds: seq<DrawCmd>, list: nat, vtxOffset: nat, idxOffset: nat, c: nat)
    requires c < |cmds|
    ensures |ListEvents(cmds, list, vtxOffset, idxOffset)| == |cmds|
    ensures ListEvents(cmds, list, vtxOffset, idxOffset)[c]
            == CmdEvent(cmds[c], list, c, vtxOffset, idxOffset + ElemTotal(cmds[..c]))
  {
    var n := |cmds| - 1;
    if c < n {
      ListEventsAt(cmds[..n], list, vtxOffset, idxOffset, c);
      assert cmds[..n][..c] == cmds[..c];
    }
  }

  /**
   * Prefix sums: the walk emits one event per command, a callback exactly
   * for callback commands, and every draw starts at the sum of the element
   * counts of all commands before it, callbacks included.
   */
  lemma {:induction false} WalkOffsetsArePrefixSums(lists: seq<DrawList>, k: nat)
    requires k < |AllCmds(lists)|
    ensures |Walk(lists)| == |AllCmds(lists)|
    ensures Walk(lists)[k].UserCallback? <==> AllCmds(lists)[k].userCallback
    ensures Walk(lists)[k].DrawIndexed? ==>
              Walk(lists)[k].elemCount == AllCmds(lists)[k].elemCount
              && Walk(lists)[k].firstIndex == ElemTotal(AllCmds(lists)[..k])
  {
    var n := |lists| - 1;
    var init := lists[..n];
    var before := AllCmds(init);
    WalkLength(init);
    WalkLength(lists);
    if k < |before| {
      WalkOffsetsArePrefixSums(init, k);
      assert Walk(lists) == Walk(init) + ListEvents(lists[n].cmds, n, VtxTotal(init), IdxTotal(init));
      assert Walk(lists)[k] == Walk(init)[k];
      assert AllCmds(lists) == before + lists[n].cmds;
      assert AllCmds(lists)[k] == before[k];
      assert AllCmds(lists)[..k] == before[..k];
    } else {
      WalkOffsetInLastList(lists, k);
    }
  }

  /** The case of `WalkOffsetsArePrefixSums` for a command of the last list. */
  lemma WalkOffsetInLastList(lists: seq<DrawList>, k: nat)
    requires lists != [] && |AllCmds(lists[..|lists| - 1])| <= k < |AllCmds(lists)|
    requires |Walk(lists[..|lists| - 1])| == |AllCmds(lists[..|lists| - 1])|
    ensures k < |Walk(lists)|
    ensures Walk(lists)[k].UserCallback? <==> AllCmds(lists)[k].userCallback
    ensures Walk(lists)[k].DrawIndexed? ==>
              Walk(lists)[k].elemCount == AllCmds(lists)[k].elemCount
              && Walk(lists)[k].firstIndex == ElemTotal(AllCmds(lists)[..k])
  {
    var n := |lists| - 1;
    var init := lists[..n];
    var before := AllCmds(init);
    var cmds := lists[n].cmds;
    var last := ListEvents(cmds, n, VtxTotal(init), IdxTotal(init));
    var c := k - |before|;
    assert Walk(lists) == Walk(init) + last;
    assert AllCmds(lists) == before + cmds;
    ListEventsAt(cmds, n, VtxTotal(init), IdxTotal(init), c);
    assert Walk(lists)[k] == last[c];
    assert AllCmds(lists)[k] == cmds[c];
    IdxTotalIsElemTotal(init);
    assert AllCmds(lists)[..k] == before + cmds[..c];
    ElemTotalAppend(before, cmds[..c]);
  }

  /**
   * The walk in (list, command) coordinates: command `c` of list `i` is
   * event number `|AllCmds(lists[..i])| + c`, a callback that names list `i`
   * and command `c`, or a draw whose vertex offset is the vertex count of
   * the lists before `i` and whose first index is the element count of
   * every command before it.
   */
  lemma {:induction false} WalkAt(lists: seq<DrawList>, i: nat, c: nat)
    requires i < |lists| && c < |lists[i].cmds|
    ensures |AllCmds(lists[..i])| + c < |Walk(lists)| == |AllCmds(lists)|
    ensures AllCmds(lists)[|AllCmds(lists[..i])| + c] == lists[i].cmds[c]
    ensures Walk(lists)[|AllCmds(lists[..i])| + c]
            == CmdEvent(lists[i].cmds[c], i, c, VtxTotal(lists[..i]), IdxTotal(lists[..i]) + ElemTotal(lists[i].cmds[..c]))
  {
    var n := |lists| - 1;
    var init := lists[..n];
    WalkLength(lists);
    WalkLength(init);
    if i == n {
      assert lists[..i] == init;
      ListEventsAt(lists[n].cmds, n, VtxTotal(init), IdxTotal(init), c);
    } else {
      WalkAt(init, i, c);
      assert init[..i] == lists[..i];
      assert init[i] == lists[i];
    }
  }

  /** The walk has one event per command of every list. */
  lemma {:induction false} WalkLength(lists: seq<DrawList>)
    ensures |Walk(lists)| == |AllCmds(lists)|
  {
    if lists != [] {
      WalkLength(lists[..|lists| - 1]);
    }
  }

  // ---------------------------------------------------------------------------
  // `on_draw`: every active layer's function, in list order.

  datatype Layer = Layer(id: nat, active: bool)

  function ActiveIds(layers: seq<Layer>): seq<nat> {
    if layers == [] then []
    else ActiveIds(layers[..|layers| - 1])
         + (if layers[|layers| - 1].active then [layers[|layers| - 1].id] else [])
  }

  /** Exactly the active layers run: no inactive one, and every active one. */
  lemma {:induction false} ActiveIdsExact(layers: seq<Layer>, id: nat)
    ensures id in ActiveIds(layers) <==> exists i :: 0 <= i < |layers| && layers[i].id == id && layers[i].active
  {
    if layers != [] {
      var n := |layers| - 1;
      ActiveIdsExact(layers[..n], id);
      if id in ActiveIds(layers[..n]) {
        var i :| 0 <= i < n && layers[..n][i].id == id && layers[..n][i].active;
        assert layers[i].id == id && layers[i].active;
      }
      if exists i :: 0 <= i < |layers| && layers[i].id == id && layers[i].active {
        var i :| 0 <= i < |layers| && layers[i].id == id && layers[i].active;
        if i < n {
          assert layers[..n][i] == layers[i];
        }
      }
    }
  }

  // ---------------------------------------------------------------------------
  // Input latches.

  /** `GLFW_PRESS` and `GLFW_RELEASE`. */
  const PRESS: int := 1
  const RELEASE: int := 0

  /** The GLFW key codes of the left and right modifier keys. */
  const KEY_LEFT_SHIFT: nat := 340
  const KEY_LEFT_CONTROL: nat := 341
  const KEY_LEFT_ALT: nat := 342
  const KEY_LEFT_SUPER: nat := 343
  const KEY_RIGHT_SHIFT: nat := 344
  const KEY_RIGHT_CONTROL: nat := 345
  const KEY_RIGHT_ALT: nat := 346
  const KEY_RIGHT_SUPER: nat := 347

  /** `io.KeysDown` and `io.MouseDown` sizes; `m_mouse_just_pressed` matches `MouseDown`. */
  const KEYS_DOWN_COUNT: nat := 512
  const MOUSE_BUTTON_COUNT: nat := 5

  /** The character callback passes on only code points in `(0, 0x10000)`, as 16-bit units. */
  function FilterChar(c: int): (r: seq<U16>)
    ensures |r| <= 1
    ensures r != [] <==> 0 < c < 0x1_0000
    ensures r != [] ==> r[0] == c
  {
    if 0 < c < 0x1_0000 then [c] else []
  }
}
