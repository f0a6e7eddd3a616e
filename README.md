# liblava core, modelled in Dafny

This project models four self-contained pieces of the liblava Vulkan framework.

1. **The ImGui overlay backend** (`imgui.dfy`, `imgui_draw.dfy`):
   - one vertex buffer and one index buffer per frame in flight;
   - the grow-only `prepare_draw_lists` step, with its aligned size rounding and its back-to-back copy of every command list;
   - the command walk of `render_draw_lists`, with its running vertex and index offsets;
   - the slot rotation of `render`;
   - the input rules: the key modifier flags, the mouse "just pressed" latch and the character filter;
   - the layer loop of `on_draw`.
2. **The application's frame and reload lifecycle** (`app.dfy`):
   - the creation and teardown order of render target, overlay and block;
   - the `handle_window` reload closure;
   - the per-frame `render` tick;
   - the run-end teardown;
   - the alt+backspace v-sync toggle;
   - `get_fps_info`, the accessors and `about_info_setting::all`.
3. **The semantic version** (`version.dfy`): its lexicographic order, the `sscanf("%d.%d.%d")` parse of `to_version`, the release stages and the `version` defaults.
4. **The property registry** (`property.dfy`): a name-to-prop table updated in place.

## Modelling choices

The GPU, the window and user callbacks are collaborators the model does not run.
- Each call made into them is an event appended to a `trace`.
- Whatever such a call returns is a parameter of the method that makes it. This covers buffer creation, `begin_frame`, `block.process`, `end_frame`, `switch_mode`, every create step and `shut_down`.
- A run closure's verdict is a `bool`: `RUN_CONTINUE` is `true`, `RUN_ABORT` is `false`.

Fixed-width integers are modelled explicitly:
- The buffer size rounding is done modulo 2^64 (`size_t`).
- `m_frame_counter` wraps modulo 2^32.
- `semantic_version` fields are `i32` values stored modulo 2^32.

The size of a regrown buffer's mapped memory is its byte size divided by the element size (20 bytes per vertex, 2 per index). Freshly mapped memory holds unspecified values; the model fills it with a placeholder.

The model also reproduces, without fixing, these behaviours of the code:
- **No skip after a failed creation.** When a buffer creation fails, `prepare_draw_lists` returns before copying and flushing, but `render_draw_lists` still binds the buffers and issues every draw. `Imgui.Imgui.RenderDrawLists` records the binds with a `created: false` flag.
- **Unguarded empty index request.** The index path has no guard against a request of 0 bytes. `((0-1)/a+1)*a` wraps to 0 whenever the alignment divides 2^64 (`Imgui.EmptyIndexRequestWraps`).
- **`m_frame` always advances.** It moves on even when nothing was drawn (`Imgui.Imgui.Render`).
- **The block keeps the first target's frame count.** A reload re-creates the target and the overlay, but neither destroys nor re-creates the block. The block therefore keeps the frame count of the first target, while the overlay takes the new one. `App.App.HandleWindow` promises only that `blockFrameCount` is unchanged; it does not promise that it equals `targetFrameCount`.
- **`create` leaves `m_frame` as it was.** If `destroy` is followed by `create` with fewer frames, `m_frame` can be out of range. `Imgui.Imgui.Create` therefore promises a valid slot only when the old `m_frame` is below the new frame count.
- **A failed reload tears the target down twice.** A reload destroys the target before it switches the mode. If the switch fails, it stops without re-creating anything. The run end then calls `destroy_target` again, so `on_destroy`, renderer, shading and target are all destroyed a second time (`App.AbortedReloadThenRunEnd`). When instead a reload's `create_target` makes the new target object and then fails, the reload aborts and the run end destroys that object with the whole sequence. So `on_destroy`, renderer and shading are destroyed a second time, although the cut-short creation between the two teardowns created the renderer only if shading succeeded, and called `on_create` only if both did (`App.FailedRecreateThenRunEnd`, `App.FailedTargetCreation`).
- **`empty` means loaded.** The registry's `empty` returns true when the prop's data is loaded.

## Model
| member | source | states |
|---|---|---|
| Version.Weight | liblava/core/version.hpp:17-31 | a version's rank as one number in base 2^32 over (major, minor, patch), below 2^96 |
| Version.Compare | liblava/core/version.hpp:30 | the defaulted `<=>`: equal iff the versions are equal, and less iff the major is smaller, or it ties and the minor is smaller, or both tie and the patch is smaller |
| Version.CompareMatchesWeight | liblava/core/version.hpp:30 | the defaulted `<=>` is less, equal or greater exactly when the base-2^32 rank is, so the order is lexicographic on (major, minor, patch) |
| Version.CompareEqualIff | liblava/core/version.hpp:30 | two versions compare equal iff all three fields are equal |
| Version.BeforeIsStrictTotalOrder | liblava/core/version.hpp:30 | "less than" is irreflexive, asymmetric, transitive and total on distinct versions |
| Version.LeadingSpaces | liblava/core/version.hpp:48 | the run of white space `%d` skips: every skipped character is white space and the next one is not |
| Version.DigitRun | liblava/core/version.hpp:48 | the maximal run of decimal digits at the start of the text |
| Version.ScanInt | liblava/core/version.hpp:48 | one `%d`: fails iff no digit follows the white space and optional sign; on success it stops after a digit and before a non-digit |
| Version.ScanFields | liblava/core/version.hpp:48 | the `%d.%d.%d` conversions: at most k values, none when the first `%d` fails |
| Version.ToU32 | liblava/core/version.hpp:17-31 | storing a scanned `int` keeps values that fit unchanged |
| Version.ToVersion | liblava/core/version.hpp:41-50 | starts from {0,0,0}: no number gives {0,0,0}, and fields after the last scanned one stay 0 |
| Version.DigitChar | liblava/core/version.hpp:48 | the digit character of a value below 10 |
| Version.Decimal | liblava/core/version.hpp:48 | a natural number's decimal text is non-empty and all digits |
| Version.DecimalValue | liblava/core/version.hpp:48 | reading a number's decimal text gives back the number |
| Version.DigitRunOfDigits | liblava/core/version.hpp:48 | a digit string followed by a non-digit is scanned exactly up to its end |
| Version.ScanDecimal | liblava/core/version.hpp:48 | one `%d` on a number's decimal text returns that number and its length |
| Version.ScanFieldsDot | liblava/core/version.hpp:48 | a number then "." yields that number and the scan continues after the dot |
| Version.ScanFieldsLast | liblava/core/version.hpp:48 | a number followed by neither a digit nor a "." ends the scan with that one value |
| Version.ToVersionRoundTrip | liblava/core/version.hpp:41-50 | `to_version("a.b.c" + rest)` is {a,b,c} for fields within `int` range and rest not starting with a digit |
| Version.Regroup | liblava/core/version.hpp:48 | regrouping the concatenated text the scan reads |
| Version.FormatThenRest | liblava/core/version.hpp:48 | "a.b.c" + rest splits into the pieces the scan consumes |
| Version.ToVersionTwoFields | liblava/core/version.hpp:41-50 | a partial parse: `to_version("a.b")` is {a,b,0} |
| Version.TwoFieldsThenRest | liblava/core/version.hpp:48 | "a.b" followed by neither digit nor dot scans exactly [a, b] |
| Version.ToVersionNoNumber | liblava/core/version.hpp:41-50 | text starting with no number (such as "x") gives {0,0,0} |
| Version.StageIndex | liblava/core/version.hpp:55-62 | every release stage has an index below 6 |
| Version.StageFromIndex | liblava/core/version.hpp:55-62 | an index names a stage iff it is below 6, and the stage has that index |
| Version.StageOrder | liblava/core/version.hpp:55-62 | the index round-trips, is injective, and orders preview < alpha < beta < rc < release < rolling |
| Version.DefaultVersion | liblava/core/version.hpp:67-79 | a default `version` is year 2024, release 0, stage rolling, revision 0 |
| Property.NewProp | liblava/engine/property.hpp:32-39 | a new prop holds the given file name and no data |
| Property.UnloadedAllKeepsNames | liblava/engine/property.hpp:134-137 | dropping all data keeps every name and file name and leaves nothing loaded |
| Property.PropertyMaster.constructor | liblava/engine/property.hpp:184-186 | the `prop::map` member starts empty |
| Property.PropertyMaster.Exists | liblava/engine/property.hpp:88-90 | `exists(n)` iff n is a key |
| Property.PropertyMaster.GetFilename | liblava/engine/property.hpp:66-68 | found iff the name exists, and then it is that prop's file name; otherwise the `map.at` failure |
| Property.PropertyMaster.Empty | liblava/engine/property.hpp:100-102 | found iff the name exists, and then true exactly when the prop's data is loaded |
| Property.PropertyMaster.GetAll | liblava/engine/property.hpp:166-168 | the table holds exactly the names that exist |
| Property.PropertyMaster.SetFilename | liblava/engine/property.hpp:76-78 | done iff the name exists; only that prop's file name changes; a missing name changes nothing |
| Property.PropertyMaster.Unload | liblava/engine/property.hpp:119-121 | done iff the name exists; only that prop's data is dropped; a missing name changes nothing |
| Property.PropertyMaster.UnloadAll | liblava/engine/property.hpp:134-137 | the loop drops every prop's data and nothing else |
| Property.PropertyMaster.Clear | liblava/engine/property.hpp:157-159 | afterwards no name exists |
| ImguiDraw.Wrap64 | liblava/app/imgui.cpp:520-521 | a value reduced to 64 bits |
| ImguiDraw.AlignedSize | liblava/app/imgui.cpp:520-521 | the rounding `((size-1)/align+1)*align` in 64-bit arithmetic stays below 2^64 |
| ImguiDraw.AlignedSizeIsLeastMultiple | liblava/app/imgui.cpp:520-521 | for a positive size, the rounded size is the least multiple of the alignment at or above it |
| ImguiDraw.MultipleMod | liblava/app/imgui.cpp:520-521 | a multiple of the alignment leaves no remainder |
| ImguiDraw.AlignedSizeOfZero | liblava/app/imgui.cpp:536-537 | a request of 0 bytes rounds to 0, by wrap-around, when the alignment divides 2^64 |
| ImguiDraw.VtxTotalIsCopiedLength | liblava/app/imgui.cpp:638-676 | the final `vtx_offset` equals the number of vertices copied |
| ImguiDraw.IdxTotalIsCopiedLength | liblava/app/imgui.cpp:638-676 | when each list's commands consume its index buffer, the final `idx_offset` equals the number of indices copied |
| ImguiDraw.VerticesPlacedAtOffset | liblava/app/imgui.cpp:547-557 | list i's vertices sit in the copy at the running vertex offset, right after the lists before it |
| ImguiDraw.IndicesPlacedAtOffset | liblava/app/imgui.cpp:547-557 | list i's indices sit in the copy at the running index offset the walk uses for it |
| ImguiDraw.WriteAt | liblava/app/imgui.cpp:550-553 | a `memcpy` into mapped memory changes exactly the written range |
| ImguiDraw.WriteAfterPrefix | liblava/app/imgui.cpp:547-557 | copying the next chunk right after a written prefix extends the prefix |
| ImguiDraw.ElemTotalAppend | liblava/app/imgui.cpp:672 | element counts add up over concatenated command lists |
| ImguiDraw.ListEvents | liblava/app/imgui.cpp:641-673 | the inner loop's events: one per command of the list |
| ImguiDraw.IdxTotalIsElemTotal | liblava/app/imgui.cpp:638-676 | `idx_offset` ends at the sum of the element count of every command in walk order, user callbacks included |
| ImguiDraw.WalkLength | liblava/app/imgui.cpp:638-676 | the walk (`Walk`, the nested loops' events) has one event per command of every list |
| ImguiDraw.ListEventsAt | liblava/app/imgui.cpp:641-673 | command c of a list yields a callback or a draw at the list's vertex offset and the index offset plus the counts before c |
| ImguiDraw.WalkOffsetsArePrefixSums | liblava/app/imgui.cpp:638-676 | by flat position k: the event is a callback iff command k has one, and a draw has command k's element count and starts at the sum of the counts of all commands before it |
| ImguiDraw.WalkOffsetInLastList | liblava/app/imgui.cpp:641-676 | the prefix-sum facts for a command of the last list: its event sits after every earlier list's events, and a draw starts at the element count of every command before it |
| ImguiDraw.WalkAt | liblava/app/imgui.cpp:638-676 | by (list i, command c): the event sits at the position of that command in walk order; a callback names list i and command c; a draw's vertex offset is the vertex count of the lists before i, its first index the element count of every command before it |
| ImguiDraw.ActiveIdsExact | liblava/app/imgui.cpp:278-285 | a layer function is called iff that layer is active |
| ImguiDraw.FilterChar | liblava/app/imgui.cpp:245-248 | a character is queued iff 0 < c < 0x10000, as itself |
| Imgui.Invalids | liblava/app/imgui.cpp:372-375 | n fresh buffer objects, none created |
| Imgui.GrowNeverShrinks | liblava/app/imgui.cpp:512-542 | a successful grow step leaves a created buffer at least as large as the request and as before; a regrown size is aligned and below request plus alignment |
| Imgui.GrowThenSmallerRequestReuses | liblava/app/imgui.cpp:512-542 | after a successful grow, a request no larger than the last reuses the buffer unchanged |
| Imgui.EmptyIndexRequestWraps | liblava/app/imgui.cpp:528-537 | a missing index buffer asked for 0 bytes is created with the wrapped size 0 |
| Imgui.DrawEvents | liblava/app/imgui.cpp:638-676 | one recorded draw call per walk event, in order |
| Imgui.DrawEventsSnoc | liblava/app/imgui.cpp:638-676 | recording one more walk event appends one draw call |
| Imgui.DrawEventsAppend | liblava/app/imgui.cpp:638-676 | the recorded calls of two walk segments concatenate |
| Imgui.RoomFor | liblava/app/imgui.cpp:547-557 | a buffer of at least count times the element size has mapped room for count elements |
| Imgui.Grow | liblava/app/imgui.cpp:512-542 | one grow step: a missing or too small buffer is created again at the aligned size, and stays invalid iff that creation fails; a large enough buffer is kept as it is |
| Imgui.ImGuiIO.constructor | liblava/app/imgui.cpp:147-148 | the IO state of a new ImGui context: no key, no modifier and no mouse button down; no queued characters |
| Imgui.CharCallback | liblava/app/imgui.cpp:245-248 | the input queue grows by the filtered character and nothing else changes |
| Imgui.Imgui.constructor | liblava/app/imgui.cpp:366-375 | the state `create` starts from: no latched press, no buffers, slot 0, not created, the given alignment; these member defaults live in imgui.hpp and are assumed |
| Imgui.Imgui.Create | liblava/app/imgui.cpp:366-437 | appends exactly `mf` not-yet-created vertex and index buffers, keeps `m_frame`, and is created iff the device objects are |
| Imgui.Imgui.Destroy | liblava/app/imgui.cpp:440-453 | a no-op unless created; otherwise drops every buffer and is no longer created |
| Imgui.Imgui.PrepareDrawLists | liblava/app/imgui.cpp:511-577 | only the current slot changes, as `SlotPrepared` says: the vertex buffer grown as `AfterGrow` says; a failed vertex creation leaves the index buffer alone, otherwise it is grown too; when both exist, every list's vertices and indices back to back, and a buffer that was not regrown keeps what it held past them, then one flush; after a failure, no copy and no flush |
| Imgui.Imgui.CopyDrawLists | liblava/app/imgui.cpp:544-557 | the copy loop leaves the concatenation of all lists at the start of both mapped buffers; every element past the copied data keeps its old value; sizes, lengths and the other slots unchanged |
| Imgui.Imgui.RenderDrawLists | liblava/app/imgui.cpp:580-677 | empty draw data changes nothing; otherwise the slot is left as `SlotPrepared` says (both buffer shapes, the copied contents), and the trace is the optional flush, the binds of those buffers (live or not), then one draw call per walk event |
| Imgui.Imgui.WalkCommands | liblava/app/imgui.cpp:638-676 | the nested loop records exactly the walk of all lists |
| Imgui.Imgui.WalkList | liblava/app/imgui.cpp:641-673 | the inner loop records one event per command and ends with `idx_offset` grown by every command's count |
| Imgui.Imgui.Render | liblava/app/imgui.cpp:502-508 | draws from the old slot exactly as `render_draw_lists` does (trace, buffer shapes and contents, other slots untouched), then `m_frame` becomes (old + 1) mod `m_max_frames`, whatever was drawn, and stays a valid slot |
| Imgui.Imgui.HandleMouseButtonEvent | liblava/app/imgui.cpp:58-62 | a press of a button inside the latch array latches it; anything else changes nothing |
| Imgui.Imgui.UpdateMouseButtons | liblava/app/imgui.cpp:95-99 | each button is down iff it was latched or is held, and every latch is cleared |
| Imgui.Imgui.HandleKeyEvent | liblava/app/imgui.cpp:72-89 | a press sets the key, a release clears it, any other action leaves the keys alone; each modifier flag is left OR right |
| Imgui.Imgui.OnDraw | liblava/app/imgui.cpp:278-285 | calls exactly the active layers' functions, in registration order |
| App.TargetCreationOrder | liblava/app/app.cpp:425-440 | `create_target` makes the target with the configured v-sync and triple buffering, then shading, renderer, input, and `on_create` last iff set |
| App.ImguiStepsRun | liblava/app/app.cpp:393-409 | how many `create_imgui` calls run: two when `imgui.create` fails, all five iff creation and font upload both succeed |
| App.FailedTargetCreation | liblava/app/app.cpp:425-440 | a `create_target` that made the target and then failed made it first and once; the renderer is created iff shading was, and `on_create` called iff shading and renderer were and it is set |
| App.TargetStepsRun | liblava/app/app.cpp:425-440 | how many `create_target` steps run: all of them iff target, shading and renderer succeed |
| App.BlockCommand | liblava/app/app.cpp:97-117 | the block's command stages, then calls `on_process` iff set, then runs the shading pass, all on the same frame |
| App.FpsInfo | liblava/app/app.cpp:732-739 | "%.f fps", then " (v-sync)" iff v-sync is on, and ends in " (cap)" iff a cap is set |
| App.FpsInfoDistinguishes | liblava/app/app.cpp:732-739 | two fps texts are equal iff the v-sync settings are equal and both or neither have a cap |
| App.AboutInfoAll | liblava/app/app.hpp:154-171 | separator, fps and spacing are all drawn |
| App.KeyDispatch | liblava/app/app.cpp:453-501 | keyboard capture wins; alt+backspace requests a v-sync flip iff control is not held and key handling is on; alt+enter and ctrl+q likewise |
| App.ReloadTeardownOrder | liblava/app/app.cpp:568-573 | a reload waits for the device first; every later step destroys something: `on_destroy` iff set, renderer, shading, target, then overlay and fonts |
| App.App.constructor | liblava/app/config.hpp:37-43 | the configuration defaults (v-sync off, triple buffering on, no fps cap), with the `m_toggle_v_sync` and `m_frame_counter` initialisers of app.hpp:332-335 (no pending flip, counter 0); nothing created |
| App.App.VSync | liblava/app/app.hpp:117-119 | returns `config.v_sync` |
| App.App.TripleBuffer | liblava/app/app.hpp:125-127 | returns `config.triple_buffer` |
| App.App.GetFpsInfo | liblava/app/app.cpp:732-739 | the app's fps text: "%.f fps", " (v-sync)" iff its v-sync is on, ending in " (cap)" iff its cap is set |
| App.App.FpsCap | liblava/app/app.hpp:133-135 | the cap is a `ui32` |
| App.App.GetFrameCounter | liblava/app/app.hpp:141-143 | the counter is a `ui32` |
| App.App.CreateTarget | liblava/app/app.cpp:425-440 | succeeds iff every step does; the calls made are the success sequence cut at the first failure; the target is live iff it was made |
| App.App.DestroyTarget | liblava/app/app.cpp:443-450 | needs only a target object: `on_destroy` if set, then renderer, shading and target are destroyed, again if they already were |
| App.App.CreateImgui | liblava/app/app.cpp:381-416 | the overlay is created with the current target's frame count, its pipeline added to the shading pass, then the fonts uploaded and staged; succeeds iff creation and font upload both do; the calls made stop at the first failure |
| App.App.DestroyImgui | liblava/app/app.cpp:419-422 | destroys the overlay, then its font texture |
| App.App.CreateBlock | liblava/app/app.cpp:92-120 | the block takes the current target's frame count, then gets its one command; fails iff block creation fails |
| App.App.SetupRender | liblava/app/app.cpp:315-332 | succeeds iff every step does; then target, camera, overlay and block are created in that order, all with the target's frame count; a failure at any step stops right after it, with the calls made so far and only the resources created so far live |
| App.App.HandleKey | liblava/app/app.cpp:453-501 | alt+backspace sets the pending v-sync flip; no other key changes it |
| App.App.HandleWindow | liblava/app/app.cpp:559-616 | a close request comes first; a switch, pending flip or target reload starts one reload; a resize is handled only without one; the block is never touched |
| App.App.Reload | liblava/app/app.cpp:565-603 | teardown first; fullscreen flipped once; a failed switch aborts before re-creation; otherwise v-sync flipped once and the flip cleared, then target and overlay created again, each stopping at its first failed step; the result is whether both succeed |
| App.App.TearDownForReload | liblava/app/app.cpp:568-573 | wait for idle, destroy the target, then the overlay |
| App.App.SwitchMode | liblava/app/app.cpp:575-589 | fullscreen becomes the negation of the window's state; a failed switch stops before the state is read back |
| App.App.ApplyVSyncToggle | liblava/app/app.cpp:591-598 | a pending flip toggles `v_sync` once and is cleared |
| App.App.Recreate | liblava/app/app.cpp:600-603 | run-abort if `create_target` fails, otherwise what `create_imgui` returns; the overlay is created only after the target; a failed `create_target` leaves its calls cut at the failing step and no overlay call, a failed `create_imgui` its calls cut likewise after the whole target sequence |
| App.App.RenderTick | liblava/app/app.cpp:647-675 | iconified or capped passes continue without rendering; no acquired frame continues without counting; otherwise the counter advances by one modulo 2^32, the block runs its command (`BlockCommand`) for the acquired frame, a failed `block.process` aborts before `end_frame`, and the result is `end_frame`'s |
| App.App.SetupRun | liblava/app/app.cpp:377 | the frame counter starts again at 0 |
| App.RunEndOrder | liblava/app/app.cpp:346-371 | the configuration is saved before anything is destroyed and the file system is the last step; with a window, overlay then block then target, and the window only after the pipeline cache; `on_destroy` runs iff there is a window and it is set |
| App.App.RunEnd | liblava/app/app.cpp:346-371 | save and clear the config, then camera, overlay, block and target are destroyed, whether or not the target still is created, then the pipeline cache, the window and the file system; the headless run skips the window steps |
| App.AbortedReloadThenRunEnd | liblava/app/app.cpp:346-371 | after a reload whose mode switch failed, the run end calls `destroy_target` again: its whole call sequence occurs twice, with no target created in between |
| App.FailedRecreateThenRunEnd | liblava/app/app.cpp:346-371 | after a reload whose `create_target` made the target and then failed, the run end tears it down with `destroy_target`'s whole sequence, which thus occurs twice with only the cut-short creation between |

## Left out

- Vulkan calls are not executed: descriptor, pipeline and layout creation, `upload_fonts`, `vkCmd*` recording and the flush. They appear only as trace events. `device->wait_for_idle` is an event as well.
- Of the ImGui context, only the IO fields the backend writes are modelled (`Imgui.ImGuiIO`: the key and mouse-button arrays, the modifier flags and the character queue). The rest of the context and the GLFW calls are process-wide foreign state and are not modelled. This covers the rest of `setup` (config flags, backend flags, key map), `new_frame`, cursors, the clipboard, scrolling, gamepad mapping and `glfwGetMouseButton`, whose result is a parameter.
- `create_imgui`'s font-file lookup, `ini_file_dir`, `convert_style_to_srgb` (style colours in the ImGui context) and the `--imgui` command-line switch are not modelled; only its calls into the overlay, the shading pass and the staging are events.
- Floating point is left out: delta time, framebuffer scale, scissor rectangles, viewport and push constants. The viewport and scale and translate pushes appear as events without values. The fps-cap frame time is the abstract `capWait` flag, and `run_time` scaling is not modelled.
- `update` and its timing closure, `screenshot`, `benchmark`, `switch_config` and `draw_about` are not modelled. The same goes for the file-system, config and command-line plumbing, and for creating the pipeline cache.
- The activation wrappers around the input callbacks (`activated()`) and the `on_process` closure registered by `imgui::create` are not modelled.
- `liblava/frame/window.cpp`, `liblava/engine/engine.cpp`, `imgui.hpp` and `config.cpp` are not part of this model. The alignment `m_buffer_memory_alignment` is a constructor parameter, positive and at most 2^32. `config.update_window_state` is modelled as reading the window's fullscreen flag, passed in as `windowFullscreen`. After a switch, reading the state back is assumed to keep the requested mode.
- The `LAVA_VERSION_*` defaults of `semantic_version`, and the registry's `add`, `load`, `parse` and `check`, are not modelled: their definitions are not part of this model.
- Imgui.Imgui.HandleKeyEvent: requires 0 <= key < 512 for a press or a release, because `handle_key_event` then indexes `KeysDown` without a bounds check. GLFW can deliver -1 for an unknown key, which the source would write out of bounds. Any other action (a repeat) takes every key.
- Imgui.ImGuiIO.constructor: the zeroed IO state of a fresh context is what `ImGui::CreateContext()` in `setup` provides; ImGui itself is not part of this model, so that state is assumed.
- Imgui.Imgui.UpdateMouseButtons: requires that ImGui's `MouseDown` array and the latch array are distinct objects, which they are in the source.
- Imgui.Imgui.WalkCommands: `vtx_offset` and `idx_offset` are 32-bit in the source. They cannot wrap because ImGui keeps its totals within `int`, so the model uses unbounded naturals.
- Imgui.Imgui.Create: promises a valid slot only when the old `m_frame` is below the new frame count, because `create` does not reset `m_frame`.
- App.App.DestroyTarget: requires that `target` points to an object (`targetPresent`), not that it is still created. `App.App.HandleWindow` and `App.App.RunEnd` (when not headless) require the same. All three dereference `target`, so the model does not follow a reload whose `lava::create_target` returned null into the next window pass or the run end: the source dereferences null there.
- Imgui.Imgui.constructor: the defaults it promises are the member initialisers of imgui.hpp, which is not part of this model; they are assumed.
- App.App.HandleWindow: `window.switch_mode_request()` is polled twice. The model assumes it returns the same answer both times.
- Version.ScanInt: a `%d` whose digits overflow `int` is undefined behaviour in C. The model reads the full decimal value and stores it modulo 2^32.
- Concurrency between CPU and GPU, fences and semaphores is not modelled.
