# zenilib core, modelled in Dafny

This project models four pieces of the zenilib game engine and proves
properties of them.

- **The game-state stack** (`Zeni::Game`, module `GameStack`, `game.dfy`).
  It is a LIFO stack of gamestates. The top state receives events, logic
  ticks and render calls. Addressing an empty stack throws `Zero_Gamestate`.
- **The video facade** (`Zeni::Video`, module `Video`, `video.dfy`).
  - It caches render settings that its getters return.
  - It forwards every operation to the backend its mode tag selects: OpenGL or Direct3D 9.
  - The `ANY` tag aborts the process.
  - `render` wraps the backend call between the renderable's `pre_render` and `post_render`.
  - `set_2d_view` and `set_3d_view` cache the view, projection and viewport before they forward.
- **The 4×4 matrix** (`Zeni::Matrix4f`, module `Matrix`, `matrix4f.dfy`).
  It covers:
  - row-major construction;
  - in-place and copying transposition;
  - the 24-term determinant;
  - inversion, which always throws.
- **Joystick slot bookkeeping** (`Zeni::Joysticks`, module `Joysticks`,
  `joysticks.dfy`). It covers:
  - the id-to-index search;
  - the slot `poll` chooses for each device it opens: the device's existing slot, else the last detached slot, else a new one at the end;
  - the `set_vibration` guard;
  - `uninit` clearing the array and `reinit` restarting the subsystem, as built without `ANDROID`.

`results.dfy` holds the `Result` and `Option` types shared by the modules. A
C++ `throw` becomes a `Failure` carrying the exception's kind.

Modelling choices:
- Stacks and arrays are sequences. The last element of the game stack is its top.
- Collaborators whose code is not part of this model appear as parameters:
  - a gamestate's effect on the stack while it runs, and whether it throws;
  - what a backend answers;
  - cameras, the texture registry and `Matrix4f::Orthographic`;
  - what SDL reports about a joystick.
- A video operation returns a `Run`, which holds three things:
  - the facade's new state;
  - the ordered events the outside world sees (forwarded backend calls, `pre_render`, `post_render`);
  - whether the call returned, threw or aborted.
- Floats are modelled as `real`.

## Model

| member | source | states |
|---|---|---|
| GameStack.GetCurrentState | zenilib/include/Zeni/Game.hxx:40-45 | throws `Zero_Gamestate` exactly when the stack is empty, otherwise yields the top |
| GameStack.PushState | zenilib/include/Zeni/Game.hxx:51-53 | size grows by one, the pushed state becomes the current state, the states below are unchanged |
| GameStack.PopState | zenilib/include/Zeni/Game.hxx:55-67 | on an empty stack throws `Zero_Gamestate` and leaves the game untouched; otherwise returns the old current state and leaves the stack minus its top |
| GameStack.PushPopInverse | zenilib/include/Zeni/Game.hxx:51-67 | popping right after a push returns the pushed state and restores the game; pushing back the popped top restores the game |
| GameStack.PushAllAppends | zenilib/include/Zeni/Game.hxx:51-53 | a sequence of pushes appends the states in order and touches nothing else |
| GameStack.PopManyAfterPushAll | zenilib/include/Zeni/Game.hxx:51-67 | pushing `xs` and then popping as many times as `xs` has states yields `xs` in reverse order and restores the original game |
| GameStack.Size | zenilib/include/Zeni/Game.hxx:47-49 | the number of states on the stack |
| GameStack.PushThreePopFour | zenilib/include/Zeni/Game.hxx:55-67 | push A, B, C on an empty game; three pops give C, B, A; a fourth pop throws `Zero_Gamestate` |
| GameStack.HandleEvent | zenilib/include/Zeni/Game.hxx:69-80 | throws `Zero_Gamestate` on an empty stack and changes nothing; otherwise the event goes to the top as it was before the call, the stack is what that state leaves, and the call returns exactly when the state did not throw, else the state's exception reaches the caller; frame statistics are untouched |
| GameStack.Logic | zenilib/include/Zeni/Game.hxx:82-93 | throws `Zero_Gamestate` on an empty stack and changes nothing; otherwise the logic tick goes to the top as it was before the call, the stack is what that state leaves, and the state's exception, if any, reaches the caller |
| GameStack.RenderTop | zenilib/include/Zeni/Game.hxx:95-110 | throws `Zero_Gamestate` on an empty stack without updating frame statistics; otherwise renders the snapshot top; the statistics are updated exactly once when the state's `render` returns, and not at all when it throws, in which case the exception reaches the caller |
| GameStack.PushDuringEventTargetsOldTop | zenilib/include/Zeni/Game.hxx:69-80 | a state that pushes another and then throws during `on_event` was still the one called; the pushed state is the new top and the exception reaches the caller |
| Video.BackendOf | include/Zeni/Video.hxx:189-207 | the `GL` tag selects the OpenGL backend and `DX9` the Direct3D 9 backend |
| Video.Forward | include/Zeni/Video.hxx:189-207 | a forward sends exactly one call to the backend the tag selects; under `ANY` it sends nothing and aborts; it never changes the facade's state |
| Video.SetBackfaceCulling | include/Zeni/Video.hxx:295-299 | the culling flag takes the argument and no other setting changes; then exactly one call, the backend's own `_impl` with the same arguments, goes to the selected backend and returns; under `ANY` nothing is sent and the process aborts, with the setting already cached |
| Video.SetVerticalSync | include/Zeni/Video.hxx:301-305 | the vertical-sync flag takes the argument and no other setting changes; then exactly one call, the backend's own `_impl` with the same arguments, goes to the selected backend and returns; under `ANY` nothing is sent and the process aborts, with the setting already cached |
| Video.SetZwrite | include/Zeni/Video.hxx:307-311 | `is_zwrite_enabled` afterwards returns the argument; no other setting changes; then exactly one call, the backend's own `_impl` with the same arguments, goes to the selected backend and returns; under `ANY` nothing is sent and the process aborts, with the setting already cached |
| Video.SetZtest | include/Zeni/Video.hxx:313-317 | `is_ztest_enabled` afterwards returns the argument; no other setting changes; then exactly one call, the backend's own `_impl` with the same arguments, goes to the selected backend and returns; under `ANY` nothing is sent and the process aborts, with the setting already cached |
| Video.SetAlphaTest | include/Zeni/Video.hxx:319-327 | the three alpha-test getters return the three arguments; no other setting changes; then exactly one call, the backend's own `_impl` with the same arguments, goes to the selected backend and returns; under `ANY` nothing is sent and the process aborts, with the setting already cached |
| Video.SetColor | include/Zeni/Video.hxx:329-333 | `get_color` afterwards returns the argument; no other setting changes; then exactly one call, the backend's own `_impl` with the same arguments, goes to the selected backend and returns; under `ANY` nothing is sent and the process aborts, with the setting already cached |
| Video.SetClearColor | include/Zeni/Video.hxx:335-339 | `get_clear_color` afterwards returns the argument; no other setting changes; then exactly one call, the backend's own `_impl` with the same arguments, goes to the selected backend and returns; under `ANY` nothing is sent and the process aborts, with the setting already cached |
| Video.SetLighting | include/Zeni/Video.hxx:353-357 | the lighting flag takes the argument and no other setting changes; then exactly one call, the backend's own `_impl` with the same arguments, goes to the selected backend and returns; under `ANY` nothing is sent and the process aborts, with the setting already cached |
| Video.SetViewMatrix | include/Zeni/Video.hxx:453-457 | the cached view matrix takes the argument and no other setting changes; then exactly one call, the backend's own `_impl` with the same arguments, goes to the selected backend and returns; under `ANY` nothing is sent and the process aborts, with the setting already cached |
| Video.SetProjectionMatrix | include/Zeni/Video.hxx:459-463 | the cached projection takes the argument and no other setting changes; then exactly one call, the backend's own `_impl` with the same arguments, goes to the selected backend and returns; under `ANY` nothing is sent and the process aborts, with the setting already cached |
| Video.SetViewport | include/Zeni/Video.hxx:465-469 | the cached viewport takes the argument and no other setting changes; then exactly one call, the backend's own `_impl` with the same arguments, goes to the selected backend and returns; under `ANY` nothing is sent and the process aborts, with the setting already cached |
| Video.ForwardsOnly | include/Zeni/Video.hxx:189-207 | what one forward emits: a single call to the selected backend that returns, or nothing and an abort under `ANY` |
| Video.Render | include/Zeni/Video.hxx:236-255 | `pre_render`, the backend's `render_impl`, then `post_render`, in that order; `post_render` runs even when the backend throws, and the throw reaches the caller; under `ANY` only `pre_render` happens before the abort |
| Video.GetPixelOffset | include/Zeni/Video.hxx:449-451 | the offset is the selected backend's answer and the query is a single forward |
| Video.Set2dView | include/Zeni/Video.hxx:265-281 | caches the identity view, asks for the pixel offset, caches the orthographic projection of the offset camera, caches the viewport, then forwards `set_2d_view_impl`, in that order; under `ANY` only the view is cached before the abort |
| Video.Set3dView | include/Zeni/Video.hxx:283-293 | caches the camera's view, then its projection for the viewport, then the viewport, then forwards `set_3d_view_impl`; under `ANY` only the view is cached before the abort |
| Video.Set2d | include/Zeni/Video.hxx:114-117 | the view becomes the identity, the projection the offset orthographic projection of the screen-sized camera, and the viewport the whole screen, (0,0) to (width, height); the fifth and last call tells the backend to show that camera rectangle in pixels; under `ANY` only the view is cached before the abort |
| Video.Set2dCamera | include/Zeni/Video.hxx:119-122 | the view becomes the identity, the projection the offset orthographic projection of the given camera, and the viewport the whole screen; the fifth and last call forwards that camera and the screen viewport to `set_2d_view_impl`; under `ANY` only the view is cached before the abort |
| Video.Set3d | include/Zeni/Video.hxx:124-127 | the view and projection become the camera's, the projection taken for the whole screen, and the viewport becomes the whole screen; the fourth and last call forwards the camera and the screen viewport to `set_3d_view_impl`; under `ANY` only the camera's view is cached before the abort |
| Video.ApplyTextureByName | include/Zeni/Video.hxx:137-139 | the selected backend receives the id the texture registry gives for the name, in a single call that returns; under `ANY` nothing is sent and the process aborts; the facade's state is unchanged |
| Video.Uninit | include/Zeni/Video.hxx:506-512 | the display surface is gone and the initialised flag is cleared before the backend's `uninit_impl` is called, in a single call (under `ANY`, nothing is sent and the process aborts); the mode tag and every other setting stay as they were |
| Video.SettersDisciplined | include/Zeni/Video.hxx:295-339 | every setter keeps the tag, forwards only to the selected backend, and aborts exactly under `ANY` |
| Video.RoutedToSelectedBackend | include/Zeni/Video.hxx:189-207 | for every facade operation: the tag is unchanged, every forwarded call reaches the backend the tag selects, and the operation aborts exactly when the tag is `ANY` |
| Matrix.FromRowMajor | src/Zeni/Matrix4f.cpp:41-66 | entry (r, c) is the argument at position 4r + c |
| Matrix.ToRowMajor | src/Zeni/Matrix4f.cpp:41-66 | the inverse of the constructor's layout, which the source has no function for: the 16 values, read row by row |
| Matrix.RowMajorRoundTrip | src/Zeni/Matrix4f.cpp:41-66 | the constructor's layout loses nothing: reading a matrix row by row and rebuilding it gives it back, and the other way round |
| Matrix.Make | src/Zeni/Matrix4f.cpp:41-66 | the 16-argument constructor: row r holds the r-th group of four arguments, in order |
| Matrix.Transposed | src/Zeni/Matrix4f.cpp:95-104 | entry (r, c) of the copy is entry (c, r) of the original |
| Matrix.TransposedInvolution | src/Zeni/Matrix4f.cpp:95-104 | transposing twice gives the original matrix |
| Matrix.Transpose | src/Zeni/Matrix4f.cpp:83-93 | the in-place swap over the lower triangle yields exactly the transposed matrix, with the diagonal untouched |
| Matrix.Determinant | src/Zeni/Matrix4f.cpp:106-130 | the 24-term formula with the sign at line 114 corrected equals the Leibniz sum, whose signs are computed from each permutation's parity |
| Matrix.DeterminantAsWritten | src/Zeni/Matrix4f.cpp:106-130 | `determinant()` as written differs from the Leibniz sum by exactly twice `term(0,3,2,1)` |
| Matrix.SignDefectWitness | src/Zeni/Matrix4f.cpp:114 | on the permutation matrix of (0,3,2,1) the formula as written gives +1, while the determinant is -1 |
| Matrix.DeterminantOfIdentity | src/Zeni/Matrix4f.cpp:106-130 | the identity has determinant 1 under both formulas and the Leibniz sum |
| Matrix.Inverted | src/Zeni/Matrix4f.cpp:78-81 | `inverted()` always throws "not implemented" |
| Matrix.Invert | src/Zeni/Matrix4f.cpp:73-76 | `invert()` throws and leaves the receiver as it was |
| Joysticks.JoystickInfo | jni/external/zenilib/zeni_core/Joysticks.cpp:219-228 | a freshly constructed entry has effect id -1 and a zeroed effect |
| Joysticks.NewEntry | jni/external/zenilib/zeni_core/Joysticks.cpp:161-162 | the entry `poll` creates holds the opened joystick, with zero magnitudes; its effect id stays -1 unless the haptic set-up (lines 184-191) produced one |
| Joysticks.IndexOf | jni/external/zenilib/zeni_core/Joysticks.cpp:67-74 | -1 exactly when no slot holds the id; otherwise the smallest slot that holds it |
| Joysticks.GetJoystickIndex | jni/external/zenilib/zeni_core/Joysticks.cpp:67-74 | the linear search returns the smallest matching slot, or -1 exactly when none matches |
| Joysticks.GetNumJoysticks | jni/external/zenilib/zeni_core/Joysticks.cpp:76-78 | the number of slots |
| Joysticks.GetJoystickId | jni/external/zenilib/zeni_core/Joysticks.cpp:63-65 | throws out-of-range exactly when the index is not a slot; otherwise gives that slot's instance id |
| Joysticks.IsJoystickConnected | jni/external/zenilib/zeni_core/Joysticks.cpp:121-123 | true exactly when the slot's joystick is attached |
| Joysticks.IdIndexRoundTrip | jni/external/zenilib/zeni_core/Joysticks.cpp:63-74 | looking up a slot's id and then that id's index lands on the same slot when ids are distinct, and on an earlier slot otherwise |
| Joysticks.LastDetached | jni/external/zenilib/zeni_core/Joysticks.cpp:154-155 | a detached slot with every later slot attached, or -1 |
| Joysticks.ScanForSlot | jni/external/zenilib/zeni_core/Joysticks.cpp:148-159 | the scan loop stops at the first slot with the device's id, and otherwise ends on the last detached slot or at the end; this agrees with the direct slot choice |
| Joysticks.PollDevice | jni/external/zenilib/zeni_core/Joysticks.cpp:148-169 | a device whose id has a slot changes nothing; otherwise it overwrites the last detached slot, or is appended if there is none |
| Joysticks.PollDeviceFrame | jni/external/zenilib/zeni_core/Joysticks.cpp:148-169 | afterwards the device's id has a slot; the array grows by one exactly when the id was absent and no slot was detached; only a detached slot is overwritten; distinct ids stay distinct |
| Joysticks.Poll | jni/external/zenilib/zeni_core/Joysticks.cpp:140-198 | throws `Joystick_Init_Failure` exactly when some device fails to open, and then the array is empty; it adds at most one slot per device |
| Joysticks.PollKeepsAttached | jni/external/zenilib/zeni_core/Joysticks.cpp:148-169 | a successful poll never shrinks the array and never touches a slot that was attached |
| Joysticks.PollKeepsIdsDistinct | jni/external/zenilib/zeni_core/Joysticks.cpp:148-169 | a poll keeps slot ids pairwise distinct |
| Joysticks.PollRecordsDevices | jni/external/zenilib/zeni_core/Joysticks.cpp:140-169 | after a poll of attached devices, every device's id has a slot, provided no detached slot carries a polled id |
| Joysticks.PollOfPresentIsIdentity | jni/external/zenilib/zeni_core/Joysticks.cpp:158-159 | devices whose ids all have slots leave the array unchanged |
| Joysticks.PollTwiceIsPollOnce | jni/external/zenilib/zeni_core/Joysticks.cpp:140-169 | polling the same attached devices a second time changes nothing |
| Joysticks.SetVibration | jni/external/zenilib/zeni_core/Joysticks.cpp:200-217 | only a slot that exists and owns an effect (id > -1) takes the new magnitudes, and the effect is updated exactly then; otherwise nothing changes |
| Joysticks.SetVibrationKeepsSlots | jni/external/zenilib/zeni_core/Joysticks.cpp:200-217 | rumbling never changes which slot an id is found in |
| Joysticks.Uninit | jni/external/zenilib/zeni_core/Joysticks.cpp:280-292 | the array is left empty |
| Joysticks.Reinit | jni/external/zenilib/zeni_core/Joysticks.cpp:125-128 | `uninit` then `init` leaves the array empty, and throws `Joystick_Init_Failure` exactly when SDL's joystick subsystem fails to start (lines 242-243) |

## Left out

- Synchronisation (`Mutex.hxx`) is left out. The model is single-threaded, and the stack has no lock in the code either.
- Shaders (`Shader.cpp`), sound sources and sound buffers are left out. They are outside the four components modelled here.
- Backend bodies (`Video_GL`, `Video_DX9`) are not modelled. Neither are cameras, the texture registry or `Matrix4f::Orthographic`. The facade only forwards to them, so their answers are parameters.
- Backend calls that forward their arguments and nothing else are modelled as one pass-through operation, not one function each. These are the texture, lighting, material, fog, shader, render-target, world-stack, resource-creation and `initialize` members.
- Builds with only one backend compiled in (include/Zeni/Video.hxx:209-233) are not modelled. The model covers the build with both backends.
- Getters of settings whose setters are outside this header are not modelled. These include screen size, multisampling and anisotropy. `get_screen_width`/`get_screen_height` are read from the state's `screenSize`.
- `calculate_fps` is modelled as a counter of its calls. Frame timing needs a clock.
- Matrix.Determinant: computed over `real`, like every matrix operation here. 32-bit float rounding is not modelled.
- Joysticks.SetVibration takes magnitudes already scaled to `Uint16`. The float-to-`Uint16` conversion of `left * 0xFFFF` is not modelled.
- SDL handles, game-controller mapping, the XML configuration read by `init`, haptic set-up and diagnostic output are not modelled. Each entry keeps only its instance id, attached flag, effect id and magnitudes. The effect id `SDL_HapticNewEffect` returns is an input to `poll`.
- When `poll` finds a device's id already in a slot, it does not close the handle it just opened. This handle is not modelled.
- `get_joystick_num_hats` and `get_joystick_num_buttons` query the number of axes (Joysticks.cpp:108, 117), which looks like a copy-paste slip. They return SDL's answer and are not modelled.
- Joysticks.PollRecordsDevices: assumes that no detached slot carries a polled device's id. SDL never reuses instance ids. Without this assumption an unplugged entry with a matching id can be overwritten later in the same poll, and the device ends up without a slot.
- Joysticks.PollTwiceIsPollOnce: assumes, as above, that no detached slot carries a polled device's id, which SDL's never-reused instance ids guarantee.
- Builds with `ANDROID` defined are not modelled. There the bodies of `init` and `uninit` (Joysticks.cpp:241-277, 281-291) are compiled out, so `uninit` keeps the array (Joysticks.Uninit), `poll`'s failure path (lines 144-145) throws with every entry still present, including those added earlier in the same poll (Joysticks.Poll), and `reinit` changes nothing and never throws (Joysticks.Reinit). The model is the build without `ANDROID`.
- Integer widths (`Sint32` indices, `size_t` sizes) are unbounded. The one place where the width matters, a negative index passed to `at`, is modelled as out of range.
- Matrix.Inverted follows the code: `inverted()` always throws (src/Zeni/Matrix4f.cpp:80).
- Video.Render: a `pre_render` that throws is not modelled. The renderable's own code is outside the model. In the code such a throw happens in the guard's constructor, before the switch, so neither the backend nor `post_render` would be called, even under `ANY`.
- Video.Forward: the backends' `_impl` calls other than `render_impl` are taken to return. Their bodies are outside the model.
- `get_opengl_flag`/`set_opengl_flag` (include/Zeni/Video.hxx:149-155) are not modelled. They read and write a stored flag that no facade operation in this header consults.
- `rotate_scene(Quaternion)` (include/Zeni/Video.hxx:157-160) is not modelled. It converts the quaternion to an axis and angle with quaternion code outside the model, then calls the axis-angle overload, a pass-through.
- `uninit` leaves the mode tag as it was, so later calls are still routed to the same backend. The model follows the code (Video.Uninit).

## Findings

| source | as written | input that shows it | evidently intended | confidence | as-written member | corrected member |
|---|---|---|---|---|---|---|
| src/Zeni/Matrix4f.cpp:114 | `+ term(0,3,2,1)` in `determinant()` | the permutation matrix of (0,3,2,1), with rows e0, e3, e2, e1: the formula gives +1 | `- term(0,3,2,1)`, since (0,3,2,1) has three inversions and is odd; the determinant of that matrix is -1 | not executed | Matrix.SignDefectWitness | Matrix.Determinant |
