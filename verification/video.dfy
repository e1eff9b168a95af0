/** Model of the `Zeni::Video` facade (include/Zeni/Video.hxx).

    The facade caches render settings and forwards every operation to the
    backend its mode tag selects: `GL` to the OpenGL implementation, `DX9`
    to the Direct3D 9 one, and any other tag aborts the process. Backends,
    cameras, the texture registry and renderables are collaborators whose
    code is not part of this model: what the facade sends them is the
    ordered list of events an operation emits, and what they answer is a
    parameter (`Env`). */
module Video {
  import opened Matrix

  /** `Video_Base::VIDEO_MODE`. `ANY` is the uninitialised tag. */
  datatype VideoMode = GL | DX9 | ANY

  /** The backend class a forwarded call reaches. */
  datatype Backend = VideoGL | VideoDX9

  datatype Point2i = Point2i(x: int, y: int)
  datatype Point2f = Point2f(x: real, y: real)
  datatype Vector3f = Vector3f(x: real, y: real, z: real)
  datatype Color = Color(r: real, g: real, b: real, a: real)

  /** A viewport: top-left and bottom-right pixel corners. */
  datatype Viewport = Viewport(topLeft: Point2i, bottomRight: Point2i)

  /** A 2D camera: the world-space rectangle shown on screen. */
  datatype Camera2d = Camera2d(topLeft: Point2f, bottomRight: Point2f)

  /** The alpha-test comparison (`Video::TEST`, declared outside this model). */
  datatype AlphaTest = AlphaTest(code: nat)

  /** Handles to collaborators whose contents do not matter here: cameras,
      renderables, textures, lights, materials, fog, shaders, surfaces. */
  datatype Camera = Camera(id: nat)
  datatype Renderable = Renderable(id: nat)
  datatype Handle = Handle(id: nat)

  /** The `*_impl` member functions a backend implements. */
  datatype Call =
    | RenderImpl(renderable: Renderable)
    | GetMaximumAnisotropyImpl
    | HasVertexBuffersImpl
    | Set2dViewImpl(camera2d: Camera2d, viewport: Viewport)
    | Set3dViewImpl(camera: Camera, viewport: Viewport)
    | SetBackfaceCullingImpl(on: bool)
    | SetVerticalSyncImpl(on: bool)
    | SetZwriteImpl(enabled: bool)
    | SetZtestImpl(enabled: bool)
    | SetAlphaTestImpl(enabled: bool, test: AlphaTest, value: real)
    | SetColorImpl(color: Color)
    | SetClearColorImpl(color: Color)
    | ApplyTextureIdImpl(id: nat)
    | ApplyTextureImpl(texture: Handle)
    | UnapplyTextureImpl
    | SetLightingImpl(on: bool)
    | SetAmbientLightingImpl(color: Color)
    | SetLightImpl(number: int, light: Handle)
    | UnsetLightImpl(number: int)
    | SetMaterialImpl(material: Handle)
    | UnsetMaterialImpl(material: Handle)
    | SetFogImpl(fog: Handle)
    | UnsetFogImpl
    | SetVertexShaderImpl(shader: Handle)
    | SetFragmentShaderImpl(shader: Handle)
    | UnsetVertexShaderImpl(shader: Handle)
    | UnsetFragmentShaderImpl(shader: Handle)
    | SetRenderTargetImpl(texture: Handle)
    | UnsetRenderTargetImpl
    | ClearRenderTargetImpl(color: Color)
    | GetRenderTargetSizeImpl
    | SelectWorldMatrixImpl
    | PushWorldStackImpl
    | PopWorldStackImpl
    | TranslateSceneImpl(direction: Vector3f)
    | RotateSceneImpl(about: Vector3f, radians: real)
    | ScaleSceneImpl(factor: Vector3f)
    | TransformSceneImpl(transformation: Matrix4)
    | GetPixelOffsetImpl
    | SetViewMatrixImpl(view: Matrix4)
    | SetProjectionMatrixImpl(projection: Matrix4)
    | SetViewportImpl(viewport: Viewport)
    | LoadTextureImpl(filename: string, repeat: bool, lazyLoading: bool)
    | CreateTextureFromSurfaceImpl(surface: Handle, repeat: bool)
    | CreateTextureImpl(size: Point2i, repeat: bool)
    | CreateFontImpl(filename: string, bold: bool, italic: bool, glyphHeight: real, virtualScreenHeight: real)
    | CreateVertexBufferImpl
    | InitializeShaderSystemImpl(shaderSystem: Handle)
    | InitializeVertexShaderImpl(shader: Handle, filename: string, entryFunction: string)
    | InitializeFragmentShaderImpl(shader: Handle, filename: string, entryFunction: string)
    | UninitImpl

  /** What the outside world sees, in order. */
  datatype Event =
    | Forwarded(backend: Backend, call: Call)
    | PreRender(renderable: Renderable)
    | PostRender(renderable: Renderable)

  /** The facade's state: the cached settings its getters return. */
  datatype VideoState = VideoState(
    mode: VideoMode,
    screenSize: Point2i,
    backfaceCulling: bool,
    lighting: bool,
    verticalSync: bool,
    zwrite: bool,
    ztest: bool,
    alphaTest: bool,
    alphaFunction: AlphaTest,
    alphaValue: real,
    color: Color,
    clearColor: Color,
    view: Matrix4,
    projection: Matrix4,
    viewport: Viewport,
    hasDisplaySurface: bool,
    initialized: bool)

  /** How an operation ended: it returned, the process aborted on the `ANY`
      tag, or an exception from the backend propagated to the caller. */
  datatype Status = Returned | Aborted | Threw

  /** The facade's state after an operation, the events it emitted, and how
      it ended. */
  datatype Run = Run(video: VideoState, out: seq<Event>, status: Status)

  /** The answers of the collaborators: the backends' pixel offsets and
      whether their `render_impl` throws, the texture registry's ids, the
      camera's matrices, `Matrix4f::Orthographic`, and the 2D near and far
      planes `ZENI_2D_NEAR` and `ZENI_2D_FAR`. */
  datatype Env = Env(
    pixelOffset: Backend -> Point2f,
    renderThrows: (Backend, Renderable) -> bool,
    textureId: string -> nat,
    cameraView: Camera -> Matrix4,
    cameraProjection: (Camera, Viewport) -> Matrix4,
    orthographic: (real, real, real, real, real, real) -> Matrix4,
    near2d: real,
    far2d: real)

  /** Whether tag `mode` selects `backend`. */
  predicate Selects(mode: VideoMode, backend: Backend) {
    (mode == GL && backend == VideoGL) || (mode == DX9 && backend == VideoDX9)
  }

  function BackendOf(mode: VideoMode): (b: Backend)
    requires mode != ANY
    ensures Selects(mode, b)
  {
    if mode == GL then VideoGL else VideoDX9
  }

  /** `VIDEO_IV_FCN_CALL`: switch on the tag and call the selected
      backend's implementation, or abort. */
  function Forward(v: VideoState, call: Call): (r: Run)
    ensures r.video == v
    ensures v.mode == ANY ==> r.out == [] && r.status == Aborted
    ensures v.mode != ANY ==> r.out == [Forwarded(BackendOf(v.mode), call)] && r.status == Returned
  {
    match v.mode
    case GL => Run(v, [Forwarded(VideoGL, call)], Returned)
    case DX9 => Run(v, [Forwarded(VideoDX9, call)], Returned)
    case ANY => Run(v, [], Aborted)
  }

  /** What a single forward of `call` emits and how it ends: nothing and an
      abort on the `ANY` tag, otherwise exactly one call to the selected
      backend, which returns. */
  predicate ForwardsOnly(v: VideoState, r: Run, call: Call) {
    && (v.mode == ANY ==> r.out == [] && r.status == Aborted)
    && (v.mode != ANY ==> r.out == [Forwarded(BackendOf(v.mode), call)] && r.status == Returned)
  }

  // ---------------------------------------------------------------------
  // Caching setters: each stores its argument, then forwards. The cache is
  // written before the forward, so even an aborted run carries it.

  function SetBackfaceCulling(v: VideoState, on: bool): (r: Run)
    ensures r.video == v.(backfaceCulling := on)
    ensures ForwardsOnly(v, r, SetBackfaceCullingImpl(on))
  {
    Forward(v.(backfaceCulling := on), SetBackfaceCullingImpl(on))
  }

  function SetVerticalSync(v: VideoState, on: bool): (r: Run)
    ensures r.video == v.(verticalSync := on)
    ensures ForwardsOnly(v, r, SetVerticalSyncImpl(on))
  {
    Forward(v.(verticalSync := on), SetVerticalSyncImpl(on))
  }

  function SetZwrite(v: VideoState, enabled: bool): (r: Run)
    ensures r.video == v.(zwrite := enabled)
    ensures ForwardsOnly(v, r, SetZwriteImpl(enabled))
  {
    Forward(v.(zwrite := enabled), SetZwriteImpl(enabled))
  }

  function SetZtest(v: VideoState, enabled: bool): (r: Run)
    ensures r.video == v.(ztest := enabled)
    ensures ForwardsOnly(v, r, SetZtestImpl(enabled))
  {
    Forward(v.(ztest := enabled), SetZtestImpl(enabled))
  }

  function SetAlphaTest(v: VideoState, enabled: bool, test: AlphaTest, value: real): (r: Run)
    ensures r.video == v.(alphaTest := enabled, alphaFunction := test, alphaValue := value)
    ensures ForwardsOnly(v, r, SetAlphaTestImpl(enabled, test, value))
  {
    Forward(v.(alphaTest := enabled, alphaFunction := test, alphaValue := value),
            SetAlphaTestImpl(enabled, test, value))
  }

  function SetColor(v: VideoState, color: Color): (r: Run)
    ensures r.video == v.(color := color)
    ensures ForwardsOnly(v, r, SetColorImpl(color))
  {
    Forward(v.(color := color), SetColorImpl(color))
  }

  function SetClearColor(v: VideoState, color: Color): (r: Run)
    ensures r.video == v.(clearColor := color)
    ensures ForwardsOnly(v, r, SetClearColorImpl(color))
  {
    Forward(v.(clearColor := color), SetClearColorImpl(color))
  }

  function SetLighting(v: VideoState, on: bool): (r: Run)
    ensures r.video == v.(lighting := on)
    ensures ForwardsOnly(v, r, SetLightingImpl(on))
  {
    Forward(v.(lighting := on), SetLightingImpl(on))
  }

  function SetViewMatrix(v: VideoState, view: Matrix4): (r: Run)
    ensures r.video == v.(view := view)
    ensures ForwardsOnly(v, r, SetViewMatrixImpl(view))
  {
    Forward(v.(view := view), SetViewMatrixImpl(view))
  }

  function SetProjectionMatrix(v: VideoState, projection: Matrix4): (r: Run)
    ensures r.video == v.(projection := projection)
    ensures ForwardsOnly(v, r, SetProjectionMatrixImpl(projection))
  {
    Forward(v.(projection := projection), SetProjectionMatrixImpl(projection))
  }

  function SetViewport(v: VideoState, viewport: Viewport): (r: Run)
    ensures r.video == v.(viewport := viewport)
    ensures ForwardsOnly(v, r, SetViewportImpl(viewport))
  {
    Forward(v.(viewport := viewport), SetViewportImpl(viewport))
  }

  // ---------------------------------------------------------------------
  // Rendering, views, textures and teardown.

  /** `render`: `pre_render`, the backend's `render_impl`, then `post_render`
      from the guard's destructor, which also runs when `render_impl`
      throws. `abort()` on the `ANY` tag runs no destructor. */
  function Render(v: VideoState, env: Env, renderable: Renderable): (r: Run)
    ensures r.video == v
    ensures v.mode == ANY ==> r.out == [PreRender(renderable)] && r.status == Aborted
    ensures v.mode != ANY ==>
      && r.out == [PreRender(renderable), Forwarded(BackendOf(v.mode), RenderImpl(renderable)), PostRender(renderable)]
      && (r.status == Threw <==> env.renderThrows(BackendOf(v.mode), renderable))
      && r.status != Aborted
  {
    var called := Forward(v, RenderImpl(renderable));
    if called.status == Aborted then Run(v, [PreRender(renderable)] + called.out, Aborted)
    else
      var status := if env.renderThrows(BackendOf(v.mode), renderable) then Threw else Returned;
      Run(v, [PreRender(renderable)] + called.out + [PostRender(renderable)], status)
  }

  /** Sequencing: `next` is the run of the following step, started from the
      state `first` leaves; it happens only if `first` returned normally. */
  function AndThen(first: Run, next: Run): Run {
    if first.status != Returned then first
    else Run(next.video, first.out + next.out, next.status)
  }

  /** `get_pixel_offset`: asks the selected backend. */
  function GetPixelOffset(v: VideoState, env: Env): (r: (Run, Point2f))
    ensures r.0 == Forward(v, GetPixelOffsetImpl)
    ensures v.mode != ANY ==> r.1 == env.pixelOffset(BackendOf(v.mode))
  {
    var r := Forward(v, GetPixelOffsetImpl);
    if r.status == Aborted then (r, Point2f(0.0, 0.0))
    else (r, env.pixelOffset(BackendOf(v.mode)))
  }

  /** The orthographic projection `set_2d_view` builds for `camera2d`,
      shifted by the backend's pixel offset. */
  function Projection2d(env: Env, camera2d: Camera2d, offset: Point2f): Matrix4 {
    env.orthographic(camera2d.topLeft.x + offset.x, camera2d.bottomRight.x + offset.x,
                     camera2d.bottomRight.y + offset.y, camera2d.topLeft.y + offset.y,
                     env.near2d, env.far2d)
  }

  /** `set_2d_view`: caches the identity view, asks for the pixel offset,
      caches the offset orthographic projection, caches the viewport, and
      only then forwards. On the `ANY` tag the first forward aborts, after
      the view alone has been cached. */
  function Set2dView(v: VideoState, env: Env, camera2d: Camera2d, viewport: Viewport): (r: Run)
    ensures v.mode == ANY ==> r == Run(v.(view := Identity()), [], Aborted)
    ensures v.mode != ANY ==>
      var b := BackendOf(v.mode);
      var projection := Projection2d(env, camera2d, env.pixelOffset(b));
      && r.status == Returned
      && r.video == v.(view := Identity(), projection := projection, viewport := viewport)
      && r.out == [Forwarded(b, SetViewMatrixImpl(Identity())),
                   Forwarded(b, GetPixelOffsetImpl),
                   Forwarded(b, SetProjectionMatrixImpl(projection)),
                   Forwarded(b, SetViewportImpl(viewport)),
                   Forwarded(b, Set2dViewImpl(camera2d, viewport))]
  {
    var r1 := SetViewMatrix(v, Identity());
    var (r2, offset) := GetPixelOffset(r1.video, env);
    var r3 := SetProjectionMatrix(r2.video, Projection2d(env, camera2d, offset));
    var r4 := SetViewport(r3.video, viewport);
    var r5 := Forward(r4.video, Set2dViewImpl(camera2d, viewport));
    AndThen(r1, AndThen(r2, AndThen(r3, AndThen(r4, r5))))
  }

  /** `set_3d_view`: caches the camera's view matrix, then its projection
      for `viewport`, then the viewport, and only then forwards. */
  function Set3dView(v: VideoState, env: Env, camera: Camera, viewport: Viewport): (r: Run)
    ensures v.mode == ANY ==> r == Run(v.(view := env.cameraView(camera)), [], Aborted)
    ensures v.mode != ANY ==>
      var b := BackendOf(v.mode);
      var view := env.cameraView(camera);
      var projection := env.cameraProjection(camera, viewport);
      && r.status == Returned
      && r.video == v.(view := view, projection := projection, viewport := viewport)
      && r.out == [Forwarded(b, SetViewMatrixImpl(view)),
                   Forwarded(b, SetProjectionMatrixImpl(projection)),
                   Forwarded(b, SetViewportImpl(viewport)),
                   Forwarded(b, Set3dViewImpl(camera, viewport))]
  {
    var r1 := SetViewMatrix(v, env.cameraView(camera));
    var r2 := SetProjectionMatrix(r1.video, env.cameraProjection(camera, viewport));
    var r3 := SetViewport(r2.video, viewport);
    var r4 := Forward(r3.video, Set3dViewImpl(camera, viewport));
    AndThen(r1, AndThen(r2, AndThen(r3, r4)))
  }

  /** The whole screen: (0,0) to (screen width, screen height). */
  function ScreenViewport(v: VideoState): Viewport {
    Viewport(Point2i(0, 0), v.screenSize)
  }

  /** `set_2d()`: the camera shows the screen in pixels. */
  function Set2d(v: VideoState, env: Env): (r: Run)
    ensures v.mode == ANY ==> r == Run(v.(view := Identity()), [], Aborted)
    ensures v.mode != ANY ==>
      var b := BackendOf(v.mode);
      var camera2d := Camera2d(Point2f(0.0, 0.0), Point2f(v.screenSize.x as real, v.screenSize.y as real));
      var screen := Viewport(Point2i(0, 0), Point2i(v.screenSize.x, v.screenSize.y));
      var projection := Projection2d(env, camera2d, env.pixelOffset(b));
      && r.status == Returned
      && r.video == v.(view := Identity(), projection := projection, viewport := screen)
      && |r.out| == 5
      && r.out[4] == Forwarded(b, Set2dViewImpl(camera2d, screen))
  {
    Set2dView(v, env, Camera2d(Point2f(0.0, 0.0), Point2f(v.screenSize.x as real, v.screenSize.y as real)),
              ScreenViewport(v))
  }

  /** `set_2d(camera2d)`: the given camera over the whole screen. */
  function Set2dCamera(v: VideoState, env: Env, camera2d: Camera2d): (r: Run)
    ensures v.mode == ANY ==> r == Run(v.(view := Identity()), [], Aborted)
    ensures v.mode != ANY ==>
      var b := BackendOf(v.mode);
      var screen := Viewport(Point2i(0, 0), Point2i(v.screenSize.x, v.screenSize.y));
      var projection := Projection2d(env, camera2d, env.pixelOffset(b));
      && r.status == Returned
      && r.video == v.(view := Identity(), projection := projection, viewport := screen)
      && |r.out| == 5
      && r.out[4] == Forwarded(b, Set2dViewImpl(camera2d, screen))
  {
    Set2dView(v, env, camera2d, ScreenViewport(v))
  }

  /** `set_3d(camera)`: the given camera over the whole screen. */
  function Set3d(v: VideoState, env: Env, camera: Camera): (r: Run)
    ensures v.mode == ANY ==> r == Run(v.(view := env.cameraView(camera)), [], Aborted)
    ensures v.mode != ANY ==>
      var b := BackendOf(v.mode);
      var screen := Viewport(Point2i(0, 0), Point2i(v.screenSize.x, v.screenSize.y));
      var projection := env.cameraProjection(camera, screen);
      && r.status == Returned
      && r.video == v.(view := env.cameraView(camera), projection := projection, viewport := screen)
      && |r.out| == 4
      && r.out[3] == Forwarded(b, Set3dViewImpl(camera, screen))
  {
    Set3dView(v, env, camera, ScreenViewport(v))
  }

  /** `apply_texture(name)`: looks the id up in the texture registry. */
  function ApplyTextureByName(v: VideoState, env: Env, name: string): (r: Run)
    ensures r.video == v
    ensures ForwardsOnly(v, r, ApplyTextureIdImpl(env.textureId(name)))
  {
    Forward(v, ApplyTextureIdImpl(env.textureId(name)))
  }

  /** `uninit`: frees and forgets the display surface, clears the
      initialised flag, then forwards. The mode tag is left as it was. */
  function Uninit(v: VideoState): (r: Run)
    ensures !r.video.initialized && !r.video.hasDisplaySurface
    ensures r.video == v.(hasDisplaySurface := false, initialized := false)
    ensures ForwardsOnly(v, r, UninitImpl)
  {
    Forward(v.(hasDisplaySurface := false, initialized := false), UninitImpl)
  }

  // ---------------------------------------------------------------------
  // Every facade operation, and the routing discipline they share.

  /** The members of the facade. `PassThrough` stands for every member
      whose whole body is a forward of its own arguments. */
  datatype Op =
    | SetBackfaceCullingOp(on: bool)
    | SetVerticalSyncOp(on: bool)
    | SetZwriteOp(enabled: bool)
    | SetZtestOp(enabled: bool)
    | SetAlphaTestOp(enabled: bool, test: AlphaTest, value: real)
    | SetColorOp(color: Color)
    | SetClearColorOp(color: Color)
    | SetLightingOp(on: bool)
    | SetViewMatrixOp(view: Matrix4)
    | SetProjectionMatrixOp(projection: Matrix4)
    | SetViewportOp(viewport: Viewport)
    | RenderOp(renderable: Renderable)
    | GetPixelOffsetOp
    | Set2dOp
    | Set2dCameraOp(camera2d: Camera2d)
    | Set3dOp(camera: Camera)
    | Set2dViewOp(camera2d: Camera2d, viewport: Viewport)
    | Set3dViewOp(camera: Camera, viewport: Viewport)
    | ApplyTextureByNameOp(name: string)
    | UninitOp
    | PassThrough(call: Call)

  function Apply(v: VideoState, env: Env, op: Op): Run {
    match op
    case SetBackfaceCullingOp(on) => SetBackfaceCulling(v, on)
    case SetVerticalSyncOp(on) => SetVerticalSync(v, on)
    case SetZwriteOp(enabled) => SetZwrite(v, enabled)
    case SetZtestOp(enabled) => SetZtest(v, enabled)
    case SetAlphaTestOp(enabled, test, value) => SetAlphaTest(v, enabled, test, value)
    case SetColorOp(color) => SetColor(v, color)
    case SetClearColorOp(color) => SetClearColor(v, color)
    case SetLightingOp(on) => SetLighting(v, on)
    case SetViewMatrixOp(view) => SetViewMatrix(v, view)
    case SetProjectionMatrixOp(projection) => SetProjectionMatrix(v, projection)
    case SetViewportOp(viewport) => SetViewport(v, viewport)
    case RenderOp(renderable) => Render(v, env, renderable)
    case GetPixelOffsetOp => GetPixelOffset(v, env).0
    case Set2dOp => Set2d(v, env)
    case Set2dCameraOp(camera2d) => Set2dCamera(v, env, camera2d)
    case Set3dOp(camera) => Set3d(v, env, camera)
    case Set2dViewOp(camera2d, viewport) => Set2dView(v, env, camera2d, viewport)
    case Set3dViewOp(camera, viewport) => Set3dView(v, env, camera, viewport)
    case ApplyTextureByNameOp(name) => ApplyTextureByName(v, env, name)
    case UninitOp => Uninit(v)
    case PassThrough(call) => Forward(v, call)
  }

  /** Every forwarded event in `out` reaches a backend `mode` selects. */
  predicate RoutedBy(mode: VideoMode, out: seq<Event>) {
    forall i :: 0 <= i < |out| && out[i].Forwarded? ==> Selects(mode, out[i].backend)
  }

  /** The facts every facade operation keeps, whatever it does. */
  predicate Disciplined(v: VideoState, r: Run) {
    && r.video.mode == v.mode
    && RoutedBy(v.mode, r.out)
    && (r.status == Aborted <==> v.mode == ANY)
  }

  lemma ForwardDisciplined(v: VideoState, w: VideoState, call: Call)
    requires w.mode == v.mode
    ensures Disciplined(v, Forward(w, call))
  {
  }

  /** The setters: each caches its argument and forwards it. */
  predicate IsSetter(op: Op) {
    || op.SetBackfaceCullingOp? || op.SetVerticalSyncOp? || op.SetZwriteOp? || op.SetZtestOp?
    || op.SetAlphaTestOp? || op.SetColorOp? || op.SetClearColorOp? || op.SetLightingOp?
    || op.SetViewMatrixOp? || op.SetProjectionMatrixOp? || op.SetViewportOp?
  }

  lemma {:induction false} SettersDisciplined(v: VideoState, env: Env, op: Op)
    requires IsSetter(op)
    ensures Disciplined(v, Apply(v, env, op))
  {
    match op {
      case SetBackfaceCullingOp(on) =>
        ForwardDisciplined(v, v.(backfaceCulling := on), SetBackfaceCullingImpl(on));
      case SetVerticalSyncOp(on) =>
        ForwardDisciplined(v, v.(verticalSync := on), SetVerticalSyncImpl(on));
      case SetZwriteOp(enabled) =>
        ForwardDisciplined(v, v.(zwrite := enabled), SetZwriteImpl(enabled));
      case SetZtestOp(enabled) =>
        ForwardDisciplined(v, v.(ztest := enabled), SetZtestImpl(enabled));
      case SetAlphaTestOp(enabled, test, value) =>
        ForwardDisciplined(v, v.(alphaTest := enabled, alphaFunction := test, alphaValue := value),
                           SetAlphaTestImpl(enabled, test, value));
      case SetColorOp(color) =>
        ForwardDisciplined(v, v.(color := color), SetColorImpl(color));
      case SetClearColorOp(color) =>
        ForwardDisciplined(v, v.(clearColor := color), SetClearColorImpl(color));
      case SetLightingOp(on) =>
        ForwardDisciplined(v, v.(lighting := on), SetLightingImpl(on));
      case SetViewMatrixOp(view) =>
        ForwardDisciplined(v, v.(view := view), SetViewMatrixImpl(view));
      case SetProjectionMatrixOp(projection) =>
        ForwardDisciplined(v, v.(projection := projection), SetProjectionMatrixImpl(projection));
      case SetViewportOp(viewport) =>
        ForwardDisciplined(v, v.(viewport := viewport), SetViewportImpl(viewport));
    }
  }

  lemma RenderDisciplined(v: VideoState, env: Env, renderable: Renderable)
    ensures Disciplined(v, Render(v, env, renderable))
  {
  }

  lemma Set2dViewDisciplined(v: VideoState, env: Env, camera2d: Camera2d, viewport: Viewport)
    ensures Disciplined(v, Set2dView(v, env, camera2d, viewport))
  {
  }

  lemma Set3dViewDisciplined(v: VideoState, env: Env, camera: Camera, viewport: Viewport)
    ensures Disciplined(v, Set3dView(v, env, camera, viewport))
  {
  }

  /** Every call an operation forwards reaches the backend the tag selects
      and no other; the tag itself never changes; under `ANY` the process
      aborts, and otherwise it never does. */
  lemma {:induction false} RoutedToSelectedBackend(v: VideoState, env: Env, op: Op)
    ensures Disciplined(v, Apply(v, env, op))
  {
    if IsSetter(op) {
      SettersDisciplined(v, env, op);
    } else {
      match op {
        case RenderOp(renderable) =>
          RenderDisciplined(v, env, renderable);
        case GetPixelOffsetOp =>
          ForwardDisciplined(v, v, GetPixelOffsetImpl);
        case Set2dOp =>
          Set2dViewDisciplined(v, env, Camera2d(Point2f(0.0, 0.0), Point2f(v.screenSize.x as real, v.screenSize.y as real)),
                               ScreenViewport(v));
        case Set2dCameraOp(camera2d) =>
          Set2dViewDisciplined(v, env, camera2d, ScreenViewport(v));
        case Set3dOp(camera) =>
          Set3dViewDisciplined(v, env, camera, ScreenViewport(v));
        case Set2dViewOp(camera2d, viewport) =>
          Set2dViewDisciplined(v, env, camera2d, viewport);
        case Set3dViewOp(camera, viewport) =>
          Set3dViewDisciplined(v, env, camera, viewport);
        case ApplyTextureByNameOp(name) =>
          ForwardDisciplined(v, v, ApplyTextureIdImpl(env.textureId(name)));
        case UninitOp =>
          ForwardDisciplined(v, v.(hasDisplaySurface := false, initialized := false), UninitImpl);
        case PassThrough(call) =>
          ForwardDisciplined(v, v, call);
        case _ =>
      }
    }
  }
}
