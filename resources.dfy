/**
 * The resources the render-mode controller owns: heap objects reached through
 * nullable handles (scene, camera, shader, quad, texture), the GLFW
 * library state with its live windows, the outcomes of
 * `initializeOpenGLWindow`, and the null guards of `renderFrameWithOpenGL`.
 */
module Resources {

  /** A nullable owning handle. */
  datatype Option<T> = None | Some(value: T)

  /** The identity of an object or a GLFW window. */
  type Id = nat

  /** The three shader programs the viewer can bind when entering OpenGL mode. */
  datatype ShaderVariant = PlainShader | GrayscaleShader | PixelateShader

  const VERTEX_SOURCE: string := "TextureShader.vert"

  function FragmentSource(v: ShaderVariant): string
  {
    match v
    case PlainShader => "TextureShader.frag"
    case GrayscaleShader => "TextureShaderBW.frag"
    case PixelateShader => "TextureShaderPixelate.frag"
  }

  /** Each variant is a distinct fragment program. */
  lemma FragmentSourcesDistinct(v: ShaderVariant, w: ShaderVariant)
    ensures FragmentSource(v) == FragmentSource(w) <==> v == w
  {
    // The three file names differ in their 14th character.
    assert FragmentSource(PlainShader)[13] == '.';
    assert FragmentSource(GrayscaleShader)[13] == 'B';
    assert FragmentSource(PixelateShader)[13] == 'P';
  }

  /**
   * The variant chosen from the filter flags: grayscale is tested first,
   * then pixelate, so grayscale wins when both are set.
   */
  function ChooseVariant(grayscale: bool, pixelated: bool): (v: ShaderVariant)
    ensures v == GrayscaleShader <==> grayscale
    ensures v == PixelateShader <==> !grayscale && pixelated
    ensures v == PlainShader <==> !grayscale && !pixelated
  {
    if grayscale then GrayscaleShader
    else if pixelated then PixelateShader
    else PlainShader
  }

  /** A heap object of the OpenGL back end, with the bindings the viewer sets on it. */
  datatype Obj =
    | SceneObj(objects: seq<Id>)
    | CameraObj(aspectW: int, aspectH: int)
    | ShaderObj(vertex: string, fragment: string, texture: Option<Id>)
    | QuadObj(aspectW: int, aspectH: int, shader: Option<Id>)
    | TextureObj(cols: int, rows: int)

  /** The live objects, by identity. */
  type Heap = map<Id, Obj>

  /** `delete p`: removes the object `p` names; deleting a null handle does nothing. */
  function Delete(h: Heap, p: Option<Id>): (h': Heap)
    ensures h'.Keys == if p.Some? then h.Keys - {p.value} else h.Keys
    ensures forall id :: id in h' ==> h'[id] == h[id]
  {
    if p.Some? then h - {p.value} else h
  }

  /** The GLFW library: whether it is initialised and which windows are alive. */
  datatype Glfw = Glfw(initialized: bool, windows: set<Id>)

  /** `glfwTerminate`: GLFW destroys every remaining window and is no longer initialised. */
  const TERMINATED: Glfw := Glfw(false, {})

  /** The windowing calls the controller issues, in the order it issues them. */
  datatype LibCall =
    | CvDestroyAllWindows
    | GlfwInit
    | GlfwCreateWindow
    | GlfwMakeContextCurrent
    | GladLoadGl
    | GlfwDestroyWindow(window: Id)
    | GlfwTerminate

  /** The four ways `initializeOpenGLWindow` can end. */
  datatype InitOutcome = GlfwInitFails | WindowCreationFails | GladLoadFails | InitSucceeds

  /** What `initializeOpenGLWindow` leaves behind. */
  datatype WindowInit = WindowInit(glfw: Glfw, window: Option<Id>, calls: seq<LibCall>, nextId: nat)

  /**
   * `initializeOpenGLWindow`, with the library's answers given by `outcome`.
   * A window, when one is created, takes the identity `nextId`. A failed
   * window creation terminates GLFW; a failed GLAD load returns null but
   * leaves the created window alive and GLFW initialised.
   */
  function InitializeWindow(g: Glfw, outcome: InitOutcome, nextId: nat): (r: WindowInit)
    ensures r.window.Some? <==> outcome == InitSucceeds
    ensures r.window.Some? ==> r.window.value == nextId && nextId in r.glfw.windows
    ensures outcome == GlfwInitFails ==> r.glfw == g && r.calls == [GlfwInit] && r.nextId == nextId
    ensures outcome == WindowCreationFails ==> r.glfw == TERMINATED && |r.calls| > 0 && r.calls[|r.calls| - 1] == GlfwTerminate
    ensures outcome == GladLoadFails ==>
              r.glfw.initialized && nextId in r.glfw.windows && GlfwTerminate !in r.calls
    ensures outcome == InitSucceeds ==> r.glfw == Glfw(true, g.windows + {nextId})
    ensures r.nextId >= nextId
    ensures forall w :: w in r.glfw.windows ==> w in g.windows || w == nextId
    ensures forall w :: w in r.glfw.windows ==> w < r.nextId || w in g.windows
  {
    match outcome
    case GlfwInitFails => WindowInit(g, None, [GlfwInit], nextId)
    case WindowCreationFails => WindowInit(TERMINATED, None, [GlfwInit, GlfwCreateWindow, GlfwTerminate], nextId)
    case GladLoadFails =>
      WindowInit(Glfw(true, g.windows + {nextId}), None,
                 [GlfwInit, GlfwCreateWindow, GlfwMakeContextCurrent, GladLoadGl], nextId + 1)
    case InitSucceeds =>
      WindowInit(Glfw(true, g.windows + {nextId}), Some(nextId),
                 [GlfwInit, GlfwCreateWindow, GlfwMakeContextCurrent, GladLoadGl], nextId + 1)
  }

  /** What `renderFrameWithOpenGL` does with one frame. */
  datatype RenderOutcome =
    | SkippedClosing
    | Drawn(textureUpdated: bool, sceneRendered: bool)

  /**
   * The guards of `renderFrameWithOpenGL`: nothing is done for a window that
   * should close; the texture is updated only from a non-empty frame and a
   * non-null texture; the scene is rendered only when scene and camera are
   * both non-null. A drawn frame is always swapped and polled.
   */
  function RenderFrame(shouldClose: bool, frameEmpty: bool, hasTexture: bool, hasScene: bool, hasCamera: bool)
    : (r: RenderOutcome)
    ensures r.SkippedClosing? <==> shouldClose
    ensures r.Drawn? ==> (r.textureUpdated <==> !frameEmpty && hasTexture)
    ensures r.Drawn? ==> (r.sceneRendered <==> hasScene && hasCamera)
  {
    if shouldClose then SkippedClosing
    else Drawn(!frameEmpty && hasTexture, hasScene && hasCamera)
  }
}
