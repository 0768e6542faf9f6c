/**
 * The render-mode controller as a value-level state machine: the state the
 * render loop keeps at loop scope, one iteration of the loop as the function
 * `Step` (built from one function per phase of the iteration), whole runs,
 * the invariant every reachable state keeps, and the properties of the
 * transitions between the OpenCV and the OpenGL back ends.
 */
module Controller {
  import opened Keys
  import opened Transforms
  import opened Resources

  type Pos = x: int | x > 0 witness 1

  /** The four filter flags. */
  datatype Filters = Filters(grayscale: bool, gaussian: bool, edge: bool, pixelated: bool)

  /**
   * Everything one iteration reads or changes: the capture size, the filter
   * flags, the mode flag, the six owning handles, the logical transform with
   * its dirty flag, the two cached matrices, the live heap objects, the GLFW
   * library state and the next fresh identity.
   */
  datatype State = State(
    width: int, height: int,
    filters: Filters,
    renderWithOpenGL: bool,
    window: Option<Id>, scene: Option<Id>, camera: Option<Id>,
    shader: Option<Id>, texture: Option<Id>, quad: Option<Id>,
    transform: Transform, transformation: bool,
    gpu: GpuMatrix, cpu: CpuMatrix,
    heap: Heap, glfw: Glfw, nextId: nat)

  /** The frame read at the head of an iteration. */
  datatype Capture = EmptyFrame | Frame(cols: Pos, rows: Pos)

  /**
   * What the outside world answers during one iteration: the captured frame,
   * the results of `cv::waitKey(1)` and `cv::waitKeyEx(1)`, the keys the
   * OpenGL window reports as held, how `initializeOpenGLWindow` ends if it
   * is called, and whether the OpenGL window reports that it should close.
   */
  datatype Input = Input(capture: Capture, cvKey: int, cvKeyEx: int, pressed: set<GlfwKey>,
                         init: InitOutcome, shouldClose: bool)

  /** The OpenCV calls applied to a frame on the CPU path, in order. */
  datatype CpuOp = CvtGray | GaussianBlur | CannyEdges | PixelateResize

  /** What an iteration presents. */
  datatype View =
    | CpuView(ops: seq<CpuOp>, matrix: CpuMatrix)
    | GlView(pushed: GpuMatrix, render: RenderOutcome)
    | GlWindowClosed

  datatype ExitReason = CaptureFailed | EscapePressed
  datatype Outcome = Exited(reason: ExitReason) | Presented(view: View)

  /** An iteration's outcome and the windowing calls it issued. */
  datatype Report = Report(outcome: Outcome, calls: seq<LibCall>)

  datatype Transition = Transition(state: State, calls: seq<LibCall>)
  datatype Presentation = Presentation(state: State, view: View, calls: seq<LibCall>)
  datatype StepResult = StepResult(state: State, report: Report)
  datatype RunResult = RunResult(state: State, reports: seq<Report>)

  /**
   * The state before the first iteration. Both matrices start as the
   * identity, which is what the projections of the initial transform are
   * (a rotation by 0 at scale 1 about any centre).
   */
  function Initial(width: int, height: int): (s: State)
    ensures Valid(s) && s.transformation && !s.renderWithOpenGL
  {
    State(width, height, Filters(false, false, false, false), false,
          None, None, None, None, None, None,
          IDENTITY, true, GpuOf(IDENTITY), CpuOf(IDENTITY, width, height),
          map[], Glfw(false, {}), 0)
  }

  // ---------------------------------------------------------------------
  // The invariant

  predicate SceneAt(h: Heap, p: Option<Id>) { p.Some? && p.value in h && h[p.value].SceneObj? }
  predicate CameraAt(h: Heap, p: Option<Id>) { p.Some? && p.value in h && h[p.value].CameraObj? }
  predicate ShaderAt(h: Heap, p: Option<Id>) { p.Some? && p.value in h && h[p.value].ShaderObj? }
  predicate QuadAt(h: Heap, p: Option<Id>) { p.Some? && p.value in h && h[p.value].QuadObj? }
  predicate TextureAt(h: Heap, p: Option<Id>) { p.Some? && p.value in h && h[p.value].TextureObj? }

  /** Every identity in use is below the next fresh one. */
  predicate IdsBelow(s: State)
  {
    && (forall id :: id in s.heap ==> id < s.nextId)
    && (forall w :: w in s.glfw.windows ==> w < s.nextId)
  }

  /** The quad is bound to the shader and the shader to the texture. */
  predicate Bound(s: State)
  {
    && QuadAt(s.heap, s.quad) && ShaderAt(s.heap, s.shader) && TextureAt(s.heap, s.texture)
    && s.heap[s.quad.value].shader == s.shader
    && s.heap[s.shader.value].texture == s.texture
  }

  /** Everything OpenGL mode draws with is live and wired together. */
  predicate GlComplete(s: State)
  {
    && s.window.Some? && s.window.value in s.glfw.windows
    && SceneAt(s.heap, s.scene) && CameraAt(s.heap, s.camera)
    && Bound(s)
    && s.quad.value in s.heap[s.scene.value].objects
  }

  /**
   * The invariant of the loop state. OpenGL mode has all six resources; in
   * OpenCV mode window, scene and camera are null while shader, quad and
   * texture are either all null (OpenGL mode was never entered) or all
   * still live and bound. The two cached matrices always share one
   * parameter snapshot, which is the current transform unless the dirty flag
   * is raised.
   */
  predicate Valid(s: State)
  {
    && IdsBelow(s)
    && (s.shader.Some? || s.quad.Some? || s.texture.Some? ==> Bound(s))
    && (s.renderWithOpenGL ==> GlComplete(s))
    && (!s.renderWithOpenGL ==> s.window.None? && s.scene.None? && s.camera.None?)
    && SameSnapshot(s.gpu, s.cpu)
    && (!s.transformation ==> ParamsOfGpu(s.gpu) == s.transform)
  }

  // ---------------------------------------------------------------------
  // The phases of one iteration

  predicate IsFilterKey(key: int)
  {
    key == GRAYSCALE_TOGGLE || key == BLUR_TOGGLE || key == EDGE_TOGGLE || key == PIXELATE_TOGGLE
  }

  /** The four filter toggles, tested in order; a key flips at most one flag. */
  function ToggleFilters(f: Filters, key: int): (r: Filters)
    ensures key == GRAYSCALE_TOGGLE ==> r == f.(grayscale := !f.grayscale)
    ensures key == BLUR_TOGGLE ==> r == f.(gaussian := !f.gaussian)
    ensures key == EDGE_TOGGLE ==> r == f.(edge := !f.edge)
    ensures key == PIXELATE_TOGGLE ==> r == f.(pixelated := !f.pixelated)
    ensures !IsFilterKey(key) ==> r == f
  {
    var f1 := if key == GRAYSCALE_TOGGLE then f.(grayscale := !f.grayscale) else f;
    var f2 := if key == BLUR_TOGGLE then f1.(gaussian := !f1.gaussian) else f1;
    var f3 := if key == EDGE_TOGGLE then f2.(edge := !f2.edge) else f2;
    if key == PIXELATE_TOGGLE then f3.(pixelated := !f3.pixelated) else f3
  }

  /**
   * The acquisition after a window was obtained: the shader (its variant
   * chosen from the flags now), the scene, the camera, the quad and the
   * texture (the size of the current frame) are allocated in that order at
   * fresh identities; the result is shown after the quad was bound to the
   * shader, the shader to the texture, and the quad added to the scene.
   */
  function Acquire(s: State, cols: int, rows: int): State
  {
    var variant := ChooseVariant(s.filters.grayscale, s.filters.pixelated);
    var n := s.nextId;
    var h := s.heap[n := ShaderObj(VERTEX_SOURCE, FragmentSource(variant), Some(n + 4))]
                   [n + 1 := SceneObj([n + 3])]
                   [n + 2 := CameraObj(s.width, s.height)]
                   [n + 3 := QuadObj(s.width, s.height, Some(n))]
                   [n + 4 := TextureObj(cols, rows)];
    s.(shader := Some(n), scene := Some(n + 1), camera := Some(n + 2), quad := Some(n + 3),
       texture := Some(n + 4), heap := h, nextId := n + 5)
  }

  /**
   * The teardown both exits from OpenGL mode share: when there is a window,
   * delete the scene and the camera, null them, terminate GLFW and null the
   * window. Only the toggle path destroys the window explicitly first.
   * Shader, texture and quad are neither deleted nor nulled.
   */
  function Release(s: State, destroyWindow: bool): (t: Transition)
    ensures s.window.None? ==> t == Transition(s, [])
    ensures s.window.Some? ==> t.state.window.None? && t.state.scene.None? && t.state.camera.None?
    ensures s.window.Some? ==> t.state.glfw == TERMINATED
    ensures s.window.Some? ==> |t.calls| > 0 && t.calls[|t.calls| - 1] == GlfwTerminate
    ensures s.window.Some? ==> (GlfwDestroyWindow(s.window.value) in t.calls <==> destroyWindow)
    ensures forall id :: id in t.state.heap <==>
              id in s.heap && (s.window.Some? ==> Some(id) != s.scene && Some(id) != s.camera)
    ensures forall id :: id in t.state.heap ==> t.state.heap[id] == s.heap[id]
  {
    if s.window.Some? then
      var calls := (if destroyWindow then [GlfwDestroyWindow(s.window.value)] else []) + [GlfwTerminate];
      Transition(s.(heap := Delete(Delete(s.heap, s.scene), s.camera), scene := None, camera := None,
                    glfw := TERMINATED, window := None),
                 calls)
    else
      Transition(s, [])
  }

  /** The `g` key: flip the mode, then acquire (backing out on failure) or tear down. */
  function ToggleMode(s: State, init: InitOutcome, cols: int, rows: int): (t: Transition)
    ensures t.state.renderWithOpenGL <==> !s.renderWithOpenGL && init == InitSucceeds
    ensures t.state.renderWithOpenGL ==> t.state.window == Some(s.nextId)
    ensures !s.renderWithOpenGL ==> |t.calls| > 0 && t.calls[0] == CvDestroyAllWindows
  {
    if !s.renderWithOpenGL then
      var w := InitializeWindow(s.glfw, init, s.nextId);
      var s1 := s.(renderWithOpenGL := true, glfw := w.glfw, nextId := w.nextId, window := w.window);
      var calls := [CvDestroyAllWindows] + w.calls;
      if w.window.None? then Transition(s1.(renderWithOpenGL := false), calls)
      else Transition(Acquire(s1, cols, rows), calls)
    else
      Release(s.(renderWithOpenGL := false), true)
  }

  /** The transform key of this iteration and its delta; any delta raises the dirty flag. */
  function TransformInput(s: State, pressed: set<GlfwKey>, cvKeyEx: int): (r: State)
    ensures r.transformation <==>
              s.transformation || IsTransformKey(TransformKey(s.window.Some?, s.renderWithOpenGL, pressed, cvKeyEx))
  {
    var code := TransformKey(s.window.Some?, s.renderWithOpenGL, pressed, cvKeyEx);
    var m := ApplyTransformKey(s.transform, code);
    s.(transform := m.transform, transformation := s.transformation || m.changed)
  }

  /** When the dirty flag is raised, both matrices are rebuilt from the current transform and the flag cleared. */
  function Recompute(s: State, cols: int, rows: int): (r: State)
    ensures !r.transformation
    ensures s.transformation ==>
              ParamsOfGpu(r.gpu) == s.transform && SameSnapshot(r.gpu, r.cpu) && r.cpu.cols == cols && r.cpu.rows == rows
    ensures !s.transformation ==> r == s
  {
    if s.transformation then
      s.(gpu := GpuOf(s.transform), cpu := CpuOf(s.transform, cols, rows), transformation := false)
    else
      s
  }

  /** The OpenCV filter calls for the flags of this frame: edge detection converts to gray first if needed. */
  function CpuPipeline(f: Filters): (ops: seq<CpuOp>)
    ensures |ops| == (if f.grayscale || f.edge then 1 else 0) + (if f.gaussian then 1 else 0)
                     + (if f.edge then 1 else 0) + (if f.pixelated then 1 else 0)
  {
    (if f.grayscale then [CvtGray] else [])
    + (if f.gaussian then [GaussianBlur] else [])
    + (if f.edge then (if f.grayscale then [] else [CvtGray]) + [CannyEdges] else [])
    + (if f.pixelated then [PixelateResize] else [])
  }

  /**
   * The presentation of the frame. OpenGL mode: push the GPU matrix to the
   * quad and render, unless there is no window or it should close, in which
   * case leave OpenGL mode through the teardown that does not destroy the
   * window. OpenCV mode: filter and warp with the CPU matrix; edge detection
   * turns the grayscale flag on for good.
   */
  function Present(s: State, shouldClose: bool): (p: Presentation)
    ensures p.view.GlView? <==> s.renderWithOpenGL && s.window.Some? && !shouldClose
    ensures p.view.CpuView? <==> !s.renderWithOpenGL
    ensures p.view.GlView? ==> p.state == s && p.calls == [] && p.view.pushed == s.gpu
    ensures p.view.CpuView? ==>
              p.calls == [] && p.view.matrix == s.cpu && p.view.ops == CpuPipeline(s.filters)
              && p.state.filters.grayscale == (s.filters.grayscale || s.filters.edge)
    ensures !p.state.renderWithOpenGL <==> !p.view.GlView?
  {
    if s.renderWithOpenGL then
      if s.window.Some? && !shouldClose then
        Presentation(s, GlView(s.gpu, RenderFrame(shouldClose, false, s.texture.Some?, s.scene.Some?, s.camera.Some?)), [])
      else
        var t := Release(s.(renderWithOpenGL := false), false);
        Presentation(t.state, GlWindowClosed, t.calls)
    else
      var f := s.filters;
      Presentation(s.(filters := f.(grayscale := f.grayscale || f.edge)), CpuView(CpuPipeline(f), s.cpu), [])
  }

  /** One iteration of the render loop. */
  function Step(s: State, inp: Input): (r: StepResult)
    ensures r.report.outcome.Exited? ==> r.state == s && r.report.calls == []
  {
    match inp.capture
    case EmptyFrame => StepResult(s, Report(Exited(CaptureFailed), []))
    case Frame(cols, rows) =>
      var key := LoopKey(s.renderWithOpenGL, s.window.Some?, inp.pressed, inp.cvKey);
      if key == ESCAPE then
        StepResult(s, Report(Exited(EscapePressed), []))
      else
        var s1 := s.(filters := ToggleFilters(s.filters, key));
        var t := if key == MODE_TOGGLE then ToggleMode(s1, inp.init, cols, rows) else Transition(s1, []);
        var s2 := Recompute(TransformInput(t.state, inp.pressed, inp.cvKeyEx), cols, rows);
        var p := Present(s2, inp.shouldClose);
        StepResult(p.state, Report(Presented(p.view), t.calls + p.calls))
  }

  /** Iterations over a sequence of inputs, up to and including the first that exits the loop. */
  function Run(s: State, inputs: seq<Input>): (r: RunResult)
    ensures |r.reports| <= |inputs|
    ensures inputs != [] ==> |r.reports| > 0
    decreases |inputs|
  {
    if inputs == [] then RunResult(s, [])
    else
      var r := Step(s, inputs[0]);
      if r.report.outcome.Exited? then RunResult(r.state, [r.report])
      else
        var rest := Run(r.state, inputs[1..]);
        RunResult(rest.state, [r.report] + rest.reports)
  }

  predicate NoExit(reports: seq<Report>)
  {
    forall i :: 0 <= i < |reports| ==> reports[i].outcome.Presented?
  }
}
