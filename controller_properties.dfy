/**
 * Properties of the render-mode controller: every reachable state keeps the
 * invariant, and each transition between the back ends acquires, keeps or
 * releases exactly the resources the render loop does.
 */
module ControllerProperties {
  import opened Keys
  import opened Transforms
  import opened Resources
  import opened Controller

  // ---------------------------------------------------------------------
  // The invariant is kept by every phase, every iteration and every run

  lemma AcquireValid(s: State, cols: int, rows: int)
    requires IdsBelow(s) && s.window.Some? && s.window.value in s.glfw.windows
    requires SameSnapshot(s.gpu, s.cpu) && (!s.transformation ==> ParamsOfGpu(s.gpu) == s.transform)
    requires s.renderWithOpenGL
    ensures Valid(Acquire(s, cols, rows))
  {
    var a := Acquire(s, cols, rows);
    var n := s.nextId;
    assert a.heap.Keys == s.heap.Keys + {n, n + 1, n + 2, n + 3, n + 4};
  }

  /**
   * The acquisition allocates exactly five objects at the next five fresh
   * identities, keeps every existing object, and wires them: the quad is
   * bound to the shader, the shader to the texture, and the scene holds the
   * quad alone. The shader's fragment program follows the flags and the
   * texture has the size of the frame.
   */
  lemma AcquireAllocatesFresh(s: State, cols: int, rows: int)
    requires IdsBelow(s)
    ensures var a := Acquire(s, cols, rows);
            && a.heap.Keys == s.heap.Keys + {s.nextId, s.nextId + 1, s.nextId + 2, s.nextId + 3, s.nextId + 4}
            && a.nextId == s.nextId + 5
            && (forall id :: id in s.heap ==> a.heap[id] == s.heap[id])
            && Bound(a) && SceneAt(a.heap, a.scene) && CameraAt(a.heap, a.camera)
            && a.heap[a.scene.value].objects == [a.quad.value]
            && a.heap[a.shader.value].fragment == FragmentSource(ChooseVariant(s.filters.grayscale, s.filters.pixelated))
            && a.heap[a.texture.value] == TextureObj(cols, rows)
            && a == s.(shader := a.shader, scene := a.scene, camera := a.camera, quad := a.quad,
                       texture := a.texture, heap := a.heap, nextId := a.nextId)
  {
  }

  lemma ToggleModeValid(s: State, init: InitOutcome, cols: int, rows: int)
    requires Valid(s)
    ensures Valid(ToggleMode(s, init, cols, rows).state)
  {
    if !s.renderWithOpenGL {
      var w := InitializeWindow(s.glfw, init, s.nextId);
      var s1 := s.(renderWithOpenGL := true, glfw := w.glfw, nextId := w.nextId, window := w.window);
      assert IdsBelow(s1);
      if w.window.Some? {
        AcquireValid(s1, cols, rows);
      }
    }
  }

  lemma TransformInputValid(s: State, pressed: set<GlfwKey>, cvKeyEx: int)
    requires Valid(s)
    ensures Valid(TransformInput(s, pressed, cvKeyEx))
  {
  }

  lemma RecomputeValid(s: State, cols: int, rows: int)
    requires Valid(s)
    ensures Valid(Recompute(s, cols, rows))
    ensures !Recompute(s, cols, rows).transformation
  {
    if s.transformation {
      ProjectionsAgree(s.transform, cols, rows);
    }
  }

  lemma PresentValid(s: State, shouldClose: bool)
    requires Valid(s)
    ensures Valid(Present(s, shouldClose).state)
  {
  }

  /** The mode toggle leaves the filter flags, the transform, the dirty flag and the matrices alone. */
  lemma ToggleModeKeepsTransform(s: State, init: InitOutcome, cols: int, rows: int)
    ensures var t := ToggleMode(s, init, cols, rows).state;
            && t.filters == s.filters && t.transform == s.transform && t.transformation == s.transformation
            && t.gpu == s.gpu && t.cpu == s.cpu
  {
  }

  /** Presenting leaves the transform, the dirty flag and the matrices alone. */
  lemma PresentKeepsTransform(s: State, shouldClose: bool)
    ensures var p := Present(s, shouldClose).state;
            && p.transform == s.transform && p.transformation == s.transformation
            && p.gpu == s.gpu && p.cpu == s.cpu
  {
  }

  /** Presenting leaves shader, quad and texture alone and deletes nothing but scene and camera. */
  lemma PresentKeepsBindings(s: State, shouldClose: bool)
    ensures var p := Present(s, shouldClose).state;
            && p.shader == s.shader && p.quad == s.quad && p.texture == s.texture
            && (forall id :: id in s.heap && Some(id) != s.scene && Some(id) != s.camera ==> id in p.heap)
  {
  }

  /** One iteration keeps the invariant. */
  lemma StepValid(s: State, inp: Input)
    requires Valid(s)
    ensures Valid(Step(s, inp).state)
  {
    if inp.capture.Frame? {
      var cols, rows := inp.capture.cols, inp.capture.rows;
      var key := LoopKey(s.renderWithOpenGL, s.window.Some?, inp.pressed, inp.cvKey);
      if key != ESCAPE {
        var s1 := s.(filters := ToggleFilters(s.filters, key));
        assert Valid(s1);
        var t := if key == MODE_TOGGLE then ToggleMode(s1, inp.init, cols, rows) else Transition(s1, []);
        if key == MODE_TOGGLE {
          ToggleModeValid(s1, inp.init, cols, rows);
        }
        TransformInputValid(t.state, inp.pressed, inp.cvKeyEx);
        var s2 := TransformInput(t.state, inp.pressed, inp.cvKeyEx);
        RecomputeValid(s2, cols, rows);
        PresentValid(Recompute(s2, cols, rows), inp.shouldClose);
      }
    }
  }

  /** A whole run keeps the invariant. */
  lemma {:induction false} RunValid(s: State, inputs: seq<Input>)
    requires Valid(s)
    ensures Valid(Run(s, inputs).state)
    decreases |inputs|
  {
    if inputs != [] {
      StepValid(s, inputs[0]);
      var r := Step(s, inputs[0]);
      if !r.report.outcome.Exited? {
        RunValid(r.state, inputs[1..]);
      }
    }
  }

  /** Every report but the last presents a frame. */
  lemma {:induction false} RunPresentsUntilLast(s: State, inputs: seq<Input>)
    ensures var r := Run(s, inputs);
            forall i :: 0 <= i < |r.reports| - 1 ==> r.reports[i].outcome.Presented?
    decreases |inputs|
  {
    if inputs != [] {
      var r := Step(s, inputs[0]);
      if !r.report.outcome.Exited? {
        RunPresentsUntilLast(r.state, inputs[1..]);
        var rest := Run(r.state, inputs[1..]).reports;
        assert var q := Run(r.state, inputs[1..]); forall k :: 0 <= k < |q.reports| - 1 ==> q.reports[k].outcome.Presented?;
        var all := Run(s, inputs).reports;
        assert all == [r.report] + rest;
        forall i | 0 <= i < |all| - 1
          ensures all[i].outcome.Presented?
        {
          if i == 0 {
            assert all[0] == r.report;
            assert r.report.outcome.Presented?;
          } else {
            assert all[i] == rest[i - 1] && i - 1 < |rest| - 1;
            assert rest[i - 1].outcome.Presented?;
          }
        }
      }
    }
  }

  /** A run that stops short of its inputs ends with an exit. */
  lemma {:induction false} RunShortEndsOnExit(s: State, inputs: seq<Input>)
    ensures var r := Run(s, inputs);
            |r.reports| < |inputs| ==> r.reports[|r.reports| - 1].outcome.Exited?
    decreases |inputs|
  {
    if inputs != [] {
      var r := Step(s, inputs[0]);
      if !r.report.outcome.Exited? {
        RunShortEndsOnExit(r.state, inputs[1..]);
        var rest := Run(r.state, inputs[1..]).reports;
        var all := Run(s, inputs).reports;
        assert all == [r.report] + rest;
        assert |all| < |inputs| ==> all[|all| - 1] == rest[|rest| - 1];
      }
    }
  }

  /**
   * The loop reports one iteration per input and stops at the first exit:
   * every report but the last presents a frame, and a run that stops short
   * of its inputs ends with an exit.
   */
  lemma RunStopsAtFirstExit(s: State, inputs: seq<Input>)
    ensures var r := Run(s, inputs);
            && |r.reports| <= |inputs|
            && (inputs != [] ==> |r.reports| > 0)
            && (forall i :: 0 <= i < |r.reports| - 1 ==> r.reports[i].outcome.Presented?)
            && (|r.reports| < |inputs| ==> r.reports[|r.reports| - 1].outcome.Exited?)
            && (forall i :: 0 <= i < |r.reports| ==> r.reports[i].outcome.Exited? ==> i == |r.reports| - 1)
  {
    RunPresentsUntilLast(s, inputs);
    RunShortEndsOnExit(s, inputs);
  }

  /** Inputs after an exit are never read: the loop has already left. */
  lemma {:induction false} RunIgnoresInputsAfterExit(s: State, xs: seq<Input>, ys: seq<Input>)
    requires var r := Run(s, xs); |r.reports| > 0 && r.reports[|r.reports| - 1].outcome.Exited?
    ensures Run(s, xs + ys) == Run(s, xs)
    decreases |xs|
  {
    assert xs != [];
    assert (xs + ys)[0] == xs[0] && (xs + ys)[1..] == xs[1..] + ys;
    var r := Step(s, xs[0]);
    if !r.report.outcome.Exited? {
      var rest := Run(r.state, xs[1..]);
      assert Run(s, xs).reports == [r.report] + rest.reports;
      RunIgnoresInputsAfterExit(r.state, xs[1..], ys);
    }
  }

  /** Without an exit so far, one more input extends the run by exactly one iteration. */
  lemma {:induction false} RunExtends(s: State, xs: seq<Input>, x: Input)
    requires NoExit(Run(s, xs).reports)
    ensures var r := Run(s, xs); var last := Step(r.state, x);
            Run(s, xs + [x]) == RunResult(last.state, r.reports + [last.report])
    decreases |xs|
  {
    if xs == [] {
      assert xs + [x] == [x];
    } else {
      assert (xs + [x])[0] == xs[0] && (xs + [x])[1..] == xs[1..] + [x];
      var r := Step(s, xs[0]);
      assert Run(s, xs).reports[0] == r.report;
      var rest := Run(r.state, xs[1..]);
      assert Run(s, xs).reports == [r.report] + rest.reports;
      assert forall i :: 0 <= i < |rest.reports| ==> rest.reports[i] == Run(s, xs).reports[i + 1];
      RunExtends(r.state, xs[1..], x);
    }
  }

  /**
   * After any run from the start: in OpenCV mode there is no window, scene
   * or camera, and shader, quad and texture are all null or all live and
   * bound; in OpenGL mode all six resources are live and wired together.
   */
  lemma ReachableStates(width: int, height: int, inputs: seq<Input>)
    ensures var s := Run(Initial(width, height), inputs).state;
            && (!s.renderWithOpenGL ==> s.window.None? && s.scene.None? && s.camera.None?)
            && (!s.renderWithOpenGL ==> (s.shader.None? && s.quad.None? && s.texture.None?) || Bound(s))
            && (s.renderWithOpenGL ==> GlComplete(s))
            && SameSnapshot(s.gpu, s.cpu)
  {
    RunValid(Initial(width, height), inputs);
  }

  // ---------------------------------------------------------------------
  // Leaving the loop

  /** An empty frame ends the loop before anything else is read or changed. */
  lemma EmptyFrameExits(s: State, inp: Input)
    requires inp.capture.EmptyFrame?
    ensures Step(s, inp) == StepResult(s, Report(Exited(CaptureFailed), []))
  {
  }

  /**
   * Escape ends the loop before any flag, mode or transform update, and
   * without releasing anything. In OpenGL mode it overrides a held G.
   */
  lemma EscapeExits(s: State, inp: Input)
    requires inp.capture.Frame?
    requires if s.renderWithOpenGL then s.window.Some? && KeyEscape in inp.pressed else inp.cvKey == ESCAPE
    ensures Step(s, inp) == StepResult(s, Report(Exited(EscapePressed), []))
  {
  }

  // ---------------------------------------------------------------------
  // Entering OpenGL mode

  /**
   * A toggle from OpenCV mode whose window initialisation fails stays in
   * OpenCV mode and creates none of scene, camera, shader, quad or texture.
   * The windowing calls show what each failure leaves: a failed GLFW
   * initialisation nothing, a failed window creation a terminated GLFW, and
   * a failed GLAD load a live window that no handle names.
   */
  lemma FailedAcquisition(s: State, inp: Input)
    requires Valid(s) && !s.renderWithOpenGL && inp.capture.Frame?
    requires inp.cvKey == MODE_TOGGLE && inp.init != InitSucceeds
    ensures var r := Step(s, inp); var s' := r.state;
            && !s'.renderWithOpenGL
            && s'.window.None? && s'.scene.None? && s'.camera.None?
            && s'.shader == s.shader && s'.quad == s.quad && s'.texture == s.texture
            && s'.heap == s.heap
    ensures var r := Step(s, inp);
            && (inp.init == GlfwInitFails ==>
                  r.report.calls == [CvDestroyAllWindows, GlfwInit] && r.state.glfw == s.glfw)
            && (inp.init == WindowCreationFails ==>
                  r.report.calls == [CvDestroyAllWindows, GlfwInit, GlfwCreateWindow, GlfwTerminate]
                  && r.state.glfw == TERMINATED)
            && (inp.init == GladLoadFails ==>
                  r.report.calls == [CvDestroyAllWindows, GlfwInit, GlfwCreateWindow, GlfwMakeContextCurrent, GladLoadGl]
                  && r.state.glfw.initialized && s.nextId in r.state.glfw.windows
                  && r.state.window != Some(s.nextId))
  {
  }

  /**
   * A successful toggle to OpenGL mode (its window not closing at once)
   * leaves all six resources live and fresh, the quad bound to the shader,
   * the shader bound to the texture and the quad in the scene. The shader
   * program is chosen from the flags at entry time, the texture has the size
   * of the current frame, and the same iteration already reads its
   * transform key from the new window and draws.
   */
  lemma SuccessfulAcquisition(s: State, inp: Input)
    requires Valid(s) && !s.renderWithOpenGL && inp.capture.Frame?
    requires inp.cvKey == MODE_TOGGLE && inp.init == InitSucceeds && !inp.shouldClose
    ensures var r := Step(s, inp); var s' := r.state;
            && s'.renderWithOpenGL && GlComplete(s')
            && s'.window == Some(s.nextId)
            && s'.scene.value !in s.heap && s'.camera.value !in s.heap && s'.shader.value !in s.heap
            && s'.quad.value !in s.heap && s'.texture.value !in s.heap
            && s'.heap[s'.shader.value].vertex == VERTEX_SOURCE
            && s'.heap[s'.shader.value].fragment == FragmentSource(ChooseVariant(s.filters.grayscale, s.filters.pixelated))
            && s'.heap[s'.texture.value] == TextureObj(inp.capture.cols, inp.capture.rows)
            && s'.heap.Keys == s.heap.Keys + {s'.shader.value, s'.scene.value, s'.camera.value, s'.quad.value, s'.texture.value}
            && s'.filters == s.filters
            && s'.transform == ApplyTransformKey(s.transform, FirstPressed(TRANSFORM_PRIORITY, inp.pressed)).transform
            && r.report.calls == [CvDestroyAllWindows, GlfwInit, GlfwCreateWindow, GlfwMakeContextCurrent, GladLoadGl]
            && r.report.outcome == Presented(GlView(GpuOf(s'.transform), Drawn(true, true)))
  {
    TransformKeyFollowsPriority(inp.pressed, inp.cvKeyEx);
    var cols, rows := inp.capture.cols, inp.capture.rows;
    assert ToggleFilters(s.filters, MODE_TOGGLE) == s.filters;
    var t := ToggleMode(s, inp.init, cols, rows);
    ToggleModeValid(s, inp.init, cols, rows);
    var s2 := Recompute(TransformInput(t.state, inp.pressed, inp.cvKeyEx), cols, rows);
    TransformInputValid(t.state, inp.pressed, inp.cvKeyEx);
    RecomputeValid(TransformInput(t.state, inp.pressed, inp.cvKeyEx), cols, rows);
    assert s2.gpu == GpuOf(s2.transform);
    assert Step(s, inp) == StepResult(s2, Report(Presented(GlView(s2.gpu, Drawn(true, true))), t.calls));
  }

  /** The toggle into OpenGL mode places the window and the five new objects after every identity in use. */
  lemma ToggleModeAllocatesAfter(s: State, cols: int, rows: int)
    requires IdsBelow(s) && !s.renderWithOpenGL
    ensures var t := ToggleMode(s, InitSucceeds, cols, rows).state;
            && t.window == Some(s.nextId)
            && t.shader == Some(s.nextId + 1) && t.scene == Some(s.nextId + 2) && t.camera == Some(s.nextId + 3)
            && t.quad == Some(s.nextId + 4) && t.texture == Some(s.nextId + 5)
            && (forall id :: id in s.heap ==> id in t.heap)
  {
  }

  /**
   * Re-entering OpenGL mode allocates a new shader, quad and texture over
   * the handles that survived the last teardown; the previous objects stay
   * live and are no longer named by any handle.
   */
  lemma ReentryOrphansPrevious(s: State, inp: Input)
    requires IdsBelow(s) && Bound(s) && !s.renderWithOpenGL && inp.capture.Frame?
    requires inp.cvKey == MODE_TOGGLE && inp.init == InitSucceeds
    ensures var s' := Step(s, inp).state;
            && s.shader.value in s'.heap && s.quad.value in s'.heap && s.texture.value in s'.heap
            && s'.shader != s.shader && s'.quad != s.quad && s'.texture != s.texture
  {
    var cols, rows := inp.capture.cols, inp.capture.rows;
    assert ToggleFilters(s.filters, MODE_TOGGLE) == s.filters;
    ToggleModeAllocatesAfter(s, cols, rows);
    var t := ToggleMode(s, inp.init, cols, rows).state;
    var s2 := Recompute(TransformInput(t, inp.pressed, inp.cvKeyEx), cols, rows);
    assert s2.heap == t.heap && s2.shader == t.shader && s2.quad == t.quad && s2.texture == t.texture;
    assert s2.scene == t.scene && s2.camera == t.camera;
    PresentKeepsBindings(s2, inp.shouldClose);
    assert Step(s, inp).state == Present(s2, inp.shouldClose).state;
  }

  // ---------------------------------------------------------------------
  // Staying in and leaving OpenGL mode

  /**
   * An OpenGL iteration without G, Escape or a closing window passes every
   * null guard of the renderer: the texture is updated, the scene drawn with
   * the GPU matrix of the current transform, and no resource changes. At
   * most one delta is applied, the first held key of I, O, Left, Right, Up,
   * Down.
   */
  lemma OpenGlFrame(s: State, inp: Input)
    requires Valid(s) && s.renderWithOpenGL && inp.capture.Frame?
    requires KeyG !in inp.pressed && KeyEscape !in inp.pressed && !inp.shouldClose
    ensures var r := Step(s, inp); var s' := r.state;
            && r.report == Report(Presented(GlView(GpuOf(s'.transform), Drawn(true, true))), [])
            && s'.renderWithOpenGL && s'.filters == s.filters && s'.heap == s.heap && s'.glfw == s.glfw
            && s'.window == s.window && s'.scene == s.scene && s'.camera == s.camera
            && s'.shader == s.shader && s'.quad == s.quad && s'.texture == s.texture
            && s'.transform == ApplyTransformKey(s.transform, FirstPressed(TRANSFORM_PRIORITY, inp.pressed)).transform
  {
    TransformKeyFollowsPriority(inp.pressed, inp.cvKeyEx);
    StepValid(s, inp);
  }

  /**
   * G in OpenGL mode nulls window, scene and camera (deleting the scene and
   * the camera, destroying the window and terminating GLFW) and leaves the
   * shader, texture and quad handles and objects as they were. The same
   * iteration already presents through OpenCV.
   */
  lemma ToggleBackToOpenCv(s: State, inp: Input)
    requires Valid(s) && s.renderWithOpenGL && inp.capture.Frame?
    requires KeyG in inp.pressed && KeyEscape !in inp.pressed
    ensures var r := Step(s, inp); var s' := r.state;
            && !s'.renderWithOpenGL
            && s'.window.None? && s'.scene.None? && s'.camera.None?
            && s'.shader == s.shader && s'.quad == s.quad && s'.texture == s.texture
            && s'.heap == s.heap - {s.scene.value, s.camera.value}
            && s'.glfw == TERMINATED
            && r.report.calls == [GlfwDestroyWindow(s.window.value), GlfwTerminate]
            && r.report.outcome.Presented? && r.report.outcome.view.CpuView?
            && s'.filters == s.filters.(grayscale := s.filters.grayscale || s.filters.edge)
  {
  }

  /**
   * When the OpenGL window reports it should close, the iteration leaves
   * OpenGL mode and nulls window, scene and camera, terminating GLFW without
   * destroying the window first; the filter flags and the shader, quad and
   * texture handles do not change.
   */
  lemma WindowClosedTeardown(s: State, inp: Input)
    requires Valid(s) && s.renderWithOpenGL && inp.capture.Frame?
    requires KeyG !in inp.pressed && KeyEscape !in inp.pressed && inp.shouldClose
    ensures var r := Step(s, inp); var s' := r.state;
            && r.report == Report(Presented(GlWindowClosed), [GlfwTerminate])
            && !s'.renderWithOpenGL && s'.window.None? && s'.scene.None? && s'.camera.None?
            && s'.heap == s.heap - {s.scene.value, s.camera.value}
            && s'.glfw == TERMINATED
            && s'.shader == s.shader && s'.quad == s.quad && s'.texture == s.texture
            && s'.filters == s.filters && s'.nextId == s.nextId
            && s'.transform == ApplyTransformKey(s.transform, FirstPressed(TRANSFORM_PRIORITY, inp.pressed)).transform
  {
    TransformKeyFollowsPriority(inp.pressed, inp.cvKeyEx);
  }

  /**
   * In OpenGL mode the loop key is only G or Escape, so no filter flag is
   * toggled and the bound shader never changes; the only flag change an
   * OpenGL-mode iteration can make is the CPU path's forced grayscale, in the
   * iteration that toggles back.
   */
  lemma OpenGlModeKeepsFilters(s: State, inp: Input)
    requires Valid(s) && s.renderWithOpenGL
    ensures var s' := Step(s, inp).state;
            && s'.filters.gaussian == s.filters.gaussian && s'.filters.edge == s.filters.edge
            && s'.filters.pixelated == s.filters.pixelated
            && (s'.filters.grayscale != s.filters.grayscale ==>
                  !s'.renderWithOpenGL && s.filters.edge && s'.filters.grayscale)
            && (s'.renderWithOpenGL ==> s'.filters == s.filters && s'.shader == s.shader && s'.heap == s.heap)
  {
    if inp.capture.Frame? {
      var cols, rows := inp.capture.cols, inp.capture.rows;
      var key := LoopKey(s.renderWithOpenGL, s.window.Some?, inp.pressed, inp.cvKey);
      if key != ESCAPE {
        var s1 := s.(filters := ToggleFilters(s.filters, key));
        assert s1 == s;
        if key == MODE_TOGGLE {
          var t := ToggleMode(s1, inp.init, cols, rows);
          assert !t.state.renderWithOpenGL && t.state.filters == s.filters;
          var s2 := Recompute(TransformInput(t.state, inp.pressed, inp.cvKeyEx), cols, rows);
          assert !s2.renderWithOpenGL && s2.filters == s.filters;
          assert Step(s, inp).state == Present(s2, inp.shouldClose).state;
        } else {
          var s2 := Recompute(TransformInput(s1, inp.pressed, inp.cvKeyEx), cols, rows);
          assert s2.renderWithOpenGL && s2.filters == s.filters && s2.heap == s.heap && s2.shader == s.shader;
          assert Step(s, inp).state == Present(s2, inp.shouldClose).state;
        }
      }
    }
  }

  // ---------------------------------------------------------------------
  // OpenCV mode

  /**
   * An OpenCV iteration that neither exits nor toggles the mode: the loop key
   * toggles at most one filter, the extended key applies at most one delta,
   * the frame goes through the filter calls for the flags and is warped
   * with the cached CPU matrix, and edge detection leaves grayscale on.
   */
  lemma OpenCvFrame(s: State, inp: Input)
    requires Valid(s) && !s.renderWithOpenGL && inp.capture.Frame?
    requires inp.cvKey != ESCAPE && inp.cvKey != MODE_TOGGLE
    ensures var r := Step(s, inp); var f := ToggleFilters(s.filters, inp.cvKey);
            && r.state.filters == f.(grayscale := f.grayscale || f.edge)
            && r.report == Report(Presented(CpuView(CpuPipeline(f), r.state.cpu)), [])
            && r.state.transform == ApplyTransformKey(s.transform, inp.cvKeyEx).transform
            && !r.state.renderWithOpenGL && r.state.heap == s.heap && r.state.glfw == s.glfw
  {
  }

  /** The CPU path converts to gray exactly once when grayscale or edge is set, and never otherwise. */
  lemma CpuPipelineConvertsOnce(f: Filters)
    ensures multiset(CpuPipeline(f))[CvtGray] == (if f.grayscale || f.edge then 1 else 0)
  {
  }

  /** Blur, edge detection and pixelation are each applied exactly when their flag is set. */
  lemma CpuPipelineCounts(f: Filters)
    ensures var ops := multiset(CpuPipeline(f));
            && ops[GaussianBlur] == (if f.gaussian then 1 else 0)
            && ops[CannyEdges] == (if f.edge then 1 else 0)
            && ops[PixelateResize] == (if f.pixelated then 1 else 0)
  {
  }

  /** The CPU path converts to gray before it detects edges. */
  lemma CpuPipelineGrayBeforeEdges(f: Filters)
    ensures var ops := CpuPipeline(f);
            forall i, j :: 0 <= i < |ops| && 0 <= j < |ops| && ops[i] == CvtGray && ops[j] == CannyEdges ==> i < j
  {
  }

  /** The CPU path blurs before it detects edges. */
  lemma CpuPipelineBlurBeforeEdges(f: Filters)
    ensures var ops := CpuPipeline(f);
            forall i, j :: 0 <= i < |ops| && 0 <= j < |ops| && ops[i] == GaussianBlur && ops[j] == CannyEdges ==> i < j
  {
  }

  /** The CPU path blurs after the gray conversion exactly when the grayscale flag was set. */
  lemma CpuPipelineBlurOrder(f: Filters)
    ensures var ops := CpuPipeline(f);
            forall i, j :: 0 <= i < |ops| && 0 <= j < |ops| && ops[i] == CvtGray && ops[j] == GaussianBlur
              ==> (i < j <==> f.grayscale)
  {
  }

  /** Pixelation, when set, is the last CPU filter. */
  lemma CpuPipelinePixelatesLast(f: Filters)
    requires f.pixelated
    ensures var ops := CpuPipeline(f); |ops| > 0 && ops[|ops| - 1] == PixelateResize
  {
  }

  // ---------------------------------------------------------------------
  // The dirty flag

  /**
   * After every iteration that does not exit, the dirty flag is down and
   * both matrices come from one snapshot of the current transform. They are
   * rebuilt (the CPU one for the current frame size) when the flag was up
   * or a delta moved the transform, and are otherwise left as they were.
   */
  lemma DirtyFlag(s: State, inp: Input)
    requires Valid(s) && inp.capture.Frame?
    requires !Step(s, inp).report.outcome.Exited?
    ensures var s' := Step(s, inp).state;
            && !s'.transformation
            && s'.gpu == GpuOf(s'.transform)
            && SameSnapshot(s'.gpu, s'.cpu)
            && (s.transformation || s'.transform != s.transform ==>
                  s'.cpu == CpuOf(s'.transform, inp.capture.cols, inp.capture.rows))
            && (!s.transformation && s'.transform == s.transform ==> s'.gpu == s.gpu && s'.cpu == s.cpu)
  {
    var cols, rows := inp.capture.cols, inp.capture.rows;
    var key := LoopKey(s.renderWithOpenGL, s.window.Some?, inp.pressed, inp.cvKey);
    var s1 := s.(filters := ToggleFilters(s.filters, key));
    var t := if key == MODE_TOGGLE then ToggleMode(s1, inp.init, cols, rows) else Transition(s1, []);
    ToggleModeKeepsTransform(s1, inp.init, cols, rows);
    var s2 := TransformInput(t.state, inp.pressed, inp.cvKeyEx);
    var s3 := Recompute(s2, cols, rows);
    PresentKeepsTransform(s3, inp.shouldClose);
    assert Step(s, inp).state == Present(s3, inp.shouldClose).state;
    StepValid(s, inp);
  }

  /** The dirty flag starts raised, so the first iteration always builds both matrices. */
  lemma FirstIterationRecomputes(width: int, height: int, inp: Input)
    requires inp.capture.Frame?
    requires !Step(Initial(width, height), inp).report.outcome.Exited?
    ensures var s' := Step(Initial(width, height), inp).state;
            && s'.gpu == GpuOf(s'.transform)
            && s'.cpu == CpuOf(s'.transform, inp.capture.cols, inp.capture.rows)
  {
    DirtyFlag(Initial(width, height), inp);
  }
}
