/**
 * The render loop as the program runs it: the loop-scope variables become
 * the fields of a `Viewer`, updated in place phase by phase, and every
 * method is proved against the value-level state machine of `Controller`
 * through the abstraction `Abs`.
 */
module Viewer {
  import opened Keys
  import opened Transforms
  import opened Resources
  import opened Controller
  import ControllerProperties

  class Viewer {
    /** The frame size the capture device reported. */
    const width: int
    const height: int

    /** The four filter flags. */
    var filters: Filters

    var renderWithOpenGL: bool
    var window: Option<Id>
    var scene: Option<Id>
    var camera: Option<Id>
    var shader: Option<Id>
    var texture: Option<Id>
    var quad: Option<Id>

    /** The current scale, angle and vertical translation, and whether the matrices are stale. */
    var transform: Transform
    var transformation: bool

    var modelMatrixGpu: GpuMatrix
    var modelMatrixCpu: CpuMatrix

    /** The live heap objects, the GLFW library and the next fresh identity. */
    var heap: Heap
    var glfw: Glfw
    var nextId: nat

    /** The loop state these fields hold. */
    ghost function Abs(): State
      reads this
    {
      State(width, height, filters, renderWithOpenGL,
            window, scene, camera, shader, texture, quad,
            transform, transformation,
            modelMatrixGpu, modelMatrixCpu, heap, glfw, nextId)
    }

    /** The declarations ahead of the loop. */
    constructor(width: int, height: int)
      ensures Abs() == Initial(width, height)
    {
      this.width, this.height := width, height;
      filters := Filters(false, false, false, false);
      renderWithOpenGL := false;
      window, scene, camera, shader, texture, quad := None, None, None, None, None, None;
      transform := IDENTITY;
      transformation := true;
      modelMatrixGpu := GpuOf(IDENTITY);
      modelMatrixCpu := CpuOf(IDENTITY, width, height);
      heap, glfw, nextId := map[], Glfw(false, {}), 0;
    }

    /**
     * Allocates the five OpenGL objects at fresh identities after a window
     * was obtained, then binds quad to shader, shader to texture and adds
     * the quad to the scene.
     */
    method AcquireResources(cols: int, rows: int)
      modifies this
      ensures Abs() == Acquire(old(Abs()), cols, rows)
    {
      ghost var e := Acquire(Abs(), cols, rows);
      var variant := ChooseVariant(filters.grayscale, filters.pixelated);
      var n := nextId;
      var shaderObj := ShaderObj(VERTEX_SOURCE, FragmentSource(variant), None);
      var sceneObj := SceneObj([]);
      var cameraObj := CameraObj(width, height);
      var quadObj := QuadObj(width, height, None);
      var textureObj := TextureObj(cols, rows);
      quadObj := quadObj.(shader := Some(n));
      shaderObj := shaderObj.(texture := Some(n + 4));
      sceneObj := sceneObj.(objects := sceneObj.objects + [n + 3]);
      assert sceneObj.objects == [n + 3];
      var h := heap[n := shaderObj][n + 1 := sceneObj][n + 2 := cameraObj][n + 3 := quadObj][n + 4 := textureObj];
      assert h == e.heap;
      shader, scene, camera, quad, texture, heap, nextId := Some(n), Some(n + 1), Some(n + 2), Some(n + 3), Some(n + 4), h, n + 5;
    }

    /** Deletes scene and camera and terminates GLFW when there is a window; `destroyWindow` selects the toggle path. */
    method TearDown(destroyWindow: bool) returns (calls: seq<LibCall>)
      modifies this
      ensures Transition(Abs(), calls) == Release(old(Abs()), destroyWindow)
    {
      calls := [];
      if window.Some? {
        heap := Delete(heap, scene);
        scene := None;
        heap := Delete(heap, camera);
        camera := None;
        if destroyWindow {
          calls := calls + [GlfwDestroyWindow(window.value)];
        }
        glfw := TERMINATED;
        calls := calls + [GlfwTerminate];
        window := None;
      }
    }

    /** The four filter toggles for this iteration's loop key. */
    method ToggleFilterFlags(key: int)
      modifies this
      ensures Abs() == old(Abs()).(filters := ToggleFilters(old(Abs()).filters, key))
    {
      if key == GRAYSCALE_TOGGLE {
        filters := filters.(grayscale := !filters.grayscale);
      }
      if key == BLUR_TOGGLE {
        filters := filters.(gaussian := !filters.gaussian);
      }
      if key == EDGE_TOGGLE {
        filters := filters.(edge := !filters.edge);
      }
      if key == PIXELATE_TOGGLE {
        filters := filters.(pixelated := !filters.pixelated);
      }
    }

    /** The `g` key: flip the mode, then open a window and acquire, or tear down. */
    method SwitchMode(init: InitOutcome, cols: int, rows: int) returns (calls: seq<LibCall>)
      modifies this
      ensures Transition(Abs(), calls) == ToggleMode(old(Abs()), init, cols, rows)
    {
      renderWithOpenGL := !renderWithOpenGL;
      if renderWithOpenGL {
        calls := [CvDestroyAllWindows];
        var w := InitializeWindow(glfw, init, nextId);
        glfw, nextId, window := w.glfw, w.nextId, w.window;
        calls := calls + w.calls;
        if window.None? {
          renderWithOpenGL := false;
        } else {
          AcquireResources(cols, rows);
        }
      } else {
        calls := TearDown(true);
      }
    }

    /** The six transform deltas for this iteration's transform key. */
    method ApplyDeltas(pressed: set<GlfwKey>, cvKeyEx: int)
      modifies this
      ensures Abs() == TransformInput(old(Abs()), pressed, cvKeyEx)
    {
      var code := TransformKey(window.Some?, renderWithOpenGL, pressed, cvKeyEx);
      if code == ZOOM_IN {
        transform := transform.(scale := transform.scale + SCALE_STEP);
        transformation := true;
      }
      if code == ZOOM_OUT {
        transform := transform.(scale := transform.scale - SCALE_STEP);
        transformation := true;
      }
      if code == ARROW_LEFT {
        transform := transform.(angle := transform.angle - ANGLE_STEP);
        transformation := true;
      }
      if code == ARROW_RIGHT {
        transform := transform.(angle := transform.angle + ANGLE_STEP);
        transformation := true;
      }
      if code == ARROW_UP {
        transform := transform.(ty := transform.ty + TRANSLATION_STEP);
        transformation := true;
      }
      if code == ARROW_DOWN {
        transform := transform.(ty := transform.ty - TRANSLATION_STEP);
        transformation := true;
      }
    }

    /** Rebuilds both matrices from the current transform when the dirty flag is raised. */
    method RebuildMatrices(cols: int, rows: int)
      modifies this
      ensures Abs() == Recompute(old(Abs()), cols, rows)
    {
      if transformation {
        modelMatrixGpu := GpuOf(transform);
        modelMatrixCpu := CpuOf(transform, cols, rows);
        transformation := false;
      }
    }

    /** Shows the frame through the active back end, or tears OpenGL down when its window is gone. */
    method Show(shouldClose: bool) returns (view: View, calls: seq<LibCall>)
      modifies this
      ensures Presentation(Abs(), view, calls) == Present(old(Abs()), shouldClose)
    {
      calls := [];
      if renderWithOpenGL {
        if window.Some? && !shouldClose {
          view := GlView(modelMatrixGpu, RenderFrame(shouldClose, false, texture.Some?, scene.Some?, camera.Some?));
        } else {
          renderWithOpenGL := false;
          calls := TearDown(false);
          view := GlWindowClosed;
        }
      } else {
        ghost var f := filters;
        var ops: seq<CpuOp> := [];
        if filters.grayscale {
          ops := ops + [CvtGray];
        }
        if filters.gaussian {
          ops := ops + [GaussianBlur];
        }
        assert ops == (if f.grayscale then [CvtGray] else []) + (if f.gaussian then [GaussianBlur] else []);
        if filters.edge {
          if !filters.grayscale {
            filters := filters.(grayscale := true);
            ops := ops + [CvtGray];
          }
          ops := ops + [CannyEdges];
        }
        assert ops == (if f.grayscale then [CvtGray] else []) + (if f.gaussian then [GaussianBlur] else [])
                      + (if f.edge then (if f.grayscale then [] else [CvtGray]) + [CannyEdges] else []);
        if filters.pixelated {
          ops := ops + [PixelateResize];
        }
        assert ops == CpuPipeline(f);
        assert filters == f.(grayscale := f.grayscale || f.edge);
        view := CpuView(ops, modelMatrixCpu);
      }
    }

    /** One iteration of the render loop; the invariant of the loop state is kept. */
    method Iterate(inp: Input) returns (r: Report)
      requires Valid(Abs())
      modifies this
      ensures StepResult(Abs(), r) == Step(old(Abs()), inp)
      ensures Valid(Abs())
    {
      ghost var s0 := Abs();
      ControllerProperties.StepValid(s0, inp);
      if inp.capture.EmptyFrame? {
        return Report(Exited(CaptureFailed), []);
      }
      var cols, rows := inp.capture.cols, inp.capture.rows;
      var key := NO_KEY;
      if renderWithOpenGL {
        if window.Some? {
          key := WindowKey(inp.pressed);
        }
      } else {
        key := inp.cvKey;
      }
      assert key == LoopKey(s0.renderWithOpenGL, s0.window.Some?, inp.pressed, inp.cvKey);
      if key == ESCAPE {
        return Report(Exited(EscapePressed), []);
      }
      ToggleFilterFlags(key);
      ghost var s1 := Abs();
      var calls: seq<LibCall> := [];
      if key == MODE_TOGGLE {
        calls := SwitchMode(inp.init, cols, rows);
      }
      ghost var t := if key == MODE_TOGGLE then ToggleMode(s1, inp.init, cols, rows) else Transition(s1, []);
      assert Transition(Abs(), calls) == t;
      ApplyDeltas(inp.pressed, inp.cvKeyEx);
      RebuildMatrices(cols, rows);
      ghost var s2 := Abs();
      assert s2 == Recompute(TransformInput(t.state, inp.pressed, inp.cvKeyEx), cols, rows);
      var view, shown := Show(inp.shouldClose);
      r := Report(Presented(view), calls + shown);
      assert Present(s2, inp.shouldClose) == Presentation(Abs(), view, shown);
    }

    /** The loop itself: iterations over `inputs` until one of them exits. */
    method Loop(inputs: seq<Input>) returns (reports: seq<Report>)
      requires Valid(Abs())
      modifies this
      ensures RunResult(Abs(), reports) == Run(old(Abs()), inputs)
      ensures Valid(Abs())
    {
      reports := [];
      var i := 0;
      while i < |inputs|
        invariant 0 <= i <= |inputs|
        invariant Valid(Abs())
        invariant var rest := Run(Abs(), inputs[i..]);
                  Run(old(Abs()), inputs) == RunResult(rest.state, reports + rest.reports)
        decreases |inputs| - i
      {
        ghost var before := Abs();
        assert inputs[i..][0] == inputs[i] && inputs[i..][1..] == inputs[i + 1..];
        var r := Iterate(inputs[i]);
        if r.outcome.Exited? {
          reports := reports + [r];
          assert Run(before, inputs[i..]) == RunResult(Abs(), [r]);
          return;
        }
        reports := reports + [r];
        i := i + 1;
      }
    }
  }
}
