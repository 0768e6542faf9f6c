# Render-mode controller of the live video viewer

The viewer reads frames from a camera and shows each one through one of two
back ends:

- OpenCV on the CPU: filter calls, then an affine warp.
- OpenGL on the GPU: a textured quad in a scene, with a model matrix.

This project models the controller in `main.cpp` that runs between the two.
It covers:

- the loop key and the transform key (`getTransformKey`);
- the four filter toggles;
- the `g` toggle between the back ends, which opens a window
  (`initializeOpenGLWindow`) and acquires the OpenGL objects, or tears them
  down;
- the six transform deltas and the `transformation` dirty flag that rebuilds
  both cached matrices;
- the presentation of a frame: the CPU filter pipeline, or the null guards of
  `renderFrameWithOpenGL`;
- the teardown when the OpenGL window should close.

The modules follow the program:

- `Keys` (`keys.dfy`) holds the key codes, the loop key and `getTransformKey`.
- `Transforms` (`transforms.dfy`) holds the logical transform in fixed units,
  the deltas, and the two matrices kept as the parameter snapshots they are
  built from.
- `Resources` (`resources.dfy`) holds:
  - nullable handles into a heap of OpenGL objects;
  - the GLFW library state;
  - the four ways `initializeOpenGLWindow` ends;
  - the guards of `renderFrameWithOpenGL`.
- `Controller` (`controller.dfy`) holds the loop state as a value:
  - one iteration as `Step`, built from one function per phase;
  - whole runs as `Run`;
  - the invariant `Valid` of the loop state.
- `ControllerProperties` (`controller_properties.dfy`) proves that every phase,
  iteration and run keeps the invariant. It also proves what each transition
  acquires, keeps or releases.
- `Viewer` (`viewer.dfy`) is the loop as the program runs it. The loop-scope
  variables are the fields of the class `Viewer.Viewer`, updated in place.
  Each method is proved to do what the matching `Controller` function says,
  through the abstraction `Abs()`.

The outside world is passed in as one `Input` per iteration:

- the captured frame, or an empty one;
- the values `cv::waitKey(1)` and `cv::waitKeyEx(1)` return;
- the GLFW keys held in the window;
- how `initializeOpenGLWindow` ends;
- whether the window should close.

Each iteration reports, in order, the `LibCall`s that create, destroy or
terminate windows, plus the steps of `initializeOpenGLWindow`. Key polling,
`glfwWindowShouldClose`, buffer swaps, event polling, window hints, the
framebuffer callback and `cv::imshow` are not reported.

Units are fixed:

- the scale is in tenths and starts at 10;
- the angle is in degrees and steps by 5;
- the vertical pan is in tenths of the frame height.

The model follows the code as written, including these behaviours:

- Leaving OpenGL mode deletes only the scene and the camera and terminates
  GLFW. The shader, quad and texture handles survive. Re-entering OpenGL mode
  allocates new ones over them and orphans the old objects
  (`ReentryOrphansPrevious`). So leaving OpenGL mode does not release all six
  resources.
- Escape leaves the loop without releasing the OpenGL resources
  (`EscapeExits`).
- A failed GLAD load returns no window, but the created window stays alive and
  GLFW stays initialised (`FailedAcquisition`).
- Zooming out has no floor: ten zoom-outs from the start reach scale 0 in
  tenths (`TenZoomOutsReachZeroScale`). In the program's `float` arithmetic
  the scale is then just below 0.
- Edge detection on the CPU path turns the grayscale flag on for good.

## Model

| member | source | states |
|---|---|---|
| Keys.CodeOf | main.cpp:19-30 | each polled GLFW key maps to a code distinct from "no key" |
| Keys.WindowKey | main.cpp:178-184 | in the window, Escape is the key exactly when it is held, and it overrides G; G is the key exactly when it is held without Escape; otherwise there is no key |
| Keys.LoopKey | main.cpp:174-189 | in OpenGL mode the loop key is only none, Escape or G, and none without a window; in OpenCV mode it is the `waitKey` value |
| Keys.TransformKey | main.cpp:15-37 | with a window in OpenGL mode the result is one of the six transform codes or none; otherwise it is the `waitKeyEx` value |
| Keys.FirstPressedIsEarliest | main.cpp:17-31 | the reference priority search yields none exactly when no key of the order is held, and otherwise the code of the earliest held key |
| Keys.TransformKeyFollowsPriority | main.cpp:17-31 | in OpenGL mode `getTransformKey` equals the priority search over I, O, Left, Right, Up, Down |
| Keys.TransformKeyPriority | main.cpp:17-31 | the transform key is a key's code exactly when that key is held and no earlier key in the order is; it is none exactly when none of the six is held |
| Transforms.ApplyTransformKey | main.cpp:281-310 | the dirty flag is raised exactly for a transform key; each key moves exactly its one parameter by its step; any other code leaves the transform unchanged |
| Transforms.OppositeKeysCancel | main.cpp:281-310 | zoom in/out, left/right and up/down undo each other |
| Transforms.ZoomOutUnbounded | main.cpp:286-290 | n zoom-outs lower the scale by exactly n tenths, with no floor |
| Transforms.TenZoomOutsReachZeroScale | main.cpp:152-290 | ten zoom-outs from the initial scale reach scale 0 in tenths (in `float`, just below 0) |
| Transforms.GpuOf | main.cpp:314-317 | the GPU matrix is built from exactly the current scale, angle and pan |
| Transforms.CpuOf | main.cpp:319-321 | the CPU matrix has the current frame size, the negated angle (y down) and the same scale as the GPU matrix |
| Transforms.CpuOfRoundTrip | main.cpp:319-321 | the transform is recovered from the CPU matrix of any non-empty frame |
| Transforms.CpuOfInjective | main.cpp:319-321 | distinct transforms give distinct CPU matrices on a non-empty frame |
| Transforms.ProjectionsAgree | main.cpp:312-324 | matrices rebuilt together share one parameter snapshot |
| Transforms.SameSnapshotSameParams | main.cpp:312-324 | matrices that share a snapshot read back the same transform |
| Resources.FragmentSourcesDistinct | main.cpp:238-249 | the three fragment programs are distinct files |
| Resources.ChooseVariant | main.cpp:238-249 | the grayscale shader exactly when grayscale is set; the pixelate shader exactly when pixelate is set without grayscale; the plain shader otherwise |
| Resources.Delete | main.cpp:269-272 | deleting a handle removes exactly its object; a null handle removes nothing; other objects are unchanged |
| Resources.InitializeWindow | main.cpp:79-112 | a window exists exactly on success and takes the fresh id; a failed GLFW init changes nothing; a failed window creation terminates GLFW; a failed GLAD load leaves a live window and GLFW initialised without terminating; ids stay fresh |
| Resources.RenderFrame | main.cpp:39-72 | nothing is drawn exactly when the window should close; the texture is updated exactly for a non-empty frame and a non-null texture; the scene is rendered exactly when scene and camera are non-null |
| Controller.Initial | main.cpp:136-158 | the state before the loop is in OpenCV mode, keeps the invariant, and has the dirty flag raised |
| Controller.ToggleFilters | main.cpp:195-214 | each filter key flips exactly its own flag; any other key changes no flag |
| Controller.Acquire | main.cpp:232-261 | no ensures of its own; its properties are stated by `AcquireAllocatesFresh`, `AcquireValid` and `SuccessfulAcquisition` |
| Controller.Release | main.cpp:264-277 | without a window nothing happens; with one, window, scene and camera become null, GLFW is terminated by the last call, the window is destroyed first exactly on the toggle path, and exactly the scene and camera objects are removed |
| Controller.ToggleMode | main.cpp:216-278 | the result is in OpenGL mode exactly when it started in OpenCV mode and the window initialisation succeeded, with the fresh window; entering starts with `cv::destroyAllWindows`; further properties in `ToggleModeValid`, `FailedAcquisition`, `SuccessfulAcquisition` and `ToggleBackToOpenCv` |
| Controller.TransformInput | main.cpp:279-310 | the dirty flag is raised afterwards exactly when it was raised before or the iteration's transform key is one of the six |
| Controller.Recompute | main.cpp:312-324 | the flag is down afterwards; when it was up, both matrices come from the current transform and the frame size; when it was down, nothing changes |
| Controller.CpuPipeline | main.cpp:350-372 | the number of filter calls is one gray conversion when grayscale or edge is set plus one per blur, edge and pixelate flag; order and counts in the `CpuPipeline*` lemmas |
| Controller.Present | main.cpp:326-377 | the frame is drawn through OpenGL exactly in OpenGL mode with an open window, pushing the GPU matrix and changing nothing; it goes through OpenCV exactly in OpenCV mode, with the filter calls of the flags and the CPU matrix, and grayscale is left on after edge detection; OpenGL mode is left exactly when the frame is not drawn through OpenGL |
| Controller.Step | main.cpp:165-377 | an iteration that exits changes nothing and issues no call; further properties in `StepValid`, `EmptyFrameExits`, `EscapeExits` and the transition lemmas |
| Controller.Run | main.cpp:165-400 | a run gives at most one report per input and at least one for a non-empty input; further properties in `RunStopsAtFirstExit` |
| ControllerProperties.AcquireAllocatesFresh | main.cpp:250-260 | with all ids below the next fresh one, the acquisition adds exactly the five next ids, keeps every existing object, binds the quad to the shader and the shader to the texture, puts only the quad in the scene, picks the fragment program from the flags and sizes the texture to the frame; nothing else in the state changes |
| ControllerProperties.AcquireValid | main.cpp:232-261 | acquiring after a window was obtained gives a state that keeps the invariant |
| ControllerProperties.ToggleModeValid | main.cpp:216-278 | the mode toggle keeps the invariant |
| ControllerProperties.TransformInputValid | main.cpp:279-310 | the transform deltas keep the invariant |
| ControllerProperties.RecomputeValid | main.cpp:312-324 | the matrix rebuild keeps the invariant and leaves the dirty flag down |
| ControllerProperties.PresentValid | main.cpp:326-377 | the presentation, including its teardown, keeps the invariant |
| ControllerProperties.ToggleModeKeepsTransform | main.cpp:216-278 | the mode toggle changes no filter flag, transform, dirty flag or matrix |
| ControllerProperties.PresentKeepsTransform | main.cpp:326-377 | the presentation changes no transform, dirty flag or matrix |
| ControllerProperties.PresentKeepsBindings | main.cpp:333-346 | the presentation keeps the shader, quad and texture handles and deletes nothing but the scene and the camera |
| ControllerProperties.StepValid | main.cpp:165-400 | one iteration keeps the invariant |
| ControllerProperties.RunValid | main.cpp:165-400 | any run keeps the invariant |
| ControllerProperties.RunPresentsUntilLast | main.cpp:165-193 | every report of a run but the last presents a frame |
| ControllerProperties.RunShortEndsOnExit | main.cpp:165-193 | a run with fewer reports than inputs ends on an exit |
| ControllerProperties.RunStopsAtFirstExit | main.cpp:165-193 | a run gives at most one report per input and at least one for a non-empty input; only the last report can be an exit; a run that stops early ends on an exit |
| ControllerProperties.RunIgnoresInputsAfterExit | main.cpp:165-193 | inputs after an exit do not change the run |
| ControllerProperties.RunExtends | main.cpp:165-400 | without an exit so far, one more input adds exactly one iteration |
| ControllerProperties.ReachableStates | main.cpp:136-400 | after any run from the start: OpenCV mode has no window, scene or camera, and shader, quad and texture are all null or all live and bound; OpenGL mode has all six live and wired; the matrices share a snapshot |
| ControllerProperties.EmptyFrameExits | main.cpp:167-172 | an empty frame exits with nothing changed and no call issued |
| ControllerProperties.EscapeExits | main.cpp:176-193 | Escape exits with nothing changed or released, and it overrides G in the window |
| ControllerProperties.FailedAcquisition | main.cpp:216-231 | a failed window initialisation returns to OpenCV mode, creates no resource and leaves the heap as it was; the calls and GLFW state of each failure kind are stated |
| ControllerProperties.SuccessfulAcquisition | main.cpp:216-332 | a successful toggle leaves all six resources live, fresh and wired; the shader is chosen from the flags at entry; the texture has the frame size; exactly five objects are added; the same iteration applies the window's transform key and draws |
| ControllerProperties.ToggleModeAllocatesAfter | main.cpp:226-261 | a successful toggle gives the window and the five new objects the ids after every id in use, and keeps every existing object |
| ControllerProperties.ReentryOrphansPrevious | main.cpp:232-277 | re-entering OpenGL mode replaces the surviving shader, quad and texture handles while the old objects stay live |
| ControllerProperties.OpenGlFrame | main.cpp:176-332 | an OpenGL iteration without G, Escape or closing draws with the current GPU matrix, changes no resource, and applies the first held transform key |
| ControllerProperties.ToggleBackToOpenCv | main.cpp:264-377 | G in OpenGL mode deletes scene and camera, destroys the window, terminates GLFW, nulls the three handles, keeps shader, quad and texture, and presents through OpenCV in the same iteration |
| ControllerProperties.WindowClosedTeardown | main.cpp:333-346 | a window that should close leads to the teardown without destroying the window; handles, heap and GLFW state are as stated; filters and shader, quad and texture are unchanged |
| ControllerProperties.OpenGlModeKeepsFilters | main.cpp:176-366 | OpenGL mode toggles no filter; its only flag change is the forced grayscale when toggling back with edge set; staying in OpenGL keeps the filters, the shader and the heap |
| ControllerProperties.OpenCvFrame | main.cpp:186-377 | an OpenCV iteration without Escape or G toggles at most one filter, applies the `waitKeyEx` delta, filters and warps with the cached CPU matrix, and leaves grayscale on after edge detection |
| ControllerProperties.CpuPipelineConvertsOnce | main.cpp:350-366 | the frame is converted to gray exactly once when grayscale or edge is set, and never otherwise |
| ControllerProperties.CpuPipelineCounts | main.cpp:354-372 | blur, edge detection and pixelation are each applied exactly once when their flag is set, and never otherwise |
| ControllerProperties.CpuPipelineGrayBeforeEdges | main.cpp:350-366 | every gray conversion comes before edge detection |
| ControllerProperties.CpuPipelineBlurBeforeEdges | main.cpp:354-365 | the blur comes before edge detection |
| ControllerProperties.CpuPipelineBlurOrder | main.cpp:350-366 | the blur comes after the gray conversion exactly when the grayscale flag was set |
| ControllerProperties.CpuPipelinePixelatesLast | main.cpp:367-372 | pixelation, when set, is the last filter |
| ControllerProperties.DirtyFlag | main.cpp:155-324 | after every iteration that does not exit, the flag is down and both matrices come from the current transform; they are rebuilt for the frame size when the flag was up or the transform moved, and are otherwise kept |
| ControllerProperties.FirstIterationRecomputes | main.cpp:155-324 | the first iteration builds both matrices from the current transform and frame size |
| Viewer.Viewer.constructor | main.cpp:136-158 | the fields start as the declarations before the loop |
| Viewer.Viewer.AcquireResources | main.cpp:237-261 | the new fields are exactly the acquisition of the model |
| Viewer.Viewer.TearDown | main.cpp:267-345 | the new fields and the issued calls are exactly the teardown of the model, with or without destroying the window |
| Viewer.Viewer.ToggleFilterFlags | main.cpp:195-214 | only the filter flags change, as the toggle function says |
| Viewer.Viewer.SwitchMode | main.cpp:216-278 | the new fields and the calls are exactly the mode toggle of the model |
| Viewer.Viewer.ApplyDeltas | main.cpp:279-310 | the new fields are exactly the transform deltas of the model |
| Viewer.Viewer.RebuildMatrices | main.cpp:312-324 | the new fields are exactly the matrix rebuild of the model |
| Viewer.Viewer.Show | main.cpp:326-377 | the new fields, the view and the calls are exactly the presentation of the model |
| Viewer.Viewer.Iterate | main.cpp:165-377 | one iteration in place equals `Step` and keeps the invariant |
| Viewer.Viewer.Loop | main.cpp:165-400 | the loop in place equals `Run` over the inputs and keeps the invariant |

## Left out

- The OpenCV calls (`cvtColor`, `GaussianBlur`, `Canny`, `resize`,
  `warpAffine`, `imshow`, `waitKey`, `waitKeyEx`, `flip`): each result is a
  parameter (`Input.cvKey`, `Input.cvKeyEx`) or an entry in the `CpuOp` list,
  because their pixel work is outside the controller. The vertical flip of the
  frame before the texture is created or updated is not modelled at all.
- The trigonometry of `glm::rotate` and `cv::getRotationMatrix2D`: matrices are
  kept as the parameter snapshots they are built from, with floats replaced by
  fixed units. Rounding of the `0.1f` steps is not modelled.
- The GLFW, GLAD and GL calls: window hints, viewport, depth test, the
  framebuffer callback, clear, swap, poll and the vertex array object. The
  calls that create, destroy or terminate windows, and the steps of
  `initializeOpenGLWindow`, are kept as `LibCall`s.
- The internals of `Texture`, `Quad`, `Scene`, `Camera` and `TextureShader`.
  `Quad::addTransform` and `Texture::update` are reported in the `View` and do
  not change the heap. The camera keeps the capture size its aspect ratio
  comes from; its position is not modelled. None of these classes'
  implementations is modelled.
- Opening the camera and setting its resolution before the loop: the capture
  size is a parameter.
- The FPS counter, the clocks and all console output.
- Controller.Release, Controller.Valid, ControllerProperties.ReachableStates and
  ControllerProperties.ReentryOrphansPrevious assume two things. First, that
  `delete myScene` frees only the scene and not the quad added to it; the
  `Scene` destructor is not part of this model. Second, that objects are
  "live" as C++ objects only: the GL texture and program names they hold die
  with the context at `glfwTerminate`, and the model does not track them.
  If the destructor does free the quad, the quad handle dangles after every
  teardown, and these members' claims about a live quad do not hold for the
  program.
