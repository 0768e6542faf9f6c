/**
 * Key codes the viewer reacts to, and the two key queries of the render loop:
 * the loop key (exit, filter toggles, mode toggle) and the transform key
 * (`getTransformKey`).
 */
module Keys {

  /** What a key query yields when no key is pressed. */
  const NO_KEY: int := -1
  const ESCAPE: int := 27
  const MODE_TOGGLE: int := 'g' as int
  const GRAYSCALE_TOGGLE: int := '1' as int
  const BLUR_TOGGLE: int := '2' as int
  const EDGE_TOGGLE: int := '3' as int
  const PIXELATE_TOGGLE: int := '4' as int
  const ZOOM_IN: int := 'i' as int
  const ZOOM_OUT: int := 'o' as int
  /** The extended codes HighGUI reports for the arrow keys. */
  const ARROW_LEFT: int := 2424832
  const ARROW_UP: int := 2490368
  const ARROW_RIGHT: int := 2555904
  const ARROW_DOWN: int := 2621440

  /** The GLFW keys the viewer polls in its OpenGL window. */
  datatype GlfwKey = KeyG | KeyEscape | KeyI | KeyO | KeyLeft | KeyRight | KeyUp | KeyDown

  /** The code the viewer associates with each polled GLFW key. */
  function CodeOf(k: GlfwKey): (c: int)
    ensures c != NO_KEY
  {
    match k
    case KeyG => MODE_TOGGLE
    case KeyEscape => ESCAPE
    case KeyI => ZOOM_IN
    case KeyO => ZOOM_OUT
    case KeyLeft => ARROW_LEFT
    case KeyRight => ARROW_RIGHT
    case KeyUp => ARROW_UP
    case KeyDown => ARROW_DOWN
  }

  /**
   * The loop key read from the OpenGL window: G is polled first and Escape
   * second, so Escape overrides G when both are held.
   */
  function WindowKey(pressed: set<GlfwKey>): (k: int)
    ensures k == ESCAPE <==> KeyEscape in pressed
    ensures k == MODE_TOGGLE <==> KeyG in pressed && KeyEscape !in pressed
    ensures k == NO_KEY <==> KeyG !in pressed && KeyEscape !in pressed
  {
    var afterG := if KeyG in pressed then MODE_TOGGLE else NO_KEY;
    if KeyEscape in pressed then ESCAPE else afterG
  }

  /**
   * The loop key of one iteration. In OpenGL mode it comes from the window
   * (nothing when there is no window); in OpenCV mode it is whatever
   * `cv::waitKey(1)` returned, passed in as `cvKey`.
   */
  function LoopKey(renderWithOpenGL: bool, hasWindow: bool, pressed: set<GlfwKey>, cvKey: int): (k: int)
    ensures renderWithOpenGL ==> k == NO_KEY || k == ESCAPE || k == MODE_TOGGLE
    ensures renderWithOpenGL && !hasWindow ==> k == NO_KEY
    ensures !renderWithOpenGL ==> k == cvKey
  {
    if renderWithOpenGL then (if hasWindow then WindowKey(pressed) else NO_KEY) else cvKey
  }

  /**
   * `getTransformKey`: in OpenGL mode with a window, the first held key of
   * I, O, Left, Right, Up, Down; otherwise the code `cv::waitKeyEx(1)`
   * returned, passed in as `cvKeyEx`.
   */
  function TransformKey(hasWindow: bool, renderWithOpenGL: bool, pressed: set<GlfwKey>, cvKeyEx: int): (k: int)
    ensures renderWithOpenGL && hasWindow ==>
              k in {NO_KEY, ZOOM_IN, ZOOM_OUT, ARROW_LEFT, ARROW_RIGHT, ARROW_UP, ARROW_DOWN}
    ensures !(renderWithOpenGL && hasWindow) ==> k == cvKeyEx
  {
    if renderWithOpenGL && hasWindow then
      if KeyI in pressed then ZOOM_IN
      else if KeyO in pressed then ZOOM_OUT
      else if KeyLeft in pressed then ARROW_LEFT
      else if KeyRight in pressed then ARROW_RIGHT
      else if KeyUp in pressed then ARROW_UP
      else if KeyDown in pressed then ARROW_DOWN
      else NO_KEY
    else
      cvKeyEx
  }

  /** The priority order in which the transform keys are polled. */
  const TRANSFORM_PRIORITY: seq<GlfwKey> := [KeyI, KeyO, KeyLeft, KeyRight, KeyUp, KeyDown]

  /** Reference definition: the code of the first key of `order` that is held. */
  function FirstPressed(order: seq<GlfwKey>, pressed: set<GlfwKey>): int
  {
    if order == [] then NO_KEY
    else if order[0] in pressed then CodeOf(order[0])
    else FirstPressed(order[1..], pressed)
  }

  /** `FirstPressed` finds nothing exactly when no key of the order is held, and otherwise the earliest held one. */
  lemma {:induction false} FirstPressedIsEarliest(order: seq<GlfwKey>, pressed: set<GlfwKey>)
    ensures FirstPressed(order, pressed) == NO_KEY <==> forall i :: 0 <= i < |order| ==> order[i] !in pressed
    ensures forall i :: 0 <= i < |order| && order[i] in pressed && (forall j :: 0 <= j < i ==> order[j] !in pressed)
              ==> FirstPressed(order, pressed) == CodeOf(order[i])
  {
    if order != [] && order[0] !in pressed {
      FirstPressedIsEarliest(order[1..], pressed);
      assert forall i :: 1 <= i < |order| ==> order[i] == order[1..][i - 1];
      forall i | 0 <= i < |order| && order[i] in pressed && (forall j :: 0 <= j < i ==> order[j] !in pressed)
        ensures FirstPressed(order, pressed) == CodeOf(order[i])
      {
        assert i > 0;
        assert order[1..][i - 1] in pressed;
        assert forall j :: 0 <= j < i - 1 ==> order[1..][j] == order[j + 1];
      }
    }
  }

  /** In OpenGL mode, `getTransformKey` is exactly the priority search over I, O, Left, Right, Up, Down. */
  lemma TransformKeyFollowsPriority(pressed: set<GlfwKey>, cvKeyEx: int)
    ensures TransformKey(true, true, pressed, cvKeyEx) == FirstPressed(TRANSFORM_PRIORITY, pressed)
  {
    var p0 := TRANSFORM_PRIORITY;
    var p1 := [KeyO, KeyLeft, KeyRight, KeyUp, KeyDown];
    var p2 := [KeyLeft, KeyRight, KeyUp, KeyDown];
    var p3 := [KeyRight, KeyUp, KeyDown];
    var p4 := [KeyUp, KeyDown];
    var p5 := [KeyDown];
    assert p0[1..] == p1 && p1[1..] == p2 && p2[1..] == p3;
    assert p3[1..] == p4 && p4[1..] == p5 && p5[1..] == [];
    assert FirstPressed(p5, pressed) == if KeyDown in pressed then ARROW_DOWN else NO_KEY;
    assert FirstPressed(p4, pressed) == if KeyUp in pressed then ARROW_UP else FirstPressed(p5, pressed);
    assert FirstPressed(p3, pressed) == if KeyRight in pressed then ARROW_RIGHT else FirstPressed(p4, pressed);
    assert FirstPressed(p2, pressed) == if KeyLeft in pressed then ARROW_LEFT else FirstPressed(p3, pressed);
    assert FirstPressed(p1, pressed) == if KeyO in pressed then ZOOM_OUT else FirstPressed(p2, pressed);
    assert FirstPressed(p0, pressed) == if KeyI in pressed then ZOOM_IN else FirstPressed(p1, pressed);
  }

  /**
   * Consequence for one OpenGL-mode iteration: the transform key is a given
   * key's code exactly when that key is held and no key before it in the
   * priority order is.
   */
  lemma TransformKeyPriority(pressed: set<GlfwKey>, i: nat)
    requires i < |TRANSFORM_PRIORITY|
    ensures TransformKey(true, true, pressed, NO_KEY) == CodeOf(TRANSFORM_PRIORITY[i])
            <==> TRANSFORM_PRIORITY[i] in pressed && forall j :: 0 <= j < i ==> TRANSFORM_PRIORITY[j] !in pressed
    ensures TransformKey(true, true, pressed, NO_KEY) == NO_KEY
            <==> forall j :: 0 <= j < |TRANSFORM_PRIORITY| ==> TRANSFORM_PRIORITY[j] !in pressed
  {
    TransformKeyFollowsPriority(pressed, NO_KEY);
    FirstPressedIsEarliest(TRANSFORM_PRIORITY, pressed);
  }
}
