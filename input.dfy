/**
 * Keyboard handling: Escape asks the window to close, Space cycles the
 * polygon rasterization mode filled -> outlines -> points -> filled.
 */
module Input {

  datatype PolygonMode = Fill | Line | Point

  datatype Key = Escape | Space | OtherKey

  datatype KeyAction = Press | Release | Repeat

  /** The state the key callback reads and changes: the window's close flag
      and the current polygon mode. */
  datatype InputState = InputState(shouldClose: bool, mode: PolygonMode)

  /** The position of a mode in the cycle Fill, Line, Point. */
  function ModeIndex(m: PolygonMode): (k: nat)
    ensures k < 3
  {
    match m
    case Fill => 0
    case Line => 1
    case Point => 2
  }

  /** The mode a Space press switches to from the current one: the next one of the cycle. */
  function NextMode(m: PolygonMode): (r: PolygonMode)
    ensures ModeIndex(r) == (ModeIndex(m) + 1) % 3
    ensures r != m
  {
    match m
    case Fill => Line
    case Line => Point
    case Point => Fill
  }

  /** The key callback. Only presses act; both checks are made in turn. */
  function OnKey(s: InputState, key: Key, action: KeyAction): (r: InputState)
    ensures r.shouldClose == (s.shouldClose || (action == Press && key == Escape))
    ensures r.mode == if action == Press && key == Space then NextMode(s.mode) else s.mode
  {
    if action == Press then
      var s1 := if key == Escape then s.(shouldClose := true) else s;
      if key == Space then s1.(mode := NextMode(s1.mode)) else s1
    else
      s
  }

  /** Escape, pressed, sets the close flag and leaves the mode alone. */
  lemma EscapeRequestsClose(s: InputState)
    ensures OnKey(s, Escape, Press) == InputState(true, s.mode)
  {
  }

  /** Space, pressed, advances the mode and leaves the close flag alone. */
  lemma SpaceAdvancesMode(s: InputState)
    ensures OnKey(s, Space, Press) == InputState(s.shouldClose, NextMode(s.mode))
  {
  }

  /** Releases, repeats and other keys change nothing; no key ever clears the close flag. */
  lemma OtherEventsIgnored(s: InputState, key: Key, action: KeyAction)
    ensures action != Press || key == OtherKey ==> OnKey(s, key, action) == s
    ensures s.shouldClose ==> OnKey(s, key, action).shouldClose
  {
  }

  /** The state after n Space presses. */
  function SpacePresses(s: InputState, n: nat): (r: InputState)
    decreases n
  {
    if n == 0 then s else SpacePresses(OnKey(s, Space, Press), n - 1)
  }

  /** The mode reached from m after k steps of the cycle, for k < 3. */
  function ModeAfter(m: PolygonMode, k: nat): (r: PolygonMode)
    requires k < 3
    ensures ModeIndex(r) == (ModeIndex(m) + k) % 3
  {
    if k == 0 then m else if k == 1 then NextMode(m) else NextMode(NextMode(m))
  }

  /** The cycle has period exactly three: one or two presses change the
      mode, three restore it. */
  lemma ModeCycleHasPeriodThree(m: PolygonMode)
    ensures NextMode(m) != m && NextMode(NextMode(m)) != m
    ensures NextMode(NextMode(NextMode(m))) == m
  {
  }

  /** n Space presses advance the mode by n modulo 3 and keep the close flag. */
  lemma {:induction false} SpacePressesCycle(s: InputState, n: nat)
    ensures SpacePresses(s, n) == InputState(s.shouldClose, ModeAfter(s.mode, n % 3))
    decreases n
  {
    if n > 0 {
      var s' := OnKey(s, Space, Press);
      SpaceAdvancesMode(s);
      SpacePressesCycle(s', n - 1);
      ModeCycleHasPeriodThree(s.mode);
    }
  }

  /** In particular three presses return to the starting state. */
  lemma ThreePressesRestore(s: InputState)
    ensures SpacePresses(s, 3) == s
  {
    SpacePressesCycle(s, 3);
  }
}
