/**
 * Input events and the key/modifier-to-direction table.
 * Key codes and modifier masks carry their SDL3 values.
 */
module Input {
  import opened Optional
  import opened Positions

  const SDLK_RETURN: int := 0x0D
  const SDLK_ESCAPE: int := 0x1B
  const SDLK_PERIOD: int := 0x2E
  const SDLK_A: int := 0x61
  const SDLK_B: int := 0x62
  const SDLK_H: int := 0x68
  const SDLK_J: int := 0x6A
  const SDLK_K: int := 0x6B
  const SDLK_L: int := 0x6C
  const SDLK_N: int := 0x6E
  const SDLK_U: int := 0x75
  const SDLK_Y: int := 0x79
  const SDLK_Z: int := 0x7A
  const SDLK_RIGHT: int := 0x4000_004F
  const SDLK_LEFT: int := 0x4000_0050
  const SDLK_DOWN: int := 0x4000_0051
  const SDLK_UP: int := 0x4000_0052
  const SDLK_HOME: int := 0x4000_004A
  const SDLK_PAGEUP: int := 0x4000_004B
  const SDLK_END: int := 0x4000_004D
  const SDLK_PAGEDOWN: int := 0x4000_004E
  const SDLK_KP_ENTER: int := 0x4000_0058
  const SDLK_KP_1: int := 0x4000_0059
  const SDLK_KP_2: int := 0x4000_005A
  const SDLK_KP_3: int := 0x4000_005B
  const SDLK_KP_4: int := 0x4000_005C
  const SDLK_KP_5: int := 0x4000_005D
  const SDLK_KP_6: int := 0x4000_005E
  const SDLK_KP_7: int := 0x4000_005F
  const SDLK_KP_8: int := 0x4000_0060
  const SDLK_KP_9: int := 0x4000_0061
  const SDLK_RETURN2: int := 0x4000_009E

  /** Modifier masks: either shift key, either control key. */
  const KMOD_SHIFT: bv16 := 0x0003
  const KMOD_CTRL: bv16 := 0x00C0

  /** The left mouse button. */
  const BUTTON_LEFT: int := 1

  /** The events the game reacts to; mouse coordinates are already converted to tiles. */
  datatype Event =
    | KeyDown(key: int, mod: bv16)
    | MouseMotion(x: int, y: int)
    | MouseButtonDown(button: int)
    | MouseButtonUp(button: int)
    | WindowMouseLeave
    | QuitRequested
    | OtherEvent

  /** The keys that `GetDirFrom` maps to a direction. */
  const DIRECTION_KEYS: set<int> := {
    SDLK_PERIOD, SDLK_KP_5, SDLK_UP, SDLK_DOWN, SDLK_LEFT, SDLK_RIGHT,
    SDLK_HOME, SDLK_END, SDLK_PAGEUP, SDLK_PAGEDOWN,
    SDLK_KP_1, SDLK_B, SDLK_KP_2, SDLK_J, SDLK_KP_3, SDLK_N, SDLK_KP_4, SDLK_H,
    SDLK_KP_6, SDLK_L, SDLK_KP_7, SDLK_Y, SDLK_KP_8, SDLK_K, SDLK_KP_9, SDLK_U
  }

  predicate IsUnit(d: Position) {
    -1 <= d.x <= 1 && -1 <= d.y <= 1
  }

  /** The vertical component Left and Right take from the modifiers: -1 for shift, +1 for control. */
  function ModifiedY(mod: bv16): (dy: int)
    ensures -1 <= dy <= 1
    ensures dy == -1 <==> (mod & KMOD_SHIFT != 0 && mod & KMOD_CTRL == 0)
    ensures dy == 1 <==> (mod & KMOD_SHIFT == 0 && mod & KMOD_CTRL != 0)
  {
    (if mod & KMOD_SHIFT != 0 then -1 else 0) + (if mod & KMOD_CTRL != 0 then 1 else 0)
  }

  /** The direction a key-down event stands for, if any. */
  function GetDirFrom(event: Event): (dir: Option<Position>)
    ensures !event.KeyDown? ==> dir == None
    ensures dir.Some? ==> IsUnit(dir.value)
    ensures event.KeyDown? ==> (dir.Some? <==> event.key in DIRECTION_KEYS)
  {
    match event
    case KeyDown(key, mod) =>
      if key == SDLK_PERIOD || key == SDLK_KP_5 then Some(Position(0, 0))
      else if key == SDLK_UP then Some(Position(0, -1))
      else if key == SDLK_DOWN then Some(Position(0, 1))
      else if key == SDLK_LEFT then Some(Position(-1, ModifiedY(mod)))
      else if key == SDLK_RIGHT then Some(Position(1, ModifiedY(mod)))
      else if key == SDLK_HOME then Some(Position(-1, -1))
      else if key == SDLK_END then Some(Position(-1, 1))
      else if key == SDLK_PAGEUP then Some(Position(1, -1))
      else if key == SDLK_PAGEDOWN then Some(Position(1, 1))
      else if key == SDLK_KP_1 || key == SDLK_B then Some(Position(-1, 1))
      else if key == SDLK_KP_2 || key == SDLK_J then Some(Position(0, 1))
      else if key == SDLK_KP_3 || key == SDLK_N then Some(Position(1, 1))
      else if key == SDLK_KP_4 || key == SDLK_H then Some(Position(-1, 0))
      else if key == SDLK_KP_6 || key == SDLK_L then Some(Position(1, 0))
      else if key == SDLK_KP_7 || key == SDLK_Y then Some(Position(-1, -1))
      else if key == SDLK_KP_8 || key == SDLK_K then Some(Position(0, -1))
      else if key == SDLK_KP_9 || key == SDLK_U then Some(Position(1, -1))
      else None
    case _ => None
  }

  /** Period and keypad 5 are the "wait" direction, whatever the modifiers. */
  lemma WaitKeys(mod: bv16)
    ensures GetDirFrom(KeyDown(SDLK_PERIOD, mod)) == Some(Position(0, 0))
    ensures GetDirFrom(KeyDown(SDLK_KP_5, mod)) == Some(Position(0, 0))
  {
  }

  /** Up and Down ignore the modifiers. */
  lemma UpDownIgnoreModifiers(mod: bv16)
    ensures GetDirFrom(KeyDown(SDLK_UP, mod)) == GetDirFrom(KeyDown(SDLK_UP, 0)) == Some(Position(0, -1))
    ensures GetDirFrom(KeyDown(SDLK_DOWN, mod)) == GetDirFrom(KeyDown(SDLK_DOWN, 0)) == Some(Position(0, 1))
  {
  }

  /** Left/Right move diagonally up with shift, down with control, and straight with both or neither. */
  lemma LeftRightModifiers(mod: bv16)
    ensures GetDirFrom(KeyDown(SDLK_LEFT, mod)) == Some(Position(-1, ModifiedY(mod)))
    ensures GetDirFrom(KeyDown(SDLK_RIGHT, mod)) == Some(Position(1, ModifiedY(mod)))
    ensures GetDirFrom(KeyDown(SDLK_LEFT, KMOD_SHIFT)) == Some(Position(-1, -1))
    ensures GetDirFrom(KeyDown(SDLK_RIGHT, KMOD_CTRL)) == Some(Position(1, 1))
    ensures GetDirFrom(KeyDown(SDLK_LEFT, KMOD_SHIFT | KMOD_CTRL)) == Some(Position(-1, 0))
    ensures GetDirFrom(KeyDown(SDLK_RIGHT, 0)) == Some(Position(1, 0))
  {
    assert ModifiedY(KMOD_SHIFT) == -1;
    assert ModifiedY(KMOD_CTRL) == 1;
    assert ModifiedY(KMOD_SHIFT | KMOD_CTRL) == 0;
    assert ModifiedY(0) == 0;
  }

  /** The vi keys and the keypad keys name the same four straight directions as the arrow keys. */
  lemma ViAndKeypadMatchArrows(mod: bv16)
    ensures GetDirFrom(KeyDown(SDLK_H, mod)) == GetDirFrom(KeyDown(SDLK_KP_4, mod)) == Some(Position(-1, 0))
    ensures GetDirFrom(KeyDown(SDLK_L, mod)) == GetDirFrom(KeyDown(SDLK_KP_6, mod)) == Some(Position(1, 0))
    ensures GetDirFrom(KeyDown(SDLK_K, mod)) == GetDirFrom(KeyDown(SDLK_KP_8, mod)) == GetDirFrom(KeyDown(SDLK_UP, mod))
    ensures GetDirFrom(KeyDown(SDLK_J, mod)) == GetDirFrom(KeyDown(SDLK_KP_2, mod)) == GetDirFrom(KeyDown(SDLK_DOWN, mod))
    ensures GetDirFrom(KeyDown(SDLK_LEFT, 0)) == Some(Position(-1, 0))
    ensures GetDirFrom(KeyDown(SDLK_RIGHT, 0)) == Some(Position(1, 0))
  {
    assert ModifiedY(0) == 0;
  }

  /** The vi keys and the keypad keys name the same four diagonals as Home/End and PageUp/PageDown. */
  lemma ViAndKeypadMatchDiagonals(mod: bv16)
    ensures GetDirFrom(KeyDown(SDLK_Y, mod)) == GetDirFrom(KeyDown(SDLK_KP_7, mod)) == GetDirFrom(KeyDown(SDLK_HOME, mod))
    ensures GetDirFrom(KeyDown(SDLK_U, mod)) == GetDirFrom(KeyDown(SDLK_KP_9, mod)) == GetDirFrom(KeyDown(SDLK_PAGEUP, mod))
    ensures GetDirFrom(KeyDown(SDLK_B, mod)) == GetDirFrom(KeyDown(SDLK_KP_1, mod)) == GetDirFrom(KeyDown(SDLK_END, mod))
    ensures GetDirFrom(KeyDown(SDLK_N, mod)) == GetDirFrom(KeyDown(SDLK_KP_3, mod)) == GetDirFrom(KeyDown(SDLK_PAGEDOWN, mod))
  {
  }

  /** Every one of the nine unit directions (wait included) is produced by some key. */
  lemma EveryUnitDirectionHasAKey(d: Position)
    requires IsUnit(d)
    ensures exists key :: key in DIRECTION_KEYS && GetDirFrom(KeyDown(key, 0)) == Some(d)
  {
    var key :=
      if d.x == -1 then (if d.y == -1 then SDLK_Y else if d.y == 0 then SDLK_H else SDLK_B)
      else if d.x == 0 then (if d.y == -1 then SDLK_K else if d.y == 0 then SDLK_PERIOD else SDLK_J)
      else (if d.y == -1 then SDLK_U else if d.y == 0 then SDLK_L else SDLK_N);
    assert GetDirFrom(KeyDown(key, 0)) == Some(d);
  }
}
