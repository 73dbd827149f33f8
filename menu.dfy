/**
 * The generic menu state: a list of items with an optional hotkey each, and a selection that
 * keyboard navigation wraps, the mouse sets, and Enter, a left click or a hotkey activates.
 * An item's callback is a tag of type `A`; activating an item answers `Activate(tag)`, and the
 * owner of the menu runs the callback it names.
 */
module Menus {
  import opened Optional
  import opened Input

  datatype MenuItem<A> = MenuItem(name: string, onPick: A, key: int)

  /** What a menu event asks for: nothing, quitting, or running an item's callback. */
  datatype MenuResponse<A> = NoResponse | QuitResponse | Activate(callback: A)

  /** The row of the first item (`menu_pos_` is (10, 10)). */
  const MENU_Y: int := 10

  /** `get_selected_item`: the selected item, when the selection is in range. */
  function SelectedItem<A>(items: seq<MenuItem<A>>, selected: int): (r: Option<MenuItem<A>>)
    ensures r.Some? <==> 0 <= selected < |items|
    ensures r.Some? ==> r.value == items[selected]
  {
    if 0 <= selected < |items| then Some(items[selected]) else None
  }

  /** The response to activating the selected item, if there is one. */
  function Activation<A>(item: Option<MenuItem<A>>): MenuResponse<A> {
    match item
    case Some(it) => Activate(it.onPick)
    case None => NoResponse
  }

  /** `handle_navigation_up` on a selection among `n` items. */
  function UpFrom(selected: int, n: nat): int {
    var start := if 0 <= selected < n then selected else n;
    var s := start - 1;
    if s == -1 then s + n else s
  }

  /** `handle_navigation_down` on a selection among `n` items; the modulo needs `n > 0`. */
  function DownFrom(selected: int, n: nat): int
    requires n > 0
  {
    var start := if 0 <= selected < n then selected else -1;
    (start + 1) % n
  }

  /**
   * Up from a valid selection s gives (s - 1 + n) mod n and from an out-of-range one n - 1;
   * down gives (s + 1) mod n and 0. On a non-empty list both land in [0, n).
   */
  lemma NavigationWraps(selected: int, n: nat)
    ensures 0 <= selected < n ==> UpFrom(selected, n) == (selected - 1 + n) % n
    ensures !(0 <= selected < n) ==> UpFrom(selected, n) == n - 1
    ensures n > 0 && 0 <= selected < n ==> DownFrom(selected, n) == (selected + 1) % n
    ensures n > 0 && !(0 <= selected < n) ==> DownFrom(selected, n) == 0
    ensures n > 0 ==> 0 <= UpFrom(selected, n) < n && 0 <= DownFrom(selected, n) < n
  {
    if 0 <= selected < n {
      if selected == 0 {
        ModuloOfRange(n - 1, n);
      } else {
        ModuloOfRange(selected - 1, n);
      }
      if selected == n - 1 {
        ModuloOfRange(0, n);
        assert (selected + 1) % n == 0;
      } else {
        ModuloOfRange(selected + 1, n);
      }
    } else if n > 0 {
      ModuloOfRange(0, n);
    }
  }

  lemma ModuloOfRange(k: int, n: nat)
    requires 0 <= k < n
    ensures k % n == k && (k + n) % n == k
  {
  }

  /** Up undoes down and down undoes up, for any selection already in range. */
  lemma UpDownRoundTrip(selected: int, n: nat)
    requires 0 <= selected < n
    ensures UpFrom(DownFrom(selected, n), n) == selected
    ensures DownFrom(UpFrom(selected, n), n) == selected
  {
    NavigationWraps(selected, n);
    if selected == n - 1 {
      assert DownFrom(selected, n) == 0;
    } else {
      assert DownFrom(selected, n) == selected + 1;
    }
    if selected == 0 {
      assert UpFrom(selected, n) == n - 1;
    } else {
      assert UpFrom(selected, n) == selected - 1;
    }
  }

  /** An item answers to a hotkey when it has one (key 0 means none) and it is the key pressed. */
  predicate Matches<A>(item: MenuItem<A>, key: int) {
    item.key != 0 && item.key == key
  }

  /** The first item whose hotkey is `key`. */
  function FirstHotkey<A>(items: seq<MenuItem<A>>, key: int): (r: Option<nat>)
    ensures r.Some? ==> r.value < |items| && Matches(items[r.value], key)
    ensures r.Some? ==> forall j :: 0 <= j < r.value ==> !Matches(items[j], key)
    ensures r.None? ==> forall j :: 0 <= j < |items| ==> !Matches(items[j], key)
  {
    if items == [] then None
    else if Matches(items[0], key) then Some(0)
    else match FirstHotkey(items[1..], key)
      case Some(k) => Some(k + 1)
      case None => None
  }

  predicate IsConfirmKey(key: int) {
    key == SDLK_RETURN || key == SDLK_RETURN2 || key == SDLK_KP_ENTER
  }

  /** A Down key press, which is only defined on a non-empty menu. */
  predicate IsDownKey(event: Event) {
    event.KeyDown? && event.key == SDLK_DOWN
  }

  /** The selection after `on_event`. */
  function SelectionAfter<A>(items: seq<MenuItem<A>>, selected: int, event: Event): int
    requires IsDownKey(event) ==> |items| > 0
  {
    match event
    case KeyDown(key, _) =>
      if key == SDLK_UP then UpFrom(selected, |items|)
      else if key == SDLK_DOWN then DownFrom(selected, |items|)
      else if IsConfirmKey(key) then selected
      else (match FirstHotkey(items, key) case Some(i) => i case None => selected)
    case MouseMotion(_, y) => y - MENU_Y
    case _ => selected
  }

  /** The answer of `on_event`. */
  function ResponseTo<A>(items: seq<MenuItem<A>>, selected: int, event: Event): MenuResponse<A> {
    match event
    case KeyDown(key, _) =>
      if key == SDLK_UP || key == SDLK_DOWN then NoResponse
      else if IsConfirmKey(key) then Activation(SelectedItem(items, selected))
      else (match FirstHotkey(items, key) case Some(i) => Activate(items[i].onPick) case None => NoResponse)
    case MouseButtonUp(button) =>
      if button == BUTTON_LEFT then Activation(SelectedItem(items, selected)) else NoResponse
    case QuitRequested => QuitResponse
    case _ => NoResponse
  }

  class Menu<A> {
    const items: seq<MenuItem<A>>
    var selected: int

    constructor (items: seq<MenuItem<A>>, selected: int)
      ensures this.items == items && this.selected == selected
    {
      this.items := items;
      this.selected := selected;
    }

    method OnEvent(event: Event) returns (r: MenuResponse<A>)
      requires IsDownKey(event) ==> |items| > 0
      modifies this
      ensures selected == SelectionAfter(items, old(selected), event)
      ensures r == ResponseTo(items, old(selected), event)
    {
      match event
      case KeyDown(key, _) =>
        r := HandleKeyDown(key);
      case MouseMotion(_, y) =>
        HandleMouseMotion(y);
        r := NoResponse;
      case MouseButtonUp(button) =>
        r := HandleMouseButtonUp(button);
      case QuitRequested =>
        r := QuitResponse;
      case _ =>
        r := NoResponse;
    }

    method HandleKeyDown(key: int) returns (r: MenuResponse<A>)
      requires key == SDLK_DOWN ==> |items| > 0
      modifies this
      ensures selected == SelectionAfter(items, old(selected), KeyDown(key, 0))
      ensures r == ResponseTo(items, old(selected), KeyDown(key, 0))
    {
      if key == SDLK_UP {
        NavigateUp();
        r := NoResponse;
      } else if key == SDLK_DOWN {
        NavigateDown();
        r := NoResponse;
      } else if IsConfirmKey(key) {
        r := HandleSelection();
      } else {
        r := HandleHotkeySelection(key);
      }
    }

    method HandleMouseMotion(y: int)
      modifies this
      ensures selected == y - MENU_Y
    {
      selected := y - MENU_Y;
    }

    method HandleMouseButtonUp(button: int) returns (r: MenuResponse<A>)
      ensures r == if button == BUTTON_LEFT then Activation(SelectedItem(items, selected)) else NoResponse
    {
      r := NoResponse;
      if button == BUTTON_LEFT {
        var item := SelectedItem(items, selected);
        if item.Some? {
          r := Activate(item.value.onPick);
        }
      }
    }

    method NavigateUp()
      modifies this
      ensures selected == UpFrom(old(selected), |items|)
    {
      if SelectedItem(items, selected).None? {
        selected := |items|;
      }
      selected := selected - 1;
      if selected == -1 {
        selected := selected + |items|;
      }
    }

    method NavigateDown()
      requires |items| > 0
      modifies this
      ensures selected == DownFrom(old(selected), |items|)
    {
      if SelectedItem(items, selected).None? {
        selected := -1;
      }
      selected := (selected + 1) % |items|;
    }

    method HandleSelection() returns (r: MenuResponse<A>)
      ensures r == Activation(SelectedItem(items, selected))
    {
      var item := SelectedItem(items, selected);
      if item.Some? {
        r := Activate(item.value.onPick);
      } else {
        r := NoResponse;
      }
    }

    /** Selects and activates the first item whose hotkey is `key`; with no match nothing changes. */
    method HandleHotkeySelection(key: int) returns (r: MenuResponse<A>)
      modifies this
      ensures FirstHotkey(items, key).Some? ==>
        selected == FirstHotkey(items, key).value && r == Activate(items[selected].onPick)
      ensures FirstHotkey(items, key).None? ==> selected == old(selected) && r == NoResponse
    {
      var i := 0;
      while i < |items|
        invariant 0 <= i <= |items|
        invariant forall j :: 0 <= j < i ==> !Matches(items[j], key)
        invariant selected == old(selected)
      {
        if items[i].key != 0 && items[i].key == key {
          selected := i;
          var item := SelectedItem(items, selected);
          if item.Some? {
            FirstMatchIsFirstHotkey(items, key, i);
            return Activate(item.value.onPick);
          }
        }
        i := i + 1;
      }
      r := NoResponse;
    }
  }

  /** A match with no earlier match is what `FirstHotkey` finds. */
  lemma FirstMatchIsFirstHotkey<A>(items: seq<MenuItem<A>>, key: int, i: nat)
    requires i < |items| && Matches(items[i], key)
    requires forall j :: 0 <= j < i ==> !Matches(items[j], key)
    ensures FirstHotkey(items, key) == Some(i)
  {
  }

  /**
   * Enter (either return key or keypad enter) and a left click activate the selected item when the
   * selection is in range and do nothing otherwise; neither moves the selection.
   */
  lemma ConfirmActivatesOnlyInRange<A>(items: seq<MenuItem<A>>, selected: int, event: Event)
    requires (event.KeyDown? && IsConfirmKey(event.key)) || event == MouseButtonUp(BUTTON_LEFT)
    ensures ResponseTo(items, selected, event) ==
      if 0 <= selected < |items| then Activate(items[selected].onPick) else NoResponse
    ensures SelectionAfter(items, selected, event) == selected
  {
  }

  /**
   * A hotkey selects and activates the first item carrying it; key 0 never matches; with no match
   * the selection is unchanged and nothing is activated.
   */
  lemma HotkeyActivatesFirstMatch<A>(items: seq<MenuItem<A>>, selected: int, key: int, mod: bv16)
    requires key != SDLK_UP && key != SDLK_DOWN && !IsConfirmKey(key)
    ensures key == 0 ==> ResponseTo(items, selected, KeyDown(key, mod)) == NoResponse
    ensures forall i :: 0 <= i < |items| && Matches(items[i], key) && (forall j :: 0 <= j < i ==> !Matches(items[j], key)) ==>
      SelectionAfter(items, selected, KeyDown(key, mod)) == i
      && ResponseTo(items, selected, KeyDown(key, mod)) == Activate(items[i].onPick)
    ensures (forall i :: 0 <= i < |items| ==> !Matches(items[i], key)) ==>
      SelectionAfter(items, selected, KeyDown(key, mod)) == selected
      && ResponseTo(items, selected, KeyDown(key, mod)) == NoResponse
  {
    if key == 0 {
      assert FirstHotkey(items, key).None?;
    }
  }

  /**
   * Up and Down keep a non-empty menu's selection in range and activate nothing; mouse motion sets
   * the selection to the mouse row minus the menu's origin, without clamping; Quit asks to quit;
   * any other event changes nothing.
   */
  lemma NavigationAndOtherEvents<A>(items: seq<MenuItem<A>>, selected: int, event: Event)
    requires |items| > 0
    ensures event.KeyDown? && (event.key == SDLK_UP || event.key == SDLK_DOWN) ==>
      0 <= SelectionAfter(items, selected, event) < |items| && ResponseTo(items, selected, event) == NoResponse
    ensures event.MouseMotion? ==>
      SelectionAfter(items, selected, event) == event.y - 10 && ResponseTo(items, selected, event) == NoResponse
    ensures event == QuitRequested ==> ResponseTo(items, selected, event) == QuitResponse
    ensures event.MouseButtonDown? || event.WindowMouseLeave? || event.OtherEvent? ==>
      SelectionAfter(items, selected, event) == selected && ResponseTo(items, selected, event) == NoResponse
  {
    NavigationWraps(selected, |items|);
  }
}
