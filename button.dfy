/*
 * The menu buttons of the snake benchmark
 * (benchmarks/snake/classes/button.py): a clickable rectangle, a button
 * that belongs to a group of which one is selected, and a numeric input
 * with decrease and increase arrows. A rendered text decides a button's
 * rectangle in the source; here the rectangle is given.
 */
module Buttons {

  /** A pygame rectangle by its corners; y grows downwards. */
  datatype Rect = Rect(left: int, top: int, right: int, bottom: int)

  /** `a < v < b`. */
  predicate Between(a: int, v: int, b: int)
  {
    a < v < b
  }

  /** The mouse lies strictly inside the rectangle; its edges do not count. */
  predicate Inside(r: Rect, mouse: (int, int))
  {
    Between(r.left, mouse.0, r.right) && Between(r.top, mouse.1, r.bottom)
  }

  /** A point on a rectangle's edge, or an empty rectangle, is never pressed. */
  lemma EdgeNotInside(r: Rect, mouse: (int, int))
    ensures mouse.0 == r.left || mouse.0 == r.right || mouse.1 == r.top || mouse.1 == r.bottom ==> !Inside(r, mouse)
    ensures r.right <= r.left + 1 || r.bottom <= r.top + 1 ==> !Inside(r, mouse)
  {
  }

  class Button {
    const rect: Rect

    constructor (r: Rect)
      ensures rect == r
    {
      rect := r;
    }

    /** `Button.pressed` (button.py:23-30). */
    function Pressed(mouse: (int, int)): (b: bool)
      ensures b <==> Inside(rect, mouse)
      ensures b ==> rect.left + 1 < rect.right && rect.top + 1 < rect.bottom
    {
      mouse.0 > rect.left && mouse.1 > rect.top && mouse.0 < rect.right && mouse.1 < rect.bottom
    }
  }

  class SelectButton<V> {
    const rect: Rect
    var value: V
    var active: bool

    /** `SelectButton.__init__` (button.py:38-41). */
    constructor (r: Rect, v: V, a: bool)
      ensures rect == r && value == v && active == a
    {
      rect := r;
      value := v;
      active := a;
    }

    /** `SelectButton.pressed` (button.py:51-52). */
    function Pressed(mouse: (int, int)): (b: bool)
      ensures b <==> Inside(rect, mouse)
    {
      mouse.0 > rect.left && mouse.1 > rect.top && mouse.0 < rect.right && mouse.1 < rect.bottom
    }

    /** `getActive` (button.py:54-55). */
    function GetActive(): bool
      reads this
    {
      active
    }

    /** `getValue` (button.py:64-65). */
    function GetValue(): V
      reads this
    {
      value
    }

    /**
     * `setActive` (button.py:57-62): this button becomes active and every
     * other listed button inactive; a button left off the list keeps its
     * own state.
     */
    method SetActive(buttonlist: seq<SelectButton<V>>)
      modifies Members(buttonlist)`active, this`active
      ensures this in buttonlist ==> active
      ensures this !in buttonlist ==> active == old(active)
      ensures forall i :: 0 <= i < |buttonlist| && buttonlist[i] != this ==> !buttonlist[i].active
    {
      var i := 0;
      while i < |buttonlist|
        invariant 0 <= i <= |buttonlist|
        invariant this in buttonlist[..i] ==> active
        invariant this !in buttonlist[..i] ==> active == old(active)
        invariant forall j :: 0 <= j < i && buttonlist[j] != this ==> !buttonlist[j].active
      {
        var button := buttonlist[i];
        if button == this {
          active := true;
        } else {
          button.active := false;
        }
        assert buttonlist[..i + 1] == buttonlist[..i] + [button];
        i := i + 1;
      }
      assert buttonlist[..i] == buttonlist;
    }
  }

  function Members<V>(buttonlist: seq<SelectButton<V>>): set<SelectButton<V>>
  {
    set i | 0 <= i < |buttonlist| :: buttonlist[i]
  }

  /** Of a group holding the pressed button, that one alone is active. */
  lemma OneActive<V>(buttonlist: seq<SelectButton<V>>, b: SelectButton<V>)
    requires b in buttonlist && b.active
    requires forall i :: 0 <= i < |buttonlist| && buttonlist[i] != b ==> !buttonlist[i].active
    ensures forall i :: 0 <= i < |buttonlist| ==> (buttonlist[i].active <==> buttonlist[i] == b)
  {
  }

  /** The decrease arrow: a size-by-size square left of the value, flush with it (button.py:91). */
  function DecreaseRect(r: Rect, size: int): Rect
  {
    Rect(r.left - size, r.top, r.left, r.top + size)
  }

  /** The increase arrow: a size-by-size square one size right of the value (button.py:92). */
  function IncreaseRect(r: Rect, size: int): Rect
  {
    Rect(r.right + size, r.top, r.right + 2 * size, r.top + size)
  }

  /**
   * With a positive size no point is inside two of the decrease arrow, the
   * value and the increase arrow, so the order in which `pressed` tests
   * them decides nothing.
   */
  lemma PartsApart(r: Rect, size: int, mouse: (int, int))
    requires size > 0 && r.left <= r.right
    ensures !(Inside(DecreaseRect(r, size), mouse) && Inside(r, mouse))
    ensures !(Inside(IncreaseRect(r, size), mouse) && Inside(r, mouse))
    ensures !(Inside(DecreaseRect(r, size), mouse) && Inside(IncreaseRect(r, size), mouse))
  {
  }

  class InputButton {
    /** The value's own rectangle, its value and its active flag, as a member of a group. */
    const select: SelectButton<int>
    const decrease: Rect
    const increase: Rect
    const min: int
    const max: int

    /** `InputButton.__init__` (button.py:72-92), with the value's rectangle and the arrow size given. */
    constructor (value: int, r: Rect, size: int, lo: int, hi: int, a: bool)
      ensures fresh(select) && select.rect == r && select.value == value && select.active == a
      ensures decrease == DecreaseRect(r, size) && increase == IncreaseRect(r, size)
      ensures min == lo && max == hi
    {
      select := new SelectButton(r, value, a);
      decrease := DecreaseRect(r, size);
      increase := IncreaseRect(r, size);
      min := lo;
      max := hi;
    }

    /** The value lies in [min, max]. */
    predicate InRange()
      reads select
    {
      min <= select.value <= max
    }

    /** `setValue` (button.py:131-134): a change is applied only if the new value is in [min, max]. */
    method SetValue(change: int)
      modifies select`value
      ensures min <= old(select.value) + change <= max ==> select.value == old(select.value) + change
      ensures !(min <= old(select.value) + change <= max) ==> select.value == old(select.value)
      ensures old(InRange()) ==> InRange()
    {
      var newValue := select.value + change;
      if newValue <= max && newValue >= min {
        select.value := newValue;
      }
    }

    /**
     * `InputButton.pressed` (button.py:104-120): on the decrease arrow the
     * button is made active and its value lowered by one, on the increase
     * arrow made active and raised by one, on the value only made active;
     * elsewhere nothing happens.
     */
    method Pressed(mouse: (int, int), buttonlist: seq<SelectButton<int>>)
      modifies Members(buttonlist)`active, select`active, select`value
      ensures var change := if Inside(decrease, mouse) then -1 else if Inside(increase, mouse) then 1 else 0;
        select.value == if min <= old(select.value) + change <= max then old(select.value) + change else old(select.value)
      ensures var hit := Inside(decrease, mouse) || Inside(increase, mouse) || Inside(select.rect, mouse);
        if hit then
          (select in buttonlist ==> select.active) && (select !in buttonlist ==> select.active == old(select.active)) &&
          forall i :: 0 <= i < |buttonlist| && buttonlist[i] != select ==> !buttonlist[i].active
        else
          select.active == old(select.active) && forall i :: 0 <= i < |buttonlist| ==> buttonlist[i].active == old(buttonlist[i].active)
    {
      if mouse.0 > decrease.left && mouse.1 > decrease.top && mouse.0 < decrease.right && mouse.1 < decrease.bottom {
        select.SetActive(buttonlist);
        SetValue(-1);
      } else if mouse.0 > increase.left && mouse.1 > increase.top && mouse.0 < increase.right && mouse.1 < increase.bottom {
        select.SetActive(buttonlist);
        SetValue(1);
      } else if select.Pressed(mouse) {
        select.SetActive(buttonlist);
      }
    }

    /** `InputButton.getValue` (button.py:128-129). */
    function GetValue(): int
      reads select
    {
      select.value
    }
  }
}
