/**
 * The synchronised "precise number + slider" control of the sidebar.
 *
 * Each logical parameter lives in two entries of the per-session dictionary,
 * `<key>_input` (the number field) and `<key>_slider`. The entries are created
 * once with the default value; editing the field clamps the typed value into
 * the widget's range and copies it to the slider, and moving the slider copies
 * the slider's value back into the field. In integer mode every value written
 * goes through Python's `int()`, which truncates toward zero.
 */
module Widgets {

  /** A real number with no fractional part. */
  predicate IsIntegral(x: real) {
    x == x.Floor as real
  }

  /** The floor of a real is at least every whole number below it. */
  lemma FloorAtLeast(y: real, n: int)
    requires n as real <= y
    ensures n <= y.Floor
  {
  }

  /** Negating a whole number commutes with taking the floor. */
  lemma NegatedFloor(n: int)
    ensures (-(n as real)).Floor == -n
  {
  }

  /** Python's `int()` on a float: drops the fractional part, rounding toward zero. */
  function Trunc(x: real): (r: real)
    ensures IsIntegral(r)
    ensures 0.0 <= x ==> 0.0 <= r <= x < r + 1.0
    ensures x < 0.0 ==> r - 1.0 < x <= r <= 0.0
    ensures IsIntegral(x) ==> r == x
  {
    if x >= 0.0 then x.Floor as real
    else
      NegatedFloor(x.Floor);
      (-((-x).Floor)) as real
  }

  /** Truncating a value that lies between two whole numbers keeps it between them. */
  lemma TruncWithin(x: real, lo: real, hi: real)
    requires IsIntegral(lo) && IsIntegral(hi)
    requires lo <= x <= hi
    ensures lo <= Trunc(x) <= hi
  {
    if x >= 0.0 {
      FloorAtLeast(x, lo.Floor);
    } else {
      FloorAtLeast(-x, -hi.Floor);
    }
  }

  /** The widget's `cast_func`: `int` in integer mode, `float` otherwise. */
  function Cast(isInt: bool, x: real): (r: real)
    ensures isInt ==> IsIntegral(r)
    ensures !isInt || IsIntegral(x) ==> r == x
  {
    if isInt then Trunc(x) else x
  }

  /**
   * The callback's clamping: first raise to `lo`, then lower to `hi`, in that
   * order (so with an empty range the upper bound wins).
   */
  function Clamp(v: real, lo: real, hi: real): (r: real)
    ensures lo <= hi ==> lo <= r <= hi
    ensures lo <= v <= hi ==> r == v
    ensures v < lo && lo <= hi ==> r == lo
    ensures hi < v ==> r == hi
    ensures hi < lo ==> r == hi
    ensures r == v || r == lo || r == hi
  {
    var raised := if v < lo then lo else v;
    if raised > hi then hi else raised
  }

  /** In integer mode with whole-number bounds, clamping keeps a whole number whole. */
  lemma ClampKeepsIntegral(v: real, lo: real, hi: real)
    requires IsIntegral(v) && IsIntegral(lo) && IsIntegral(hi)
    ensures IsIntegral(Clamp(v, lo, hi))
  {
  }

  /** The arguments of one `sync_widget` call that matter to the session state. */
  datatype WidgetSpec = WidgetSpec(
    minV: real, maxV: real, defaultV: real, stepV: real, baseKey: string, isInt: bool)
  {
    /** The session key of the number field. */
    function InputKey(): (k: string)
      ensures |k| == |baseKey| + 6 && k[..|baseKey|] == baseKey
    {
      baseKey + "_input"
    }

    /** The session key of the slider; never the same as the field's key. */
    function SliderKey(): (k: string)
      ensures |k| == |baseKey| + 7 && k[..|baseKey|] == baseKey
      ensures k != InputKey()
    {
      baseKey + "_slider"
    }

    /** The range is not empty, and in integer mode its ends are whole numbers. */
    predicate WellFormed() {
      minV <= maxV && (isInt ==> IsIntegral(minV) && IsIntegral(maxV))
    }

    predicate InRange(x: real) {
      minV <= x <= maxV
    }
  }

  /** The three synchronised parameters of the sidebar. */
  const PriceWidget := WidgetSpec(1.0, 15.0, 5.0, 0.1, "price", false)
  const VolumeWidget := WidgetSpec(10000.0, 2000000.0, 60000.0, 1000.0, "volume", true)
  const LifeWidget := WidgetSpec(10.0, 200.0, 50.0, 1.0, "life", true)

  /** The sidebar's widgets have usable ranges, defaults inside them and whole-number defaults in integer mode. */
  lemma SidebarWidgetsWellFormed()
    ensures forall w | w in [PriceWidget, VolumeWidget, LifeWidget] ::
      w.WellFormed() && w.InRange(w.defaultV) && (w.isInt ==> IsIntegral(w.defaultV))
  {
  }

  /** The per-session dictionary of widget values. */
  class Session {
    var state: map<string, real>

    /** A new session starts with no entries. */
    constructor ()
      ensures state == map[]
    {
      state := map[];
    }

    /** Both entries of the widget exist. */
    predicate Holds(w: WidgetSpec)
      reads this
    {
      w.InputKey() in state && w.SliderKey() in state
    }

    /** In integer mode, whichever of the widget's entries exist hold whole numbers. */
    predicate WholeValues(w: WidgetSpec)
      reads this
    {
      w.isInt ==>
        (w.InputKey() in state ==> IsIntegral(state[w.InputKey()])) &&
        (w.SliderKey() in state ==> IsIntegral(state[w.SliderKey()]))
    }

    /** Field and slider show the same value, and it lies in the widget's range. */
    predicate InStep(w: WidgetSpec)
      reads this
    {
      Holds(w) && state[w.InputKey()] == state[w.SliderKey()] && w.InRange(state[w.SliderKey()])
    }

    /**
     * `sync_widget` up to drawing the controls: create each missing entry with the
     * (cast) default, leave every existing entry as it is, and return the field's value.
     */
    method SyncWidget(w: WidgetSpec) returns (val: real)
      modifies this
      ensures Holds(w)
      ensures state.Keys == old(state).Keys + {w.InputKey(), w.SliderKey()}
      ensures forall k | k in old(state) :: state[k] == old(state)[k]
      ensures w.InputKey() !in old(state) ==> state[w.InputKey()] == Cast(w.isInt, w.defaultV)
      ensures w.SliderKey() !in old(state) ==> state[w.SliderKey()] == Cast(w.isInt, w.defaultV)
      ensures val == state[w.InputKey()]
      ensures old(WholeValues(w)) ==> WholeValues(w)
      ensures (w.InputKey() !in old(state) && w.SliderKey() !in old(state) &&
               w.WellFormed() && w.InRange(w.defaultV)) ==> InStep(w)
    {
      if w.InputKey() !in state {
        state := state[w.InputKey() := Cast(w.isInt, w.defaultV)];
      }
      if w.SliderKey() !in state {
        state := state[w.SliderKey() := Cast(w.isInt, w.defaultV)];
      }
      if w.isInt && w.WellFormed() && w.InRange(w.defaultV) {
        TruncWithin(w.defaultV, w.minV, w.maxV);
      }
      val := state[w.InputKey()];
    }

    /**
     * The field's `on_change` callback: clamp the field's value into the range
     * and store it (cast) as the slider's value. The field itself is not changed.
     */
    method UpdateSlider(w: WidgetSpec)
      requires w.InputKey() in state
      modifies this
      ensures state ==
        old(state)[w.SliderKey() := Cast(w.isInt, Clamp(old(state)[w.InputKey()], w.minV, w.maxV))]
      ensures w.WellFormed() ==> w.InRange(state[w.SliderKey()])
      ensures old(WholeValues(w)) ==> WholeValues(w)
    {
      var val := state[w.InputKey()];
      if val < w.minV {
        val := w.minV;
      }
      if val > w.maxV {
        val := w.maxV;
      }
      if w.isInt && w.WellFormed() {
        TruncWithin(val, w.minV, w.maxV);
      }
      state := state[w.SliderKey() := Cast(w.isInt, val)];
    }

    /**
     * The slider's `on_change` callback: store the slider's value (cast) as the
     * field's value. The slider itself is not changed.
     */
    method UpdateInput(w: WidgetSpec)
      requires w.SliderKey() in state
      modifies this
      ensures state == old(state)[w.InputKey() := Cast(w.isInt, old(state)[w.SliderKey()])]
      ensures old(WholeValues(w)) ==> WholeValues(w)
      ensures old(WholeValues(w)) && old(w.InRange(state[w.SliderKey()])) ==> InStep(w)
    {
      var val := state[w.SliderKey()];
      state := state[w.InputKey() := Cast(w.isInt, val)];
    }

    /**
     * The user types `v` into the field: the widget stores it under the field's
     * key (the number field only yields whole numbers in integer mode), then
     * runs the field's callback. The two entries agree afterwards exactly when
     * the typed value was inside the range.
     */
    method EditInput(w: WidgetSpec, v: real)
      requires Holds(w) && w.WellFormed()
      requires w.isInt ==> IsIntegral(v)
      modifies this
      ensures state == old(state)[w.InputKey() := v][w.SliderKey() := Clamp(v, w.minV, w.maxV)]
      ensures InStep(w) <==> w.InRange(v)
      ensures old(WholeValues(w)) ==> WholeValues(w)
    {
      state := state[w.InputKey() := v];
      if w.isInt {
        ClampKeepsIntegral(v, w.minV, w.maxV);
      }
      UpdateSlider(w);
    }

    /**
     * The user moves the slider to `s` (a slider only offers values of its
     * range, whole ones in integer mode): the widget stores it under the
     * slider's key, then runs the slider's callback. Both entries then hold `s`.
     */
    method MoveSlider(w: WidgetSpec, s: real)
      requires Holds(w) && w.InRange(s)
      requires w.isInt ==> IsIntegral(s)
      modifies this
      ensures state == old(state)[w.SliderKey() := s][w.InputKey() := s]
      ensures InStep(w)
      ensures old(WholeValues(w)) ==> WholeValues(w)
    {
      state := state[w.SliderKey() := s];
      UpdateInput(w);
    }
  }
}
