# Telegram bulk-messaging unit economics, in Dafny

A model of the single-page calculator `Interactive_unit.py`. The operator sets
a price per message, a monthly message volume, an account lifespan (messages
an account survives), account costs and fixed costs. The page then shows the
unit economics, the monthly profit and loss, and, for a loss-making month,
three ways to break even. It also draws a waterfall chart.

The project has three modules:

- `Widgets` (`widgets.dfy`) models `sync_widget`: the pair of a precise number
  field and a slider. Both are stored in the per-session dictionary under
  `<key>_input` and `<key>_slider`. `Session` is a class whose `state` field
  is that dictionary (`map<string, real>`). Its methods are the initialisation
  and the two `on_change` callbacks. `EditInput` and `MoveSlider` model a user
  interaction: the widget writes its own entry, then its callback runs.
  Integer mode is Python's `int()` on the stored value, which truncates
  toward zero (`Trunc`). `WholeValues` states that integer-mode entries never
  hold a fractional value, and every method preserves it.
- `Pricing` (`pricing.dfy`) models the calculation block as one function,
  `Calculate`. Two lemmas, `ProfitDecomposition` and `PercentGuards`, state
  what its results mean. It also models the three break-even values and the
  success-or-remedy branch (`Advise`, which returns a tagged `Outlook`), and
  the bars of the waterfall chart. `ProfitAt` is the profit formula in closed
  form. The break-even lemmas substitute each suggested value into it and get
  exactly zero. Currency amounts are exact `real`s. The monthly volume and the
  account lifespan are positive whole numbers (`Count`).
- `Calculator` (`calculator.dfy`) reads the three synchronised parameters
  from the session, as lines 73-89 do. It proves that the volume and the
  lifespan it passes on are whole numbers inside their widgets' ranges, so
  they are positive. This is why the divisions by them are safe.

In these places the model follows the code, which a reader might not expect:

- `sync_widget` stores the default value without clamping it. For the three
  widgets the page uses, the default is already in range
  (`SidebarWidgetsWellFormed`).
- The field's callback clamps the value only for the slider. The field keeps
  the typed value, so after an edit the two entries agree exactly when the
  typed value was in range (`EditInput`). On the page, the number field's own
  bounds keep an out-of-range value from being typed.
- The two percentage guards test `> 0`, so a negative price or revenue also
  gives 0.
- `break_even_price` divides by the monthly volume without a guard. The
  volume's widget range starts at 10000, so the model types the volume as a
  positive `Count`.

## Model

| member | source | states |
|---|---|---|
| `Widgets.Trunc` | Interactive_unit.py:19 | `int()` gives a whole number. It lies between 0 and the argument, less than one away from it, and leaves a whole number unchanged. |
| `Widgets.Cast` | Interactive_unit.py:19 | In integer mode, `cast_func` always gives a whole number. In float mode, or on a whole number, it is the identity. |
| `Widgets.TruncWithin` | Interactive_unit.py:33 | Casting a value that lies between whole-number bounds keeps it between them. |
| `Widgets.Clamp` | Interactive_unit.py:30-32 | The callback's two `if`s: with a non-empty range the result lies in `[min_v, max_v]`. An in-range value is kept, a low value becomes `min_v` and a high one `max_v`. The result is always one of the three. |
| `Widgets.ClampKeepsIntegral` | Interactive_unit.py:30-33 | Clamping a whole number with whole-number bounds gives a whole number. |
| `Widgets.WidgetSpec.InputKey` | Interactive_unit.py:15 | The field's key is the base key followed by a 6-character suffix. |
| `Widgets.WidgetSpec.SliderKey` | Interactive_unit.py:16 | The slider's key extends the base key and differs from the field's key, so the two entries never alias. |
| `Widgets.SidebarWidgetsWellFormed` | Interactive_unit.py:73-79 | The price, volume and lifespan widgets have non-empty ranges with their defaults inside. The integer widgets have whole-number bounds and defaults. |
| `Widgets.Session.SyncWidget` | Interactive_unit.py:22-26 | Creates only the missing entries, each holding the cast default. Every existing entry keeps its value. The field's value is returned. Whole values stay whole. A fresh well-formed widget starts in step. |
| `Widgets.Session.UpdateSlider` | Interactive_unit.py:29-33 | The slider becomes the cast, clamped field value, and nothing else changes. With a well-formed range the slider is then inside it. |
| `Widgets.Session.UpdateInput` | Interactive_unit.py:36-38 | The field becomes the cast slider value, and nothing else changes. If the slider held a whole in-range value, the two entries are then equal. |
| `Widgets.Session.EditInput` | Interactive_unit.py:42-53 | Typing `v` stores `v` in the field and `clamp(v)` in the slider. The entries are then in step exactly when `v` was in range. |
| `Widgets.Session.MoveSlider` | Interactive_unit.py:55-65 | Moving the slider to `s` stores `s` in both entries, which are then in step. |
| `Pricing.ProfitDecomposition` | Interactive_unit.py:94-108 | The accounts needed last exactly the planned volume, and the unit cost times the lifespan is the full account cost. Variable costs are volume times the unit cost. Net profit is volume times the unit margin, less the fixed costs. It equals the closed formula `ProfitAt`. |
| `Pricing.PercentGuards` | Interactive_unit.py:100-109 | Each percentage is 0 when its denominator (price, revenue) is not positive. Otherwise it is the ratio times 100. Revenue is positive exactly when the price is. With positive revenue, the net margin is negative exactly when net profit is. |
| `Pricing.VariableCostsPerMessage` | Interactive_unit.py:98-104 | Buying `volume / lifespan` accounts costs the same as paying the per-message account cost `volume` times. |
| `Pricing.BalancingPrice` | Interactive_unit.py:152 | For any volume and lifespan, a price whose revenue equals the fixed plus variable costs makes the closed profit formula exactly 0. It exceeds a given price exactly when that price makes a loss. |
| `Pricing.BalancingVolume` | Interactive_unit.py:155-156 | With a positive unit margin, a volume whose margins equal the fixed costs makes the closed profit formula exactly 0. It exceeds a given volume exactly when that volume makes a loss. |
| `Pricing.BalancingLifespan` | Interactive_unit.py:161-163 | When revenue exceeds the fixed costs, take a lifespan that, multiplied by revenue less fixed costs, gives volume times account cost. It exceeds a given lifespan exactly when that lifespan makes a loss. In that case, the closed profit formula at it is exactly 0. |
| `Pricing.Calculate` | Interactive_unit.py:94-109 | Net profit is revenue less variable and fixed costs. A non-positive price gives a unit-margin percentage of 0 and a non-positive revenue a net-margin percentage of 0, with no division. The full meaning of the results is in `ProfitDecomposition` and `PercentGuards`. |
| `Pricing.BreakEvenPrice` | Interactive_unit.py:152 | The break-even price times the monthly volume equals the fixed plus variable costs. |
| `Pricing.NeededVolume` | Interactive_unit.py:155-156 | With a positive unit margin, the needed volume times the unit margin equals the fixed costs. |
| `Pricing.NeededLifespan` | Interactive_unit.py:161-163 | When revenue exceeds the fixed costs, the needed lifespan times what the fixed costs leave of the revenue equals the volume times the full account cost. |
| `Pricing.BreakEvenPriceBalances` | Interactive_unit.py:146-152 | At `break_even_price`, all else unchanged, net profit is exactly 0. The break-even price is above the current price exactly when the month makes a loss. |
| `Pricing.NeededVolumeBalances` | Interactive_unit.py:155-156 | With a positive unit margin, selling `needed_volume` messages gives a net profit of exactly 0. The needed volume exceeds the plan exactly when the month makes a loss. |
| `Pricing.NeededLifespanBalances` | Interactive_unit.py:161-163 | When revenue exceeds the fixed costs, `needed_lifespan` exceeds the current lifespan exactly when the month makes a loss. In that case, net profit at the needed lifespan is exactly 0. |
| `Pricing.Advise` | Interactive_unit.py:146-166 | The success branch is taken exactly when net profit is at least 0. A loss always gets a price suggestion above the current price. It gets a volume suggestion exactly when the unit margin is positive, and a lifespan suggestion exactly when revenue exceeds the fixed costs. Each suggestion alone gives a net profit of 0 and exceeds the current value. |
| `Pricing.Waterfall` | Interactive_unit.py:174 | There are four bars: the revenue, the negated variable costs, the negated fixed costs and the net profit. The three relative bars add up to the total bar. |
| `Pricing.DefaultScenario` | Interactive_unit.py:73-89 | With the sidebar's defaults, the month needs 1200 accounts at 60 each. The unit margin is 3.8 (76 percent). Revenue is 300000 and net profit is -89020. The page suggests a price of 389020/60000 and a volume of 317020/3.8. It offers no lifespan fix, because revenue does not exceed the fixed costs. |
| `Calculator.ReadInputs` | Interactive_unit.py:73-89 | The parameters read from settled widgets are their fields' values. The price lies in [1, 15], the volume is a whole number in [10000, 2000000] and the lifespan one in [10, 200]. The costs pass through unchanged, and the widgets stay settled. The session gains exactly the six widget keys, and every existing entry keeps its value. On a fresh session the parameters are the defaults 5.0, 60000 and 50, and with the default costs they are `DefaultInputs`. |
| `Calculator.SyncOne` | Interactive_unit.py:10-26 | One `sync_widget` call on a settled widget returns the field's value, inside the range and whole in integer mode. If the field was missing, the value is the cast default. The session gains only the widget's two keys, existing entries are kept, and the widget stays settled. |

## Left out

- Page setup, titles, sidebar headers and the drawing of the number fields and sliders are not modelled. Streamlit calls are UI rendering. The only parts kept are the bounds the widgets enforce. `MoveSlider` requires a value in the range, whole in integer mode. `EditInput` requires a whole value in integer mode, but not one in the range, because its callback handles that case. The `Settled` precondition of `ReadInputs` keeps each field's value in its range.
- `step_v` and the display format (`%d`, `%.2f`) only affect how the widgets are drawn. `WidgetSpec` carries the step, but nothing uses it.
- The metrics, the info box and the success and error messages are not modelled. They are text output. The figures they show are the fields of `Metrics` and `Outlook`.
- The Plotly figure (labels, colours, text, connector) is left out, apart from the `y` values of the bars.
- Display rounding (`:,.0f`, `:.2f`, `:.1f`) and the `int()` truncation of `accounts_needed`, `needed_volume` and `needed_lifespan` in the text are presentation only. The model keeps the exact values.
- Floating-point rounding is not modelled. Currency amounts are exact reals, so the break-even identities hold exactly.
- The plain number fields for the four costs have no bounds, so the model accepts any real for them.
- The unused `pandas` import is not modelled.
- Streamlit's rerun loop (the whole script runs again after each interaction) is not modelled as a loop. One pass is `ReadInputs` followed by `Calculate`, `Advise` and `Waterfall`.
