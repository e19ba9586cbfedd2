# AutoBreaker: the auto-break decision engine and its settings

AutoBreaker is an add-in for a CAD drawing host. Its one command, auto-break,
looks at the views placed on the active drawing sheet and does four things:

- it keeps the views generated from a standard camera orientation;
- it takes the one with the largest area;
- it checks that the view is long enough for a break with the configured gap;
- it asks the host to add a break line across the view's longer side.

The break's style, gap, number of break symbols and removal range come from a
small settings holder. That holder coerces every value written to it.

This project models both parts in Dafny and proves properties of the model:

- `settings_model.dfy`, module `Settings`: the coercions the four setters
  apply, as pure functions; the `SettingsModel` class that holds the values,
  with frame contracts on its setters; and the `Config` record the engine reads.
- `inventor_handler.dfy`, module `InventorHandler`: the engine as pure
  functions over `View` records. It covers filtering by orientation, the area
  comparer, selection of the biggest view, classification of the break axis,
  the size check, computation of the break points with the 5-unit minimum,
  the style mapping and the decision sequence. The host's break-creation call
  becomes a returned `BreakRequest`. The two message-box exits become
  `Refused(NoUsableViews)` and `Refused(AlreadyBroken)`.
- `scenarios.dfy`, module `Scenarios`: worked cases on small sheets.

All dimensions are Dafny `real`. Floating-point rounding is not modelled.

In these places the model follows the code as written:

- The code has no separate "view too small" outcome. A sheet with no usable
  view and a biggest view too short for the gap both give the same refusal.
  This refusal is checked before the "already broken" one, so a view that is
  both broken and too small is reported as not usable.
- The points helpers return a flag telling whether the break ratio is in
  [0.1, 0.9]. The command ignores it, so there is no "invalid ratio" refusal.
  `ComputeBreakPoints` still returns the flag. `InvalidRatioIff` says when it
  is false. `FeasibleViewHasValidRatio` shows that the flag is never false
  when the gap is at least 5/9, as the default gap of 0.6 is.
  `RequestedBreakHasValidRatio` states this for the whole command under
  settings the holder can be in.
  `RequestDespiteRatioOutOfBounds` gives a sheet where a break is requested
  although its flag is false.
- The symbols setter's guard needs a value below 1 and above 3 at once, so
  it never fires. Every value is stored as given; `GuardSymbols` models it
  that way.
- The comment on the orientation test says it returns true for vertical
  views. The code returns true for horizontal ones, and `IsHorizontal`
  follows the code.

Preconditions the model adds:

- `AutoBreak` requires every view to have positive width and height.
  `ComputeBreakPoints` requires the dimension along the break to be positive.
  The helpers divide 5 by that dimension. The size check does not rule out a
  zero dimension when the gap is -5 or less. In that case the host's
  floating-point division gives infinity and the points become NaN; no
  exception is raised. The model does not cover that case.

## Model

| member | source | states |
|---|---|---|
| `Filter` | AutoBreaker/AutoBreaker/Model/InventorHandler.cs:25-40 | the views kept are exactly those whose camera is one of the seven standard orientations, each kept with its multiplicity; no other view survives |
| `CompareBySize` | AutoBreaker/AutoBreaker/Model/InventorHandler.cs:242-249 | -1 exactly when the first view's area is larger, 1 exactly when it is smaller, 0 exactly when the areas are equal |
| `CompareAntisymmetric` | AutoBreaker/AutoBreaker/Model/InventorHandler.cs:242-249 | swapping the two views negates the comparison |
| `CompareTransitive` | AutoBreaker/AutoBreaker/Model/InventorHandler.cs:242-249 | the comparer orders views consistently, as a sort requires |
| `MaxByArea` | AutoBreaker/AutoBreaker/Model/InventorHandler.cs:137-142 | nothing for an empty list, otherwise a member of the list whose area no other member exceeds |
| `GetBiggest` | AutoBreaker/AutoBreaker/Model/InventorHandler.cs:129-143 | none exactly when no view has an allowed orientation; otherwise an allowed view of the sheet whose area is at least that of every allowed view |
| `HeadOfSortedIsBiggest` | AutoBreaker/AutoBreaker/Model/InventorHandler.cs:136-140 | whatever order the sort leaves equal views in, the first view after filtering and sorting is a biggest allowed view, with the same area as the model's choice |
| `GetBiggestIgnoresOrder` | AutoBreaker/AutoBreaker/Model/InventorHandler.cs:129-143 | listing the same views in another order gives the same candidate whenever no two different views tie for the largest allowed area |
| `IsHorizontal` | AutoBreaker/AutoBreaker/Model/InventorHandler.cs:106-110 | the break runs along the longer side, and a square view is horizontal |
| `CanBeBroken` | AutoBreaker/AutoBreaker/Model/InventorHandler.cs:87-98 | a view can be broken exactly when the side along the break is at least the gap plus 5 units |
| `BreakOrientationOf` | AutoBreaker/AutoBreaker/Model/InventorHandler.cs:117-121 | the break orientation is horizontal exactly when the flag says horizontal |
| `StyleFromInt` | AutoBreaker/AutoBreaker/Model/InventorHandler.cs:217-228 | the style is structural exactly for code 1; 0 and every other code give rectangular |
| `StyleRoundTrip` | AutoBreaker/AutoBreaker/Model/InventorHandler.cs:217-228 | each style code the settings can hold maps to a break style that maps back to the same code |
| `TruncateToInt` | AutoBreaker/AutoBreaker/Model/InventorHandler.cs:75-76 | the integer percentage is the range with its fractional part dropped, rounding toward zero |
| `TruncatedRangeInBounds` | AutoBreaker/AutoBreaker/Model/InventorHandler.cs:75-76 | for settings whose range lies in [10, 90], as the holder guarantees, the range becomes a whole percentage between 10 and 90 |
| `BreakRatio` | AutoBreaker/AutoBreaker/Model/InventorHandler.cs:158-161 | the ratio gives a break length of the requested share or 5 units, whichever is larger, and it is the requested ratio whenever that share is at least 5 units |
| `RatioInBoundsIff` | AutoBreaker/AutoBreaker/Model/InventorHandler.cs:175 | a ratio of a positive dimension is in [0.1, 0.9] exactly when the break length is between a tenth and nine tenths of the dimension |
| `ComputeBreakPoints` | AutoBreaker/AutoBreaker/Model/InventorHandler.cs:153-210 | the two points are symmetric about the view's centre on the axis of the break, 0 on the other axis, and apart by the requested share or 5 units, whichever is larger; the flag is true exactly when that length is between a tenth and nine tenths of the dimension |
| `InvalidRatioIff` | AutoBreaker/AutoBreaker/Model/InventorHandler.cs:161-175 | for a percentage from 10 to 90, the flag is false exactly when the dimension along the break is below 50/9 units |
| `FeasibleViewHasValidRatio` | AutoBreaker/AutoBreaker/Model/InventorHandler.cs:62-76 | a view that passes the size check with a gap of at least 5/9 always gets a ratio in [0.1, 0.9], so ignoring the flag loses nothing then |
| `Decide` | AutoBreaker/AutoBreaker/Model/InventorHandler.cs:62-78 | no candidate or a candidate too small gives "no usable views"; otherwise a candidate with a break gives "already broken"; otherwise the request describes the candidate with the settings' style, gap and symbols and depth 5 |
| `AutoBreak` | AutoBreaker/AutoBreaker/Model/InventorHandler.cs:57-79 | no allowed view gives "no usable views"; every refusal and every request is justified by some biggest allowed view: too small, already broken, or large enough and unbroken with the request describing it |
| `AutoBreakDecidedByBiggest` | AutoBreaker/AutoBreaker/Model/InventorHandler.cs:60-71 | when all biggest allowed views agree (all too small, all broken and large enough, or all unbroken and large enough), the outcome is fixed whichever of them the sort puts first |
| `RequestedBreakHasValidRatio` | AutoBreaker/AutoBreaker/Model/InventorHandler.cs:73-78 | with settings the holder can be in and a gap of at least 5/9, every requested break has a ratio in [0.1, 0.9], so the ignored flag would have been true |
| `AutoBreakIgnoresOrder` | AutoBreaker/AutoBreaker/Model/InventorHandler.cs:57-79 | listing the same views in another order gives the same outcome whenever no two different views tie for the largest allowed area |
| `Settings.CoerceStyle` | AutoBreaker/AutoBreaker/Model/SettingsModel.cs:23-24 | the stored style is 0 or 1; it equals the value written exactly when that value is 0 or 1, and every other value stores 0 (rectangular) |
| `Settings.CoerceStyleIdempotent` | AutoBreaker/AutoBreaker/Model/SettingsModel.cs:23-24 | writing a stored style again stores the same style |
| `Settings.GuardSymbols` | AutoBreaker/AutoBreaker/Model/SettingsModel.cs:37-38 | every symbol count is stored unchanged, because the guard can never hold |
| `Settings.ClampRange` | AutoBreaker/AutoBreaker/Model/SettingsModel.cs:49-51 | the stored range lies in [10, 90]; a value in range is stored unchanged, lower values become 10 and higher values become 90 |
| `Settings.ClampRangeIdempotent` | AutoBreaker/AutoBreaker/Model/SettingsModel.cs:49-51 | writing a stored range again stores the same range |
| `Settings.ClampRangeIsNearest` | AutoBreaker/AutoBreaker/Model/SettingsModel.cs:49-51 | the stored range is the point of [10, 90] nearest to the value written |
| `Settings.ClampRangeMonotone` | AutoBreaker/AutoBreaker/Model/SettingsModel.cs:49-51 | a larger value written never gives a smaller stored range |
| `Settings.SettingsModel.constructor` | AutoBreaker/AutoBreaker/Model/SettingsModel.cs:58-64 | style 0, gap 0.6, symbols 1, range 90, and the settings invariant holds |
| `Settings.SettingsModel.SetStyle` | AutoBreaker/AutoBreaker/Model/SettingsModel.cs:21-25 | the style becomes the coerced value, the other three fields are unchanged, and the settings invariant is kept |
| `Settings.SettingsModel.SetGap` | AutoBreaker/AutoBreaker/Model/SettingsModel.cs:28 | the gap is stored as given and nothing else changes |
| `Settings.SettingsModel.SetSymbols` | AutoBreaker/AutoBreaker/Model/SettingsModel.cs:35-39 | the symbol count is stored as given and nothing else changes |
| `Settings.SettingsModel.SetRange` | AutoBreaker/AutoBreaker/Model/SettingsModel.cs:47-52 | the range becomes the clamped value in [10, 90], the other three fields are unchanged, and the settings invariant is kept |
| `Scenarios.WideViewAtNinetyPercent` | AutoBreaker/AutoBreaker/Model/InventorHandler.cs:57-79 | a 100 x 50 view centred at (10, 5) gets a horizontal break from x = -35 to x = 55 under the default settings |
| `Scenarios.SmallSquareViewRaisedToFiveUnits` | AutoBreaker/AutoBreaker/Model/InventorHandler.cs:158-175 | a 10 x 10 view at 10 percent is raised to a 5-unit break from -2.5 to 2.5, with its ratio in bounds |
| `Scenarios.SizeCheckedBeforeExistingBreak` | AutoBreaker/AutoBreaker/Model/InventorHandler.cs:62-71 | a broken view that is also too small is refused as not usable |
| `Scenarios.RequestDespiteRatioOutOfBounds` | AutoBreaker/AutoBreaker/Model/InventorHandler.cs:75-78 | with a zero gap a 5 x 1 view is broken although its ratio, 1.0, is out of bounds |

## Left out

- Host plumbing: the add-in lifecycle, ribbon buttons, icon conversion, the settings window and its view model, and the parsing of the gap text. None of it holds break logic.
- Host object-model calls: the active document and sheet, point creation and the break-creation call. Views are given as records and the request is returned. The trailing `true` argument of the break-creation call is the same on every call and is not carried in `BreakRequest`.
- Message boxes: they become the two `Refusal` values.
- Floating-point arithmetic: dimensions, gap and range are exact reals. Rounding, infinities and NaN are not modelled.
- The sort algorithm: only its effect is modelled, by `GetBiggest` returning some biggest view and `HeadOfSortedIsBiggest` relating that to any sorted order.
- GetBiggest: on a tie between views of equal largest area, the model returns the first in sheet order. The host's unstable sort may return another of them. The contracts of `GetBiggest` and `AutoBreak` only promise "some biggest view".
- TruncateToInt: the cast of an out-of-range value to a 32-bit integer is not modelled. The integer settings are unbounded integers.
- The "valid" flag of the points helpers: it is computed but never consulted, as in the code.
- A view with zero width or height: the model requires positive dimensions, so the infinite ratio and NaN points the host computes when such a view passes the size check (possible only with a gap of -5 or less) are not modelled.
