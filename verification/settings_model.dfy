/**
 The break parameters of the add-in session: break style, gap, number of break
 symbols and the removal range in percent. Every setter coerces the value it is
 given instead of rejecting it; the coercions are pure functions here, and the
 mutable holder applies them field by field.
 */
module Settings {

  /** Style codes as the settings store them: 0 rectangular, 1 structural. */
  const RectangularCode: int := 0
  const StructuralCode: int := 1

  /** Bounds of the removal range, in percent. */
  const MinRange: real := 10.0
  const MaxRange: real := 90.0

  /** Values installed by the constructor. */
  const DefaultStyle: int := 0
  const DefaultGap: real := 0.6
  const DefaultSymbols: int := 1
  const DefaultRange: real := 90.0

  /** What the style setter stores: 0 and 1 are kept, anything else becomes rectangular. */
  function CoerceStyle(value: int): (stored: int)
    ensures stored == RectangularCode || stored == StructuralCode
    ensures stored == value <==> value == RectangularCode || value == StructuralCode
    ensures !(value == RectangularCode || value == StructuralCode) ==> stored == RectangularCode
  {
    if value == RectangularCode || value == StructuralCode then value else RectangularCode
  }

  /** What the range setter stores: the value clamped into [MinRange, MaxRange]. */
  function ClampRange(value: real): (stored: real)
    ensures MinRange <= stored <= MaxRange
    ensures MinRange <= value <= MaxRange ==> stored == value
    ensures value < MinRange ==> stored == MinRange
    ensures value > MaxRange ==> stored == MaxRange
  {
    if value < MinRange then MinRange
    else if value > MaxRange then MaxRange
    else value
  }

  /**
   What the symbols setter stores. Its guard asks for a value below 1 and above
   3 at once, which no integer is, so every value is stored as given: the
   intended clamp to [1, 3] never happens.
   */
  function GuardSymbols(value: int): (stored: int)
    ensures stored == value
  {
    if value < 1 && value > 3 then 1 else value
  }

  /** Clamping a stored range again changes nothing. */
  lemma ClampRangeIdempotent(value: real)
    ensures ClampRange(ClampRange(value)) == ClampRange(value)
  {
  }

  /** The clamped range is the point of [MinRange, MaxRange] nearest to the value written. */
  lemma ClampRangeIsNearest(value: real, candidate: real)
    requires MinRange <= candidate <= MaxRange
    ensures Dist(ClampRange(value), value) <= Dist(candidate, value)
  {
  }

  /** Clamping keeps the order of the values written. */
  lemma ClampRangeMonotone(a: real, b: real)
    requires a <= b
    ensures ClampRange(a) <= ClampRange(b)
  {
  }

  /** Coercing a stored style again changes nothing. */
  lemma CoerceStyleIdempotent(value: int)
    ensures CoerceStyle(CoerceStyle(value)) == CoerceStyle(value)
  {
  }

  function Dist(a: real, b: real): real
  {
    if a >= b then a - b else b - a
  }

  /** A read-only view of the four settings, as the break engine reads them. */
  datatype Config = Config(style: int, gap: real, symbols: int, range: real)
  {
    /** What the style and range setters guarantee; gap and symbols are unconstrained. */
    predicate Valid()
    {
      && (style == RectangularCode || style == StructuralCode)
      && MinRange <= range <= MaxRange
    }
  }

  /** The mutable settings holder shared by the settings editor and the break command. */
  class SettingsModel {
    var style: int
    var gap: real
    var symbols: int
    var range: real

    /** The state every setter leaves behind, from construction onward. */
    predicate Valid()
      reads this
    {
      Current().Valid()
    }

    function Current(): Config
      reads this
    {
      Config(style, gap, symbols, range)
    }

    /** Rectangular style, gap 0.6, one symbol, and 90 percent written through the range setter. */
    constructor ()
      ensures Valid()
      ensures style == DefaultStyle && gap == DefaultGap
      ensures symbols == DefaultSymbols && range == DefaultRange
    {
      style := DefaultStyle;
      gap := DefaultGap;
      symbols := DefaultSymbols;
      range := ClampRange(DefaultRange);
    }

    method SetStyle(value: int)
      modifies this
      ensures style == CoerceStyle(value)
      ensures style == RectangularCode || style == StructuralCode
      ensures gap == old(gap) && symbols == old(symbols) && range == old(range)
      ensures old(Valid()) ==> Valid()
    {
      style := CoerceStyle(value);
    }

    /** The gap is stored as given, negative values included. */
    method SetGap(value: real)
      modifies this
      ensures gap == value
      ensures style == old(style) && symbols == old(symbols) && range == old(range)
      ensures old(Valid()) ==> Valid()
    {
      gap := value;
    }

    method SetSymbols(value: int)
      modifies this
      ensures symbols == value
      ensures style == old(style) && gap == old(gap) && range == old(range)
      ensures old(Valid()) ==> Valid()
    {
      symbols := GuardSymbols(value);
    }

    method SetRange(value: real)
      modifies this
      ensures range == ClampRange(value)
      ensures MinRange <= range <= MaxRange
      ensures MinRange <= value <= MaxRange ==> range == value
      ensures style == old(style) && gap == old(gap) && symbols == old(symbols)
      ensures old(Valid()) ==> Valid()
    {
      range := ClampRange(value);
    }
  }
}
