/**
 Worked cases of the auto-break command on small sheets, with the default
 settings unless stated otherwise.
 */
module Scenarios {
  import Settings
  import opened InventorHandler

  const Defaults: Settings.Config :=
    Settings.Config(Settings.DefaultStyle, Settings.DefaultGap, Settings.DefaultSymbols, Settings.DefaultRange)

  /** A 100 x 50 view centred at (10, 5) at 90 percent: a horizontal break from x = -35 to x = 55. */
  lemma WideViewAtNinetyPercent()
    ensures AutoBreak([View(100.0, 50.0, Point(10.0, 5.0), Front, 0)], Defaults)
      == Requested(BreakRequest(HorizontalBreak, Point(-35.0, 0.0), Point(55.0, 0.0), Rectangular, 5, 0.6, 1))
  {
    var v := View(100.0, 50.0, Point(10.0, 5.0), Front, 0);
    assert GetBiggest([v]) == Some(v);
  }

  /** A 10 x 10 view at 10 percent asks for 1 unit; the ratio is raised to 0.5, which is in bounds. */
  lemma SmallSquareViewRaisedToFiveUnits()
    ensures ComputeBreakPoints(View(10.0, 10.0, Point(0.0, 0.0), Top, 0), true, 10)
      == BreakPoints(Point(-2.5, 0.0), Point(2.5, 0.0), true)
  {
  }

  /** A tall view breaks vertically: the points vary in y about the centre and have x = 0. */
  lemma TallViewBreaksVertically()
    ensures AutoBreak([View(20.0, 200.0, Point(7.0, 30.0), Left, 0)], Defaults)
      == Requested(BreakRequest(VerticalBreak, Point(0.0, -60.0), Point(0.0, 120.0), Rectangular, 5, 0.6, 1))
  {
    var v := View(20.0, 200.0, Point(7.0, 30.0), Left, 0);
    assert GetBiggest([v]) == Some(v);
  }

  /** A 2 x 2 view is too small for the default gap, which the command reports as no usable view. */
  lemma TinyViewIsNotUsable()
    ensures AutoBreak([View(2.0, 2.0, Point(0.0, 0.0), Front, 0)], Defaults) == Refused(NoUsableViews)
  {
    var v := View(2.0, 2.0, Point(0.0, 0.0), Front, 0);
    assert GetBiggest([v]) == Some(v);
  }

  /** A sheet whose only view has a non-standard camera has no usable view, however large it is. */
  lemma NonStandardViewIsIgnored()
    ensures AutoBreak([View(300.0, 100.0, Point(0.0, 0.0), OtherOrientation(3), 0)], Defaults)
      == Refused(NoUsableViews)
  {
    var v := View(300.0, 100.0, Point(0.0, 0.0), OtherOrientation(3), 0);
    assert !HasAllowedOrientation(v);
  }

  /** The larger of two standard views is chosen, and its existing break stops the command. */
  lemma BiggestAlreadyBroken()
    ensures AutoBreak([View(30.0, 30.0, Point(0.0, 0.0), Front, 0), View(80.0, 40.0, Point(0.0, 0.0), Top, 1)], Defaults)
      == Refused(AlreadyBroken)
  {
    var small := View(30.0, 30.0, Point(0.0, 0.0), Front, 0);
    var large := View(80.0, 40.0, Point(0.0, 0.0), Top, 1);
    assert [small, large][1..] == [large];
    assert GetBiggest([small, large]) == Some(large);
  }

  /** The size check comes first: a broken view that is also too small is reported as not usable. */
  lemma SizeCheckedBeforeExistingBreak()
    ensures AutoBreak([View(3.0, 1.0, Point(0.0, 0.0), Back, 2)], Defaults) == Refused(NoUsableViews)
  {
    var v := View(3.0, 1.0, Point(0.0, 0.0), Back, 2);
    assert GetBiggest([v]) == Some(v);
  }

  /**
   A 5 x 1 view at 90 percent asks for 4.5 units; the 5-unit minimum is its
   whole width, a ratio of 1.0, which the points helper reports as out of bounds.
   */
  lemma NarrowViewRatioOutOfBounds()
    ensures !ComputeBreakPoints(View(5.0, 1.0, Point(1.0, 2.0), Right, 0), true, 90).valid
  {
  }

  /**
   With a zero gap the same view passes the size check, and the command requests
   the break although its ratio is out of bounds.
   */
  lemma RequestDespiteRatioOutOfBounds()
    ensures AutoBreak([View(5.0, 1.0, Point(1.0, 2.0), Right, 0)], Settings.Config(0, 0.0, 1, 90.0))
      == Requested(BreakRequest(HorizontalBreak, Point(-1.5, 0.0), Point(3.5, 0.0), Rectangular, 5, 0.0, 1))
  {
    var v := View(5.0, 1.0, Point(1.0, 2.0), Right, 0);
    assert GetBiggest([v]) == Some(v);
  }
}
