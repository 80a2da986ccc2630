/** The arithmetic and expand state of `SummaryView` (Stocks/Views/SummaryView.swift).
    Layout, fonts, label formatting and animation are not modelled. */
module Summary {
  import opened Model
  import opened Metrics
  import opened Presentation

  /** What `bind` puts on screen: the four figures as given, the P&L percentage and its colour. */
  datatype SummaryFigures = SummaryFigures(current: real, investment: real, today: real, total: real,
                                           percent: real, pnlColour: Colour)

  /** `bind(current:investment:today:total:)`. */
  function Bind(current: real, investment: real, today: real, total: real): (r: SummaryFigures)
    ensures r.current == current && r.investment == investment && r.today == today && r.total == total
    ensures investment == 0.0 ==> r.percent == 0.0
    ensures investment != 0.0 ==> r.percent * investment == total * 100.0
    ensures r.pnlColour == SystemGreen <==> total >= 0.0
  {
    var percent := if investment == 0.0 then 0.0 else (total / investment) * 100.0;
    SummaryFigures(current, investment, today, total, percent, SignColour(total))
  }

  /** The summary the screen shows for a holdings list. */
  function SummaryOf(hs: seq<Holding>): SummaryFigures {
    Bind(CurrentValue(hs), TotalInvestment(hs), TodaysPNL(hs), TotalPNL(hs))
  }

  /** With a positive investment the percentage and the colour agree: green exactly when
      the percentage is not negative. */
  lemma PercentAgreesWithColour(current: real, investment: real, today: real, total: real)
    requires investment > 0.0
    ensures var r := Bind(current, investment, today, total);
            r.pnlColour == SystemGreen <==> r.percent >= 0.0
  {
    var r := Bind(current, investment, today, total);
    assert r.percent * investment == total * 100.0;
    if r.percent < 0.0 {
      assert r.percent * investment < 0.0;
    } else {
      assert r.percent * investment >= 0.0;
    }
  }

  /** A portfolio bought entirely at zero cost shows a 0% P&L, never a division by zero. */
  lemma ZeroCostPortfolioShowsZeroPercent(hs: seq<Holding>)
    requires forall i :: 0 <= i < |hs| ==> hs[i].avgPrice == 0.0
    ensures SummaryOf(hs).percent == 0.0
  {
    ZeroCostMeansNoInvestment(hs);
  }

  /** The summaries of the unit-test portfolios. */
  lemma ExampleSummaries()
    ensures SummaryOf([Holding("AAA", 2, 150.0, 120.0, 140.0), Holding("BBB", 1, 50.0, 40.0, 45.0)]).percent == 25.0
    ensures SummaryOf([Holding("FREE", 5, 120.0, 0.0, 100.0)]) == SummaryFigures(600.0, 0.0, 100.0, 600.0, 0.0, SystemGreen)
    ensures SummaryOf([Holding("LOSS", 2, 50.0, 100.0, 90.0)]).pnlColour == SystemRed
  {
    TwoHoldingsExample();
    ZeroInvestmentExample();
    LossExample();
  }

  class SummaryView {
    var isExpanded: bool
    /** `detailsStack.isHidden` */
    var detailsHidden: bool
    /** Whether the chevron carries the half-turn transform. */
    var chevronTurned: bool

    /** The details row is shown, and the chevron turned, exactly when expanded. */
    ghost predicate Valid()
      reads this
    {
      detailsHidden == !isExpanded && chevronTurned == isExpanded
    }

    /** `init(frame:)`: collapsed, details hidden. */
    constructor ()
      ensures Valid() && !isExpanded
    {
      isExpanded := false;
      detailsHidden := true;
      chevronTurned := false;
    }

    /** `setExpanded(_:animated:)`; `animated` decides only whether the change is animated. */
    method SetExpanded(expand: bool, animated: bool)
      modifies this
      ensures Valid() && isExpanded == expand
    {
      isExpanded := expand;
      detailsHidden := !expand;
      chevronTurned := expand;
    }

    /** `toggle()`: flips the state and returns the value handed to `onToggle`. */
    method Toggle() returns (reported: bool)
      modifies this
      ensures Valid() && isExpanded == !old(isExpanded) && reported == isExpanded
    {
      SetExpanded(!isExpanded, true);
      reported := isExpanded;
    }
  }
}
