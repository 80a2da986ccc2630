/** The per-row figures of `HoldingCell.configure(with:)` (Stocks/Views/HoldingCell.swift).
    Layout and number formatting are not modelled. */
module Cell {
  import opened Model
  import opened Metrics
  import opened Presentation

  /** What one table row shows. */
  datatype CellContent = CellContent(symbolText: string, quantity: int, ltp: real, pnl: real, pnlColour: Colour)

  /** The row's profit and loss: `(ltp - avgPrice) * quantity`. */
  function RowPNL(h: Holding): real {
    (h.ltp - h.avgPrice) * h.quantity as real
  }

  /** `configure(with:)`. */
  function Configure(h: Holding): (c: CellContent)
    ensures c.symbolText == h.symbol && c.quantity == h.quantity && c.ltp == h.ltp
    ensures c.pnl == Worth(h) - Cost(h)
    ensures h.quantity == 0 ==> c.pnl == 0.0
    ensures c.pnlColour == SystemGreen <==> c.pnl >= 0.0
  {
    var pnl := RowPNL(h);
    CellContent(h.symbol, h.quantity, h.ltp, pnl, SignColour(pnl))
  }

  /** The rows' P&Ls add up to the summary's total P&L. */
  lemma {:induction false} RowsAddUpToTotalPNL(hs: seq<Holding>)
    ensures Sum(hs, RowPNL) == TotalPNL(hs)
  {
    forall h: Holding ensures RowPNL(h) == Worth(h) - Cost(h) {
    }
    SumOfDifference(hs, Worth, Cost, RowPNL);
  }
}
