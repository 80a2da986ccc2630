/** What the two P&L labels share: the colour chosen from the sign of an amount. */
module Presentation {

  datatype Colour = SystemGreen | SystemRed

  /** `amount >= 0 ? .systemGreen : .systemRed` */
  function SignColour(amount: real): Colour {
    if amount >= 0.0 then SystemGreen else SystemRed
  }
}
