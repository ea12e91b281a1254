/** The percent-change badge: a colour class and a sign chosen from the value. */
module PriceChange {
  import opened Support
  import CryptoRow

  /** The three colour classes the badge can take. */
  datatype Tone = PriceUp | PriceDown | Neutral

  /** The badge's class and the sign written before the value. */
  datatype Badge = Badge(tone: Tone, sign: string)

  /** The badge for a value: rising above zero is `price-up` with '+',
      below zero is `price-down`, and exactly zero is the neutral grey; only
      a rising badge carries a sign. */
  function Classify(value: real): (b: Badge)
    ensures b.tone == PriceUp <==> value > 0.0
    ensures b.tone == PriceDown <==> value < 0.0
    ensures b.tone == Neutral <==> value == 0.0
    ensures b.sign == "+" <==> b.tone == PriceUp
    ensures b.sign == "" <==> b.tone != PriceUp
  {
    var up := value > 0.0;
    Badge(if up then PriceUp else if value < 0.0 then PriceDown else Neutral, if up then "+" else "")
  }

  /** The badge and the row's percentage formatting agree on every value but
      zero, which the row writes with a '+' and the badge without. */
  lemma ZeroSignDiffers(value: real)
    ensures value != 0.0 ==> (Classify(value).sign == "+" <==> CryptoRow.FormatPercentage(Some(value)).prefix == "+")
    ensures Classify(0.0).sign == "" && CryptoRow.FormatPercentage(Some(0.0)).prefix == "+"
  {
  }
}
