/** The display decisions of one market-table row: which figure each cell
    shows, with which decimals, sign and suffix; which logo is drawn; and the
    flash direction after a price change. The locale formatting itself is
    not modelled: a cell is described by the number it formats and the
    options it formats it with. */
module CryptoRow {
  import opened Support

  /** A formatted cell: 'N/A', or a number written with the given prefix,
      fraction digits and suffix. */
  datatype Cell =
    | NotAvailable
    | Figure(prefix: string, value: real, minDecimals: nat, maxDecimals: nat, suffix: string)

  /** The volume cell: the traded value in the display currency over the
      approximate traded amount of the coin. */
  datatype VolumeCell = VolumeNotAvailable | Volume(fiat: Cell, amount: Cell)

  /** The symbols that have a built-in logo. */
  const LogoSymbols: set<string> := {"BTC", "ETH", "SOL", "ADA", "USDT"}

  /** The largest number of fraction digits a price is shown with, chosen by
      its converted value: six below 1, four below 10, two from 10 up. */
  function MaxDecimals(converted: real): (d: nat)
    ensures d == 6 <==> converted < 1.0
    ensures d == 4 <==> 1.0 <= converted < 10.0
    ensures d == 2 <==> converted >= 10.0
  {
    if converted < 1.0 then 6 else if converted < 10.0 then 4 else 2
  }

  /** A larger price never gets more fraction digits. */
  lemma MaxDecimalsMonotone(x: real, y: real)
    requires x <= y
    ensures MaxDecimals(y) <= MaxDecimals(x)
    ensures MaxDecimals(y) >= 2
  {
  }

  /** `formatNumber`: 'N/A' for a missing number, otherwise the converted
      value behind the currency sign with at most two fraction digits. */
  function FormatNumber(num: Option<real>, rate: real, currencySymbol: string): (c: Cell)
    ensures c.NotAvailable? <==> num.None?
    ensures num.Some? ==> c == Figure(currencySymbol, num.value * rate, 0, 2, "")
  {
    match num
    case None => NotAvailable
    case Some(n) => Figure(currencySymbol, n * rate, 0, 2, "")
  }

  /** `formatPrice`: 'N/A' for a missing price, otherwise the converted price
      behind the currency sign, with at least two fraction digits and at most
      the tier `MaxDecimals` picks for the converted value. */
  function FormatPrice(price: Option<real>, rate: real, currencySymbol: string): (c: Cell)
    ensures c.NotAvailable? <==> price.None?
    ensures price.Some? ==> c.prefix == currencySymbol && c.value == price.value * rate && c.suffix == ""
    ensures price.Some? ==> c.minDecimals == 2 && c.minDecimals <= c.maxDecimals
    ensures price.Some? ==> (c.maxDecimals == 6 <==> price.value * rate < 1.0)
    ensures price.Some? ==> (c.maxDecimals == 4 <==> 1.0 <= price.value * rate < 10.0)
    ensures price.Some? ==> (c.maxDecimals == 2 <==> price.value * rate >= 10.0)
  {
    match price
    case None => NotAvailable
    case Some(p) =>
      var converted := p * rate;
      Figure(currencySymbol, converted, 2, MaxDecimals(converted), "")
  }

  /** `formatPercentage`: 'N/A' for a missing value, otherwise two fixed
      fraction digits and a percent sign, with '+' in front exactly when the
      value is zero or more. */
  function FormatPercentage(percentage: Option<real>): (c: Cell)
    ensures c.NotAvailable? <==> percentage.None?
    ensures percentage.Some? ==> c.value == percentage.value && c.suffix == "%"
    ensures percentage.Some? ==> c.minDecimals == 2 && c.maxDecimals == 2
    ensures percentage.Some? ==> (c.prefix == "+" <==> percentage.value >= 0.0)
    ensures percentage.Some? ==> (c.prefix == "" <==> percentage.value < 0.0)
  {
    match percentage
    case None => NotAvailable
    case Some(p) => Figure(if p >= 0.0 then "+" else "", p, 2, 2, "%")
  }

  /** `formatSupply`: 'N/A' for a missing supply, otherwise the unconverted
      supply followed by the coin's own symbol. */
  function FormatSupply(supply: Option<real>, assetSymbol: string): (c: Cell)
    ensures c.NotAvailable? <==> supply.None?
    ensures supply.Some? ==> c == Figure("", supply.value, 0, 2, " " + assetSymbol)
  {
    match supply
    case None => NotAvailable
    case Some(s) => Figure("", s, 0, 2, " " + assetSymbol)
  }

  /** The approximate traded amount of the coin: the volume divided by the
      price when the price is positive, and zero otherwise. */
  function CoinAmount(volume: real, price: real): (amount: real)
    ensures price > 0.0 ==> amount * price == volume
    ensures price <= 0.0 ==> amount == 0.0
    ensures price > 0.0 && volume >= 0.0 ==> amount >= 0.0
  {
    if price > 0.0 then volume / price else 0.0
  }

  /** `formatVolume`: 'N/A' for a missing volume; otherwise the converted
      volume behind the currency sign over the coin amount, which is taken
      from the unconverted volume and the asset's price. */
  function FormatVolume(volume: Option<real>, price: real, rate: real, currencySymbol: string,
                        assetSymbol: string): (c: VolumeCell)
    ensures c.VolumeNotAvailable? <==> volume.None?
    ensures volume.Some? ==> c.fiat == Figure(currencySymbol, volume.value * rate, 0, 2, "")
    ensures volume.Some? ==> c.amount.Figure? && c.amount.suffix == " " + assetSymbol && c.amount.prefix == ""
    ensures volume.Some? && price > 0.0 ==> c.amount.value * price == volume.value
    ensures volume.Some? && price <= 0.0 ==> c.amount.value == 0.0
  {
    match volume
    case None => VolumeNotAvailable
    case Some(v) =>
      Volume(FormatNumber(Some(v), rate, currencySymbol), Figure("", CoinAmount(v, price), 0, 2, " " + assetSymbol))
  }

  /** A change figure as the row receives it: absent from the record,
      JSON null (how a CoinGecko reply carries a missing change), or a number. */
  datatype JsNumber = Undefined | Null | Num(value: real)

  /** A change figure of a CoinGecko record: a missing value is null. */
  function FromJson(change: Option<real>): (n: JsNumber)
    ensures n.Null? <==> change.None?
    ensures change.Some? ==> n == Num(change.value)
  {
    match change
    case None => Null
    case Some(v) => Num(v)
  }

  /** The colour of a change column: green when the figure compares `>= 0`.
      In JavaScript null compares as zero and so is green, while an absent
      figure compares false and is red. */
  function ChangeIsGreen(change: JsNumber): (green: bool)
    ensures green <==> change.Null? || (change.Num? && change.value >= 0.0)
  {
    match change
    case Undefined => false
    case Null => true
    case Num(v) => v >= 0.0
  }

  /** The text of a change column: 'N/A' for an absent figure, otherwise
      `formatPercentage`, which also gives 'N/A' for null. */
  function ChangeCell(change: JsNumber): (c: Cell)
    ensures c.NotAvailable? <==> !change.Num?
    ensures change.Num? ==> c == FormatPercentage(Some(change.value))
  {
    if change.Num? then FormatPercentage(Some(change.value)) else NotAvailable
  }

  /** A column with a figure is green exactly when it shows a '+'; a null
      figure shows a green 'N/A' and an absent one a red 'N/A'. */
  lemma ColourMatchesSign(change: JsNumber)
    ensures change.Num? ==> ChangeCell(change).Figure? && (ChangeIsGreen(change) <==> ChangeCell(change).prefix == "+")
    ensures change.Null? ==> ChangeIsGreen(change) && ChangeCell(change).NotAvailable?
    ensures change.Undefined? ==> !ChangeIsGreen(change) && ChangeCell(change).NotAvailable?
  {
  }

  /** A CoinGecko record without a change figure shows it as a green 'N/A'. */
  lemma MissingGeckoChangeIsGreen(change: Option<real>)
    requires change.None?
    ensures ChangeIsGreen(FromJson(change)) && ChangeCell(FromJson(change)).NotAvailable?
  {
  }

  /** The logo a row draws. */
  datatype Logo = Remote(url: string) | BuiltIn(symbol: string) | Initial(letter: string)

  /** `getLogo`: the asset's image when it is a web address, else the
      built-in logo for the symbol, else a disc with the symbol's first
      letter (nothing for an empty symbol). */
  function GetLogo(image: Option<string>, symbol: string): (l: Logo)
    ensures l.Remote? <==> image.Some? && StartsWith(image.value, "http")
    ensures l.Remote? ==> l.url == image.value
    ensures l.BuiltIn? <==> !l.Remote? && symbol in LogoSymbols
    ensures l.BuiltIn? ==> l.symbol == symbol
    ensures l.Initial? ==> l.letter <= symbol && |l.letter| == (if |symbol| == 0 then 0 else 1)
  {
    if image.Some? && StartsWith(image.value, "http") then Remote(image.value)
    else if symbol in LogoSymbols then BuiltIn(symbol)
    else Initial(if |symbol| == 0 then "" else symbol[..1])
  }

  /** Which way the price cell flashes. */
  datatype Direction = Up | Down

  /** The direction after a price observation: up when the price rose, down
      when it fell, and whatever it was when it is equal. */
  function NextDirection(current: real, previous: real, direction: Option<Direction>): (d: Option<Direction>)
    ensures d == Some(Up) <==> current > previous || (current == previous && direction == Some(Up))
    ensures d == Some(Down) <==> current < previous || (current == previous && direction == Some(Down))
    ensures d.None? <==> current == previous && direction.None?
  {
    if current > previous then Some(Up) else if current < previous then Some(Down) else direction
  }

  /** Seeing the same price again changes nothing, so the effect's re-run
      after it stores the previous price keeps the flash. */
  lemma SecondObservationKeeps(current: real, previous: real, direction: Option<Direction>)
    ensures NextDirection(current, current, NextDirection(current, previous, direction))
      == NextDirection(current, previous, direction)
  {
  }

  /** The row's flash state: the last direction and the price it was judged
      against. */
  class PriceFlash {
    var direction: Option<Direction>
    var previousPrice: real

    constructor(price: real)
      ensures direction.None? && previousPrice == price
    {
      direction, previousPrice := None, price;
    }

    /** The price effect: the direction is judged against the previous
        price, which then becomes the current one. */
    method Observe(current: real)
      modifies this
      ensures direction == NextDirection(current, old(previousPrice), old(direction))
      ensures previousPrice == current
    {
      direction := NextDirection(current, previousPrice, direction);
      previousPrice := current;
    }

    /** The effect's timeout: the flash ends. */
    method Expire()
      modifies this
      ensures direction.None? && previousPrice == old(previousPrice)
    {
      direction := None;
    }
  }
}
