/** The currency slice of the store: the selected display currency, the
    exchange-rate table (units of a currency per US dollar) and the list of
    currencies the selector offers. */
module CurrencySlice {
  import opened Support

  /** One selectable currency. */
  datatype Currency = Currency(code: string, symbol: string, name: string)

  /** The built-in rates, per US dollar. */
  const ExchangeRates: map<string, real> := map[
    "USD" := 1.0, "EUR" := 0.92, "GBP" := 0.79, "JPY" := 149.82, "INR" := 83.25,
    "CNY" := 7.09, "CHF" := 0.90, "CAD" := 1.37, "AUD" := 1.51]

  /** The currencies offered, in display order. */
  const AvailableCurrencies: seq<Currency> := [
    Currency("USD", "$", "US Dollar"),
    Currency("EUR", "€", "Euro"),
    Currency("GBP", "£", "British Pound"),
    Currency("JPY", "¥", "Japanese Yen"),
    Currency("INR", "₹", "Indian Rupee"),
    Currency("CNY", "¥", "Chinese Yuan"),
    Currency("CHF", "Fr", "Swiss Franc"),
    Currency("CAD", "$", "Canadian Dollar"),
    Currency("AUD", "$", "Australian Dollar")]

  const DefaultCode := "USD"
  const DefaultSymbol := "$"

  /** The nine offered codes are distinct. */
  lemma CodesDistinct()
    ensures |AvailableCurrencies| == 9
    ensures forall i, j :: 0 <= i < j < |AvailableCurrencies| ==>
      AvailableCurrencies[i].code != AvailableCurrencies[j].code
  {
  }

  /** Every offered code has a rate. */
  lemma OfferedHaveRates()
    ensures forall i :: 0 <= i < |AvailableCurrencies| ==> AvailableCurrencies[i].code in ExchangeRates
  {
  }

  /** Every rate belongs to an offered code. */
  lemma RatesAreOffered()
    ensures forall code :: code in ExchangeRates ==> exists c :: c in AvailableCurrencies && c.code == code
  {
    forall code | code in ExchangeRates
      ensures exists c :: c in AvailableCurrencies && c.code == code
    {
      var i :=
        if code == "USD" then 0 else if code == "EUR" then 1 else if code == "GBP" then 2
        else if code == "JPY" then 3 else if code == "INR" then 4 else if code == "CNY" then 5
        else if code == "CHF" then 6 else if code == "CAD" then 7 else 8;
      assert AvailableCurrencies[i].code == code;
    }
  }

  /** The dollar is the unit and every built-in rate is positive. */
  lemma DollarIsUnit()
    ensures ExchangeRates[DefaultCode] == 1.0
    ensures forall code :: code in ExchangeRates ==> ExchangeRates[code] > 0.0
  {
  }

  /** `updateExchangeRates`' table: the old table spread, then the payload
      spread over it. Payload keys take the payload's rate, keys only in the
      old table keep theirs, and nothing else appears. */
  function MergeRates(rates: map<string, real>, payload: map<string, real>): (r: map<string, real>)
    ensures r.Keys == rates.Keys + payload.Keys
    ensures forall k :: k in payload ==> r[k] == payload[k]
    ensures forall k :: k in rates && k !in payload ==> r[k] == rates[k]
  {
    rates + payload
  }

  /** Two successive merges are one merge with the second payload spread
      over the first. */
  lemma {:induction false} MergeRatesTwice(rates: map<string, real>, p: map<string, real>, q: map<string, real>)
    ensures MergeRates(MergeRates(rates, p), q) == MergeRates(rates, MergeRates(p, q))
  {
    var lhs := MergeRates(MergeRates(rates, p), q);
    var rhs := MergeRates(rates, MergeRates(p, q));
    assert lhs.Keys == rhs.Keys;
    forall k | k in lhs
      ensures lhs[k] == rhs[k]
    {
      if k in q {
      } else if k in p {
      } else {
      }
    }
  }

  /** `selectCurrencySymbol`'s lookup: the symbol of the first currency with
      that code, or the dollar sign when none has it. */
  function SymbolFor(currencies: seq<Currency>, code: string): (r: string)
    ensures (forall i :: 0 <= i < |currencies| ==> currencies[i].code != code) ==> r == DefaultSymbol
    ensures forall i ::
      (0 <= i < |currencies| && currencies[i].code == code
       && forall k :: 0 <= k < i ==> currencies[k].code != code) ==> r == currencies[i].symbol
  {
    match FindFirst(currencies, (c: Currency) => c.code == code)
    case Some(i) => currencies[i].symbol
    case None => DefaultSymbol
  }

  /** With the built-in list, every offered code gets its own symbol, and
      any other selection (codes are not validated) falls back to the dollar
      sign, the very sign the dollar itself has. */
  lemma BuiltInSymbols(code: string)
    ensures forall i :: 0 <= i < |AvailableCurrencies| ==>
      SymbolFor(AvailableCurrencies, AvailableCurrencies[i].code) == AvailableCurrencies[i].symbol
    ensures code !in ExchangeRates ==> SymbolFor(AvailableCurrencies, code) == DefaultSymbol
    ensures SymbolFor(AvailableCurrencies, DefaultCode) == DefaultSymbol
  {
    CodesDistinct();
    OfferedHaveRates();
    forall i | 0 <= i < |AvailableCurrencies|
      ensures SymbolFor(AvailableCurrencies, AvailableCurrencies[i].code) == AvailableCurrencies[i].symbol
    {
      assert forall k :: 0 <= k < i ==> AvailableCurrencies[k].code != AvailableCurrencies[i].code;
    }
    assert AvailableCurrencies[0].code == DefaultCode;
  }

  /** The slice's state. */
  class CurrencyStore {
    var selectedCurrency: string
    var exchangeRates: map<string, real>
    var availableCurrencies: seq<Currency>

    constructor()
      ensures selectedCurrency == DefaultCode
      ensures exchangeRates == ExchangeRates && availableCurrencies == AvailableCurrencies
    {
      selectedCurrency, exchangeRates, availableCurrencies := DefaultCode, ExchangeRates, AvailableCurrencies;
    }

    /** `setSelectedCurrency`: stores any code, offered or not. */
    method SetSelectedCurrency(code: string)
      modifies this
      ensures selectedCurrency == code
      ensures exchangeRates == old(exchangeRates) && availableCurrencies == old(availableCurrencies)
    {
      selectedCurrency := code;
    }

    /** `updateExchangeRates`: merge with override. */
    method UpdateExchangeRates(payload: map<string, real>)
      modifies this
      ensures exchangeRates == MergeRates(old(exchangeRates), payload)
      ensures selectedCurrency == old(selectedCurrency) && availableCurrencies == old(availableCurrencies)
    {
      exchangeRates := MergeRates(exchangeRates, payload);
    }

    /** `resetCurrency`: the dollar and the built-in tables again. */
    method ResetCurrency()
      modifies this
      ensures selectedCurrency == DefaultCode
      ensures exchangeRates == ExchangeRates && availableCurrencies == AvailableCurrencies
    {
      selectedCurrency, exchangeRates, availableCurrencies := DefaultCode, ExchangeRates, AvailableCurrencies;
    }

    /** `selectCurrencySymbol`. */
    function SelectCurrencySymbol(): (r: string)
      reads this
      ensures (forall i :: 0 <= i < |availableCurrencies| ==> availableCurrencies[i].code != selectedCurrency) ==>
        r == DefaultSymbol
      ensures forall i ::
        (0 <= i < |availableCurrencies| && availableCurrencies[i].code == selectedCurrency
         && forall k :: 0 <= k < i ==> availableCurrencies[k].code != selectedCurrency) ==>
        r == availableCurrencies[i].symbol
    {
      SymbolFor(availableCurrencies, selectedCurrency)
    }
  }
}
