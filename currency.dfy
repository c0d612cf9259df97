/**
 * The currency converter of `src/pages/Currency.tsx`: the conversion effect with its
 * guard, the newest-first history capped at ten entries, the from/to swap and the
 * currency-info lookup.
 *
 * Amounts and rates are exact rationals (`real`); the page computes in floating point.
 */
module Currency {
  import opened Wrappers
  import Seqs

  /** A JavaScript number as the conversion can produce it: a value, or NaN for a code without a rate. */
  datatype Num = Finite(v: real) | NaN

  datatype CurrencyData = CurrencyData(name: string, symbol: string, flag: string)

  /** `currencyData`. */
  const Table: map<string, CurrencyData> := map[
    "USD" := CurrencyData("US Dollar", "$", "\U{1F1FA}\U{1F1F8}"),
    "EUR" := CurrencyData("Euro", "\U{20AC}", "\U{1F1EA}\U{1F1FA}"),
    "GBP" := CurrencyData("British Pound", "\U{A3}", "\U{1F1EC}\U{1F1E7}"),
    "JPY" := CurrencyData("Japanese Yen", "\U{A5}", "\U{1F1EF}\U{1F1F5}"),
    "AUD" := CurrencyData("Australian Dollar", "A$", "\U{1F1E6}\U{1F1FA}"),
    "CAD" := CurrencyData("Canadian Dollar", "C$", "\U{1F1E8}\U{1F1E6}"),
    "CHF" := CurrencyData("Swiss Franc", "Fr", "\U{1F1E8}\U{1F1ED}"),
    "CNY" := CurrencyData("Chinese Yuan", "\U{A5}", "\U{1F1E8}\U{1F1F3}"),
    "INR" := CurrencyData("Indian Rupee", "\U{20B9}", "\U{1F1EE}\U{1F1F3}"),
    "MXN" := CurrencyData("Mexican Peso", "Mex$", "\U{1F1F2}\U{1F1FD}"),
    "BRL" := CurrencyData("Brazilian Real", "R$", "\U{1F1E7}\U{1F1F7}")
  ]

  /** `exchangeRates`: units of each currency per US dollar. */
  const Rates: map<string, real> := map[
    "USD" := 1.0, "EUR" := 0.91, "GBP" := 0.78, "JPY" := 150.59, "AUD" := 1.51, "CAD" := 1.36,
    "CHF" := 0.89, "CNY" := 7.19, "INR" := 83.48, "MXN" := 17.10, "BRL" := 5.04
  ]

  /** Every rate is positive. */
  predicate RatesPositive(rates: map<string, real>)
  {
    forall c :: c in rates ==> rates[c] > 0.0
  }

  /** The conversion of the effect: through US dollars. An unknown code reads `undefined` and gives NaN. */
  function Convert(rates: map<string, real>, amount: real, from: string, to: string): (r: Num)
    requires RatesPositive(rates)
    ensures r.Finite? <==> from in rates && to in rates
  {
    if from in rates && to in rates then Finite(amount / rates[from] * rates[to]) else NaN
  }

  /** Converting and converting back gives the amount again (in exact arithmetic). */
  lemma ConvertRoundTrip(rates: map<string, real>, amount: real, from: string, to: string)
    requires RatesPositive(rates) && from in rates && to in rates
    ensures Convert(rates, Convert(rates, amount, from, to).v, to, from) == Finite(amount)
    ensures Convert(rates, amount, from, from) == Finite(amount)
  {
    var x := amount / rates[from] * rates[to];
    assert x / rates[to] * rates[from] == amount;
  }

  lemma TableRatesPositive()
    ensures RatesPositive(Rates)
    ensures Rates.Keys == Table.Keys
    ensures forall c :: c in Rates ==> |c| == 3
  {
  }

  // ------------------------------------------------------------ currency info

  datatype CurrencyInfo = CurrencyInfo(code: string, name: string, symbol: string, flag: string)

  /** `getCurrencyInfo`: the code with its table data, each missing field as "". */
  function GetCurrencyInfo(code: string): (r: CurrencyInfo)
    ensures r.code == code
    ensures code !in Table ==> r == CurrencyInfo(code, "", "", "")
    ensures code in Table ==> r == CurrencyInfo(code, Table[code].name, Table[code].symbol, Table[code].flag)
  {
    if code in Table then CurrencyInfo(code, Table[code].name, Table[code].symbol, Table[code].flag)
    else CurrencyInfo(code, "", "", "")
  }

  // ------------------------------------------------------------ history

  datatype HistoryItem = HistoryItem(id: string, fromCurrency: string, toCurrency: string, amount: real,
                                     result: Num, date: int)

  const MaxHistory: nat := 10

  /** `[item, ...prev.slice(0, 9)]`. */
  function Push(history: seq<HistoryItem>, item: HistoryItem): (r: seq<HistoryItem>)
    ensures |r| <= MaxHistory
    ensures |r| == if |history| < MaxHistory - 1 then |history| + 1 else MaxHistory
    ensures r[0] == item
    ensures r[1..] <= history
  {
    [item] + history[..if |history| < MaxHistory - 1 then |history| else MaxHistory - 1]
  }

  /** `prev.filter(item => item.id !== id)`. */
  function RemoveItem(history: seq<HistoryItem>, id: string): (r: seq<HistoryItem>)
    ensures |r| <= |history|
    ensures forall i :: 0 <= i < |r| ==> r[i] in history && r[i].id != id
    ensures forall i :: 0 <= i < |history| && history[i].id != id ==> history[i] in r
  {
    Seqs.Filter(history, (h: HistoryItem) => h.id != id)
  }

  /** Removal keeps the order of the rest. */
  lemma RemoveItemOrder(a: seq<HistoryItem>, b: seq<HistoryItem>, id: string)
    ensures RemoveItem(a + b, id) == RemoveItem(a, id) + RemoveItem(b, id)
  {
    Seqs.FilterConcat(a, b, (h: HistoryItem) => h.id != id);
  }

  // ------------------------------------------------------------ page state

  datatype CurrencyState = CurrencyState(amount: real, fromCurrency: string, toCurrency: string,
                                         result: Option<Num>, history: seq<HistoryItem>)

  const InitialState := CurrencyState(1.0, "USD", "EUR", None, [])

  /** The effect run after `amount`, `fromCurrency` or `toCurrency` change, over a rate table. */
  function EffectWith(rates: map<string, real>, s: CurrencyState): (r: CurrencyState)
    requires RatesPositive(rates)
    ensures r == s.(result := r.result)
  {
    if s.amount != 0.0 && s.fromCurrency != "" && s.toCurrency != "" then
      s.(result := Some(Convert(rates, s.amount, s.fromCurrency, s.toCurrency)))
    else s
  }

  /** The effect with the page's `exchangeRates`. */
  function AfterEffect(s: CurrencyState): (r: CurrencyState)
    ensures r == s.(result := r.result)
  {
    TableRatesPositive();
    EffectWith(Rates, s)
  }

  /** Over any positive rate table with non-empty codes, converting and swapping back restores the amount. */
  lemma EffectRoundTrip(rates: map<string, real>, s: CurrencyState)
    requires RatesPositive(rates)
    requires s.amount != 0.0 && s.fromCurrency in rates && s.toCurrency in rates
    requires s.fromCurrency != "" && s.toCurrency != ""
    ensures EffectWith(rates, s).result == Some(Finite(s.amount / rates[s.fromCurrency] * rates[s.toCurrency]))
    ensures var t := EffectWith(rates, s);
      EffectWith(rates, AfterSwap(t.(amount := t.result.value.v))).result == Some(Finite(s.amount))
  {
    ConvertRoundTrip(rates, s.amount, s.fromCurrency, s.toCurrency);
    var t := EffectWith(rates, s);
    assert t.result == Some(Convert(rates, s.amount, s.fromCurrency, s.toCurrency));
    assert Convert(rates, s.amount, s.fromCurrency, s.toCurrency) == Finite(s.amount / rates[s.fromCurrency] * rates[s.toCurrency]);
    RateProductNonZero(s.amount, rates[s.fromCurrency], rates[s.toCurrency]);
  }

  /** A non-zero amount stays non-zero through a conversion. */
  lemma RateProductNonZero(amount: real, rf: real, rt: real)
    requires amount != 0.0 && rf > 0.0 && rt > 0.0
    ensures amount / rf * rt != 0.0
  {
    assert amount / rf != 0.0;
  }

  /** `handleSubmit`: without a result nothing is saved; otherwise the result is recorded, the history never longer than ten.
   *  The id (`Date.now()`) and the timestamp are parameters. */
  function AfterSubmit(s: CurrencyState, freshId: string, now: int): (r: CurrencyState)
    ensures s.result.None? ==> r == s
    ensures r == s.(history := r.history)
    ensures |r.history| <= MaxHistory || r.history == s.history
    ensures s.result.Some? ==> |r.history| > 0 && r.history[0].result == s.result.value && r.history[0].id == freshId
  {
    if s.result.None? then s
    else s.(history := Push(s.history, HistoryItem(freshId, s.fromCurrency, s.toCurrency, s.amount, s.result.value, now)))
  }

  function AfterSwap(s: CurrencyState): (r: CurrencyState)
    ensures r.fromCurrency == s.toCurrency && r.toCurrency == s.fromCurrency
    ensures r.(fromCurrency := s.fromCurrency, toCurrency := s.toCurrency) == s
  {
    s.(fromCurrency := s.toCurrency, toCurrency := s.fromCurrency)
  }

  // ------------------------------------------------------------ properties

  /** No history entry without a result. */
  lemma SubmitWithoutResult(s: CurrencyState, freshId: string, now: int)
    requires s.result.None?
    ensures AfterSubmit(s, freshId, now) == s
  {
  }

  /** Saving puts the new entry first, then at most nine of the previous ones, newest first. */
  lemma SubmitPrepends(s: CurrencyState, freshId: string, now: int)
    requires s.result.Some?
    ensures var h := AfterSubmit(s, freshId, now).history;
      && h[0] == HistoryItem(freshId, s.fromCurrency, s.toCurrency, s.amount, s.result.value, now)
      && h[1..] <= s.history && |h| <= MaxHistory
      && (|s.history| < MaxHistory ==> h[1..] == s.history[..if |s.history| < 9 then |s.history| else 9])
  {
  }

  /** The history never grows past ten entries, whatever the page does. */
  lemma HistoryStaysCapped(s: CurrencyState, freshId: string, now: int, id: string)
    requires |s.history| <= MaxHistory
    ensures |AfterSubmit(s, freshId, now).history| <= MaxHistory
    ensures |AfterEffect(s).history| <= MaxHistory
    ensures |AfterSwap(s).history| <= MaxHistory
    ensures |RemoveItem(s.history, id)| <= MaxHistory
  {
  }

  /** Swapping twice is the identity, and a swap keeps amount, result and history. */
  lemma SwapInvolution(s: CurrencyState)
    ensures AfterSwap(AfterSwap(s)) == s
    ensures AfterSwap(s).fromCurrency == s.toCurrency && AfterSwap(s).toCurrency == s.fromCurrency
    ensures AfterSwap(s).(fromCurrency := s.fromCurrency, toCurrency := s.toCurrency) == s
  {
  }

  /** A zero amount (empty or unparsable input) skips the effect: the stale result stays. */
  lemma ZeroAmountKeepsResult(s: CurrencyState)
    requires s.amount == 0.0
    ensures AfterEffect(s) == s
  {
  }

  /** With a known pair and a non-zero amount, the effect stores the conversion, and swapping then converting back restores the amount. */
  lemma EffectConverts(s: CurrencyState)
    requires s.amount != 0.0 && s.fromCurrency in Rates && s.toCurrency in Rates
    ensures AfterEffect(s).result == Some(Finite(s.amount / Rates[s.fromCurrency] * Rates[s.toCurrency]))
    ensures var t := AfterEffect(s);
      AfterEffect(AfterSwap(t.(amount := t.result.value.v))).result == Some(Finite(s.amount))
  {
    TableRatesPositive();
    EffectRoundTrip(Rates, s);
  }

  /** The euro shows its table entry, and a code without a rate shows empty fields. */
  lemma CurrencyInfoFallback(code: string)
    ensures GetCurrencyInfo("EUR") == CurrencyInfo("EUR", "Euro", "\U{20AC}", "\U{1F1EA}\U{1F1FA}")
    ensures code !in Rates ==> GetCurrencyInfo(code) == CurrencyInfo(code, "", "", "")
  {
    assert Rates.Keys == Table.Keys by {
      TableRatesPositive();
    }
  }

  // ------------------------------------------------------------ the page

  class CurrencyPage {
    var amount: real
    var fromCurrency: string
    var toCurrency: string
    var result: Option<Num>
    var history: seq<HistoryItem>

    function State(): CurrencyState
      reads this
    {
      CurrencyState(amount, fromCurrency, toCurrency, result, history)
    }

    constructor ()
      ensures State() == InitialState
    {
      amount, fromCurrency, toCurrency, result, history := 1.0, "USD", "EUR", None, [];
    }

    /** The amount input: `parseFloat(value) || 0` is the parameter. */
    method SetAmount(a: real)
      modifies this
      ensures State() == old(State()).(amount := a)
    {
      amount := a;
    }

    method SetFrom(code: string)
      modifies this
      ensures State() == old(State()).(fromCurrency := code)
    {
      fromCurrency := code;
    }

    method SetTo(code: string)
      modifies this
      ensures State() == old(State()).(toCurrency := code)
    {
      toCurrency := code;
    }

    /** The `useEffect` on amount and currencies. */
    method RunEffect()
      modifies this
      ensures State() == AfterEffect(old(State()))
    {
      var next := AfterEffect(State());
      result := next.result;
    }

    method Submit(freshId: string, now: int)
      modifies this
      ensures State() == AfterSubmit(old(State()), freshId, now)
    {
      if result.Some? {
        var item := HistoryItem(freshId, fromCurrency, toCurrency, amount, result.value, now);
        history := Push(history, item);
      }
    }

    method SwapCurrencies()
      modifies this
      ensures State() == AfterSwap(old(State()))
    {
      fromCurrency, toCurrency := toCurrency, fromCurrency;
    }

    method RemoveHistoryItem(id: string)
      modifies this
      ensures State() == old(State()).(history := RemoveItem(old(history), id))
    {
      history := RemoveItem(history, id);
    }
  }
}
