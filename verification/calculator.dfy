/** The calculator card: tip, total and home-currency total worked out from
    the bill, the selected tip mode and the custom percentage, and the card's
    state, which is reset whenever the destination changes. */
module Calculator {
  import opened Types
  import opened JsMath
  import opened SuggestTip

  /** The selected tip mode. `Unselected` is the `undefined` left behind when
      an empty preset list is asked for its default. */
  datatype TipMode = Percent(p: real) | Custom | RoundUp | NoTip | Unselected

  /** The advisory note kept beside the custom field after a suggestion is
      accepted. */
  datatype Annotation = Annotation(quality: Option<Quality>, serviceCharge: Option<Charge>)

  /** The three displayed amounts. */
  datatype Totals = Totals(tipAmount: real, totalBill: real, totalInHome: real)

  /** `parseFloat(text) || 0`: NaN (unparseable text) counts as 0; a parsed
      0 is falsy too, but `|| 0` then yields the same 0. */
  function OrZero(parsed: Option<real>): (v: real)
    ensures parsed == None ==> v == 0.0
    ensures parsed.Some? ==> v == parsed.value
  {
    match parsed
    case None => 0.0
    case Some(x) => x
  }

  /** `rates[from]?.[to] || 1`: the stored multiplier, or 1 when the pair is
      missing or stored as 0. */
  function Rate(rates: Rates, from: string, to: string): (r: real)
    ensures r != 0.0
    ensures from in rates && to in rates[from] && rates[from][to] != 0.0 ==> r == rates[from][to]
    ensures !(from in rates && to in rates[from] && rates[from][to] != 0.0) ==> r == 1.0
  {
    if from in rates && to in rates[from] && rates[from][to] != 0.0 then rates[from][to] else 1.0
  }

  /** The tip for a bill under a mode; `custom` is the parsed custom text. */
  function TipAmount(bill: real, mode: TipMode, custom: Option<real>): (r: real)
    ensures mode == RoundUp ==> 0.0 <= r < 1.0 && (bill + r).Floor as real == bill + r
    ensures mode == Custom ==> r * 100.0 == bill * OrZero(custom)
    ensures mode.Percent? ==> r * 100.0 == bill * mode.p
    ensures mode == NoTip || mode == Unselected ==> r == 0.0
    ensures bill == 0.0 ==> r == 0.0
  {
    CeilOfWhole(0);
    match mode
    case RoundUp => Ceil(bill) as real - bill
    case Custom => bill * OrZero(custom) / 100.0
    case Percent(p) => bill * p / 100.0
    case NoTip => 0.0
    case Unselected => 0.0
  }

  /** The card's computed amounts from its inputs. */
  function ComputeTotals(billText: Option<real>, mode: TipMode, customText: Option<real>,
                         currency: string, home: string, rates: Rates): (t: Totals)
    ensures t.totalBill == OrZero(billText) + t.tipAmount
    ensures t.totalInHome == t.totalBill * Rate(rates, currency, home)
  {
    var bill := OrZero(billText);
    var tip := TipAmount(bill, mode, customText);
    var total := bill + tip;
    Totals(tip, total, total * Rate(rates, currency, home))
  }

  /** Round-up: the tip is below one unit, the total is the least whole
      amount not below the bill, and a whole bill gets no tip. */
  lemma RoundUpTotals(billText: Option<real>, custom: Option<real>, currency: string, home: string, rates: Rates)
    ensures var t := ComputeTotals(billText, RoundUp, custom, currency, home, rates);
      && 0.0 <= t.tipAmount < 1.0
      && t.totalBill == Ceil(OrZero(billText)) as real
      && t.totalBill - 1.0 < OrZero(billText) <= t.totalBill
      && (OrZero(billText) == OrZero(billText).Floor as real ==> t.tipAmount == 0.0)
  {
    var bill := OrZero(billText);
    var t := ComputeTotals(billText, RoundUp, custom, currency, home, rates);
    assert t.tipAmount == Ceil(bill) as real - bill;
    if bill == bill.Floor as real {
      CeilOfWhole(bill.Floor);
    }
  }

  /** A fixed percentage p: the tip is p percent of the bill. */
  lemma PercentTotals(billText: Option<real>, p: real, custom: Option<real>, currency: string, home: string, rates: Rates)
    ensures var t := ComputeTotals(billText, Percent(p), custom, currency, home, rates);
      && t.tipAmount * 100.0 == OrZero(billText) * p
      && t.totalBill * 100.0 == OrZero(billText) * (100.0 + p)
  {
  }

  /** Custom: the tip is the parsed custom percentage of the bill, and
      unparseable custom text means no tip. */
  lemma CustomTotals(billText: Option<real>, custom: Option<real>, currency: string, home: string, rates: Rates)
    ensures var t := ComputeTotals(billText, Custom, custom, currency, home, rates);
      && t.tipAmount * 100.0 == OrZero(billText) * OrZero(custom)
      && (custom == None ==> t.tipAmount == 0.0 && t.totalBill == OrZero(billText))
  {
  }

  /** No tip mode (or none selected): no tip, and the total is the bill. */
  lemma NoTipTotals(billText: Option<real>, mode: TipMode, custom: Option<real>, currency: string, home: string, rates: Rates)
    requires mode == NoTip || mode == Unselected
    ensures var t := ComputeTotals(billText, mode, custom, currency, home, rates);
      t.tipAmount == 0.0 && t.totalBill == OrZero(billText)
  {
  }

  /** An empty or unparseable bill shows zero everywhere, whatever the mode. */
  lemma EmptyBillTotals(mode: TipMode, custom: Option<real>, currency: string, home: string, rates: Rates)
    ensures ComputeTotals(None, mode, custom, currency, home, rates) == Totals(0.0, 0.0, 0.0)
  {
    CeilOfWhole(0);
  }

  /** Conversion is the identity when the pair is missing or stored as 0,
      and otherwise scales by the stored multiplier. */
  lemma Conversion(billText: Option<real>, mode: TipMode, custom: Option<real>, currency: string, home: string, rates: Rates)
    ensures var t := ComputeTotals(billText, mode, custom, currency, home, rates);
      && (!(currency in rates && home in rates[currency]) || rates[currency][home] == 0.0 ==> t.totalInHome == t.totalBill)
      && (currency in rates && home in rates[currency] && rates[currency][home] != 0.0 ==> t.totalInHome == t.totalBill * rates[currency][home])
  {
  }

  /** The default tip mode a destination loads with: its second preset
      (`tipOptions[1] || tipOptions[0]`), its first when there is no
      second or the second is 0; or the single round-up / none mode. */
  function DefaultMode(opts: TipOptions): (m: TipMode)
    ensures opts.Presets? && |opts.percents| > 0 ==> m.Percent? && m.p in opts.percents
    ensures opts.Presets? && |opts.percents| > 1 && opts.percents[1] != 0.0 ==> m == Percent(opts.percents[1])
    ensures opts.Presets? && |opts.percents| > 0 && !(|opts.percents| > 1 && opts.percents[1] != 0.0) ==> m == Percent(opts.percents[0])
    ensures opts.Presets? && |opts.percents| == 0 ==> m == Unselected
    ensures opts.RoundUpOnly? ==> m == RoundUp
    ensures opts.NoTipping? ==> m == NoTip
  {
    match opts
    case Presets(ps) =>
      if |ps| > 1 && ps[1] != 0.0 then Percent(ps[1])
      else if |ps| > 0 then Percent(ps[0])
      else Unselected
    case RoundUpOnly => RoundUp
    case NoTipping => NoTip
  }

  /** A sample of the exchange-rate table. */
  const SampleRates: Rates := map[
    "USD" := map["USD" := 1.0, "EUR" := 0.92, "GBP" := 0.79, "JPY" := 157.0, "MXN" := 18.4, "CAD" := 1.37],
    "EUR" := map["USD" := 1.08, "EUR" := 1.0, "GBP" := 0.85, "JPY" := 170.0, "MXN" := 19.9, "CAD" := 1.48]
  ]

  /** A 49.30 bill rounded up: tip 0.70, total 50.00, 46.00 in euros; and
      into a currency missing from the table the total is unchanged. */
  lemma RoundUpExample()
    ensures ComputeTotals(Some(49.30), RoundUp, None, "USD", "EUR", SampleRates) == Totals(0.70, 50.0, 46.0)
    ensures ComputeTotals(Some(49.30), RoundUp, None, "USD", "CHF", SampleRates) == Totals(0.70, 50.0, 50.0)
  {
    assert Ceil(49.30) == 50;
    assert Rate(SampleRates, "USD", "EUR") == 0.92;
    assert "CHF" !in SampleRates["USD"];
  }

  /** The card's state. */
  class CalculatorCard {
    var country: Country
    var billAmount: Option<real>
    var tipOption: TipMode
    var customTip: Option<real>
    var suggestionDetails: Option<Annotation>
    var isSuggestDialogOpen: bool

    /** The amounts the card displays for a home currency and a rate table. */
    function Display(home: string, rates: Rates): Totals
      reads this
    {
      ComputeTotals(billAmount, tipOption, customTip, country.currency, home, rates)
    }

    /** With mode `custom` and a custom value, which is the state an
        accepted suggestion leaves, the card's computed amounts are that
        percentage of the bill as the tip, added to the bill in the total. */
    lemma CustomTipComputed(home: string, rates: Rates)
      requires tipOption == Custom && customTip.Some?
      ensures Display(home, rates).tipAmount * 100.0 == OrZero(billAmount) * customTip.value
      ensures Display(home, rates).totalBill * 100.0 == OrZero(billAmount) * (100.0 + customTip.value)
    {
    }

    /** The state right after the destination was loaded. */
    ghost predicate FreshFor(c: Country)
      reads this
    {
      && country == c
      && billAmount == None && customTip == None && suggestionDetails == None
      && tipOption == DefaultMode(c.tipOptions)
    }

    /** Mounting the card runs the destination effect once. */
    constructor (c: Country)
      ensures FreshFor(c) && !isSuggestDialogOpen
    {
      country := c;
      billAmount := None;
      customTip := None;
      suggestionDetails := None;
      tipOption := DefaultMode(c.tipOptions);
      isSuggestDialogOpen := false;
    }

    /** Selecting a destination. The reset effect depends on `[country]`,
        so it runs only when the destination differs from the shown one:
        then bill, custom text and annotation are cleared and the tip mode
        goes back to the destination's default. Re-selecting the shown
        destination changes nothing. */
    method ChangeCountry(c: Country)
      modifies this
      ensures c != old(country) ==> FreshFor(c)
      ensures c == old(country) ==> country == old(country) && billAmount == old(billAmount)
                                    && tipOption == old(tipOption) && customTip == old(customTip)
                                    && suggestionDetails == old(suggestionDetails)
      ensures isSuggestDialogOpen == old(isSuggestDialogOpen)
    {
      if c != country {
        country := c;
        billAmount := None;
        customTip := None;
        suggestionDetails := None;
        tipOption := DefaultMode(c.tipOptions);
      }
    }

    /** Typing in the bill field. */
    method EnterBill(parsed: Option<real>)
      modifies this
      ensures billAmount == parsed
      ensures country == old(country) && tipOption == old(tipOption) && customTip == old(customTip)
      ensures suggestionDetails == old(suggestionDetails) && isSuggestDialogOpen == old(isSuggestDialogOpen)
    {
      billAmount := parsed;
    }

    /** Clicking a preset, "Round Up Bill" or "Custom": the buttons shown are
        the destination's own presets, "Round Up Bill" for a round-up
        destination, and "Custom", none of them for a no-tipping one. */
    method SelectTipOption(m: TipMode)
      requires !country.tipOptions.NoTipping?
      requires || m == Custom
               || (m.Percent? && country.tipOptions.Presets? && m.p in country.tipOptions.percents)
               || (m == RoundUp && country.tipOptions.RoundUpOnly?)
      modifies this
      ensures tipOption == m
      ensures country == old(country) && billAmount == old(billAmount) && customTip == old(customTip)
      ensures suggestionDetails == old(suggestionDetails) && isSuggestDialogOpen == old(isSuggestDialogOpen)
    {
      tipOption := m;
    }

    /** "Suggest a Tip", shown unless the destination has no tipping. */
    method OpenSuggestDialog()
      requires !country.tipOptions.NoTipping?
      modifies this
      ensures isSuggestDialogOpen
      ensures country == old(country) && billAmount == old(billAmount) && tipOption == old(tipOption)
      ensures customTip == old(customTip) && suggestionDetails == old(suggestionDetails)
    {
      isSuggestDialogOpen := true;
    }

    /** An accepted suggestion becomes the custom percentage, with its
        answers kept as the annotation, and the dialog closes. */
    method HandleSuggestTip(d: Accepted)
      modifies this
      ensures tipOption == Custom && customTip == Some(d.percentage as real)
      ensures suggestionDetails == Some(Annotation(d.quality, d.serviceCharge))
      ensures !isSuggestDialogOpen
      ensures country == old(country) && billAmount == old(billAmount)
    {
      tipOption := Custom;
      customTip := Some(d.percentage as real);
      suggestionDetails := Some(Annotation(d.quality, d.serviceCharge));
      isSuggestDialogOpen := false;
    }

    /** Editing the custom percentage drops the annotation and nothing else. */
    method HandleCustomTipChange(parsed: Option<real>)
      modifies this
      ensures customTip == parsed && suggestionDetails == None
      ensures country == old(country) && billAmount == old(billAmount) && tipOption == old(tipOption)
      ensures isSuggestDialogOpen == old(isSuggestDialogOpen)
    {
      customTip := parsed;
      suggestionDetails := None;
    }

    /** Accepting in the dialog this card renders: the dialog emits its
        suggestion for this card's destination and resets, and the card
        takes the suggestion as its custom tip. */
    method AcceptSuggestion(dialog: SuggestTipDialog)
      requires dialog.Valid() && dialog.step == Suggestion
      modifies this, dialog
      ensures dialog.Valid() && dialog.IsReset()
      ensures tipOption == Custom
      ensures customTip == Some(SuggestedTip(old(dialog.serviceQuality), old(dialog.serviceChargeIncluded), country.tipOptions) as real)
      ensures suggestionDetails == Some(Annotation(old(dialog.serviceQuality), old(dialog.serviceChargeIncluded)))
      ensures !isSuggestDialogOpen
      ensures country == old(country) && billAmount == old(billAmount)
    {
      var d := dialog.Accept(country.tipOptions);
      HandleSuggestTip(d);
    }

    /** Cancelling or dismissing the dialog: it resets and closes. */
    method DismissSuggestion(dialog: SuggestTipDialog)
      modifies this, dialog
      ensures dialog.Valid() && dialog.IsReset()
      ensures !isSuggestDialogOpen
      ensures country == old(country) && billAmount == old(billAmount) && tipOption == old(tipOption)
      ensures customTip == old(customTip) && suggestionDetails == old(suggestionDetails)
    {
      dialog.Close();
      isSuggestDialogOpen := false;
    }
  }
}
