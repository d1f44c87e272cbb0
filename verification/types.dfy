/** Shapes of the static data the components receive as props. */
module Types {

  /** A value that may be absent; also stands for what `parseFloat` yields
      (None is NaN, the result for empty or non-numeric text). */
  datatype Option<+T> = None | Some(value: T)

  /** The tip modes a destination supports: an ordered list of preset
      percentages, round-up only, or no tipping at all. */
  datatype TipOptions = Presets(percents: seq<real>) | RoundUpOnly | NoTipping

  /** A destination profile, reduced to the fields the core reads. */
  datatype Country = Country(name: string, code: string, currency: string, tipOptions: TipOptions)

  /** Exchange-rate table: source currency code to target currency code to multiplier. */
  type Rates = map<string, map<string, real>>
}
