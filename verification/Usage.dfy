/** The usage records an upstream instance reports, without the fields nothing here reads. */
module Usage {

  datatype Option<+T> = None | Some(value: T)

  datatype Cost = Cost(currency: string, nanos: int)

  datatype Totals = Totals(
    input: int, output: int, cacheRead: int, cacheCreation: int, requests: int, tokens: int,
    aiu: Option<int>, costs: seq<Cost>)

  datatype Model = Model(name: string, totals: Totals)

  /** One calendar day of a snapshot. `totals` is absent when the upstream sent none. */
  datatype Day = Day(date: string, startMS: int, endMS: int, totals: Option<Totals>, models: seq<Model>)

  /** A snapshot of the whole lifetime of an account, taken at `endMS`. */
  datatype Daily = Daily(endMS: int, days: seq<Day>)
}
