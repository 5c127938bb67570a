/** The records of src/types/gold.ts that the model passes between components. */
module GoldTypes {
  import opened Wrappers

  /** A quote as the price provider returns it (`GoldAPIResponse`). Metal and currency are
      free-form strings: the routes cast query parameters to them without checking. */
  datatype Quote = Quote(
    metal: string,
    currency: string,
    price: real,
    priceGram24k: real,
    priceGram22k: real,
    priceGram21k: real,
    priceGram20k: real,
    priceGram18k: real,
    prevClosePrice: real,
    ch: real,
    chp: real,
    ask: real,
    bid: real,
    timestamp: int)

  /** A dated price, as the chart and the sentiment panel receive it. */
  datatype PricePoint = PricePoint(date: string, price: real)

  /** A dated price with an optional percentage change (`HistoricalPrice`). */
  datatype HistoryPoint = HistoryPoint(date: string, price: real, change: Option<real>)
}
