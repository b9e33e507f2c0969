/** The transaction record exchanged between the provider clients, the cache,
    the network builder and the frontend (the `Transaction` schema: seven fields),
    and the HTTP error that the backend raises. */
module Records {
  import opened Wrappers

  /** One directed value transfer. `value` is in whole coins (BTC or ETH) and
      `timestamp` is the parsed date-time as an integer instant. */
  datatype Tx = Tx(
    blockchain: string,
    txid: string,
    fromAddress: string,
    toAddress: string,
    value: real,
    timestamp: int,
    blockNumber: Option<int>)

  /** FastAPI's `HTTPException(status_code, detail)`. */
  datatype HttpError = HttpError(status: int, detail: string)

  /** The optional, inclusive time window `[start, end]` of a transaction query:
      a missing bound does not constrain. */
  predicate InWindow(t: int, start: Option<int>, end: Option<int>) {
    (start.None? || start.value <= t) && (end.None? || t <= end.value)
  }
}
