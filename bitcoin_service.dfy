/** The Bitcoin service (`backend/app/blockchain/bitcoin.py`): answer from the
    cache when it holds anything for the query, otherwise ask BlockCypher and,
    with a session, store what is new and return only that. */
module BitcoinService {
  import opened Wrappers
  import opened Records
  import opened TxCache
  import BlockCypher

  /** The service's chain name, the cache filter key. */
  const BitcoinChain: string := "bitcoin"

  /** `BitcoinService.get_transactions`. `db` is the optional session's table and
      `response` what the BlockCypher request answers; `apiCalled` tells whether
      the client was asked. */
  method GetTransactions(db: TransactionStore?, response: Result<BlockCypher.AddressFull, HttpError>,
                         address: string, start: Option<int>, end: Option<int>)
    returns (r: Result<seq<Tx>, HttpError>, apiCalled: bool)
    requires db != null ==> db.Valid()
    modifies db
    ensures db != null ==> db.Valid()
    // A cache hit is answered from the cache alone.
    ensures db != null && old(GetCachedTransactions(db, BitcoinChain, address, start, end)) != [] ==>
              && !apiCalled && unchanged(db)
              && r == Ok(FormatTransactions(old(GetCachedTransactions(db, BitcoinChain, address, start, end))))
    ensures db == null || old(GetCachedTransactions(db, BitcoinChain, address, start, end)) == [] ==> apiCalled
    // A failing client leaves the table as it was.
    ensures apiCalled && response.Err? ==> r == Err(response.error) && (db != null ==> unchanged(db))
    // With a session, only the newly stored records are returned.
    ensures apiCalled && response.Ok? && db != null ==>
              var records := BlockCypher.Extracted(response.value.txs.GetOr([]), address, start, end);
              var inserted := Inserted(old(db.rows), records);
              && r == Ok(inserted)
              && db.rows == old(db.rows) + RowsFrom(inserted, old(db.nextId))
              && db.nextId == old(db.nextId) + |inserted|
              && db.commits == old(db.commits) + (if inserted == [] then 0 else 1)
    // Without a session, every record of the client, as it came.
    ensures apiCalled && response.Ok? && db == null ==>
              r == Ok(BlockCypher.Extracted(response.value.txs.GetOr([]), address, start, end))
  {
    if db != null {
      var cachedTransactions := GetCachedTransactions(db, BitcoinChain, address, start, end);
      if cachedTransactions != [] {
        return Ok(FormatTransactions(cachedTransactions)), false;
      }
    }
    apiCalled := true;
    var fetched := BlockCypher.GetTransactions(response, address, start, end);
    if fetched.Err? {
      return Err(fetched.error), apiCalled;
    }
    var rawTransactions := fetched.value;
    if db != null {
      var dbTransactions := db.SaveTransactions(rawTransactions);
      FormatRowsFrom(Inserted(old(db.rows), rawTransactions), old(db.nextId));
      return Ok(FormatTransactions(dbTransactions)), apiCalled;
    }
    var schemas := seq(|rawTransactions|, i requires 0 <= i < |rawTransactions| =>
                     Tx(rawTransactions[i].blockchain, rawTransactions[i].txid, rawTransactions[i].fromAddress,
                        rawTransactions[i].toAddress, rawTransactions[i].value, rawTransactions[i].timestamp,
                        rawTransactions[i].blockNumber));
    assert schemas == rawTransactions;
    r := Ok(schemas);
  }
}
