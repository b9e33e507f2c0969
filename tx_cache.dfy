/** The transaction cache of the backend services (`backend/app/blockchain/base.py`):
    a `transactions` table that the services read before calling a provider and
    fill, without duplicates, after calling it.

    A row is a duplicate of a transaction when it has the same transaction id,
    value, sender and recipient; the same transaction id with another sender,
    recipient or value is a different row (a Bitcoin transaction has one record
    per output). */
module TxCache {
  import opened Wrappers
  import opened Records

  /** A row of the `transactions` table; the four contract columns keep their
      defaults, as nothing shown sets them. */
  datatype Row = Row(
    id: nat,
    blockchain: string,
    txid: string,
    fromAddress: string,
    toAddress: string,
    value: real,
    timestamp: int,
    blockNumber: Option<int>,
    isContractInteraction: bool,
    contractAddress: Option<string>,
    contractMethod: Option<string>,
    contractInputData: Option<string>)

  /** The columns compared by the duplicate check. */
  datatype Key = Key(txid: string, value: real, fromAddress: string, toAddress: string)

  function RowKey(r: Row): Key {
    Key(r.txid, r.value, r.fromAddress, r.toAddress)
  }

  function TxKey(tx: Tx): Key {
    Key(tx.txid, tx.value, tx.fromAddress, tx.toAddress)
  }

  /** The row `save_transactions_to_db` builds for `tx`. */
  function RowOf(tx: Tx, id: nat): Row {
    Row(id, tx.blockchain, tx.txid, tx.fromAddress, tx.toAddress, tx.value, tx.timestamp, tx.blockNumber,
        false, None, None, None)
  }

  /** Some row has key `k`. */
  predicate Stored(rows: seq<Row>, k: Key) {
    exists i :: 0 <= i < |rows| && RowKey(rows[i]) == k
  }

  /** Some transaction has key `k`. */
  predicate Seen(txs: seq<Tx>, k: Key) {
    exists i :: 0 <= i < |txs| && TxKey(txs[i]) == k
  }

  // ---------------------------------------------------------------------------
  // The lookup of the duplicate check

  /** `query(...).filter(key columns == ...).first()`. */
  function FirstWithKey(rows: seq<Row>, k: Key): Option<Row> {
    if rows == [] then None
    else if RowKey(rows[0]) == k then Some(rows[0])
    else FirstWithKey(rows[1..], k)
  }

  lemma {:induction false} FirstWithKeyMeaning(rows: seq<Row>, k: Key)
    ensures FirstWithKey(rows, k).Some? <==> Stored(rows, k)
    ensures FirstWithKey(rows, k).Some? ==>
              FirstWithKey(rows, k).value in rows && RowKey(FirstWithKey(rows, k).value) == k
  {
    if rows != [] && RowKey(rows[0]) != k {
      FirstWithKeyMeaning(rows[1..], k);
      if Stored(rows, k) {
        var i :| 0 <= i < |rows| && RowKey(rows[i]) == k;
        assert RowKey(rows[1..][i - 1]) == k;
      }
      if Stored(rows[1..], k) {
        var i :| 0 <= i < |rows[1..]| && RowKey(rows[1..][i]) == k;
        assert RowKey(rows[i + 1]) == k;
      }
    }
  }

  // ---------------------------------------------------------------------------
  // The specification of `save_transactions_to_db`

  /** The transactions inserted when saving `txs` into a table holding
      `existing`: in order, each transaction whose key is neither stored nor
      already inserted. Rows added in the same call are visible to the
      duplicate check, as with the session's default autoflush. */
  function Inserted(existing: seq<Row>, txs: seq<Tx>): seq<Tx> {
    if txs == [] then []
    else
      var prev := Inserted(existing, txs[..|txs| - 1]);
      var tx := txs[|txs| - 1];
      if Stored(existing, TxKey(tx)) || Seen(prev, TxKey(tx)) then prev else prev + [tx]
  }

  /** The rows built for `txs`, with consecutive ids from `id`. */
  function RowsFrom(txs: seq<Tx>, id: nat): (r: seq<Row>)
    ensures |r| == |txs|
  {
    seq(|txs|, i requires 0 <= i < |txs| => RowOf(txs[i], id + i))
  }

  lemma RowsFromSnoc(txs: seq<Tx>, tx: Tx, id: nat)
    ensures RowsFrom(txs + [tx], id) == RowsFrom(txs, id) + [RowOf(tx, id + |txs|)]
  {
  }

  /** The rows of `existing + RowsFrom(txs, id)` hold a key exactly when
      `existing` stores it or some transaction of `txs` has it. */
  lemma StoredAppend(existing: seq<Row>, txs: seq<Tx>, id: nat, k: Key)
    ensures Stored(existing + RowsFrom(txs, id), k) <==> Stored(existing, k) || Seen(txs, k)
  {
    var all := existing + RowsFrom(txs, id);
    if Stored(all, k) {
      var i :| 0 <= i < |all| && RowKey(all[i]) == k;
      if i >= |existing| {
        assert TxKey(txs[i - |existing|]) == k;
      }
    }
    if Seen(txs, k) {
      var i :| 0 <= i < |txs| && TxKey(txs[i]) == k;
      assert RowKey(all[|existing| + i]) == k;
    }
    if Stored(existing, k) {
      var i :| 0 <= i < |existing| && RowKey(existing[i]) == k;
      assert RowKey(all[i]) == k;
    }
  }

  /** Every inserted transaction comes from the input, had no stored duplicate,
      and no two inserted transactions share a key. */
  lemma {:induction false} InsertedAreNew(existing: seq<Row>, txs: seq<Tx>)
    ensures |Inserted(existing, txs)| <= |txs|
    ensures forall u :: u in Inserted(existing, txs) ==> u in txs && !Stored(existing, TxKey(u))
    ensures forall i, j :: 0 <= i < j < |Inserted(existing, txs)| ==>
              TxKey(Inserted(existing, txs)[i]) != TxKey(Inserted(existing, txs)[j])
  {
    if txs != [] {
      var prefix := txs[..|txs| - 1];
      InsertedAreNew(existing, prefix);
      forall u | u in prefix
        ensures u in txs
      {
      }
    }
  }

  /** Nothing is lost: every input transaction is stored already or inserted
      under its key. In particular a transaction whose key is not stored (a new
      output of a known transaction id, say) gets a row. */
  lemma {:induction false} InsertedComplete(existing: seq<Row>, txs: seq<Tx>)
    ensures forall i :: 0 <= i < |txs| ==>
              Stored(existing, TxKey(txs[i])) || Seen(Inserted(existing, txs), TxKey(txs[i]))
  {
    if txs != [] {
      var prefix := txs[..|txs| - 1];
      InsertedComplete(existing, prefix);
      var prev := Inserted(existing, prefix);
      var ins := Inserted(existing, txs);
      assert forall j :: 0 <= j < |prev| ==> prev[j] == ins[j];
      forall i | 0 <= i < |txs| && !Stored(existing, TxKey(txs[i]))
        ensures Seen(ins, TxKey(txs[i]))
      {
        if i < |prefix| {
          assert txs[i] == prefix[i];
          var j :| 0 <= j < |prev| && TxKey(prev[j]) == TxKey(txs[i]);
          assert TxKey(ins[j]) == TxKey(txs[i]);
        } else if !Seen(prev, TxKey(txs[i])) {
          assert ins[|prev|] == txs[i];
        }
      }
    }
  }

  // ---------------------------------------------------------------------------
  // The cache lookup and the schema conversion

  /** The filter of `get_cached_transactions`: the service's chain, the address
      as sender or recipient, and the optional inclusive window. */
  predicate CacheMatch(r: Row, chain: string, address: string, start: Option<int>, end: Option<int>) {
    r.blockchain == chain && (r.fromAddress == address || r.toAddress == address)
    && InWindow(r.timestamp, start, end)
  }

  /** The matching rows, in table order. */
  function CachedRows(rows: seq<Row>, chain: string, address: string, start: Option<int>, end: Option<int>): seq<Row> {
    if rows == [] then []
    else
      (if CacheMatch(rows[0], chain, address, start, end) then [rows[0]] else [])
      + CachedRows(rows[1..], chain, address, start, end)
  }

  /** The lookup returns exactly the matching rows of the table. */
  lemma {:induction false} CachedRowsMeaning(rows: seq<Row>, chain: string, address: string,
                                             start: Option<int>, end: Option<int>)
    ensures |CachedRows(rows, chain, address, start, end)| <= |rows|
    ensures forall r :: r in CachedRows(rows, chain, address, start, end) <==>
              r in rows && CacheMatch(r, chain, address, start, end)
  {
    if rows != [] {
      CachedRowsMeaning(rows[1..], chain, address, start, end);
      assert rows == [rows[0]] + rows[1..];
    }
  }

  /** `format_transactions`: the seven schema fields of each row, in order. */
  function FormatTransactions(rows: seq<Row>): (r: seq<Tx>)
    ensures |r| == |rows|
  {
    seq(|rows|, i requires 0 <= i < |rows| =>
      Tx(rows[i].blockchain, rows[i].txid, rows[i].fromAddress, rows[i].toAddress, rows[i].value,
         rows[i].timestamp, rows[i].blockNumber))
  }

  /** Formatting the rows built for some transactions gives those transactions back. */
  lemma FormatRowsFrom(txs: seq<Tx>, id: nat)
    ensures FormatTransactions(RowsFrom(txs, id)) == txs
  {
    var f := FormatTransactions(RowsFrom(txs, id));
    forall i | 0 <= i < |txs|
      ensures f[i] == txs[i]
    {
    }
  }

  // ---------------------------------------------------------------------------
  // The table

  /** The `transactions` table as seen through one session: its rows in
      insertion order, the next id to assign, and the number of commits. */
  class TransactionStore {
    var rows: seq<Row>
    var nextId: nat
    var commits: nat

    /** Ids are below `nextId` and increase along the table, and no two rows
        share a key. */
    ghost predicate Valid()
      reads this
    {
      && (forall i :: 0 <= i < |rows| ==> rows[i].id < nextId)
      && (forall i, j :: 0 <= i < j < |rows| ==> rows[i].id < rows[j].id)
      && (forall i, j :: 0 <= i < j < |rows| ==> RowKey(rows[i]) != RowKey(rows[j]))
    }

    /** An empty table. */
    constructor ()
      ensures Valid()
      ensures rows == [] && nextId == 1 && commits == 0
    {
      rows, nextId, commits := [], 1, 0;
    }

    /** `save_transactions_to_db`: add a row for each transaction whose key is
        not stored yet, commit once if anything was added, and return the added
        rows. */
    method SaveTransactions(transactions: seq<Tx>) returns (saved: seq<Row>)
      requires Valid()
      modifies this
      ensures Valid()
      ensures saved == RowsFrom(Inserted(old(rows), transactions), old(nextId))
      ensures rows == old(rows) + saved
      ensures nextId == old(nextId) + |saved|
      ensures commits == old(commits) + (if saved == [] then 0 else 1)
    {
      saved := [];
      ghost var inserted: seq<Tx> := [];
      for i := 0 to |transactions|
        invariant inserted == Inserted(old(rows), transactions[..i])
        invariant saved == RowsFrom(inserted, old(nextId))
        invariant rows == old(rows) + saved
        invariant nextId == old(nextId) + |saved|
        invariant commits == old(commits)
        invariant Valid()
      {
        var tx := transactions[i];
        assert transactions[..i + 1][..i] == transactions[..i];
        FirstWithKeyMeaning(rows, TxKey(tx));
        StoredAppend(old(rows), inserted, old(nextId), TxKey(tx));
        var duplicate := FirstWithKey(rows, TxKey(tx));
        if duplicate.Some? {
          continue;
        }
        var row := RowOf(tx, nextId);
        RowsFromSnoc(inserted, tx, old(nextId));
        AddPreservesValid(row);
        rows := rows + [row];
        nextId := nextId + 1;
        saved := saved + [row];
        inserted := inserted + [tx];
      }
      assert transactions[..|transactions|] == transactions;
      if saved != [] {
        commits := commits + 1;
      }
    }

    /** Appending a row with a fresh key and the next id keeps the table valid. */
    lemma AddPreservesValid(row: Row)
      requires Valid()
      requires row.id == nextId && !Stored(rows, RowKey(row))
      ensures forall i :: 0 <= i < |rows + [row]| ==> (rows + [row])[i].id < nextId + 1
      ensures forall i, j :: 0 <= i < j < |rows + [row]| ==> (rows + [row])[i].id < (rows + [row])[j].id
      ensures forall i, j :: 0 <= i < j < |rows + [row]| ==>
                RowKey((rows + [row])[i]) != RowKey((rows + [row])[j])
    {
    }
  }

  /** `get_cached_transactions`: without a session, nothing; otherwise the rows
      of the service's chain that involve the address inside the window. */
  function GetCachedTransactions(db: TransactionStore?, chain: string, address: string,
                                 start: Option<int>, end: Option<int>): (r: seq<Row>)
    reads db
    ensures db == null ==> r == []
  {
    if db == null then [] else CachedRows(db.rows, chain, address, start, end)
  }
}
