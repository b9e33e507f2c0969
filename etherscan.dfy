/** The Etherscan client (`backend/app/api/etherscan.py`): validating the
    `account/txlist` response and keeping the transfers that involve the
    searched address, compared without regard to letter case. */
module Etherscan {
  import opened Wrappers
  import opened Records
  import opened Text

  /** One element of `result`. `timeStamp`, `value` and `blockNumber` are the
      decimal strings of the response, already read as integers. */
  datatype RawEthTx = RawEthTx(
    timeStamp: Option<int>,
    hash: string,
    from: string,
    to: string,
    value: Option<int>,
    blockNumber: Option<int>)

  /** The body of the `txlist` response. */
  datatype TxListResponse = TxListResponse(
    status: Option<string>,
    message: Option<string>,
    result: Option<seq<RawEthTx>>)

  const WeiPerEther: int := 1000000000000000000

  const ApiKeyRequired: string := "Etherscan API key is required"

  /** The detail of the error raised for a failed `status`: Python renders an
      absent message as "None". */
  function ApiErrorDetail(message: Option<string>): string {
    "Etherscan API error: " + message.GetOr("None")
  }

  /** `tx.get("timeStamp", 0)` as an instant. */
  function Time(tx: RawEthTx): int {
    tx.timeStamp.GetOr(0)
  }

  /** The address is the recipient or the sender, ignoring case. */
  predicate Involves(tx: RawEthTx, address: string) {
    EqualsIgnoringCase(address, tx.to) || EqualsIgnoringCase(address, tx.from)
  }

  /** The record of a kept transaction: value in ether, block number 0 when absent. */
  function EthRecord(tx: RawEthTx): Tx {
    Tx("ethereum", tx.hash, tx.from, tx.to, tx.value.GetOr(0) as real / WeiPerEther as real,
       Time(tx), Some(tx.blockNumber.GetOr(0)))
  }

  predicate Kept(tx: RawEthTx, address: string, start: Option<int>, end: Option<int>) {
    InWindow(Time(tx), start, end) && Involves(tx, address)
  }

  /** The records `get_transactions` returns for the list `txs`, in list order. */
  function EthExtracted(txs: seq<RawEthTx>, address: string, start: Option<int>, end: Option<int>): seq<Tx> {
    if txs == [] then []
    else
      var tx := txs[|txs| - 1];
      EthExtracted(txs[..|txs| - 1], address, start, end)
      + (if Kept(tx, address, start, end) then [EthRecord(tx)] else [])
  }

  lemma EthExtractedSnoc(txs: seq<RawEthTx>, j: nat, address: string, start: Option<int>, end: Option<int>)
    requires j < |txs|
    ensures EthExtracted(txs[..j + 1], address, start, end)
            == EthExtracted(txs[..j], address, start, end)
               + (if Kept(txs[j], address, start, end) then [EthRecord(txs[j])] else [])
  {
    assert txs[..j + 1][..j] == txs[..j];
  }

  /** Every returned record is an Ethereum transfer inside the window whose
      sender or recipient is the searched address, ignoring case. */
  lemma {:induction false} EthExtractedSound(txs: seq<RawEthTx>, address: string, start: Option<int>, end: Option<int>)
    ensures forall t :: t in EthExtracted(txs, address, start, end) ==>
              && t.blockchain == "ethereum"
              && InWindow(t.timestamp, start, end)
              && (EqualsIgnoringCase(address, t.toAddress) || EqualsIgnoringCase(address, t.fromAddress))
              && t.blockNumber.Some?
  {
    if txs != [] {
      EthExtractedSound(txs[..|txs| - 1], address, start, end);
    }
  }

  /** Every transaction inside the window that involves the address is returned. */
  lemma {:induction false} EthExtractedComplete(txs: seq<RawEthTx>, address: string, start: Option<int>,
                                                end: Option<int>, i: nat)
    requires i < |txs| && Kept(txs[i], address, start, end)
    ensures EthRecord(txs[i]) in EthExtracted(txs, address, start, end)
  {
    if i < |txs| - 1 {
      var prefix := txs[..|txs| - 1];
      assert txs[i] == prefix[i];
      EthExtractedComplete(prefix, address, start, end, i);
    }
  }

  /** The result for a concatenation of lists is the concatenation of the results:
      records keep the order of the response. */
  lemma {:induction false} EthExtractedAppend(a: seq<RawEthTx>, b: seq<RawEthTx>, address: string,
                                              start: Option<int>, end: Option<int>)
    ensures EthExtracted(a + b, address, start, end)
            == EthExtracted(a, address, start, end) + EthExtracted(b, address, start, end)
    decreases |b|
  {
    if b == [] {
      assert a + b == a;
    } else {
      var b' := b[..|b| - 1];
      assert (a + b)[..|a + b| - 1] == a + b';
      EthExtractedAppend(a, b', address, start, end);
    }
  }

  /** Searching for an address or for its lower-case spelling gives the same records. */
  lemma {:induction false} EthExtractedIgnoresCase(txs: seq<RawEthTx>, address: string,
                                                   start: Option<int>, end: Option<int>)
    ensures EthExtracted(txs, Lower(address), start, end) == EthExtracted(txs, address, start, end)
  {
    LowerIdempotent(address);
    if txs != [] {
      EthExtractedIgnoresCase(txs[..|txs| - 1], address, start, end);
      var tx := txs[|txs| - 1];
      assert Involves(tx, Lower(address)) == Involves(tx, address);
    }
  }

  /** `EtherscanClient.get_transactions`: the API key is checked before any
      request; a failed request propagates its error; a response whose `status`
      is not "1" is a 400 error carrying its `message`; otherwise the transactions
      are filtered by window and by address and mapped to records. */
  method GetTransactions(apiKey: Option<string>, response: Result<TxListResponse, HttpError>,
                         address: string, start: Option<int>, end: Option<int>)
    returns (r: Result<seq<Tx>, HttpError>)
    ensures apiKey.None? || apiKey == Some("") ==> r == Err(HttpError(400, ApiKeyRequired))
    ensures apiKey.Some? && apiKey != Some("") && response.Err? ==> r == Err(response.error)
    ensures apiKey.Some? && apiKey != Some("") && response.Ok? && response.value.status != Some("1") ==>
              r == Err(HttpError(400, ApiErrorDetail(response.value.message)))
    ensures apiKey.Some? && apiKey != Some("") && response.Ok? && response.value.status == Some("1") ==>
              r == Ok(EthExtracted(response.value.result.GetOr([]), address, start, end))
  {
    if apiKey.None? || apiKey.value == "" {
      return Err(HttpError(400, ApiKeyRequired));
    }
    if response.Err? {
      return Err(response.error);
    }
    var data := response.value;
    if data.status != Some("1") {
      return Err(HttpError(400, "Etherscan API error: " + data.message.GetOr("None")));
    }
    var txs := data.result.GetOr([]);
    var transactions: seq<Tx> := [];
    for j := 0 to |txs|
      invariant transactions == EthExtracted(txs[..j], address, start, end)
    {
      EthExtractedSnoc(txs, j, address, start, end);
      var tx := txs[j];
      var txTime := tx.timeStamp.GetOr(0);
      if (start.Some? && txTime < start.value) || (end.Some? && txTime > end.value) {
        continue;
      }
      var isIncoming := Lower(address) == Lower(tx.to);
      var isOutgoing := Lower(address) == Lower(tx.from);
      if isIncoming || isOutgoing {
        transactions := transactions + [Tx("ethereum", tx.hash, tx.from, tx.to,
                                           tx.value.GetOr(0) as real / 1000000000000000000.0,
                                           txTime, Some(tx.blockNumber.GetOr(0)))];
      }
    }
    assert txs[..|txs|] == txs;
    r := Ok(transactions);
  }
}
