/** The transaction search page (`frontend/src/pages/TransactionExploler.js`):
    an optional amount filter on the transactions the backend answers, and the
    summary statistics shown above the list. */
module Explorer {
  import opened Wrappers
  import opened Records
  import opened Text
  import opened JsValues

  const AddressRequired: string := "ウォレットアドレスを入力してください"
  const FetchFailed: string := "データの取得中にエラーが発生しました"

  /** The tests the page filters and classifies transactions by. The amount
      bounds are the numbers `parseFloat` reads from the form fields. */
  datatype Criterion =
    | AtLeastAmount(min: JsNumber)
    | AtMostAmount(max: JsNumber)
    | SentBy(address: string)
    | ReceivedBy(address: string)

  predicate Meets(tx: Tx, c: Criterion) {
    match c
    case AtLeastAmount(min) => LessOrEqual(min, Finite(tx.value))
    case AtMostAmount(max) => LessOrEqual(Finite(tx.value), max)
    case SentBy(address) => EqualsIgnoringCase(tx.fromAddress, address)
    case ReceivedBy(address) => EqualsIgnoringCase(tx.toAddress, address)
  }

  /** `txs.filter(tx => ...)`. */
  function Select(txs: seq<Tx>, c: Criterion): seq<Tx> {
    if txs == [] then []
    else Select(txs[..|txs| - 1], c) + (if Meets(txs[|txs| - 1], c) then [txs[|txs| - 1]] else [])
  }

  /** The filter keeps exactly the transactions that meet the test, and no more
      of them than there were. */
  lemma {:induction false} SelectMeaning(txs: seq<Tx>, c: Criterion)
    ensures |Select(txs, c)| <= |txs|
    ensures forall t :: t in Select(txs, c) <==> t in txs && Meets(t, c)
  {
    if txs != [] {
      var prefix := txs[..|txs| - 1];
      SelectMeaning(prefix, c);
      assert txs == prefix + [txs[|txs| - 1]];
    }
  }

  /** A test that no transaction meets keeps none. */
  lemma {:induction false} NothingMeets(txs: seq<Tx>, c: Criterion)
    requires forall t :: t in txs ==> !Meets(t, c)
    ensures Select(txs, c) == []
  {
    if txs != [] {
      NothingMeets(txs[..|txs| - 1], c);
    }
  }

  /** The filter keeps the order: filtering a concatenation concatenates. */
  lemma {:induction false} SelectAppend(a: seq<Tx>, b: seq<Tx>, c: Criterion)
    ensures Select(a + b, c) == Select(a, c) + Select(b, c)
    decreases |b|
  {
    if b == [] {
      assert a + b == a;
    } else {
      var b' := b[..|b| - 1];
      assert (a + b)[..|a + b| - 1] == a + b';
      SelectAppend(a, b', c);
    }
  }

  /** The amount filter of `handleSearch`: a field left empty (None) does not
      filter. */
  function AmountFiltered(data: seq<Tx>, minAmount: Option<JsNumber>, maxAmount: Option<JsNumber>): seq<Tx> {
    var atLeast := if minAmount.Some? then Select(data, AtLeastAmount(minAmount.value)) else data;
    if maxAmount.Some? then Select(atLeast, AtMostAmount(maxAmount.value)) else atLeast
  }

  predicate Admitted(tx: Tx, minAmount: Option<JsNumber>, maxAmount: Option<JsNumber>) {
    (minAmount.None? || Meets(tx, AtLeastAmount(minAmount.value)))
    && (maxAmount.None? || Meets(tx, AtMostAmount(maxAmount.value)))
  }

  /** Kept transactions are those of the answer with `value >= min` when a
      minimum is given and `value <= max` when a maximum is given; with neither
      the answer is kept whole, and a bound that reads as NaN keeps nothing. */
  lemma AmountFilteredMeaning(data: seq<Tx>, minAmount: Option<JsNumber>, maxAmount: Option<JsNumber>)
    ensures |AmountFiltered(data, minAmount, maxAmount)| <= |data|
    ensures forall t :: t in AmountFiltered(data, minAmount, maxAmount) <==>
                          t in data && Admitted(t, minAmount, maxAmount)
    ensures minAmount.None? && maxAmount.None? ==> AmountFiltered(data, minAmount, maxAmount) == data
    ensures minAmount == Some(NaN) || maxAmount == Some(NaN) ==> AmountFiltered(data, minAmount, maxAmount) == []
  {
    var atLeast := if minAmount.Some? then Select(data, AtLeastAmount(minAmount.value)) else data;
    if minAmount.Some? {
      SelectMeaning(data, AtLeastAmount(minAmount.value));
    }
    if maxAmount.Some? {
      SelectMeaning(atLeast, AtMostAmount(maxAmount.value));
    }
    if minAmount == Some(NaN) {
      NothingMeets(data, AtLeastAmount(NaN));
    }
    if maxAmount == Some(NaN) {
      NothingMeets(atLeast, AtMostAmount(NaN));
    }
  }

  /** The order of the answer is kept: the filter of a concatenation is the
      concatenation of the filters. */
  lemma AmountFilteredAppend(a: seq<Tx>, b: seq<Tx>, minAmount: Option<JsNumber>, maxAmount: Option<JsNumber>)
    ensures AmountFiltered(a + b, minAmount, maxAmount)
            == AmountFiltered(a, minAmount, maxAmount) + AmountFiltered(b, minAmount, maxAmount)
  {
    if minAmount.Some? {
      SelectAppend(a, b, AtLeastAmount(minAmount.value));
    }
    var a' := if minAmount.Some? then Select(a, AtLeastAmount(minAmount.value)) else a;
    var b' := if minAmount.Some? then Select(b, AtLeastAmount(minAmount.value)) else b;
    if maxAmount.Some? {
      SelectAppend(a', b', AtMostAmount(maxAmount.value));
    }
  }

  // ---------------------------------------------------------------------
  // Statistics

  datatype Stats = Stats(
    totalTransactions: nat,
    sentTransactions: nat,
    receivedTransactions: nat,
    totalSent: real,
    totalReceived: real,
    balance: real,
    uniqueSenders: nat,
    uniqueReceivers: nat,
    firstTx: int,
    lastTx: int)

  /** `txs.reduce((sum, tx) => sum + tx.value, 0)`. */
  function Sum(txs: seq<Tx>): real {
    if txs == [] then 0.0 else Sum(txs[..|txs| - 1]) + txs[|txs| - 1].value
  }

  /** `new Set(txs.map(tx => tx.from_address))`. */
  function SenderSet(txs: seq<Tx>): set<string> {
    set i | 0 <= i < |txs| :: txs[i].fromAddress
  }

  /** `new Set(txs.map(tx => tx.to_address))`. */
  function ReceiverSet(txs: seq<Tx>): set<string> {
    set i | 0 <= i < |txs| :: txs[i].toAddress
  }

  /** `Math.min(...txs.map(tx => tx.timestamp))`. */
  function Earliest(txs: seq<Tx>): int
    requires txs != []
  {
    if |txs| == 1 then txs[0].timestamp
    else
      var rest := Earliest(txs[..|txs| - 1]);
      if txs[|txs| - 1].timestamp < rest then txs[|txs| - 1].timestamp else rest
  }

  /** `Math.max(...txs.map(tx => tx.timestamp))`. */
  function Latest(txs: seq<Tx>): int
    requires txs != []
  {
    if |txs| == 1 then txs[0].timestamp
    else
      var rest := Latest(txs[..|txs| - 1]);
      if txs[|txs| - 1].timestamp > rest then txs[|txs| - 1].timestamp else rest
  }

  /** `calculateStats`: nothing for an empty list. */
  function CalculateStats(txs: seq<Tx>, address: string): Option<Stats> {
    if |txs| == 0 then None
    else
      var sent := Select(txs, SentBy(address));
      var received := Select(txs, ReceivedBy(address));
      var totalSent := Sum(sent);
      var totalReceived := Sum(received);
      Some(Stats(|txs|, |sent|, |received|, totalSent, totalReceived, totalReceived - totalSent,
                 |SenderSet(received)|, |ReceiverSet(sent)|, Earliest(txs), Latest(txs)))
  }

  /** A list has no more distinct senders, nor distinct recipients, than entries. */
  lemma {:induction false} DistinctAtMostLength(txs: seq<Tx>)
    ensures |SenderSet(txs)| <= |txs|
    ensures |ReceiverSet(txs)| <= |txs|
  {
    if txs != [] {
      var prefix := txs[..|txs| - 1];
      var last := txs[|txs| - 1];
      DistinctAtMostLength(prefix);
      assert SenderSet(txs) == SenderSet(prefix) + {last.fromAddress} by {
        forall a | a in SenderSet(txs)
          ensures a in SenderSet(prefix) + {last.fromAddress}
        {
          var i :| 0 <= i < |txs| && txs[i].fromAddress == a;
          if i < |txs| - 1 {
            assert prefix[i] == txs[i];
          }
        }
        forall a | a in SenderSet(prefix)
          ensures a in SenderSet(txs)
        {
          var i :| 0 <= i < |prefix| && prefix[i].fromAddress == a;
          assert txs[i] == prefix[i];
        }
      }
      assert ReceiverSet(txs) == ReceiverSet(prefix) + {last.toAddress} by {
        forall a | a in ReceiverSet(txs)
          ensures a in ReceiverSet(prefix) + {last.toAddress}
        {
          var i :| 0 <= i < |txs| && txs[i].toAddress == a;
          if i < |txs| - 1 {
            assert prefix[i] == txs[i];
          }
        }
        forall a | a in ReceiverSet(prefix)
          ensures a in ReceiverSet(txs)
        {
          var i :| 0 <= i < |prefix| && prefix[i].toAddress == a;
          assert txs[i] == prefix[i];
        }
      }
    }
  }

  /** The earliest and latest instants are the least and greatest timestamps
      of the list, each the timestamp of some transaction. */
  lemma {:induction false} ExtremesMeaning(txs: seq<Tx>)
    requires txs != []
    ensures forall i :: 0 <= i < |txs| ==> Earliest(txs) <= txs[i].timestamp <= Latest(txs)
    ensures exists i :: 0 <= i < |txs| && txs[i].timestamp == Earliest(txs)
    ensures exists i :: 0 <= i < |txs| && txs[i].timestamp == Latest(txs)
  {
    if |txs| > 1 {
      var prefix := txs[..|txs| - 1];
      ExtremesMeaning(prefix);
      assert forall i :: 0 <= i < |prefix| ==> prefix[i] == txs[i];
      var e :| 0 <= e < |prefix| && prefix[e].timestamp == Earliest(prefix);
      var l :| 0 <= l < |prefix| && prefix[l].timestamp == Latest(prefix);
      var n := |txs| - 1;
      if txs[n].timestamp < Earliest(prefix) {
        assert txs[n].timestamp == Earliest(txs);
      } else {
        assert txs[e].timestamp == Earliest(txs);
      }
      if txs[n].timestamp > Latest(prefix) {
        assert txs[n].timestamp == Latest(txs);
      } else {
        assert txs[l].timestamp == Latest(txs);
      }
    } else {
      assert txs[0].timestamp == Earliest(txs) == Latest(txs);
    }
  }

  /** The statistics: none for an empty list; otherwise the counts are bounded by
      the list length and by each other, the totals sum the values of the sent
      and the received transactions, the balance is their difference, and the
      first and last instants are the least and greatest timestamps. */
  lemma StatsMeaning(txs: seq<Tx>, address: string)
    ensures CalculateStats(txs, address).None? <==> txs == []
    ensures CalculateStats(txs, address).Some? ==>
              var s := CalculateStats(txs, address).value;
              && s.totalTransactions == |txs|
              && s.sentTransactions <= s.totalTransactions
              && s.receivedTransactions <= s.totalTransactions
              && s.uniqueSenders <= s.receivedTransactions
              && s.uniqueReceivers <= s.sentTransactions
              && s.totalSent == Sum(Select(txs, SentBy(address)))
              && s.totalReceived == Sum(Select(txs, ReceivedBy(address)))
              && s.balance == s.totalReceived - s.totalSent
              && s.firstTx <= s.lastTx
              && (forall i :: 0 <= i < |txs| ==> s.firstTx <= txs[i].timestamp <= s.lastTx)
              && (exists i :: 0 <= i < |txs| && txs[i].timestamp == s.firstTx)
              && (exists i :: 0 <= i < |txs| && txs[i].timestamp == s.lastTx)
  {
    if txs != [] {
      SelectMeaning(txs, SentBy(address));
      SelectMeaning(txs, ReceivedBy(address));
      DistinctAtMostLength(Select(txs, SentBy(address)));
      DistinctAtMostLength(Select(txs, ReceivedBy(address)));
      ExtremesMeaning(txs);
    }
  }

  /** A transaction counts as sent when its sender is the address ignoring case,
      as received when its recipient is; a transfer to oneself counts as both. */
  lemma Classified(txs: seq<Tx>, address: string, i: nat)
    requires i < |txs|
    ensures txs[i] in Select(txs, SentBy(address)) <==> EqualsIgnoringCase(txs[i].fromAddress, address)
    ensures txs[i] in Select(txs, ReceivedBy(address)) <==> EqualsIgnoringCase(txs[i].toAddress, address)
  {
    SelectMeaning(txs, SentBy(address));
    SelectMeaning(txs, ReceivedBy(address));
  }

  /** The error shown for a failed request: the backend's `detail` when it has a
      non-empty one, a fixed message otherwise. */
  function ErrorText(detail: Option<string>): string {
    if detail.Some? && detail.value != "" then detail.value else FetchFailed
  }

  /** The page, with the state fields its search sets. */
  class ExplorerPage {
    var transactions: seq<Tx>
    var stats: Option<Stats>
    var loading: bool
    var error: Option<string>

    constructor ()
      ensures transactions == [] && stats.None? && !loading && error.None?
    {
      transactions := [];
      stats := None;
      loading := false;
      error := None;
    }

    /** `handleSearch`. `response` is what `getTransactions` answers; a failure
        carries the backend's `detail`, if any. `requested` tells whether the
        request was made. */
    method Search(address: string, minAmount: Option<JsNumber>, maxAmount: Option<JsNumber>,
                  response: Result<seq<Tx>, Option<string>>)
      returns (requested: bool)
      modifies this
      ensures requested <==> address != ""
      ensures address == "" ==>
                && error == Some(AddressRequired)
                && transactions == old(transactions) && stats == old(stats) && loading == old(loading)
      ensures address != "" ==> !loading
      ensures address != "" && response.Err? ==>
                && error == Some(ErrorText(response.error))
                && transactions == old(transactions) && stats == old(stats)
      ensures address != "" && response.Ok? ==>
                && error.None?
                && transactions == AmountFiltered(response.value, minAmount, maxAmount)
                && stats == CalculateStats(transactions, address)
    {
      if address == "" {
        error := Some(AddressRequired);
        return false;
      }
      requested := true;
      loading := true;
      error := None;
      if response.Err? {
        error := Some(ErrorText(response.error));
        loading := false;
        return;
      }
      var filteredData := response.value;
      if minAmount.Some? {
        filteredData := Select(filteredData, AtLeastAmount(minAmount.value));
      }
      if maxAmount.Some? {
        filteredData := Select(filteredData, AtMostAmount(maxAmount.value));
      }
      transactions := filteredData;
      stats := CalculateStats(filteredData, address);
      loading := false;
    }
  }
}
