/** The BlockCypher client (`backend/app/api/blockcypher.py`): turning the
    response of `addrs/{address}/full` into directed transfer records.

    A Bitcoin transaction has inputs and outputs, each carrying a list of
    addresses. For every transaction inside the requested window that involves
    the searched address, the client emits one "received" record per output that
    pays the address, then, when the address is among the inputs, one "sent"
    record per output that pays somebody else. */
module BlockCypher {
  import opened Wrappers
  import opened Records

  /** One element of a transaction's `inputs`. */
  datatype RawInput = RawInput(addresses: Option<seq<string>>)

  /** One element of a transaction's `outputs`; `value` is in satoshi. */
  datatype RawOutput = RawOutput(addresses: Option<seq<string>>, value: Option<int>)

  /** One element of `txs`. `received` is the parsed `received` date-time. */
  datatype RawTx = RawTx(
    received: int,
    inputs: Option<seq<RawInput>>,
    outputs: Option<seq<RawOutput>>,
    hash: string,
    blockHeight: Option<int>,
    addresses: Option<seq<string>>)

  /** The body of the `addrs/{address}/full` response. */
  datatype AddressFull = AddressFull(txs: Option<seq<RawTx>>)

  const SatoshisPerBitcoin: int := 100000000

  /** An output's `value` (0 when absent) converted from satoshi to BTC. */
  function OutputValue(o: RawOutput): real {
    o.value.GetOr(0) as real / SatoshisPerBitcoin as real
  }

  /** `address in x.get("addresses", [])`. */
  predicate Lists(addresses: Option<seq<string>>, address: string) {
    address in addresses.GetOr([])
  }

  // ---------------------------------------------------------------------------
  // The list comprehensions of the two helpers

  /** The outputs that list `address` (when `listed`) or do not list it (when
      `!listed`), in order: `received_outputs` and `external_outputs`. */
  function OutputsWhere(outputs: seq<RawOutput>, address: string, listed: bool): seq<RawOutput> {
    if outputs == [] then []
    else
      (if Lists(outputs[0].addresses, address) == listed then [outputs[0]] else [])
      + OutputsWhere(outputs[1..], address, listed)
  }

  lemma {:induction false} OutputsWhereMeaning(outputs: seq<RawOutput>, address: string, listed: bool)
    ensures |OutputsWhere(outputs, address, listed)| <= |outputs|
    ensures forall o :: o in OutputsWhere(outputs, address, listed) <==>
              o in outputs && Lists(o.addresses, address) == listed
  {
    if outputs != [] {
      OutputsWhereMeaning(outputs[1..], address, listed);
      assert outputs == [outputs[0]] + outputs[1..];
    }
  }

  /** `sent_inputs`: the inputs that list `address`, in order. */
  function SpendingInputs(inputs: seq<RawInput>, address: string): seq<RawInput> {
    if inputs == [] then []
    else
      (if Lists(inputs[0].addresses, address) then [inputs[0]] else [])
      + SpendingInputs(inputs[1..], address)
  }

  lemma {:induction false} SpendingInputsMeaning(inputs: seq<RawInput>, address: string)
    ensures SpendingInputs(inputs, address) != [] <==> exists i :: i in inputs && Lists(i.addresses, address)
  {
    if inputs != [] {
      SpendingInputsMeaning(inputs[1..], address);
      assert inputs == [inputs[0]] + inputs[1..];
    }
  }

  // ---------------------------------------------------------------------------
  // The sender of a received record

  /** An input whose address list is non-empty and does not start with `address`. */
  predicate OtherSender(i: RawInput, address: string) {
    var a := i.addresses.GetOr([]);
    a != [] && a[0] != address
  }

  /** `from_addresses`: the address lists of the inputs satisfying `OtherSender`,
      concatenated in order. */
  function SenderCandidates(inputs: seq<RawInput>, address: string): seq<string> {
    if inputs == [] then []
    else
      (if OtherSender(inputs[0], address) then inputs[0].addresses.GetOr([]) else [])
      + SenderCandidates(inputs[1..], address)
  }

  lemma SenderCandidatesStep(acc: seq<string>, inputs: seq<RawInput>, address: string, j: nat)
    requires j < |inputs|
    ensures acc + SenderCandidates(inputs[j..], address)
            == (if OtherSender(inputs[j], address) then acc + inputs[j].addresses.GetOr([]) else acc)
               + SenderCandidates(inputs[j + 1..], address)
  {
    assert inputs[j..][1..] == inputs[j + 1..];
    var part := if OtherSender(inputs[j], address) then inputs[j].addresses.GetOr([]) else [];
    assert acc + (part + SenderCandidates(inputs[j + 1..], address))
           == (acc + part) + SenderCandidates(inputs[j + 1..], address);
  }

  /** The intended sender: the first address of the first input whose first
      address is not the searched one, or "Unknown" when there is none. */
  function FirstSender(inputs: seq<RawInput>, address: string): string {
    if inputs == [] then "Unknown"
    else if OtherSender(inputs[0], address) then inputs[0].addresses.GetOr([])[0]
    else FirstSender(inputs[1..], address)
  }

  /** Taking the head of `from_addresses` (or "Unknown" when it is empty) picks
      exactly the first other sender. */
  lemma {:induction false} SenderCandidatesHead(inputs: seq<RawInput>, address: string)
    ensures SenderCandidates(inputs, address) == [] ==> FirstSender(inputs, address) == "Unknown"
    ensures SenderCandidates(inputs, address) != [] ==>
              SenderCandidates(inputs, address)[0] == FirstSender(inputs, address)
  {
    if inputs != [] && !OtherSender(inputs[0], address) {
      SenderCandidatesHead(inputs[1..], address);
    }
  }

  lemma SenderChosen(inputs: seq<RawInput>, address: string, fromAddresses: seq<string>)
    requires fromAddresses + SenderCandidates(inputs[|inputs|..], address) == SenderCandidates(inputs, address)
    ensures (if fromAddresses != [] then fromAddresses[0] else "Unknown") == FirstSender(inputs, address)
  {
    assert inputs[|inputs|..] == [];
    SenderCandidatesHead(inputs, address);
  }

  /** `FirstSender` is "Unknown" when no input qualifies, and otherwise the first
      address of the first input that does. */
  lemma {:induction false} FirstSenderMeaning(inputs: seq<RawInput>, address: string, i: nat)
    requires i <= |inputs|
    requires forall j :: 0 <= j < i ==> !OtherSender(inputs[j], address)
    ensures i == |inputs| ==> FirstSender(inputs, address) == "Unknown"
    ensures i < |inputs| && OtherSender(inputs[i], address) ==>
              FirstSender(inputs, address) == inputs[i].addresses.GetOr([])[0]
  {
    if i > 0 {
      FirstSenderMeaning(inputs[1..], address, i - 1);
    }
  }

  /** A received record is never attributed to the searched address itself
      (unless that address is literally "Unknown"). */
  lemma {:induction false} FirstSenderIsOther(inputs: seq<RawInput>, address: string)
    ensures FirstSender(inputs, address) == "Unknown" || FirstSender(inputs, address) != address
  {
    if inputs != [] && !OtherSender(inputs[0], address) {
      FirstSenderIsOther(inputs[1..], address);
    }
  }

  // ---------------------------------------------------------------------------
  // The records of one transaction

  function ReceivedRecord(o: RawOutput, address: string, from: string, hash: string,
                          height: Option<int>, time: int): Tx {
    Tx("bitcoin", hash, from, address, OutputValue(o), time, height)
  }

  /** One received record per paying output, in order. */
  function ReceivedFrom(paying: seq<RawOutput>, address: string, from: string, hash: string,
                        height: Option<int>, time: int): seq<Tx> {
    if paying == [] then []
    else
      ReceivedFrom(paying[..|paying| - 1], address, from, hash, height, time)
      + [ReceivedRecord(paying[|paying| - 1], address, from, hash, height, time)]
  }

  lemma ReceivedFromSnoc(acc: seq<Tx>, paying: seq<RawOutput>, k: nat, address: string, from: string,
                         hash: string, height: Option<int>, time: int)
    requires k < |paying|
    ensures acc + ReceivedFrom(paying[..k + 1], address, from, hash, height, time)
            == acc + ReceivedFrom(paying[..k], address, from, hash, height, time)
               + [ReceivedRecord(paying[k], address, from, hash, height, time)]
  {
    assert paying[..k + 1][..k] == paying[..k];
  }

  /** One record per paying output, in the same order, each sent by `from` to
      `address` with that output's value. */
  lemma {:induction false} ReceivedFromMeaning(paying: seq<RawOutput>, address: string, from: string, hash: string,
                                               height: Option<int>, time: int)
    ensures |ReceivedFrom(paying, address, from, hash, height, time)| == |paying|
    ensures forall k :: 0 <= k < |paying| ==>
              ReceivedFrom(paying, address, from, hash, height, time)[k]
              == Tx("bitcoin", hash, from, address, OutputValue(paying[k]), time, height)
  {
    if paying != [] {
      ReceivedFromMeaning(paying[..|paying| - 1], address, from, hash, height, time);
    }
  }

  /** What `_process_received_transactions` appends. */
  function ReceivedRecords(address: string, inputs: seq<RawInput>, outputs: seq<RawOutput>,
                           hash: string, height: Option<int>, time: int): seq<Tx> {
    ReceivedFrom(OutputsWhere(outputs, address, true), address, FirstSender(inputs, address), hash, height, time)
  }

  function SentRecord(o: RawOutput, address: string, hash: string, height: Option<int>, time: int): Tx
    requires o.addresses.GetOr([]) != []
  {
    Tx("bitcoin", hash, address, o.addresses.GetOr([])[0], OutputValue(o), time, height)
  }

  /** The outputs with a non-empty address list, in order: those a sent record is made for. */
  function Addressed(outputs: seq<RawOutput>): (r: seq<RawOutput>)
    ensures forall k :: 0 <= k < |r| ==> r[k].addresses.GetOr([]) != []
  {
    if outputs == [] then []
    else
      var o := outputs[|outputs| - 1];
      Addressed(outputs[..|outputs| - 1]) + (if o.addresses.GetOr([]) == [] then [] else [o])
  }

  lemma {:induction false} AddressedMeaning(outputs: seq<RawOutput>)
    ensures |Addressed(outputs)| <= |outputs|
    ensures forall o :: o in Addressed(outputs) <==> o in outputs && o.addresses.GetOr([]) != []
  {
    if outputs != [] {
      var prefix := outputs[..|outputs| - 1];
      AddressedMeaning(prefix);
      assert outputs == prefix + [outputs[|outputs| - 1]];
    }
  }

  /** One sent record per external output with a non-empty address list, in order. */
  function SentTo(external: seq<RawOutput>, address: string, hash: string,
                  height: Option<int>, time: int): seq<Tx> {
    if external == [] then []
    else
      var o := external[|external| - 1];
      SentTo(external[..|external| - 1], address, hash, height, time)
      + (if o.addresses.GetOr([]) == [] then [] else [SentRecord(o, address, hash, height, time)])
  }

  lemma SentToSnoc(acc: seq<Tx>, external: seq<RawOutput>, k: nat, address: string, hash: string,
                   height: Option<int>, time: int)
    requires k < |external|
    ensures acc + SentTo(external[..k + 1], address, hash, height, time)
            == acc + SentTo(external[..k], address, hash, height, time)
               + (if external[k].addresses.GetOr([]) == [] then []
                  else [SentRecord(external[k], address, hash, height, time)])
  {
    assert external[..k + 1][..k] == external[..k];
  }

  /** The sent records are exactly one record per output with a non-empty
      address list, in order: from `address` to that list's first address,
      with the output's value. */
  lemma {:induction false} SentToOrder(external: seq<RawOutput>, address: string, hash: string,
                                       height: Option<int>, time: int)
    ensures |SentTo(external, address, hash, height, time)| == |Addressed(external)|
    ensures forall k :: 0 <= k < |Addressed(external)| ==>
              SentTo(external, address, hash, height, time)[k]
              == Tx("bitcoin", hash, address, Addressed(external)[k].addresses.GetOr([])[0],
                    OutputValue(Addressed(external)[k]), time, height)
  {
    if external != [] {
      var prefix := external[..|external| - 1];
      SentToOrder(prefix, address, hash, height, time);
    }
  }

  /** Each sent record goes from `address` to the first address of one of the
      outputs, with that output's value, and every output with a non-empty
      address list yields its record. */
  lemma {:induction false} SentToMeaning(external: seq<RawOutput>, address: string, hash: string,
                                         height: Option<int>, time: int)
    ensures |SentTo(external, address, hash, height, time)| <= |external|
    ensures forall t :: t in SentTo(external, address, hash, height, time) ==>
              && t.blockchain == "bitcoin" && t.txid == hash && t.fromAddress == address
              && t.timestamp == time && t.blockNumber == height
              && exists o :: o in external && o.addresses.GetOr([]) != []
                             && t.toAddress == o.addresses.GetOr([])[0] && t.value == OutputValue(o)
    ensures forall o :: o in external && o.addresses.GetOr([]) != [] ==>
              SentRecord(o, address, hash, height, time) in SentTo(external, address, hash, height, time)
  {
    var sent := SentTo(external, address, hash, height, time);
    var addressed := Addressed(external);
    SentToOrder(external, address, hash, height, time);
    AddressedMeaning(external);
    forall t | t in sent
      ensures && t.blockchain == "bitcoin" && t.txid == hash && t.fromAddress == address
              && t.timestamp == time && t.blockNumber == height
              && exists o :: o in external && o.addresses.GetOr([]) != []
                             && t.toAddress == o.addresses.GetOr([])[0] && t.value == OutputValue(o)
    {
      var k :| 0 <= k < |sent| && sent[k] == t;
      assert addressed[k] in addressed;
    }
    forall o | o in external && o.addresses.GetOr([]) != []
      ensures SentRecord(o, address, hash, height, time) in sent
    {
      var k :| 0 <= k < |addressed| && addressed[k] == o;
      assert sent[k] == SentRecord(o, address, hash, height, time);
    }
  }

  /** What `_process_sent_transactions` appends. */
  function SentRecords(address: string, inputs: seq<RawInput>, outputs: seq<RawOutput>,
                       hash: string, height: Option<int>, time: int): seq<Tx> {
    if SpendingInputs(inputs, address) == [] then []
    else SentTo(OutputsWhere(outputs, address, false), address, hash, height, time)
  }

  /** Sent records exist exactly when some input lists the address and some
      output that does not list it has addresses; each goes from the address to
      the first address of such an output, and every such output yields its
      record. */
  lemma SentRecordsMeaning(address: string, inputs: seq<RawInput>, outputs: seq<RawOutput>,
                           hash: string, height: Option<int>, time: int)
    ensures SentRecords(address, inputs, outputs, hash, height, time) != [] ==>
              exists i :: i in inputs && Lists(i.addresses, address)
    ensures (exists i :: i in inputs && Lists(i.addresses, address)) ==>
              forall o :: o in outputs && !Lists(o.addresses, address) && o.addresses.GetOr([]) != [] ==>
                SentRecord(o, address, hash, height, time) in SentRecords(address, inputs, outputs, hash, height, time)
    ensures forall t :: t in SentRecords(address, inputs, outputs, hash, height, time) ==>
              && t.blockchain == "bitcoin" && t.txid == hash && t.timestamp == time && t.blockNumber == height
              && t.fromAddress == address && t.toAddress != address
              && exists o :: o in outputs && !Lists(o.addresses, address) && o.addresses.GetOr([]) != []
                             && t.toAddress == o.addresses.GetOr([])[0] && t.value == OutputValue(o)
  {
    SpendingInputsMeaning(inputs, address);
    if SpendingInputs(inputs, address) != [] {
      OutputsWhereMeaning(outputs, address, false);
      SentToMeaning(OutputsWhere(outputs, address, false), address, hash, height, time);
    }
  }

  /** The transactions the client looks at: inside the window and listing the address. */
  predicate Selected(tx: RawTx, address: string, start: Option<int>, end: Option<int>) {
    InWindow(tx.received, start, end) && Lists(tx.addresses, address)
  }

  /** The records of one selected transaction: received first, then sent. */
  function TxRecords(tx: RawTx, address: string): seq<Tx> {
    var inputs := tx.inputs.GetOr([]);
    var outputs := tx.outputs.GetOr([]);
    ReceivedRecords(address, inputs, outputs, tx.hash, tx.blockHeight, tx.received)
    + SentRecords(address, inputs, outputs, tx.hash, tx.blockHeight, tx.received)
  }

  /** The records of one transaction of the list, none when it is not selected. */
  function Contribution(tx: RawTx, address: string, start: Option<int>, end: Option<int>): seq<Tx> {
    if Selected(tx, address, start, end) then TxRecords(tx, address) else []
  }

  /** The result of `get_transactions` for the transaction list `txs`. */
  function Extracted(txs: seq<RawTx>, address: string, start: Option<int>, end: Option<int>): seq<Tx> {
    if txs == [] then []
    else
      var tx := txs[|txs| - 1];
      Extracted(txs[..|txs| - 1], address, start, end) + Contribution(tx, address, start, end)
  }

  lemma ExtractedLast(txs: seq<RawTx>, address: string, start: Option<int>, end: Option<int>)
    requires txs != []
    ensures Extracted(txs, address, start, end)
            == Extracted(txs[..|txs| - 1], address, start, end) + Contribution(txs[|txs| - 1], address, start, end)
  {
  }

  lemma AppendStep(ea: seq<Tx>, eb: seq<Tx>, eb': seq<Tx>, eab: seq<Tx>, eab': seq<Tx>, tail: seq<Tx>)
    requires eab' == ea + eb' && eab == eab' + tail && eb == eb' + tail
    ensures eab == ea + eb
  {
  }

  /** The records of a concatenation of lists are the records of the first list
      followed by those of the second: records keep the order of the response. */
  lemma {:induction false} ExtractedAppend(a: seq<RawTx>, b: seq<RawTx>, address: string,
                                           start: Option<int>, end: Option<int>)
    ensures Extracted(a + b, address, start, end) == Extracted(a, address, start, end) + Extracted(b, address, start, end)
    decreases |b|
  {
    if b == [] {
      assert a + b == a;
    } else {
      var b' := b[..|b| - 1];
      assert (a + b)[..|a + b| - 1] == a + b';
      assert (a + b)[|a + b| - 1] == b[|b| - 1];
      ExtractedLast(a + b, address, start, end);
      ExtractedLast(b, address, start, end);
      ExtractedAppend(a, b', address, start, end);
      AppendStep(Extracted(a, address, start, end), Extracted(b, address, start, end),
                 Extracted(b', address, start, end), Extracted(a + b, address, start, end),
                 Extracted(a + b', address, start, end), Contribution(b[|b| - 1], address, start, end));
    }
  }

  lemma ExtractedSnoc(txs: seq<RawTx>, j: nat, address: string, start: Option<int>, end: Option<int>)
    requires j < |txs|
    ensures !Selected(txs[j], address, start, end) ==>
              Extracted(txs[..j + 1], address, start, end) == Extracted(txs[..j], address, start, end)
    ensures Selected(txs[j], address, start, end) ==>
              Extracted(txs[..j + 1], address, start, end)
              == Extracted(txs[..j], address, start, end)
                 + ReceivedRecords(address, txs[j].inputs.GetOr([]), txs[j].outputs.GetOr([]),
                                   txs[j].hash, txs[j].blockHeight, txs[j].received)
                 + SentRecords(address, txs[j].inputs.GetOr([]), txs[j].outputs.GetOr([]),
                               txs[j].hash, txs[j].blockHeight, txs[j].received)
  {
    assert txs[..j + 1][..j] == txs[..j];
  }

  /** A transaction outside the window, or not listing the address, contributes
      no records wherever it appears. */
  lemma UnselectedIgnored(a: seq<RawTx>, tx: RawTx, b: seq<RawTx>, address: string,
                          start: Option<int>, end: Option<int>)
    requires !Selected(tx, address, start, end)
    ensures Extracted(a + [tx] + b, address, start, end) == Extracted(a + b, address, start, end)
  {
    ExtractedAppend(a + [tx], b, address, start, end);
    ExtractedAppend(a, b, address, start, end);
    assert (a + [tx])[..|a|] == a;
  }

  /** Every record comes from the searched chain, lies inside the window, and
      has the searched address as its sender or its recipient. */
  lemma {:induction false} ExtractedMeaning(txs: seq<RawTx>, address: string, start: Option<int>, end: Option<int>)
    ensures forall t :: t in Extracted(txs, address, start, end) ==>
              && t.blockchain == "bitcoin"
              && InWindow(t.timestamp, start, end)
              && (t.fromAddress == address || t.toAddress == address)
  {
    if txs != [] {
      var tx := txs[|txs| - 1];
      ExtractedMeaning(txs[..|txs| - 1], address, start, end);
      if Selected(tx, address, start, end) {
        var inputs, outputs := tx.inputs.GetOr([]), tx.outputs.GetOr([]);
        var received := ReceivedRecords(address, inputs, outputs, tx.hash, tx.blockHeight, tx.received);
        ReceivedFromMeaning(OutputsWhere(outputs, address, true), address,
                            FirstSender(inputs, address), tx.hash, tx.blockHeight, tx.received);
        SentRecordsMeaning(address, inputs, outputs, tx.hash, tx.blockHeight, tx.received);
        forall t | t in received
          ensures t.blockchain == "bitcoin" && t.timestamp == tx.received && t.toAddress == address
        {
          var k :| 0 <= k < |received| && received[k] == t;
        }
      }
    }
  }

  // ---------------------------------------------------------------------------
  // The client

  /** `_process_received_transactions`: append one record per output paying
      `address`, with the first other input address as sender. */
  method ProcessReceived(transactions: seq<Tx>, address: string, inputs: seq<RawInput>, outputs: seq<RawOutput>,
                         hash: string, height: Option<int>, time: int)
    returns (transactions': seq<Tx>)
    ensures transactions' == transactions + ReceivedRecords(address, inputs, outputs, hash, height, time)
  {
    transactions' := transactions;
    var receivedOutputs := OutputsWhere(outputs, address, true);
    if receivedOutputs != [] {
      for k := 0 to |receivedOutputs|
        invariant transactions' == transactions
                    + ReceivedFrom(receivedOutputs[..k], address, FirstSender(inputs, address), hash, height, time)
      {
        var fromAddresses: seq<string> := [];
        for j := 0 to |inputs|
          invariant fromAddresses + SenderCandidates(inputs[j..], address) == SenderCandidates(inputs, address)
        {
          SenderCandidatesStep(fromAddresses, inputs, address, j);
          var inputAddresses := inputs[j].addresses.GetOr([]);
          if inputAddresses != [] && inputAddresses[0] != address {
            fromAddresses := fromAddresses + inputAddresses;
          }
        }
        SenderChosen(inputs, address, fromAddresses);
        var from := if fromAddresses != [] then fromAddresses[0] else "Unknown";
        ReceivedFromSnoc(transactions, receivedOutputs, k, address, from, hash, height, time);
        transactions' := transactions' + [ReceivedRecord(receivedOutputs[k], address, from, hash, height, time)];
      }
      assert receivedOutputs[..|receivedOutputs|] == receivedOutputs;
    }
  }

  /** `_process_sent_transactions`: when some input lists `address`, append one
      record per output paying somebody else. */
  method ProcessSent(transactions: seq<Tx>, address: string, inputs: seq<RawInput>, outputs: seq<RawOutput>,
                     hash: string, height: Option<int>, time: int)
    returns (transactions': seq<Tx>)
    ensures transactions' == transactions + SentRecords(address, inputs, outputs, hash, height, time)
  {
    transactions' := transactions;
    var sentInputs := SpendingInputs(inputs, address);
    if sentInputs != [] {
      var externalOutputs := OutputsWhere(outputs, address, false);
      for k := 0 to |externalOutputs|
        invariant transactions' == transactions + SentTo(externalOutputs[..k], address, hash, height, time)
      {
        SentToSnoc(transactions, externalOutputs, k, address, hash, height, time);
        var toAddresses := externalOutputs[k].addresses.GetOr([]);
        if toAddresses == [] {
          continue;
        }
        transactions' := transactions' + [SentRecord(externalOutputs[k], address, hash, height, time)];
      }
      assert externalOutputs[..|externalOutputs|] == externalOutputs;
    }
  }

  /** `BlockCypherClient.get_transactions` after the request: a failed request
      propagates its error; otherwise every transaction is filtered by window and
      by address, then split into received and sent records. */
  method GetTransactions(response: Result<AddressFull, HttpError>, address: string,
                         start: Option<int>, end: Option<int>)
    returns (r: Result<seq<Tx>, HttpError>)
    ensures response.Err? ==> r == Err(response.error)
    ensures response.Ok? ==> r == Ok(Extracted(response.value.txs.GetOr([]), address, start, end))
  {
    if response.Err? {
      return Err(response.error);
    }
    var txs := response.value.txs.GetOr([]);
    var transactions: seq<Tx> := [];
    for j := 0 to |txs|
      invariant transactions == Extracted(txs[..j], address, start, end)
    {
      var tx := txs[j];
      ExtractedSnoc(txs, j, address, start, end);
      if (start.Some? && tx.received < start.value) || (end.Some? && tx.received > end.value) {
        continue;
      }
      var inputs := tx.inputs.GetOr([]);
      var outputs := tx.outputs.GetOr([]);
      if address !in tx.addresses.GetOr([]) {
        continue;
      }
      transactions := ProcessReceived(transactions, address, inputs, outputs, tx.hash, tx.blockHeight, tx.received);
      transactions := ProcessSent(transactions, address, inputs, outputs, tx.hash, tx.blockHeight, tx.received);
    }
    assert txs[..|txs|] == txs;
    r := Ok(transactions);
  }
}
