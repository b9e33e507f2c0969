# Blockchain transaction visualizer — Dafny model

The system is a small web application. Its user enters a Bitcoin or
Ethereum wallet address. A FastAPI backend pulls that address's
transactions from a public block explorer and caches them in a database.
It can also grow a transaction network around the address by breadth-first
search. A React frontend draws that network as a force graph and shows the
transactions as a paged table with summary statistics.

This project models the core of both halves:

- `network_builder.dfy` (module `NetworkBuilder`) models the `/network`
  endpoint. It checks the depth and the chain, then runs a level-by-level
  search. Each level fetches the transactions of every queued address and
  drops those below the minimum amount. It adds every new endpoint as a
  node and adds one link per kept transaction. The fetch is a function
  parameter. The method is proved against a specification of the whole
  network: its nodes, its links, and the level of every node.
- `blockcypher.dfy` (module `BlockCypher`) models the BlockCypher client.
  It filters by time window and by the `addresses` list. It turns one
  UTXO transaction into "received" and "sent" records: the first foreign
  input address is the sender, and outputs are converted from satoshi to
  bitcoin.
- `etherscan.dfy` (module `Etherscan`) models the Etherscan client. It
  handles the API-key check and the `status` check. It keeps transactions
  that involve the address, ignoring letter case, and converts values from
  wei to ether.
- `tx_cache.dfy` (module `TxCache`) models the transaction table as a
  class. It covers the cached lookup, the de-duplicating save on the
  `(txid, value, from, to)` key, and the row-to-record conversion.
- `bitcoin_service.dfy` (module `BitcoinService`) models the Bitcoin
  service. It answers from the cache on a hit. Otherwise it asks the
  client and saves the records.
- `graph_view.dfy` (module `GraphView`) models the network page. Its state
  is a class whose methods are the search, node-click, reset and
  display-mode handlers. Each method is tied to a specification function
  on an immutable `View`. The module also covers normalisation of the
  received JSON: ids become strings, and link values that are not numbers
  become 0.
- `graph_style.dfy` (module `GraphStyle`) models the drawing rules of the
  graph component: node colour and size, link width and opacity, and
  labels.
- `explorer.dfy` (module `Explorer`) models the transaction explorer page.
  It covers the amount filters, the statistics and the error text.
- `tx_list.dfy` (module `TransactionList`) models the transaction table:
  page slicing, highlighting of the searched address, and pagination
  state.
- `js_values.dfy`, `text.dfy`, `records.dfy` and `wrappers.dfy` hold shared
  definitions:
  - JavaScript numbers with infinities and NaN, and `String(v)`;
  - ASCII lower-casing and decimal rendering;
  - the transaction record and HTTP errors;
  - `Option` and `Result`.

Instants are integers (seconds). Amounts are exact reals.

## Model

| member | source | states |
|---|---|---|
| NetworkBuilder.ServiceFor | backend/main.py:42-51 | Only "bitcoin" and "ethereum" give a service, each its own. Any other name fails with 400 "Unsupported blockchain: <name>". |
| NetworkBuilder.BuildNetwork | backend/main.py:117-229 | A depth outside 1..3 gives 422 and an unsupported chain gives 400, both before any fetch. Otherwise every fetched batch is the service's answer for the fetched address, and an error implies at least one fetch, the last one, which failed with that error. Addresses are fetched in breadth-first search order on both outcomes. On failure every fetched address, the failing one included, was found above the depth limit (`StoppedBelow`). On success the network matches the breadth-first specification (nodes, links, levels). |
| NetworkBuilder.ExpandFrom | backend/main.py:160-188 | The level loop fetches addresses in search order, whether it finishes or stops at a failing fetch. A failing run fetched only addresses found above the depth limit. The finished network matches the specification. The level of each node is bounded by the depth, each node was revealed by the first fetched address whose kept transactions mention it, and the fetched addresses are exactly the nodes above the last level. |
| NetworkBuilder.ExpandLevel | backend/main.py:173-188 | Fetches each address queued for the level in turn. Either the expansion moves to the next level with its frontier, or the first failing fetch is reported, with every fetch so far in search order, the failing address taken from this level's queue (so no more fetches than nodes) and every fetched address found above the depth limit. |
| NetworkBuilder.ExpandAddress | backend/main.py:181-188 | One fetch of the next queued address, appended to the fetched list. On success the expansion invariant holds with one more fetched address. On failure that address and its error are reported, no batch is added, the fetch was still the next one in search order, and every fetched address was found above the depth limit. |
| NetworkBuilder.ExploreAddress | backend/main.py:190-227 | Walking one batch adds as nodes exactly the first appearances of the kept transactions' endpoints, in order. It appends one link per kept transaction and queues new addresses only below the depth. |
| NetworkBuilder.ExploreTx | backend/main.py:190-227 | One transaction: skipped below the minimum amount, otherwise its endpoints are visited and its link appended. |
| NetworkBuilder.Visit | backend/main.py:196-215 | An address already explored adds nothing. A new one becomes an "address" node, is marked explored and is queued when `enqueue` holds. |
| NetworkBuilder.KeptMeaning | backend/main.py:190-193 | The minimum-amount filter keeps exactly the transactions at or above the minimum, in order. With no minimum it keeps everything. |
| NetworkBuilder.KeptAppend | backend/main.py:190-193 | Filtering distributes over concatenation of batches. |
| NetworkBuilder.EndpointsMeaning | backend/main.py:196-215 | The visited addresses are exactly the senders and recipients of the kept transactions. |
| NetworkBuilder.LinksForMeaning | backend/main.py:217-227 | One link per kept transaction, in order, with id `from_to_txid`, source, target, value and timestamp taken from it. |
| NetworkBuilder.DiscoverMeaning | backend/main.py:196-215 | The node ids are the source plus every endpoint, and no id appears twice. |
| NetworkBuilder.DiscoverExtends | backend/main.py:196-215 | Earlier nodes keep their place. Every node added is a new endpoint. |
| NetworkBuilder.DiscoveredAll | backend/main.py:173-227 | Expanding batch by batch yields the same nodes and links as filtering and visiting the concatenation of all batches. |
| NetworkBuilder.Start | backend/main.py:160-168 | The initial network (the source node, no links, `{0: [address]}`) satisfies the expansion invariant at level 0. |
| NetworkBuilder.Finish | backend/main.py:173-175 | When the depth is reached or the next queue is empty, the network matches the specification and the addresses were fetched in search order. |
| NetworkBuilder.Concluded | backend/main.py:173-229 | From the loop invariants: the network matches, and the levels satisfy the depth bound. |
| NetworkBuilder.DepthOneFetchesOnlyRoot | backend/main.py:203-204 | With depth 1 nothing is queued, so only the searched address is fetched. |
| NetworkBuilder.DepthOneStopsAtRoot | backend/main.py:173-204 | With depth 1 a failing run also fetched only the searched address, and explored no batch: the failure is the source's own fetch. |
| NetworkBuilder.LevelsAboveSource | backend/main.py:196-204 | Every address found after the source is queued at least one level below it. |
| NetworkBuilder.LeveledStopped | backend/main.py:173-188 | Fetching the next queued address of a level below the limit keeps every fetched address above the depth limit, each found by the first fetched batch that mentions it. |
| NetworkBuilder.FailedBelow | backend/main.py:181-188 | When the fetch of the next queued address fails, the fetched addresses, the failing one included, all lie above the depth limit. |
| NetworkBuilder.DiscoveredCovers | backend/main.py:190-215 | Every endpoint of a kept transaction of any fetched batch is among the nodes. |
| NetworkBuilder.DiscoveredPrefix | backend/main.py:196-215 | The nodes known after some of the fetches are a prefix of the nodes known after all of them. |
| NetworkBuilder.FetchOrder | backend/main.py:173-188 | A node list whose nodes were each revealed by an earlier node's batch, fetched front to back, fetches in search order: the k-th fetch asks for the k-th node known after the first k fetches. |
| NetworkBuilder.FailedOrder | backend/main.py:181-188 | A fetch of the next queued address, even one that fails, is the next fetch in search order. |
| NetworkBuilder.SameBatches | backend/main.py:181-188 | Two runs that asked the same service for the same first k addresses got the same first k batches. |
| NetworkBuilder.SearchOrderUnique | backend/main.py:173-188 | Two runs in search order against the same service fetch the same addresses in the same order as far as both reach, so the failing address is the first in search order whose fetch fails. |
| BlockCypher.GetTransactions | backend/app/api/blockcypher.py:13-53 | A failed request gives its error. Otherwise the result is the extraction over the `txs` list (empty when missing). |
| BlockCypher.ExtractedMeaning | backend/app/api/blockcypher.py:28-51 | Every record is a Bitcoin record inside the time window, with the address as sender or recipient. |
| BlockCypher.UnselectedIgnored | backend/app/api/blockcypher.py:28-43 | A transaction outside the window or not listing the address contributes nothing wherever it stands. |
| BlockCypher.ExtractedAppend | backend/app/api/blockcypher.py:22-51 | Extraction over a concatenated list is the concatenation of the extractions. |
| BlockCypher.ExtractedSnoc | backend/app/api/blockcypher.py:46-51 | A selected transaction appends its received records, then its sent records. |
| BlockCypher.ProcessReceived | backend/app/api/blockcypher.py:79-103 | Appends exactly the received records to the list. |
| BlockCypher.ProcessSent | backend/app/api/blockcypher.py:112-137 | Appends exactly the sent records to the list. |
| BlockCypher.OutputsWhereMeaning | backend/app/api/blockcypher.py:79-81 | The receiving outputs are exactly those listing the address. The external outputs are exactly those that do not (119). |
| BlockCypher.SpendingInputsMeaning | backend/app/api/blockcypher.py:112-116 | Sent records are considered exactly when some input lists the address. |
| BlockCypher.SenderCandidatesHead | backend/app/api/blockcypher.py:86-92 | The head of `from_addresses`, or "Unknown" when it is empty, is the first other sender. |
| BlockCypher.FirstSenderMeaning | backend/app/api/blockcypher.py:86-92 | The sender is the first address of the first input whose first address is not the searched one, or "Unknown". |
| BlockCypher.FirstSenderIsOther | backend/app/api/blockcypher.py:89 | The chosen sender is never the searched address, unless it is "Unknown". |
| BlockCypher.ReceivedFromMeaning | backend/app/api/blockcypher.py:93-103 | One record per receiving output, in order: from the sender, to the address, value in bitcoin. |
| BlockCypher.AddressedMeaning | backend/app/api/blockcypher.py:122-125 | The outputs kept for sending are exactly those with a non-empty address list. |
| BlockCypher.SentToOrder | backend/app/api/blockcypher.py:122-137 | Exactly one record per external output with a non-empty address list, in order: the k-th goes from the address to that output's first address, with its value in bitcoin. |
| BlockCypher.SentToMeaning | backend/app/api/blockcypher.py:122-137 | Outputs without addresses are skipped. Each record goes to the first address of its output, with the output's value in bitcoin. Every output with addresses yields its record. |
| BlockCypher.SentRecordsMeaning | backend/app/api/blockcypher.py:112-137 | Sent records exist only when the address spends. Each goes from the address to another address, the first one listed by an external output. When the address spends, every external output with addresses yields its record. |
| Etherscan.GetTransactions | backend/app/api/etherscan.py:15-73 | A missing or empty API key gives 400. A failed request gives its error. A status other than "1" gives 400 with the message. Otherwise the kept records of `result`. |
| Etherscan.EthExtractedSound | backend/app/api/etherscan.py:49-70 | Every record is an Ethereum record inside the window, with a block number, involving the address up to letter case. |
| Etherscan.EthExtractedComplete | backend/app/api/etherscan.py:51-61 | Every transaction in the window that involves the address yields its record. |
| Etherscan.EthExtractedAppend | backend/app/api/etherscan.py:49-70 | Extraction distributes over concatenation. |
| Etherscan.EthExtractedIgnoresCase | backend/app/api/etherscan.py:58-59 | Searching with the lower-cased address gives the same records. |
| TxCache.FirstWithKeyMeaning | backend/app/blockchain/base.py:61-70 | The duplicate query finds a row exactly when some row has the key. The row it finds has the key. |
| TxCache.InsertedAreNew | backend/app/blockchain/base.py:59-87 | The saved records come from the input, were not stored before, and no two share a key. |
| TxCache.InsertedComplete | backend/app/blockchain/base.py:59-87 | Every input record is either already stored or saved by this call. |
| TxCache.TransactionStore.SaveTransactions | backend/app/blockchain/base.py:48-92 | The table gains exactly the rows of the new records, with fresh increasing ids. It commits once if anything was added. Unique keys and increasing ids are preserved. |
| TxCache.CachedRowsMeaning | backend/app/blockchain/base.py:34-46 | The lookup returns exactly the rows of this chain with the address as sender or recipient, inside the window. |
| TxCache.GetCachedTransactions | backend/app/blockchain/base.py:26-46 | Without a session the lookup is empty. |
| TxCache.FormatRowsFrom | backend/app/blockchain/base.py:94-109 | Converting freshly saved rows back gives the records that were saved. |
| BitcoinService.GetTransactions | backend/app/blockchain/bitcoin.py:21-67 | A cache hit answers from the cache, without a request and without changing the table. Otherwise the client is asked, and its error is passed on. With a session only the newly stored records are returned: the table gains exactly their rows, the next id advances by their number, and one commit happens exactly when there are any. Without a session, all the client's records. |
| JsValues.LessOrEqualOrders | frontend/src/pages/TransactionExploler.js:58-61 | JavaScript `<=` orders the numbers other than NaN and is false with NaN. |
| JsValues.ToStringOfString | frontend/src/pages/NetworkVisualization.js:239 | `String` leaves strings unchanged and is idempotent. |
| GraphView.LinkValueRule | frontend/src/pages/NetworkVisualization.js:250 | A number other than NaN is kept, negative ones included. NaN and non-numbers become 0. |
| GraphView.NormalizePreserves | frontend/src/pages/NetworkVisualization.js:237-251 | Normalising keeps the count and order of nodes and links and each field, and stringifies ids, sources and targets. No value is NaN afterwards. |
| GraphView.NormalizeIdempotent | frontend/src/pages/NetworkVisualization.js:146-157 | Normalising already normalised data changes nothing. |
| GraphView.FindSourceMeaning | frontend/src/pages/NetworkVisualization.js:280-284 | The source lookup finds nothing exactly when no node has type "source". Otherwise it finds the first such node. |
| GraphView.SearchWithoutAddress | frontend/src/pages/NetworkVisualization.js:199-203 | An empty address only sets the address-required error, whatever the server would answer. |
| GraphView.SearchFailureShowsNothing | frontend/src/pages/NetworkVisualization.js:211-234 | A failed request or unusable data clears the graph and shows the matching error. Focus and the transaction panel are untouched. |
| GraphView.SearchShowsNetwork | frontend/src/pages/NetworkVisualization.js:251-298 | Usable data is shown and kept as the original network. A failing transactions request only adds its error. Otherwise the address's transactions are shown, focused on the source node if there is one. |
| GraphView.ClickOnFocusedResets | frontend/src/pages/NetworkVisualization.js:104-107 | Clicking the focused node again resets the focus. |
| GraphView.FocusResetMeaning | frontend/src/pages/NetworkVisualization.js:184-196 | Resetting clears the focus and the transaction panel, and restores the original network if there is one. |
| GraphView.ClickOnOtherNode | frontend/src/pages/NetworkVisualization.js:111-181 | Another node becomes focused and the page goes back to 0. A failure shows its error and keeps the graph. Success shows the node's transactions and its normalised network when the answer has both lists. |
| GraphView.ModeSelectedMeaning | frontend/src/pages/NetworkVisualization.js:351-365 | A null mode changes nothing. Otherwise the mode is set and the original network is shown again. |
| GraphView.InitialConsistent | frontend/src/pages/NetworkVisualization.js:37-49 | The initial state satisfies the page invariant: any graph shown has no NaN values. |
| GraphView.SearchKeepsConsistent | frontend/src/pages/NetworkVisualization.js:199-298 | A search keeps the invariant. |
| GraphView.ClickKeepsConsistent | frontend/src/pages/NetworkVisualization.js:95-196 | Clicks, resets and mode changes keep the invariant. |
| GraphView.NetworkPage.constructor | frontend/src/pages/NetworkVisualization.js:37-49 | The page starts in the initial state. |
| GraphView.NetworkPage.Search | frontend/src/pages/NetworkVisualization.js:199-298 | `handleSearch` moves the page to the searched state. |
| GraphView.NetworkPage.ResetFocus | frontend/src/pages/NetworkVisualization.js:184-196 | `handleResetFocus` moves the page to the reset state. |
| GraphView.NetworkPage.NodeClick | frontend/src/pages/NetworkVisualization.js:95-181 | `handleNodeClick` moves the page to the clicked state. |
| GraphView.NetworkPage.SelectMode | frontend/src/pages/NetworkVisualization.js:351-365 | The mode toggle moves the page to the mode-selected state. |
| GraphStyle.NodeLook | frontend/src/components/NetworkGraph.js:15-22 | Source nodes are pink and the rest light blue. The radius is 8 for the source and 5 otherwise (117). |
| GraphStyle.ShareMeaning | frontend/src/components/NetworkGraph.js:27-32 | The value divided by 10 and clamped to [0, 1]. It is 0 up to 0 and 1 from 10, and NaN only for NaN. |
| GraphStyle.ShareMonotone | frontend/src/components/NetworkGraph.js:46-49 | A larger value never gets a smaller share. |
| GraphStyle.LinkWidthMeaning | frontend/src/components/NetworkGraph.js:39-51 | The width lies in [1, 5]: 1 up to value 0, 5 from value 10, never decreasing. |
| GraphStyle.LinkAlphaMeaning | frontend/src/components/NetworkGraph.js:35 | The opacity lies in [0.2, 1]. The particle width lies in [0.6, 3] (103). |
| GraphStyle.DrawnLinksInRange | frontend/src/components/NetworkGraph.js:100-103 | Every link of a normalised graph is drawn with finite width and opacity in range. |
| GraphStyle.NodeLabelMeaning | frontend/src/components/NetworkGraph.js:126-132 | A label appears only from scale 1. It is the first ten characters followed by "...". |
| Explorer.SelectMeaning | frontend/src/pages/TransactionExploler.js:83-84 | A filter keeps exactly the matching transactions, in order. |
| Explorer.SelectAppend | frontend/src/pages/TransactionExploler.js:56-62 | Filtering distributes over concatenation. |
| Explorer.NothingMeets | frontend/src/pages/TransactionExploler.js:56-62 | When nothing matches, the filter is empty. |
| Explorer.AmountFilteredMeaning | frontend/src/pages/TransactionExploler.js:56-62 | Keeps exactly the transactions within the given bounds. With no bounds it keeps everything. A NaN bound keeps nothing. |
| Explorer.AmountFilteredAppend | frontend/src/pages/TransactionExploler.js:56-62 | The amount filter distributes over concatenation. |
| Explorer.StatsMeaning | frontend/src/pages/TransactionExploler.js:76-106 | No statistics for an empty list. Otherwise the counts, the sums of the sent and received lists, the balance, unique-address bounds, and the first and last instants, which are the attained minimum and maximum. |
| Explorer.DistinctAtMostLength | frontend/src/pages/TransactionExploler.js:91-92 | Unique counts never exceed the list length. |
| Explorer.ExtremesMeaning | frontend/src/pages/TransactionExploler.js:103-104 | The first and last instants bound every transaction and are attained. |
| Explorer.Classified | frontend/src/pages/TransactionExploler.js:83-84 | A transaction counts as sent exactly when its sender equals the address ignoring case, and as received likewise. |
| Explorer.ExplorerPage.constructor | frontend/src/pages/TransactionExploler.js:28-33 | No transactions, no statistics, not loading, no error. |
| Explorer.ExplorerPage.Search | frontend/src/pages/TransactionExploler.js:38-73 | An empty address only sets the error. A failure shows the server's detail or the generic message. Success shows the amount-filtered list with its statistics. Loading ends in both cases. |
| TransactionList.PageRowsMeaning | frontend/src/components/TransactionList.js:59-60 | A page is the run of rows from `page * rowsPerPage`, as long as the page size or what remains. |
| TransactionList.EveryRowOnItsPage | frontend/src/components/TransactionList.js:59-60 | With a positive page size, row k appears at position k mod size of page k div size. |
| TransactionList.RenderMeaning | frontend/src/components/TransactionList.js:38-170 | An empty list renders nothing. Otherwise the page's rows are shown in order with the count of the whole list, and addresses are highlighted by exact equality. |
| TransactionList.HighlightIsCaseSensitive | frontend/src/components/TransactionList.js:99-103 | An address differing only in letter case is not highlighted. |
| TransactionList.Pagination.constructor | frontend/src/pages/TransactionExploler.js:31-32 | Page 0 with 10 rows. |
| TransactionList.Pagination.ChangePage | frontend/src/components/TransactionList.js:29-31 | Sets the page and keeps the size. |
| TransactionList.Pagination.ChangeRowsPerPage | frontend/src/components/TransactionList.js:33-36 | Sets the size and goes back to page 0. |

## Left out

- HTTP requests, the FastAPI routing and dependency injection, and
  `services/api.js`. Each answer the code would receive is a parameter
  (`Result` of the decoded body or an error).
- Date parsing: ISO strings, BlockCypher's `received`, and
  `datetime.fromtimestamp`. All instants are integers, and the window
  bounds are `Option<int>`. `BuildNetwork` does not model the 400 for an
  unparseable `start_date` or `end_date`.
- Decimal string parsing: Etherscan's `value`, `timeStamp` and
  `blockNumber`, and `parseFloat`/`parseInt` in the frontend. These arrive
  already parsed, or absent.
- Floating point. Values are exact reals, so rounding in `/ 1e8`,
  `/ 1e18` and the statistics sums is not modelled.
- `backend/app/blockchain/ethereum.py` is not part of this model. The
  Ethereum service is the fetch parameter of `BuildNetwork`.
- Concurrency and asynchronous interleaving. Each handler runs from start
  to end with the answers it receives. React's batched state updates are
  applied at once.
- Rendering, the force-graph engine, camera moves, the resize listener
  and `toFixed`. Colours are modelled as strings and opacity as a number;
  the `rgba(...)` text is not built.
- GraphView.NetworkPage.SelectMode: the 50 ms `setTimeout` is collapsed.
  The network is set to the original data at once, and the intermediate
  `null` is skipped.
- GraphView.NetworkPage.NodeClick: `api.js` does not export
  `getTransactionsBetweenAddresses` or `getNetworkBetweenAddresses`, so in
  the shipped code the first request always fails, and the graph
  component never calls `onNodeClick`. The handler is modelled on its own
  text, with both answers as parameters.
- Error objects: only their message strings are modelled
  (`err.message || String(err)`). A missing response body is not modelled.
- JavaScript `String(n)` for non-integral numbers and for integers at or
  above 10^21 (exponent notation). Ids are strings, integers, booleans,
  null or undefined.
- `transactionRowsPerPage` and the transaction panel's own table on the
  network page.
- The argument limits of `Math.min(...)`/`Math.max(...)` spread, and
  invalid dates in the statistics.
- TxCache.TransactionStore.SaveTransactions: the duplicate query sees rows
  added earlier in the same batch (the session's autoflush), so a repeated
  record within one batch is saved once. The database's row order is
  taken to be insertion order.
- BlockCypher: a JSON `null` for `txs`, `inputs`, `outputs` or `addresses`
  is treated like an absent field (an empty list). In the source,
  `.get(key, [])` returns `None` for a present null, and iterating it or
  testing `address in` it raises a `TypeError`. The model returns records
  where the source fails.
- BlockCypher.OutputValue: a present `value` of JSON `null` is read as 0
  satoshi, like an absent one. In the source (blockcypher.py lines 93-100
  and 127-134) `output.get("value", 0)` returns `None` and `None / 100000000`
  raises a `TypeError`, so the model returns a record where the source
  fails.
- Etherscan.GetTransactions: a `result` of JSON `null` with status "1" is
  read as an empty list. In the source (etherscan.py line 49) iterating
  `None` raises a `TypeError`, so the model answers `[]` where the source
  fails.
- Letter case: `Text.Lower` folds only the ASCII letters A-Z. Python's
  `str.lower` (Etherscan address comparison) and JavaScript's
  `toLowerCase` (explorer statistics) fold all of Unicode; for example the
  Kelvin sign U+212A lowers to "k". "Ignoring case" in the contracts means
  ASCII case.
- NetworkBuilder.BuildNetwork: the 422 for a depth outside 1..3 carries a
  placeholder detail. FastAPI's real body is a list of validation-error
  objects. The default depth of 1 when the query parameter is absent is
  not modelled; the depth is always given.
- Missing `hash`, `from` or `to` fields in explorer answers are not
  modelled. They are taken to be present strings.
- NetworkBuilder.BuildNetwork: the service is given by its chain, and the
  chain check at lines 137-140 comes before `ServiceFor`, so the
  "Unsupported blockchain" error of `ServiceFor` cannot occur there.
