/** The `/network/{blockchain}/{address}` endpoint: the chain dispatch and the
    breadth-first construction of the transaction network around one address.

    The per-address transaction fetch (the selected service's
    `get_transactions` over the request's date window and session) is the
    parameter `fetch`; an exception it raises is its `Err` result. */
module NetworkBuilder {
  import opened Wrappers
  import opened Records

  /** The two blockchain services the factory can return. */
  datatype Chain = Bitcoin | Ethereum

  datatype NetworkNode = NetworkNode(id: string, labelText: string, kind: string)
  datatype NetworkLink = NetworkLink(id: string, source: string, target: string, value: real, timestamp: int)
  datatype TransactionNetwork = TransactionNetwork(nodes: seq<NetworkNode>, links: seq<NetworkLink>)

  const SupportedChainsDetail := "Supported blockchains are 'bitcoin' and 'ethereum'"
  /** Stands for the body of FastAPI's 422 rejection of a `depth` outside
      `Query(1, ge=1, le=3)`, which is a list of validation errors, not this text. */
  const DepthDetail := "depth must be between 1 and 3"

  predicate SupportedChain(blockchain: string) {
    blockchain == "bitcoin" || blockchain == "ethereum"
  }

  /** `get_blockchain_service`: the service for a chain name, or a 400 error. */
  function ServiceFor(blockchain: string): (r: Result<Chain, HttpError>)
    ensures r.Ok? <==> SupportedChain(blockchain)
    ensures r == Ok(Bitcoin) <==> blockchain == "bitcoin"
    ensures r == Ok(Ethereum) <==> blockchain == "ethereum"
    ensures r.Err? ==> r.error == HttpError(400, "Unsupported blockchain: " + blockchain)
  {
    if blockchain == "bitcoin" then Ok(Bitcoin)
    else if blockchain == "ethereum" then Ok(Ethereum)
    else Err(HttpError(400, "Unsupported blockchain: " + blockchain))
  }

  // ---------------------------------------------------------------------------
  // Specification of the expansion

  predicate NoDuplicates(s: seq<string>) {
    forall i, j :: 0 <= i < j < |s| ==> s[i] != s[j]
  }

  /** A transaction survives the `min_amount` filter. */
  predicate KeepTx(tx: Tx, minAmount: Option<real>) {
    minAmount.None? || !(tx.value < minAmount.value)
  }

  /** The transactions that pass the `min_amount` filter, in order. */
  function Kept(txs: seq<Tx>, minAmount: Option<real>): seq<Tx>
    decreases |txs|
  {
    if txs == [] then []
    else Kept(txs[..|txs| - 1], minAmount)
         + (if KeepTx(txs[|txs| - 1], minAmount) then [txs[|txs| - 1]] else [])
  }

  /** The link the loop appends for one kept transaction. */
  function LinkFor(tx: Tx): NetworkLink {
    NetworkLink(tx.fromAddress + "_" + tx.toAddress + "_" + tx.txid,
                tx.fromAddress, tx.toAddress, tx.value, tx.timestamp)
  }

  function LinksFor(txs: seq<Tx>): seq<NetworkLink>
    decreases |txs|
  {
    if txs == [] then [] else LinksFor(txs[..|txs| - 1]) + [LinkFor(txs[|txs| - 1])]
  }

  /** The addresses the loop meets, in order: sender then receiver of each transaction. */
  function Endpoints(txs: seq<Tx>): seq<string>
    decreases |txs|
  {
    if txs == [] then []
    else Endpoints(txs[..|txs| - 1]) + [txs[|txs| - 1].fromAddress, txs[|txs| - 1].toAddress]
  }

  /** All fetched transactions, in fetch order. */
  function Flatten(batches: seq<seq<Tx>>): seq<Tx>
    decreases |batches|
  {
    if batches == [] then [] else Flatten(batches[..|batches| - 1]) + batches[|batches| - 1]
  }

  /** `ids` extended by every element of `s` not met before, in order of first
      appearance: what appending guarded by an explored set produces. */
  function Discover(ids: seq<string>, s: seq<string>): seq<string>
    decreases |s|
  {
    if s == [] then ids
    else
      var d := Discover(ids, s[..|s| - 1]);
      if s[|s| - 1] in d then d else d + [s[|s| - 1]]
  }

  function Ids(nodes: seq<NetworkNode>): (r: seq<string>)
    ensures |r| == |nodes| && forall i :: 0 <= i < |nodes| ==> r[i] == nodes[i].id
  {
    seq(|nodes|, i requires 0 <= i < |nodes| => nodes[i].id)
  }

  /** `n` copies of `v`. */
  function Repeat(v: nat, n: nat): (r: seq<nat>)
    ensures |r| == n && forall i :: 0 <= i < n ==> r[i] == v
  {
    if n == 0 then [] else Repeat(v, n - 1) + [v]
  }

  function AddressNode(id: string): NetworkNode {
    NetworkNode(id, id, "address")
  }

  // ---------------------------------------------------------------------------
  // Properties of the specification functions

  lemma {:induction false} KeptAppend(a: seq<Tx>, b: seq<Tx>, minAmount: Option<real>)
    ensures Kept(a + b, minAmount) == Kept(a, minAmount) + Kept(b, minAmount)
    decreases |b|
  {
    if b == [] {
      assert a + b == a;
    } else {
      var b0 := b[..|b| - 1];
      KeptAppend(a, b0, minAmount);
      assert (a + b)[..|a + b| - 1] == a + b0;
      assert (a + b)[|a + b| - 1] == b[|b| - 1];
    }
  }

  /** The filter keeps exactly the transactions at or above `min_amount`, and
      keeps everything when `min_amount` is absent. */
  lemma {:induction false} KeptMeaning(txs: seq<Tx>, minAmount: Option<real>)
    ensures forall tx :: tx in Kept(txs, minAmount) <==> tx in txs && KeepTx(tx, minAmount)
    ensures minAmount.None? ==> Kept(txs, minAmount) == txs
    ensures |Kept(txs, minAmount)| <= |txs|
    decreases |txs|
  {
    if txs != [] {
      var t0 := txs[..|txs| - 1];
      KeptMeaning(t0, minAmount);
      assert txs == t0 + [txs[|txs| - 1]];
    }
  }

  lemma {:induction false} EndpointsAppend(a: seq<Tx>, b: seq<Tx>)
    ensures Endpoints(a + b) == Endpoints(a) + Endpoints(b)
    decreases |b|
  {
    if b == [] {
      assert a + b == a;
    } else {
      var b0 := b[..|b| - 1];
      EndpointsAppend(a, b0);
      assert (a + b)[..|a + b| - 1] == a + b0;
      assert (a + b)[|a + b| - 1] == b[|b| - 1];
    }
  }

  /** Every endpoint is the sender or the receiver of one of the transactions,
      and both ends of every transaction are endpoints. */
  lemma {:induction false} EndpointsMeaning(txs: seq<Tx>)
    ensures forall a :: a in Endpoints(txs) <==> exists tx :: tx in txs && (a == tx.fromAddress || a == tx.toAddress)
    decreases |txs|
  {
    if txs != [] {
      var t0 := txs[..|txs| - 1];
      EndpointsMeaning(t0);
      assert txs == t0 + [txs[|txs| - 1]];
    }
  }

  lemma {:induction false} FlattenAppend(batches: seq<seq<Tx>>, txs: seq<Tx>)
    ensures Flatten(batches + [txs]) == Flatten(batches) + txs
  {
    assert (batches + [txs])[..|batches|] == batches;
  }

  lemma {:induction false} LinksForAppend(a: seq<Tx>, b: seq<Tx>)
    ensures LinksFor(a + b) == LinksFor(a) + LinksFor(b)
    decreases |b|
  {
    if b == [] {
      assert a + b == a;
    } else {
      var b0 := b[..|b| - 1];
      LinksForAppend(a, b0);
      assert (a + b)[..|a + b| - 1] == a + b0;
      assert (a + b)[|a + b| - 1] == b[|b| - 1];
    }
  }

  /** One link per transaction, in order, each from its sender to its receiver. */
  lemma {:induction false} LinksForMeaning(txs: seq<Tx>)
    ensures |LinksFor(txs)| == |txs|
    ensures forall i :: 0 <= i < |txs| ==> LinksFor(txs)[i] == LinkFor(txs[i])
    decreases |txs|
  {
    if txs != [] {
      LinksForMeaning(txs[..|txs| - 1]);
    }
  }

  lemma {:induction false} DiscoverAppend(ids: seq<string>, a: seq<string>, b: seq<string>)
    ensures Discover(ids, a + b) == Discover(Discover(ids, a), b)
    decreases |b|
  {
    if b == [] {
      assert a + b == a;
    } else {
      var b0 := b[..|b| - 1];
      DiscoverAppend(ids, a, b0);
      assert (a + b)[..|a + b| - 1] == a + b0;
      assert (a + b)[|a + b| - 1] == b[|b| - 1];
    }
  }

  /** Discovery keeps what was known as a prefix and adds only elements of `s`
      that were not known. */
  lemma {:induction false} DiscoverExtends(ids: seq<string>, s: seq<string>)
    ensures var d := Discover(ids, s);
      && |ids| <= |d| && d[..|ids|] == ids
      && (forall i :: |ids| <= i < |d| ==> d[i] in s && d[i] !in ids)
    decreases |s|
  {
    if s != [] {
      var s0 := s[..|s| - 1];
      DiscoverExtends(ids, s0);
      assert s == s0 + [s[|s| - 1]];
    }
  }

  /** Discovery misses no element of `s` and never adds an element twice. */
  lemma {:induction false} DiscoverMeaning(ids: seq<string>, s: seq<string>)
    ensures var d := Discover(ids, s);
      && (forall x :: x in d <==> x in ids || x in s)
      && (NoDuplicates(ids) ==> NoDuplicates(d))
    decreases |s|
  {
    if s != [] {
      var s0 := s[..|s| - 1];
      DiscoverMeaning(ids, s0);
      assert s == s0 + [s[|s| - 1]];
    }
  }

  // ---------------------------------------------------------------------------
  // The expansion

  lemma DiscoverStep(ids: seq<string>, s: seq<string>, x: string)
    ensures Discover(ids, s + [x]) ==
              var d := Discover(ids, s); if x in d then d else d + [x]
  {
    assert (s + [x])[..|s|] == s;
  }

  lemma KeptStep(txs: seq<Tx>, j: nat, minAmount: Option<real>)
    requires j < |txs|
    ensures Kept(txs[..j + 1], minAmount) ==
              Kept(txs[..j], minAmount) + if KeepTx(txs[j], minAmount) then [txs[j]] else []
  {
    assert txs[..j + 1][..j] == txs[..j];
  }

  lemma LinksForSnoc(txs: seq<Tx>, tx: Tx)
    ensures LinksFor(txs + [tx]) == LinksFor(txs) + [LinkFor(tx)]
  {
    assert (txs + [tx])[..|txs|] == txs;
  }

  lemma EndpointsStep(txs: seq<Tx>, tx: Tx)
    ensures Endpoints(txs + [tx]) == Endpoints(txs) + [tx.fromAddress] + [tx.toAddress]
  {
    assert (txs + [tx])[..|txs|] == txs;
  }

  /** The state of one fetched address's loop relative to the state `nodes`
      and `queue` it started from: nodes were only appended, each as an
      "address" node; `explored` holds exactly the node ids; and, when
      `enqueue`, the queue for the next level got exactly the new ids. */
  ghost predicate Grown(nodes: seq<NetworkNode>, queue: seq<string>, enqueue: bool,
                        nodes': seq<NetworkNode>, explored': set<string>, queue': seq<string>)
  {
    && |nodes| <= |nodes'| && nodes'[..|nodes|] == nodes
    && (forall i :: |nodes| <= i < |nodes'| ==> nodes'[i] == AddressNode(nodes'[i].id))
    && (forall a :: a in explored' <==> a in Ids(nodes'))
    && queue' == queue + (if enqueue then Ids(nodes')[|nodes|..] else [])
  }

  /** One guarded append: `if a not in explored_addresses: append, add, queue`.
      Visiting the endpoints `s` one after another discovers `Discover(_, s)`. */
  method Visit(ghost nodes: seq<NetworkNode>, ghost queue: seq<string>, enqueue: bool, ghost s: seq<string>,
               cur: seq<NetworkNode>, explored: set<string>, next: seq<string>, a: string)
    returns (cur': seq<NetworkNode>, explored': set<string>, next': seq<string>)
    requires Grown(nodes, queue, enqueue, cur, explored, next)
    requires Ids(cur) == Discover(Ids(nodes), s)
    ensures Grown(nodes, queue, enqueue, cur', explored', next')
    ensures Ids(cur') == Discover(Ids(nodes), s + [a])
  {
    DiscoverStep(Ids(nodes), s, a);
    cur', explored', next' := cur, explored, next;
    if a !in explored {
      cur' := cur + [AddressNode(a)];
      explored' := explored + {a};
      if enqueue {
        next' := next + [a];
      }
      GrownSnoc(nodes, queue, enqueue, cur, explored, next, a);
    }
  }

  /** Appending a fresh address node keeps `Grown`. */
  lemma GrownSnoc(nodes: seq<NetworkNode>, queue: seq<string>, enqueue: bool,
                  cur: seq<NetworkNode>, explored: set<string>, next: seq<string>, a: string)
    requires Grown(nodes, queue, enqueue, cur, explored, next)
    requires a !in explored
    ensures Ids(cur + [AddressNode(a)]) == Ids(cur) + [a]
    ensures Grown(nodes, queue, enqueue, cur + [AddressNode(a)], explored + {a},
                  next + if enqueue then [a] else [])
  {
    var cur' := cur + [AddressNode(a)];
    assert Ids(cur') == Ids(cur) + [a];
    assert Ids(cur')[|nodes|..] == Ids(cur)[|nodes|..] + [a];
    assert cur'[..|nodes|] == cur[..|nodes|];
  }

  /** The loop over one address's transactions has kept the transactions
      `kept` so far: the nodes are the initial ones followed by the endpoints of
      `kept` not seen before, and one link was appended per kept transaction. */
  ghost predicate Progress(nodes: seq<NetworkNode>, links: seq<NetworkLink>, queue: seq<string>, enqueue: bool,
                           kept: seq<Tx>, cur: seq<NetworkNode>, links': seq<NetworkLink>,
                           explored': set<string>, next: seq<string>)
  {
    && Ids(cur) == Discover(Ids(nodes), Endpoints(kept))
    && Grown(nodes, queue, enqueue, cur, explored', next)
    && links' == links + LinksFor(kept)
  }

  /** The body of `for tx in transactions`: skip a transaction below
      `min_amount`; otherwise visit its sender, then its receiver, and append
      its link. */
  method ExploreTx(ghost nodes: seq<NetworkNode>, ghost links: seq<NetworkLink>, ghost queue: seq<string>,
                   enqueue: bool, cur: seq<NetworkNode>, curLinks: seq<NetworkLink>, explored: set<string>,
                   next: seq<string>, ghost kept: seq<Tx>, tx: Tx, minAmount: Option<real>)
    returns (cur': seq<NetworkNode>, curLinks': seq<NetworkLink>, explored': set<string>, next': seq<string>)
    requires Progress(nodes, links, queue, enqueue, kept, cur, curLinks, explored, next)
    ensures Progress(nodes, links, queue, enqueue, kept + (if KeepTx(tx, minAmount) then [tx] else []),
                     cur', curLinks', explored', next')
  {
    if minAmount.Some? && tx.value < minAmount.value {
      assert kept + [] == kept;
      return cur, curLinks, explored, next;
    }
    EndpointsStep(kept, tx);
    LinksForSnoc(kept, tx);
    cur', explored', next' := Visit(nodes, queue, enqueue, Endpoints(kept), cur, explored, next, tx.fromAddress);
    cur', explored', next' :=
      Visit(nodes, queue, enqueue, Endpoints(kept) + [tx.fromAddress], cur', explored', next', tx.toAddress);
    curLinks' := curLinks + [LinkFor(tx)];
  }

  /** `for tx in transactions` for one fetched address: filter by `min_amount`,
      append a node the first time each endpoint is seen (queueing it for the
      next level when `enqueue`), and append one link per kept transaction. */
  method ExploreAddress(nodes: seq<NetworkNode>, links: seq<NetworkLink>, explored: set<string>,
                        queue: seq<string>, txs: seq<Tx>, minAmount: Option<real>, enqueue: bool)
    returns (nodes': seq<NetworkNode>, links': seq<NetworkLink>, explored': set<string>, queue': seq<string>)
    requires forall a :: a in explored <==> a in Ids(nodes)
    ensures Ids(nodes') == Discover(Ids(nodes), Endpoints(Kept(txs, minAmount)))
    ensures Grown(nodes, queue, enqueue, nodes', explored', queue')
    ensures links' == links + LinksFor(Kept(txs, minAmount))
  {
    nodes', links', explored', queue' := nodes, links, explored, queue;
    assert Ids(nodes')[|nodes|..] == [];
    assert txs[..0] == [];
    var j := 0;
    while j < |txs|
      invariant 0 <= j <= |txs|
      invariant Progress(nodes, links, queue, enqueue, Kept(txs[..j], minAmount), nodes', links', explored', queue')
    {
      KeptStep(txs, j, minAmount);
      nodes', links', explored', queue' :=
        ExploreTx(nodes, links, queue, enqueue, nodes', links', explored', queue',
                  Kept(txs[..j], minAmount), txs[j], minAmount);
      j := j + 1;
    }
    assert txs[..j] == txs;
  }

  /** The node ids after exploring the fetched `batches` one after another. */
  ghost function Discovered(address: string, minAmount: Option<real>, batches: seq<seq<Tx>>): seq<string>
    decreases |batches|
  {
    if batches == [] then [address]
    else Discover(Discovered(address, minAmount, batches[..|batches| - 1]),
                  Endpoints(Kept(batches[|batches| - 1], minAmount)))
  }

  /** The links after exploring the fetched `batches` one after another. */
  ghost function Linked(minAmount: Option<real>, batches: seq<seq<Tx>>): seq<NetworkLink>
    decreases |batches|
  {
    if batches == [] then []
    else Linked(minAmount, batches[..|batches| - 1]) + LinksFor(Kept(batches[|batches| - 1], minAmount))
  }

  /** Exploring the batches one by one is the same as exploring all their
      transactions at once, in order. */
  lemma {:induction false} DiscoveredAll(address: string, minAmount: Option<real>, batches: seq<seq<Tx>>)
    ensures Discovered(address, minAmount, batches)
            == Discover([address], Endpoints(Kept(Flatten(batches), minAmount)))
    ensures Linked(minAmount, batches) == LinksFor(Kept(Flatten(batches), minAmount))
    decreases |batches|
  {
    if batches != [] {
      var front, txs := batches[..|batches| - 1], batches[|batches| - 1];
      DiscoveredAll(address, minAmount, front);
      var all := Kept(Flatten(front), minAmount);
      KeptAppend(Flatten(front), txs, minAmount);
      EndpointsAppend(all, Kept(txs, minAmount));
      DiscoverAppend([address], Endpoints(all), Endpoints(Kept(txs, minAmount)));
      FlattenAppend(front, txs);
      LinksForAppend(all, Kept(txs, minAmount));
      assert batches == front + [txs];
    }
  }

  /** Every endpoint of a kept transaction of a fetched batch is a node. */
  lemma {:induction false} DiscoveredCovers(address: string, minAmount: Option<real>, batches: seq<seq<Tx>>)
    ensures forall j, x :: 0 <= j < |batches| && x in Endpoints(Kept(batches[j], minAmount)) ==>
              x in Discovered(address, minAmount, batches)
    decreases |batches|
  {
    if batches != [] {
      var front, txs := batches[..|batches| - 1], batches[|batches| - 1];
      DiscoveredCovers(address, minAmount, front);
      DiscoverMeaning(Discovered(address, minAmount, front), Endpoints(Kept(txs, minAmount)));
      forall j, x | 0 <= j < |batches| && x in Endpoints(Kept(batches[j], minAmount))
        ensures x in Discovered(address, minAmount, batches)
      {
        if j < |front| {
          assert batches[j] == front[j];
        }
      }
    }
  }

  /** The network built so far is the one the fetched `batches` determine. */
  ghost predicate Built(address: string, minAmount: Option<real>, batches: seq<seq<Tx>>,
                        nodes: seq<NetworkNode>, links: seq<NetworkLink>, explored: set<string>)
  {
    && Ids(nodes) == Discovered(address, minAmount, batches)
    && links == Linked(minAmount, batches)
    && |nodes| >= 1 && nodes[0] == NetworkNode(address, address, "source")
    && (forall i :: 1 <= i < |nodes| ==> nodes[i] == AddressNode(nodes[i].id))
    && (forall a :: a in explored <==> a in Ids(nodes))
  }

  /** `batches[i]` is what fetching `fetched[i]` returned. */
  ghost predicate FetchedAll(fetch: (Chain, string) -> Result<seq<Tx>, HttpError>, chain: Chain,
                             fetched: seq<string>, batches: seq<seq<Tx>>)
  {
    |batches| == |fetched| && forall i :: 0 <= i < |fetched| ==> fetch(chain, fetched[i]) == Ok(batches[i])
  }

  /** The node ids known before the `k`-th fetch: those discovered by exploring
      the first `k` batches. */
  ghost function KnownBefore(address: string, minAmount: Option<real>, batches: seq<seq<Tx>>, k: nat): seq<string>
    requires k <= |batches|
  {
    Discovered(address, minAmount, batches[..k])
  }

  /** The addresses were fetched in the order they were discovered: the `k`-th
      fetch asked for the `k`-th node known before it. The last fetch may have
      failed, so `fetched` may be one longer than `batches`. */
  ghost predicate SearchOrder(address: string, minAmount: Option<real>, fetched: seq<string>,
                              batches: seq<seq<Tx>>)
  {
    forall k {:trigger KnownBefore(address, minAmount, batches, k)} :: 0 <= k < |fetched| ==>
      && k <= |batches|
      && k < |KnownBefore(address, minAmount, batches, k)|
      && fetched[k] == KnownBefore(address, minAmount, batches, k)[k]
  }

  /** What was known before a fetch is a prefix of what is known after all of them. */
  lemma {:induction false} DiscoveredPrefix(address: string, minAmount: Option<real>, batches: seq<seq<Tx>>, j: nat)
    requires j <= |batches|
    ensures var known, all := Discovered(address, minAmount, batches[..j]), Discovered(address, minAmount, batches);
      |known| <= |all| && all[..|known|] == known
    decreases |batches|
  {
    if j < |batches| {
      var front := batches[..|batches| - 1];
      DiscoveredPrefix(address, minAmount, front, j);
      assert front[..j] == batches[..j];
      DiscoverExtends(Discovered(address, minAmount, front), Endpoints(Kept(batches[|batches| - 1], minAmount)));
      var known, mid, all := Discovered(address, minAmount, batches[..j]), Discovered(address, minAmount, front),
                             Discovered(address, minAmount, batches);
      assert all[..|known|] == all[..|mid|][..|known|];
    } else {
      assert batches[..j] == batches;
    }
  }

  /** A node list built by exploring `batches`, each of whose nodes was revealed
      by an earlier node's batch, lists its first nodes in search order. */
  lemma FetchOrder(address: string, minAmount: Option<real>, nodes: seq<NetworkNode>, fetched: seq<string>,
                   batches: seq<seq<Tx>>, levels: seq<nat>, origin: seq<nat>)
    requires Ids(nodes) == Discovered(address, minAmount, batches)
    requires |levels| == |nodes| && |origin| == |nodes| && |batches| <= |nodes|
    requires Revealed(minAmount, nodes, batches, levels, origin)
    requires |fetched| <= |batches| + 1 && |fetched| <= |nodes| && fetched == Ids(nodes)[..|fetched|]
    ensures SearchOrder(address, minAmount, fetched, batches)
  {
    var ids := Ids(nodes);
    DiscoveredAll(address, minAmount, batches);
    DiscoverMeaning([address], Endpoints(Kept(Flatten(batches), minAmount)));
    forall k | 0 <= k < |fetched|
      ensures && k <= |batches|
              && k < |KnownBefore(address, minAmount, batches, k)|
              && fetched[k] == KnownBefore(address, minAmount, batches, k)[k]
    {
      var known := KnownBefore(address, minAmount, batches, k);
      DiscoveredPrefix(address, minAmount, batches, k);
      assert known == ids[..|known|];
      if k == 0 {
        assert batches[..0] == [];
      } else {
        var j := origin[k];
        DiscoveredCovers(address, minAmount, batches[..k]);
        assert batches[..k][j] == batches[j];
        assert ids[k] in known;
        var m :| 0 <= m < |known| && known[m] == ids[k];
        assert ids[m] == ids[k];
      }
    }
  }

  /** The `k`-th fetch in search order, read off `SearchOrder`. */
  lemma SearchOrderAt(address: string, minAmount: Option<real>, fetched: seq<string>, batches: seq<seq<Tx>>, k: nat)
    requires SearchOrder(address, minAmount, fetched, batches) && k < |fetched|
    ensures k <= |batches| && k < |KnownBefore(address, minAmount, batches, k)|
    ensures fetched[k] == KnownBefore(address, minAmount, batches, k)[k]
  {
  }

  /** Runs that asked for the same first `k` addresses got the same first `k`
      batches back. */
  lemma SameBatches(fetch: (Chain, string) -> Result<seq<Tx>, HttpError>, chain: Chain,
                    fetched: seq<string>, batches: seq<seq<Tx>>,
                    fetched': seq<string>, batches': seq<seq<Tx>>, k: nat)
    requires forall i :: 0 <= i < |batches| && i < |fetched| ==> fetch(chain, fetched[i]) == Ok(batches[i])
    requires forall i :: 0 <= i < |batches'| && i < |fetched'| ==> fetch(chain, fetched'[i]) == Ok(batches'[i])
    requires k <= |batches| && k <= |fetched| && k <= |batches'| && k <= |fetched'|
    requires fetched[..k] == fetched'[..k]
    ensures batches[..k] == batches'[..k]
  {
    forall i | 0 <= i < k
      ensures batches[i] == batches'[i]
    {
      assert fetched[i] == fetched[..k][i] == fetched'[i];
    }
  }

  /** Fetching in search order leaves no choice: two runs against the same
      service ask for the same addresses, in the same order, as far as both
      reach. So the address whose fetch failed is the first one, in search
      order, whose fetch fails. */
  lemma {:induction false} SearchOrderUnique(fetch: (Chain, string) -> Result<seq<Tx>, HttpError>, chain: Chain,
                                             address: string, minAmount: Option<real>,
                                             fetched: seq<string>, batches: seq<seq<Tx>>,
                                             fetched': seq<string>, batches': seq<seq<Tx>>, k: nat)
    requires forall i :: 0 <= i < |batches| && i < |fetched| ==> fetch(chain, fetched[i]) == Ok(batches[i])
    requires forall i :: 0 <= i < |batches'| && i < |fetched'| ==> fetch(chain, fetched'[i]) == Ok(batches'[i])
    requires SearchOrder(address, minAmount, fetched, batches)
    requires SearchOrder(address, minAmount, fetched', batches')
    requires k < |fetched| && k < |fetched'|
    ensures fetched[..k + 1] == fetched'[..k + 1]
    decreases k
  {
    SearchOrderAt(address, minAmount, fetched, batches, k);
    SearchOrderAt(address, minAmount, fetched', batches', k);
    if k > 0 {
      SearchOrderUnique(fetch, chain, address, minAmount, fetched, batches, fetched', batches', k - 1);
    }
    SameBatches(fetch, chain, fetched, batches, fetched', batches', k);
    assert fetched[..k + 1] == fetched[..k] + [fetched[k]];
    assert fetched'[..k + 1] == fetched'[..k] + [fetched'[k]];
  }

  /** The level structure while level `d` is being expanded: nodes `[0, lo)`
      were first seen below level `d` and are fetched, nodes `[lo, hi)` are the
      queue of level `d` (a prefix of which is fetched), nodes from `hi` on were
      first seen while expanding level `d`. Every non-root node was revealed by
      the transactions of a fetched address one level above it. */
  ghost predicate Leveled(minAmount: Option<real>, nodes: seq<NetworkNode>, fetched: seq<string>,
                          batches: seq<seq<Tx>>, levels: seq<nat>, origin: seq<nat>, lo: nat, hi: nat, d: nat)
  {
    && 1 <= |nodes| && lo <= |fetched| <= hi <= |nodes| && |batches| == |fetched|
    && |levels| == |nodes| && |origin| == |nodes|
    && LevelShape(levels, lo, hi, d)
    && fetched == Ids(nodes)[..|fetched|]
    && Revealed(minAmount, nodes, batches, levels, origin)
  }

  ghost predicate LevelShape(levels: seq<nat>, lo: nat, hi: nat, d: nat) {
    && lo <= hi <= |levels| && |levels| >= 1 && levels[0] == 0
    && (forall i :: 1 <= i < |levels| ==> 1 <= levels[i])
    && (forall i, j :: 0 <= i <= j < lo ==> levels[i] <= levels[j])
    && (forall i :: 0 <= i < lo ==> levels[i] < d)
    && (forall i :: lo <= i < hi ==> levels[i] == d)
    && (forall i :: hi <= i < |levels| ==> levels[i] == d + 1)
  }

  lemma LevelShapeStep(levels: seq<nat>, lo: nat, hi: nat, d: nat, added: nat)
    requires LevelShape(levels, lo, hi, d)
    ensures LevelShape(levels + Repeat(d + 1, added), lo, hi, d)
  {
  }

  /** Every non-root node was revealed by the transactions of a fetched address
      one level above it, and by none fetched before that one. */
  ghost predicate Revealed(minAmount: Option<real>, nodes: seq<NetworkNode>, batches: seq<seq<Tx>>,
                           levels: seq<nat>, origin: seq<nat>)
    requires |levels| == |nodes| && |origin| == |nodes| && |batches| <= |nodes|
  {
    forall i :: 1 <= i < |nodes| ==>
      && origin[i] < |batches| && origin[i] < i
      && levels[i] == levels[origin[i]] + 1
      && nodes[i].id in Endpoints(Kept(batches[origin[i]], minAmount))
      && (forall j :: 0 <= j < origin[i] ==> nodes[i].id !in Endpoints(Kept(batches[j], minAmount)))
  }

  /** Exploring one more fetched address keeps the network equal to its specification. */
  lemma BuiltStep(address: string, minAmount: Option<real>, batches: seq<seq<Tx>>,
                  nodes: seq<NetworkNode>, links: seq<NetworkLink>, explored: set<string>, txs: seq<Tx>,
                  queue: seq<string>, enqueue: bool,
                  nodes': seq<NetworkNode>, links': seq<NetworkLink>, explored': set<string>, queue': seq<string>)
    requires Built(address, minAmount, batches, nodes, links, explored)
    requires Ids(nodes') == Discover(Ids(nodes), Endpoints(Kept(txs, minAmount)))
    requires Grown(nodes, queue, enqueue, nodes', explored', queue')
    requires links' == links + LinksFor(Kept(txs, minAmount))
    ensures Built(address, minAmount, batches + [txs], nodes', links', explored')
  {
    assert (batches + [txs])[..|batches|] == batches;
    forall i | 0 <= i < |nodes|
      ensures nodes'[i] == nodes[i]
    {
      assert nodes'[i] == nodes'[..|nodes|][i];
    }
  }

  /** Exploring the next queued address of level `d` keeps the level structure:
      its new nodes are at level `d + 1` and were revealed by its transactions. */
  lemma LeveledStep(address: string, minAmount: Option<real>, nodes: seq<NetworkNode>, fetched: seq<string>,
                    batches: seq<seq<Tx>>, levels: seq<nat>, origin: seq<nat>, lo: nat, hi: nat, d: nat,
                    txs: seq<Tx>, nodes': seq<NetworkNode>, fetched': seq<string>, batches': seq<seq<Tx>>,
                    levels': seq<nat>, origin': seq<nat>)
    requires Leveled(minAmount, nodes, fetched, batches, levels, origin, lo, hi, d)
    requires Ids(nodes) == Discovered(address, minAmount, batches)
    requires |fetched| < hi
    requires Ids(nodes') == Discover(Ids(nodes), Endpoints(Kept(txs, minAmount)))
    requires fetched' == fetched + [Ids(nodes)[|fetched|]] && batches' == batches + [txs]
    requires |nodes| <= |nodes'|
    requires levels' == levels + Repeat(d + 1, |nodes'| - |nodes|)
    requires origin' == origin + Repeat(|fetched|, |nodes'| - |nodes|)
    ensures Leveled(minAmount, nodes', fetched', batches', levels', origin', lo, hi, d)
  {
    DiscoverExtends(Ids(nodes), Endpoints(Kept(txs, minAmount)));
    var added := |nodes'| - |nodes|;
    assert LevelShape(levels', lo, hi, d) by {
      LevelShapeStep(levels, lo, hi, d, added);
    }
    PrefixStep(Ids(nodes), Ids(nodes'), fetched);
    assert Revealed(minAmount, nodes', batches', levels', origin') by {
      DiscoveredCovers(address, minAmount, batches);
      RevealedStep(minAmount, nodes, batches, levels, origin, txs, nodes', d);
    }
  }

  lemma PrefixStep(ids: seq<string>, ids': seq<string>, fetched: seq<string>)
    requires |fetched| < |ids| <= |ids'| && ids'[..|ids|] == ids && fetched == ids[..|fetched|]
    ensures fetched + [ids[|fetched|]] == ids'[..|fetched| + 1]
  {
    assert ids'[..|fetched| + 1] == ids[..|fetched| + 1];
  }

  lemma RevealedStep(minAmount: Option<real>, nodes: seq<NetworkNode>, batches: seq<seq<Tx>>,
                     levels: seq<nat>, origin: seq<nat>, txs: seq<Tx>, nodes': seq<NetworkNode>, d: nat)
    requires |levels| == |nodes| && |origin| == |nodes| && |batches| < |nodes|
    requires Revealed(minAmount, nodes, batches, levels, origin)
    requires levels[|batches|] == d
    requires |nodes| <= |nodes'| && Ids(nodes')[..|nodes|] == Ids(nodes)
    requires forall j, x :: 0 <= j < |batches| && x in Endpoints(Kept(batches[j], minAmount)) ==> x in Ids(nodes)
    requires forall i :: |nodes| <= i < |nodes'| ==>
               nodes'[i].id in Endpoints(Kept(txs, minAmount)) && nodes'[i].id !in Ids(nodes)
    ensures var added := |nodes'| - |nodes|;
      Revealed(minAmount, nodes', batches + [txs],
               levels + Repeat(d + 1, added), origin + Repeat(|batches|, added))
  {
    var added := |nodes'| - |nodes|;
    var batches', levels', origin' := batches + [txs], levels + Repeat(d + 1, added), origin + Repeat(|batches|, added);
    forall i | 1 <= i < |nodes'|
      ensures && origin'[i] < |batches'| && origin'[i] < i
              && levels'[i] == levels'[origin'[i]] + 1
              && nodes'[i].id in Endpoints(Kept(batches'[origin'[i]], minAmount))
              && (forall j :: 0 <= j < origin'[i] ==> nodes'[i].id !in Endpoints(Kept(batches'[j], minAmount)))
    {
      if i < |nodes| {
        assert nodes'[i].id == Ids(nodes')[i] == Ids(nodes)[i] == nodes[i].id;
        assert origin'[i] == origin[i] && levels'[i] == levels[i];
        assert levels'[origin'[i]] == levels[origin[i]];
        assert batches'[origin'[i]] == batches[origin[i]];
        forall j | 0 <= j < origin'[i]
          ensures nodes'[i].id !in Endpoints(Kept(batches'[j], minAmount))
        {
          assert batches'[j] == batches[j];
        }
      } else {
        assert origin'[i] == |batches|;
        assert levels'[|batches|] == d;
        forall j | 0 <= j < origin'[i]
          ensures nodes'[i].id !in Endpoints(Kept(batches'[j], minAmount))
        {
          assert batches'[j] == batches[j];
        }
      }
    }
  }

  /** Leaving level `d` once its whole queue is fetched: the nodes first seen
      while expanding it form the queue of level `d + 1`. */
  lemma LevelUp(minAmount: Option<real>, nodes: seq<NetworkNode>, fetched: seq<string>,
                batches: seq<seq<Tx>>, levels: seq<nat>, origin: seq<nat>, lo: nat, d: nat)
    requires Leveled(minAmount, nodes, fetched, batches, levels, origin, lo, |fetched|, d)
    ensures Leveled(minAmount, nodes, fetched, batches, levels, origin, |fetched|, |nodes|, d + 1)
  {
  }

  /** The state of the expansion between two levels: every fetch so far
      succeeded, the network matches its specification over the fetched
      transactions, and the fetched addresses are exactly the nodes first seen
      below level `d`. */
  ghost predicate Expanded(fetch: (Chain, string) -> Result<seq<Tx>, HttpError>, chain: Chain,
                           address: string, minAmount: Option<real>, d: nat,
                           nodes: seq<NetworkNode>, links: seq<NetworkLink>, explored: set<string>,
                           fetched: seq<string>, batches: seq<seq<Tx>>, levels: seq<nat>, origin: seq<nat>)
  {
    && FetchedAll(fetch, chain, fetched, batches)
    && Built(address, minAmount, batches, nodes, links, explored)
    && Leveled(minAmount, nodes, fetched, batches, levels, origin, |fetched|, |nodes|, d)
    && (d > 0 ==> |fetched| >= 1)
  }

  /** `to_explore` holds no level beyond `d`, and while `d` is below the
      requested depth its entry is the list of nodes not yet fetched. */
  ghost predicate Frontier(toExplore: map<nat, seq<string>>, d: nat, depth: int, pending: seq<string>) {
    && (forall k :: k in toExplore ==> k <= d)
    && (d < depth ==> d in toExplore && toExplore[d] == pending)
  }

  /** The state while level `d` is being expanded: its queue is nodes
      `[lo, hi)`, a prefix of which is fetched, and `to_explore[d + 1]` collects
      the nodes found since (when level `d + 1` is still to be expanded). */
  ghost predicate Expanding(fetch: (Chain, string) -> Result<seq<Tx>, HttpError>, chain: Chain,
                            address: string, minAmount: Option<real>, depth: int, d: nat, lo: nat, hi: nat,
                            queue: seq<string>, nodes: seq<NetworkNode>, links: seq<NetworkLink>,
                            explored: set<string>, toExplore: map<nat, seq<string>>,
                            fetched: seq<string>, batches: seq<seq<Tx>>, levels: seq<nat>, origin: seq<nat>)
  {
    && FetchedAll(fetch, chain, fetched, batches)
    && Built(address, minAmount, batches, nodes, links, explored)
    && Leveled(minAmount, nodes, fetched, batches, levels, origin, lo, hi, d)
    && Queued(depth, d, lo, hi, queue, nodes, toExplore)
  }

  /** `to_explore[d]` is the queue being walked, nodes `[lo, hi)`, and
      `to_explore[d + 1]` collects the nodes found since (when level `d + 1` is
      still to be expanded). */
  ghost predicate Queued(depth: int, d: nat, lo: nat, hi: nat, queue: seq<string>, nodes: seq<NetworkNode>,
                         toExplore: map<nat, seq<string>>)
  {
    && lo <= hi <= |nodes|
    && queue == Ids(nodes)[lo..hi]
    && (forall j :: j in toExplore ==> j <= d + 1)
    && d in toExplore && toExplore[d] == queue
    && d + 1 in toExplore
    && toExplore[d + 1] == if d + 1 < depth then Ids(nodes)[hi..] else []
  }

  lemma QueuedStep(depth: int, d: nat, lo: nat, hi: nat, queue: seq<string>, nodes: seq<NetworkNode>,
                   toExplore: map<nat, seq<string>>, nodes': seq<NetworkNode>, explored': set<string>,
                   next: seq<string>, toExplore': map<nat, seq<string>>)
    requires Queued(depth, d, lo, hi, queue, nodes, toExplore)
    requires Grown(nodes, toExplore[d + 1], d + 1 < depth, nodes', explored', next)
    requires toExplore' == toExplore[d + 1 := next]
    ensures Queued(depth, d, lo, hi, queue, nodes', toExplore')
  {
    IdsPrefix(nodes, nodes');
    SliceStep(Ids(nodes), Ids(nodes'), lo, hi);
  }

  /** Fetching and exploring the next queued address keeps the expansion state. */
  lemma ExpandingStep(fetch: (Chain, string) -> Result<seq<Tx>, HttpError>, chain: Chain,
                      address: string, minAmount: Option<real>, depth: int, d: nat, lo: nat, hi: nat,
                      queue: seq<string>, nodes: seq<NetworkNode>, links: seq<NetworkLink>,
                      explored: set<string>, toExplore: map<nat, seq<string>>,
                      fetched: seq<string>, batches: seq<seq<Tx>>, levels: seq<nat>, origin: seq<nat>,
                      currentAddress: string, txs: seq<Tx>, next: seq<string>,
                      nodes': seq<NetworkNode>, links': seq<NetworkLink>, explored': set<string>,
                      toExplore': map<nat, seq<string>>, fetched': seq<string>, batches': seq<seq<Tx>>,
                      levels': seq<nat>, origin': seq<nat>)
    requires Expanding(fetch, chain, address, minAmount, depth, d, lo, hi, queue, nodes, links, explored,
                       toExplore, fetched, batches, levels, origin)
    requires |fetched| < hi && currentAddress == queue[|fetched| - lo]
    requires fetch(chain, currentAddress) == Ok(txs)
    requires Ids(nodes') == Discover(Ids(nodes), Endpoints(Kept(txs, minAmount)))
    requires Grown(nodes, toExplore[d + 1], d + 1 < depth, nodes', explored', next)
    requires links' == links + LinksFor(Kept(txs, minAmount))
    requires toExplore' == toExplore[d + 1 := next]
    requires fetched' == fetched + [currentAddress] && batches' == batches + [txs]
    requires levels' == levels + Repeat(d + 1, |nodes'| - |nodes|)
    requires origin' == origin + Repeat(|fetched|, |nodes'| - |nodes|)
    ensures Expanding(fetch, chain, address, minAmount, depth, d, lo, hi, queue, nodes', links', explored',
                      toExplore', fetched', batches', levels', origin')
  {
    assert currentAddress == Ids(nodes)[|fetched|] by {
      QueueHead(Ids(nodes), queue, lo, hi, |fetched|);
    }
    assert FetchedAll(fetch, chain, fetched', batches') by {
      FetchedStep(fetch, chain, fetched, batches, currentAddress, txs);
    }
    assert Built(address, minAmount, batches', nodes', links', explored') by {
      BuiltStep(address, minAmount, batches, nodes, links, explored, txs,
                toExplore[d + 1], d + 1 < depth, nodes', links', explored', next);
    }
    assert Leveled(minAmount, nodes', fetched', batches', levels', origin', lo, hi, d) by {
      LeveledStep(address, minAmount, nodes, fetched, batches, levels, origin, lo, hi, d, txs, nodes',
                  fetched', batches', levels', origin');
    }
    assert Queued(depth, d, lo, hi, queue, nodes', toExplore') by {
      QueuedStep(depth, d, lo, hi, queue, nodes, toExplore, nodes', explored', next, toExplore');
    }
  }

  lemma QueueHead(ids: seq<string>, queue: seq<string>, lo: nat, hi: nat, k: nat)
    requires lo <= k < hi <= |ids| && queue == ids[lo..hi]
    ensures queue[k - lo] == ids[k]
  {
  }

  /** A successful fetch extends the record of successful fetches. */
  lemma FetchedStep(fetch: (Chain, string) -> Result<seq<Tx>, HttpError>, chain: Chain,
                    fetched: seq<string>, batches: seq<seq<Tx>>, a: string, txs: seq<Tx>)
    requires FetchedAll(fetch, chain, fetched, batches)
    requires fetch(chain, a) == Ok(txs)
    ensures FetchedAll(fetch, chain, fetched + [a], batches + [txs])
  {
  }

  /** Appending nodes keeps the ids of the old ones. */
  lemma IdsPrefix(nodes: seq<NetworkNode>, nodes': seq<NetworkNode>)
    requires |nodes| <= |nodes'| && nodes'[..|nodes|] == nodes
    ensures Ids(nodes')[..|nodes|] == Ids(nodes)
  {
  }

  lemma SliceStep(ids: seq<string>, ids': seq<string>, lo: nat, hi: nat)
    requires lo <= hi <= |ids| <= |ids'| && ids'[..|ids|] == ids
    ensures ids'[lo..hi] == ids[lo..hi]
    ensures ids'[hi..] == ids[hi..] + ids'[|ids|..]
  {
    forall i | lo <= i < hi
      ensures ids'[i] == ids[i]
    {
      assert ids'[i] == ids'[..|ids|][i];
    }
    forall i | hi <= i < |ids|
      ensures ids'[i] == ids[i]
    {
      assert ids'[i] == ids'[..|ids|][i];
    }
    assert ids'[lo..hi] == ids[lo..hi];
    assert ids'[hi..] == ids[hi..] + ids'[|ids|..];
  }

  /** A failing fetch of the next queued address still asks for the next
      address in search order. */
  lemma FailedOrder(fetch: (Chain, string) -> Result<seq<Tx>, HttpError>, chain: Chain,
                    address: string, minAmount: Option<real>, depth: int, d: nat, lo: nat, hi: nat,
                    queue: seq<string>, currentAddress: string,
                    nodes: seq<NetworkNode>, links: seq<NetworkLink>, explored: set<string>,
                    toExplore: map<nat, seq<string>>, fetched: seq<string>,
                    batches: seq<seq<Tx>>, levels: seq<nat>, origin: seq<nat>)
    requires Expanding(fetch, chain, address, minAmount, depth, d, lo, hi, queue, nodes, links, explored,
                       toExplore, fetched, batches, levels, origin)
    requires |fetched| < hi && currentAddress == queue[|fetched| - lo]
    ensures SearchOrder(address, minAmount, fetched + [currentAddress], batches)
  {
    QueueHead(Ids(nodes), queue, lo, hi, |fetched|);
    PrefixStep(Ids(nodes), Ids(nodes), fetched);
    FetchOrder(address, minAmount, nodes, fetched + [currentAddress], batches, levels, origin);
  }

  /** The request stopped at a failing fetch, and every address it fetched, the
      failing one included, was found above the depth limit. The nodes known
      are those discovered by the successful fetches; `levels[i]` is the level
      at which node `i` was first seen (the source at 0), one below the first
      fetched address whose kept transactions mention it (`origin[i]`). */
  ghost predicate StoppedBelow(depth: int, address: string, minAmount: Option<real>, fetched: seq<string>,
                               batches: seq<seq<Tx>>, levels: seq<nat>, origin: seq<nat>)
  {
    var ids := Discovered(address, minAmount, batches);
    && |levels| == |ids| && |origin| == |ids| && |batches| < |fetched| <= |ids|
    && fetched == ids[..|fetched|]
    && levels[0] == 0
    && (forall i :: 0 <= i < |fetched| ==> levels[i] < depth)
    && (forall i :: 1 <= i < |ids| ==>
          && origin[i] < |batches| && origin[i] < i
          && levels[i] == levels[origin[i]] + 1
          && ids[i] in Endpoints(Kept(batches[origin[i]], minAmount))
          && (forall j :: 0 <= j < origin[i] ==> ids[i] !in Endpoints(Kept(batches[j], minAmount))))
  }

  /** Stopping at the first unfetched node of a level below the depth leaves
      every fetched address above the limit. */
  lemma LeveledStopped(depth: int, address: string, minAmount: Option<real>, nodes: seq<NetworkNode>,
                       fetched: seq<string>, batches: seq<seq<Tx>>, levels: seq<nat>, origin: seq<nat>,
                       lo: nat, hi: nat, d: nat)
    requires d < depth
    requires Leveled(minAmount, nodes, fetched, batches, levels, origin, lo, hi, d)
    requires Ids(nodes) == Discovered(address, minAmount, batches)
    requires |fetched| < hi
    ensures StoppedBelow(depth, address, minAmount, fetched + [Ids(nodes)[|fetched|]], batches, levels, origin)
  {
    var ids := Ids(nodes);
    var fetched' := fetched + [ids[|fetched|]];
    PrefixStep(ids, ids, fetched);
    assert fetched' == ids[..|fetched'|];
    assert LevelShape(levels, lo, hi, d);
    forall i | 0 <= i < |fetched'|
      ensures levels[i] < depth
    {
      assert i < hi;
    }
    forall i | 1 <= i < |ids|
      ensures && origin[i] < |batches| && origin[i] < i
              && levels[i] == levels[origin[i]] + 1
              && ids[i] in Endpoints(Kept(batches[origin[i]], minAmount))
              && (forall j :: 0 <= j < origin[i] ==> ids[i] !in Endpoints(Kept(batches[j], minAmount)))
    {
      assert ids[i] == nodes[i].id;
    }
  }

  /** A failing fetch of the next queued address of level `d`, below the
      depth, stops the request with every fetched address above the limit. */
  lemma FailedBelow(fetch: (Chain, string) -> Result<seq<Tx>, HttpError>, chain: Chain,
                    address: string, minAmount: Option<real>, depth: int, d: nat, lo: nat, hi: nat,
                    queue: seq<string>, currentAddress: string,
                    nodes: seq<NetworkNode>, links: seq<NetworkLink>, explored: set<string>,
                    toExplore: map<nat, seq<string>>, fetched: seq<string>,
                    batches: seq<seq<Tx>>, levels: seq<nat>, origin: seq<nat>)
    requires d < depth
    requires Expanding(fetch, chain, address, minAmount, depth, d, lo, hi, queue, nodes, links, explored,
                       toExplore, fetched, batches, levels, origin)
    requires |fetched| < hi && currentAddress == queue[|fetched| - lo]
    ensures StoppedBelow(depth, address, minAmount, fetched + [currentAddress], batches, levels, origin)
  {
    QueueHead(Ids(nodes), queue, lo, hi, |fetched|);
    LeveledStopped(depth, address, minAmount, nodes, fetched, batches, levels, origin, lo, hi, d);
  }

  /** One iteration of the loop over the queue of level `d`: fetch
      `currentAddress`, the next unfetched queued address, and explore its
      transactions. */
  method ExpandAddress(fetch: (Chain, string) -> Result<seq<Tx>, HttpError>, chain: Chain,
                       address: string, minAmount: Option<real>, depth: int, d: nat, ghost lo: nat, ghost hi: nat,
                       queue: seq<string>, currentAddress: string,
                       nodes: seq<NetworkNode>, links: seq<NetworkLink>, explored: set<string>,
                       toExplore: map<nat, seq<string>>, fetched: seq<string>,
                       ghost batches: seq<seq<Tx>>, ghost levels: seq<nat>, ghost origin: seq<nat>)
    returns (err: Option<HttpError>, nodes': seq<NetworkNode>, links': seq<NetworkLink>, explored': set<string>,
             toExplore': map<nat, seq<string>>, fetched': seq<string>,
             ghost batches': seq<seq<Tx>>, ghost levels': seq<nat>, ghost origin': seq<nat>)
    requires Expanding(fetch, chain, address, minAmount, depth, d, lo, hi, queue, nodes, links, explored,
                       toExplore, fetched, batches, levels, origin)
    requires d < depth
    requires |fetched| < hi && currentAddress == queue[|fetched| - lo]
    ensures err.None? ==>
              && fetched' == fetched + [currentAddress]
              && Expanding(fetch, chain, address, minAmount, depth, d, lo, hi, queue, nodes', links', explored',
                           toExplore', fetched', batches', levels', origin')
    ensures err.Some? ==>
              && fetched' == fetched + [currentAddress] && batches' == batches
              && fetch(chain, currentAddress) == Err(err.value)
              && SearchOrder(address, minAmount, fetched', batches')
              && StoppedBelow(depth, address, minAmount, fetched', batches', levels', origin')
  {
    var result := fetch(chain, currentAddress);
    if result.Err? {
      FailedOrder(fetch, chain, address, minAmount, depth, d, lo, hi, queue, currentAddress,
                  nodes, links, explored, toExplore, fetched, batches, levels, origin);
      FailedBelow(fetch, chain, address, minAmount, depth, d, lo, hi, queue, currentAddress,
                  nodes, links, explored, toExplore, fetched, batches, levels, origin);
      return Some(result.error), nodes, links, explored, toExplore, fetched + [currentAddress],
             batches, levels, origin;
    }
    nodes', links', explored', toExplore', fetched', batches', levels', origin' :=
      ExploreFetched(fetch, chain, address, minAmount, depth, d, lo, hi, queue, currentAddress, result.value,
                     nodes, links, explored, toExplore, fetched, batches, levels, origin);
    err := None;
  }

  /** The successful half of `ExpandAddress`: `txs` are the transactions
      fetched for `currentAddress`. */
  method ExploreFetched(ghost fetch: (Chain, string) -> Result<seq<Tx>, HttpError>, ghost chain: Chain,
                        ghost address: string, minAmount: Option<real>, depth: int, d: nat,
                        ghost lo: nat, ghost hi: nat, ghost queue: seq<string>, currentAddress: string, txs: seq<Tx>,
                        nodes: seq<NetworkNode>, links: seq<NetworkLink>, explored: set<string>,
                        toExplore: map<nat, seq<string>>, fetched: seq<string>,
                        ghost batches: seq<seq<Tx>>, ghost levels: seq<nat>, ghost origin: seq<nat>)
    returns (nodes': seq<NetworkNode>, links': seq<NetworkLink>, explored': set<string>,
             toExplore': map<nat, seq<string>>, fetched': seq<string>,
             ghost batches': seq<seq<Tx>>, ghost levels': seq<nat>, ghost origin': seq<nat>)
    requires Expanding(fetch, chain, address, minAmount, depth, d, lo, hi, queue, nodes, links, explored,
                       toExplore, fetched, batches, levels, origin)
    requires |fetched| < hi && currentAddress == queue[|fetched| - lo]
    requires fetch(chain, currentAddress) == Ok(txs)
    ensures fetched' == fetched + [currentAddress]
    ensures Expanding(fetch, chain, address, minAmount, depth, d, lo, hi, queue, nodes', links', explored',
                      toExplore', fetched', batches', levels', origin')
  {
    var next;
    nodes', links', explored', next :=
      ExploreAddress(nodes, links, explored, toExplore[d + 1], txs, minAmount, d + 1 < depth);
    levels' := levels + Repeat(d + 1, |nodes'| - |nodes|);
    origin' := origin + Repeat(|fetched|, |nodes'| - |nodes|);
    fetched' := fetched + [currentAddress];
    batches' := batches + [txs];
    toExplore' := toExplore[d + 1 := next];
    ExpandingStep(fetch, chain, address, minAmount, depth, d, lo, hi, queue, nodes, links, explored,
                  toExplore, fetched, batches, levels, origin, currentAddress, txs, next,
                  nodes', links', explored', toExplore', fetched', batches', levels', origin');
  }

  /** Entering level `d`: its queue is the list of nodes not yet fetched. */
  lemma LevelStart(fetch: (Chain, string) -> Result<seq<Tx>, HttpError>, chain: Chain,
                   address: string, minAmount: Option<real>, depth: int, d: nat,
                   nodes: seq<NetworkNode>, links: seq<NetworkLink>, explored: set<string>,
                   toExplore: map<nat, seq<string>>, toExplore': map<nat, seq<string>>,
                   fetched: seq<string>, batches: seq<seq<Tx>>, levels: seq<nat>, origin: seq<nat>)
    requires d < depth
    requires Expanded(fetch, chain, address, minAmount, d, nodes, links, explored, fetched, batches, levels, origin)
    requires Frontier(toExplore, d, depth, Ids(nodes)[|fetched|..])
    requires toExplore' == if d + 1 !in toExplore then toExplore[d + 1 := []] else toExplore
    ensures Expanding(fetch, chain, address, minAmount, depth, d, |fetched|, |nodes|, toExplore'[d],
                      nodes, links, explored, toExplore', fetched, batches, levels, origin)
  {
    assert Ids(nodes)[|nodes|..] == [];
  }

  /** Leaving level `d` with its whole queue fetched: the state between levels
      holds for `d + 1`. */
  lemma LevelDone(fetch: (Chain, string) -> Result<seq<Tx>, HttpError>, chain: Chain,
                  address: string, minAmount: Option<real>, depth: int, d: nat, lo: nat, hi: nat,
                  queue: seq<string>, nodes: seq<NetworkNode>, links: seq<NetworkLink>,
                  explored: set<string>, toExplore: map<nat, seq<string>>,
                  fetched: seq<string>, batches: seq<seq<Tx>>, levels: seq<nat>, origin: seq<nat>)
    requires Expanding(fetch, chain, address, minAmount, depth, d, lo, hi, queue, nodes, links, explored,
                       toExplore, fetched, batches, levels, origin)
    requires |fetched| == hi && lo < hi
    ensures Expanded(fetch, chain, address, minAmount, d + 1, nodes, links, explored,
                     fetched, batches, levels, origin)
    ensures Frontier(toExplore, d + 1, depth, Ids(nodes)[|fetched|..])
  {
    LevelUp(minAmount, nodes, fetched, batches, levels, origin, lo, d);
  }

  /** One round of the outer loop of `get_transaction_network`: fetch every
      queued address of level `d` in order and explore its transactions. A failing
      fetch ends the round with its error. */
  method ExpandLevel(fetch: (Chain, string) -> Result<seq<Tx>, HttpError>, chain: Chain,
                     address: string, minAmount: Option<real>, depth: int, d: nat,
                     nodes: seq<NetworkNode>, links: seq<NetworkLink>, explored: set<string>,
                     toExplore: map<nat, seq<string>>, fetched: seq<string>,
                     ghost batches: seq<seq<Tx>>, ghost levels: seq<nat>, ghost origin: seq<nat>)
    returns (err: Option<HttpError>, nodes': seq<NetworkNode>, links': seq<NetworkLink>, explored': set<string>,
             toExplore': map<nat, seq<string>>, fetched': seq<string>,
             ghost batches': seq<seq<Tx>>, ghost levels': seq<nat>, ghost origin': seq<nat>)
    requires d < depth
    requires Expanded(fetch, chain, address, minAmount, d, nodes, links, explored, fetched, batches, levels, origin)
    requires Frontier(toExplore, d, depth, Ids(nodes)[|fetched|..])
    requires |fetched| < |nodes|
    ensures err.None? ==>
              && Expanded(fetch, chain, address, minAmount, d + 1, nodes', links', explored',
                          fetched', batches', levels', origin')
              && Frontier(toExplore', d + 1, depth, Ids(nodes')[|fetched'|..])
    ensures err.Some? ==>
              && |fetched'| == |batches'| + 1
              && FetchedAll(fetch, chain, fetched'[..|batches'|], batches')
              && fetch(chain, fetched'[|batches'|]) == Err(err.value)
              && SearchOrder(address, minAmount, fetched', batches')
              && StoppedBelow(depth, address, minAmount, fetched', batches', levels', origin')
              // the failing address is queued for this level
              && |fetched'| <= |nodes| && fetched'[|batches'|] in toExplore[d]
  {
    nodes', links', explored', toExplore', fetched' := nodes, links, explored, toExplore, fetched;
    batches', levels', origin' := batches, levels, origin;
    var nextDepth := d + 1;
    if nextDepth !in toExplore' {
      toExplore' := toExplore'[nextDepth := []];
    }
    var queue := toExplore'[d];
    ghost var lo, hi := |fetched|, |nodes|;
    LevelStart(fetch, chain, address, minAmount, depth, d, nodes, links, explored, toExplore, toExplore',
               fetched, batches, levels, origin);
    var k := 0;
    while k < |queue|
      invariant 0 <= k <= |queue| == hi - lo
      invariant |fetched'| == lo + k
      invariant Expanding(fetch, chain, address, minAmount, depth, d, lo, hi, queue, nodes', links', explored',
                          toExplore', fetched', batches', levels', origin')
    {
      ghost var before := fetched';
      err, nodes', links', explored', toExplore', fetched', batches', levels', origin' :=
        ExpandAddress(fetch, chain, address, minAmount, depth, d, lo, hi, queue, queue[k],
                      nodes', links', explored', toExplore', fetched', batches', levels', origin');
      if err.Some? {
        assert fetched'[..|batches'|] == before;
        return;
      }
      k := k + 1;
    }
    LevelDone(fetch, chain, address, minAmount, depth, d, lo, hi, queue, nodes', links', explored',
              toExplore', fetched', batches', levels', origin');
    err := None;
  }

  /** The network answered for `address`: its nodes are the source followed by
      every endpoint of a kept fetched transaction, once each, in order of first
      appearance, and it has one link per kept fetched transaction. */
  ghost predicate NetworkMatches(address: string, minAmount: Option<real>, batches: seq<seq<Tx>>,
                                 net: TransactionNetwork)
  {
    && Ids(net.nodes) == Discover([address], Endpoints(Kept(Flatten(batches), minAmount)))
    && net.links == LinksFor(Kept(Flatten(batches), minAmount))
    && |net.nodes| >= 1 && net.nodes[0] == NetworkNode(address, address, "source")
    && (forall i :: 1 <= i < |net.nodes| ==> net.nodes[i] == AddressNode(net.nodes[i].id))
    && NoDuplicates(Ids(net.nodes))
    && (forall l :: l in net.links ==> l.source in Ids(net.nodes) && l.target in Ids(net.nodes))
  }

  /** The breadth-first bound: `levels[i]` is the level at which node `i` was
      first seen (the source at 0), levels never decrease along the node list,
      no node lies deeper than `depth`, the fetched addresses are exactly the
      nodes above level `depth`, and each other node was revealed by the
      transactions of a fetched address one level up, the first fetched address
      whose kept transactions mention it. */
  ghost predicate LevelsMatch(depth: int, minAmount: Option<real>, nodes: seq<NetworkNode>,
                              fetched: seq<string>, batches: seq<seq<Tx>>, levels: seq<nat>, origin: seq<nat>)
  {
    && |levels| == |nodes| && |origin| == |nodes| && |nodes| >= 1 && levels[0] == 0
    && (forall i, j :: 0 <= i <= j < |levels| ==> levels[i] <= levels[j])
    && (forall i :: 1 <= i < |levels| ==> 1 <= levels[i] <= depth)
    && 1 <= |fetched| <= |nodes| && |batches| == |fetched| && fetched == Ids(nodes)[..|fetched|]
    && (forall i :: 0 <= i < |fetched| ==> levels[i] < depth)
    && (forall i :: |fetched| <= i < |levels| ==> levels[i] == depth)
    && (forall i :: 1 <= i < |nodes| ==>
          && origin[i] < |fetched| && origin[i] < i
          && levels[i] == levels[origin[i]] + 1
          && nodes[i].id in Endpoints(Kept(batches[origin[i]], minAmount))
          && (forall j :: 0 <= j < origin[i] ==> nodes[i].id !in Endpoints(Kept(batches[j], minAmount))))
  }

  /** When the expansion stops at level `d` (the requested depth, or a level
      with nothing left to fetch), its state answers the request. */
  lemma Concluded(address: string, minAmount: Option<real>, depth: int, d: nat,
                  nodes: seq<NetworkNode>, links: seq<NetworkLink>, explored: set<string>,
                  fetched: seq<string>, batches: seq<seq<Tx>>, levels: seq<nat>, origin: seq<nat>)
    requires 1 <= d <= depth
    requires Built(address, minAmount, batches, nodes, links, explored)
    requires Leveled(minAmount, nodes, fetched, batches, levels, origin, |fetched|, |nodes|, d)
    requires |fetched| >= 1
    requires d < depth ==> |fetched| == |nodes|
    ensures NetworkMatches(address, minAmount, batches, TransactionNetwork(nodes, links))
    ensures LevelsMatch(depth, minAmount, nodes, fetched, batches, levels, origin)
  {
    DiscoveredAll(address, minAmount, batches);
    var kept := Kept(Flatten(batches), minAmount);
    DiscoverMeaning([address], Endpoints(kept));
    EndpointsMeaning(kept);
    LinksForMeaning(kept);
    forall l | l in links
      ensures l.source in Ids(nodes) && l.target in Ids(nodes)
    {
      var i :| 0 <= i < |links| && links[i] == l;
      assert kept[i].fromAddress in Endpoints(kept) && kept[i].toAddress in Endpoints(kept);
    }
  }

  /** With `depth = 1` only the root address is fetched. */
  lemma DepthOneFetchesOnlyRoot(address: string, minAmount: Option<real>, batches: seq<seq<Tx>>,
                                net: TransactionNetwork, fetched: seq<string>, levels: seq<nat>, origin: seq<nat>)
    requires NetworkMatches(address, minAmount, batches, net)
    requires LevelsMatch(1, minAmount, net.nodes, fetched, batches, levels, origin)
    ensures fetched == [address]
  {
    assert 1 < |levels| ==> 1 <= levels[1];
    assert |fetched| == 1;
    assert fetched[0] == Ids(net.nodes)[0] == address;
  }

  /** Every address found after the source lies at least one level below it. */
  lemma LevelsAboveSource(depth: int, address: string, minAmount: Option<real>, fetched: seq<string>,
                          batches: seq<seq<Tx>>, levels: seq<nat>, origin: seq<nat>)
    requires StoppedBelow(depth, address, minAmount, fetched, batches, levels, origin)
    ensures forall i :: 1 <= i < |fetched| ==> 1 <= levels[i]
  {
    forall i | 1 <= i < |fetched| ensures 1 <= levels[i] {
      assert levels[i] == levels[origin[i]] + 1;
    }
  }

  /** With depth 1 a failing exploration also fetched the source address
      alone: the failure is that one fetch, and nothing was explored. */
  lemma DepthOneStopsAtRoot(address: string, minAmount: Option<real>, fetched: seq<string>,
                            batches: seq<seq<Tx>>, levels: seq<nat>, origin: seq<nat>)
    requires StoppedBelow(1, address, minAmount, fetched, batches, levels, origin)
    ensures fetched == [address] && batches == []
  {
    LevelsAboveSource(1, address, minAmount, fetched, batches, levels, origin);
    assert levels[|fetched| - 1] < 1;
    assert Discovered(address, minAmount, batches) == [address];
  }

  /** The state before the first level: only the source node, nothing fetched. */
  lemma Start(fetch: (Chain, string) -> Result<seq<Tx>, HttpError>, chain: Chain,
              address: string, minAmount: Option<real>, depth: int,
              nodes: seq<NetworkNode>, links: seq<NetworkLink>, explored: set<string>,
              toExplore: map<nat, seq<string>>, fetched: seq<string>, batches: seq<seq<Tx>>,
              levels: seq<nat>, origin: seq<nat>)
    requires nodes == [NetworkNode(address, address, "source")] && links == [] && explored == {address}
    requires toExplore == map[0 := [address]] && fetched == [] && batches == []
    requires levels == [0] && origin == [0]
    ensures Expanded(fetch, chain, address, minAmount, 0, nodes, links, explored, fetched, batches, levels, origin)
    ensures Frontier(toExplore, 0, depth, Ids(nodes)[|fetched|..])
  {
    assert Ids(nodes) == [address];
  }

  /** When the loop over the levels stops, at the requested depth or at a
      level with nothing queued, its state answers the request. */
  lemma Finish(fetch: (Chain, string) -> Result<seq<Tx>, HttpError>, chain: Chain,
               address: string, minAmount: Option<real>, depth: int, d: nat,
               nodes: seq<NetworkNode>, links: seq<NetworkLink>, explored: set<string>,
               toExplore: map<nat, seq<string>>, fetched: seq<string>, batches: seq<seq<Tx>>,
               levels: seq<nat>, origin: seq<nat>)
    requires 1 <= depth && d <= depth
    requires Expanded(fetch, chain, address, minAmount, d, nodes, links, explored, fetched, batches, levels, origin)
    requires Frontier(toExplore, d, depth, Ids(nodes)[|fetched|..])
    requires d == depth || d !in toExplore || toExplore[d] == []
    ensures |batches| == |fetched|
    ensures NetworkMatches(address, minAmount, batches, TransactionNetwork(nodes, links))
    ensures LevelsMatch(depth, minAmount, nodes, fetched, batches, levels, origin)
    ensures SearchOrder(address, minAmount, fetched, batches)
  {
    FetchOrder(address, minAmount, nodes, fetched, batches, levels, origin);
    assert 0 < |fetched| ==> levels[0] < d;
    assert |fetched| < |nodes| ==> Ids(nodes)[|fetched|..] != [];
    assert 1 <= d;
    assert d < depth ==> |fetched| == |nodes|;
    Concluded(address, minAmount, depth, d, nodes, links, explored, fetched, batches, levels, origin);
  }

  /** The loop of `get_transaction_network` over the levels `0 .. depth - 1`,
      from the network holding only the source node. */
  method ExpandFrom(fetch: (Chain, string) -> Result<seq<Tx>, HttpError>, chain: Chain,
                    address: string, minAmount: Option<real>, depth: int)
    returns (err: Option<HttpError>, net: TransactionNetwork, fetched: seq<string>,
             ghost batches: seq<seq<Tx>>, ghost levels: seq<nat>, ghost origin: seq<nat>)
    requires 1 <= depth
    ensures |batches| <= |fetched|
    ensures forall i :: 0 <= i < |batches| ==> fetch(chain, fetched[i]) == Ok(batches[i])
    ensures err.None? ==>
              && |batches| == |fetched|
              && NetworkMatches(address, minAmount, batches, net)
              && LevelsMatch(depth, minAmount, net.nodes, fetched, batches, levels, origin)
              && SearchOrder(address, minAmount, fetched, batches)
    ensures err.Some? ==>
              && |fetched| == |batches| + 1 && fetch(chain, fetched[|batches|]) == Err(err.value)
              && SearchOrder(address, minAmount, fetched, batches)
              && StoppedBelow(depth, address, minAmount, fetched, batches, levels, origin)
  {
    fetched, batches := [], [];
    var nodes := [NetworkNode(address, address, "source")];
    var links: seq<NetworkLink> := [];
    var explored := {address};
    var toExplore: map<nat, seq<string>> := map[0 := [address]];
    levels, origin := [0], [0];
    Start(fetch, chain, address, minAmount, depth, nodes, links, explored, toExplore, fetched, batches,
          levels, origin);

    var currentDepth: nat := 0;
    err := None;
    while currentDepth < depth && err.None?
      invariant currentDepth <= depth
      invariant err.None? ==>
                  && Expanded(fetch, chain, address, minAmount, currentDepth, nodes, links, explored,
                              fetched, batches, levels, origin)
                  && Frontier(toExplore, currentDepth, depth, Ids(nodes)[|fetched|..])
      invariant err.Some? ==>
                  && |fetched| == |batches| + 1
                  && FetchedAll(fetch, chain, fetched[..|batches|], batches)
                  && fetch(chain, fetched[|batches|]) == Err(err.value)
                  && SearchOrder(address, minAmount, fetched, batches)
                  && StoppedBelow(depth, address, minAmount, fetched, batches, levels, origin)
    {
      if currentDepth !in toExplore || toExplore[currentDepth] == [] {
        break;
      }
      err, nodes, links, explored, toExplore, fetched, batches, levels, origin :=
        ExpandLevel(fetch, chain, address, minAmount, depth, currentDepth, nodes, links, explored,
                    toExplore, fetched, batches, levels, origin);
      currentDepth := currentDepth + 1;
    }
    if err.Some? {
      assert fetched[..|batches|] == fetched[..|batches|];
      net := TransactionNetwork(nodes, links);
      return;
    }
    Finish(fetch, chain, address, minAmount, depth, currentDepth, nodes, links, explored, toExplore,
           fetched, batches, levels, origin);
    err, net := None, TransactionNetwork(nodes, links);
  }

  /** `get_transaction_network`: validate the request, then expand breadth-first
      from `address` for `depth` levels.

      Besides the network, the method reports the addresses it fetched, in call
      order (`fetched`), and, as ghost witnesses, the fetched transaction lists
      (`batches`), the level at which each node was first seen (`levels`) and the
      index in `fetched` of the address whose transactions revealed it (`origin`). */
  method BuildNetwork(blockchain: string, address: string, depth: int, minAmount: Option<real>,
                      fetch: (Chain, string) -> Result<seq<Tx>, HttpError>)
    returns (r: Result<TransactionNetwork, HttpError>, fetched: seq<string>,
             ghost batches: seq<seq<Tx>>, ghost levels: seq<nat>, ghost origin: seq<nat>)
    // Request validation happens before any fetch.
    ensures !(1 <= depth <= 3) ==> r == Err(HttpError(422, DepthDetail)) && fetched == []
    ensures 1 <= depth <= 3 && !SupportedChain(blockchain) ==>
              r == Err(HttpError(400, SupportedChainsDetail)) && fetched == []
    // Every fetch but possibly the last succeeded; the last fails exactly when the request does.
    ensures r.Ok? || fetched != [] ==> 1 <= depth <= 3 && SupportedChain(blockchain)
    ensures |batches| <= |fetched|
    ensures forall i :: 0 <= i < |batches| ==>
              fetch(ServiceFor(blockchain).value, fetched[i]) == Ok(batches[i])
    ensures r.Ok? ==> |batches| == |fetched|
    ensures 1 <= depth <= 3 && SupportedChain(blockchain) && r.Err? ==> fetched != []
    ensures r.Err? && fetched != [] ==>
              |fetched| == |batches| + 1 && fetch(ServiceFor(blockchain).value, fetched[|batches|]) == Err(r.error)
    ensures r.Ok? ==> NetworkMatches(address, minAmount, batches, r.value)
    ensures r.Ok? ==> LevelsMatch(depth, minAmount, r.value.nodes, fetched, batches, levels, origin)
    // The depth bound holds on failure too: the failing address was found above the limit.
    ensures r.Err? && fetched != [] ==> StoppedBelow(depth, address, minAmount, fetched, batches, levels, origin)
    // Breadth-first order: each fetched address is the next one discovered by the fetches before it.
    ensures SearchOrder(address, minAmount, fetched, batches)
  {
    fetched, batches, levels, origin := [], [], [], [];
    if !(1 <= depth <= 3) {
      return Err(HttpError(422, DepthDetail)), fetched, batches, levels, origin;
    }
    if !SupportedChain(blockchain) {
      return Err(HttpError(400, SupportedChainsDetail)), fetched, batches, levels, origin;
    }
    var service := ServiceFor(blockchain);
    if service.Err? {
      assert false;
    }
    var err, net;
    err, net, fetched, batches, levels, origin := ExpandFrom(fetch, service.value, address, minAmount, depth);
    r := if err.Some? then Err(err.value) else Ok(net);
  }
}
