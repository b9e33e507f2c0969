/** The network page (`frontend/src/pages/NetworkVisualization.js`): it
    normalises the graph the backend answers, checks that it is usable, and
    runs a small state machine over the page state — the displayed network, the
    saved full network, the focused node and the transaction panel — when the
    user searches, clicks a node, resets the focus or picks a view mode. */
module GraphView {
  import opened Wrappers
  import opened Records
  import opened JsValues

  /** A node as it arrives in the response body. */
  datatype RawNode = RawNode(id: JsValue, labelText: string, kind: string)

  /** The `value` field of a link as it arrives: a number, or anything else
      (a string, null, an absent field). */
  datatype ValueField = Numeric(n: JsNumber) | NotNumeric

  /** A link as it arrives in the response body. */
  datatype RawLink = RawLink(id: JsValue, source: JsValue, target: JsValue, value: ValueField, timestamp: string)

  /** A response body: `nodes` and `links` may be missing. */
  datatype RawNetwork = RawNetwork(nodes: Option<seq<RawNode>>, links: Option<seq<RawLink>>)

  /** A node and a link after normalisation: identifiers are strings and the
      value is a number. */
  datatype Node = Node(id: string, labelText: string, kind: string)
  datatype Link = Link(id: string, source: string, target: string, value: JsNumber, timestamp: string)
  datatype Graph = Graph(nodes: seq<Node>, links: seq<Link>)

  const AddressRequired: string := "ウォレットアドレスを入力してください"
  const InvalidNetworkData: string := "有効なネットワークデータが取得できませんでした"
  const NetworkFailedPrefix: string := "データの取得中にエラーが発生しました: "
  const TransactionsFailedPrefix: string := "トランザクションデータの取得中にエラーが発生しました: "
  const AddressDataFailedPrefix: string := "アドレス間のデータ取得中にエラーが発生しました: "

  // ---------------------------------------------------------------------
  // Normalisation

  /** `typeof value === 'number' && !isNaN(value) ? value : 0`. */
  function LinkValue(v: ValueField): JsNumber {
    if v.Numeric? && !v.n.NaN? then v.n else Finite(0.0)
  }

  function NormalizeNode(n: RawNode): Node {
    Node(ToString(n.id), n.labelText, n.kind)
  }

  function NormalizeLink(l: RawLink): Link {
    Link(ToString(l.id), ToString(l.source), ToString(l.target), LinkValue(l.value), l.timestamp)
  }

  /** `nodes.map(node => ({...node, id: String(node.id)}))`. */
  function NormalizeNodes(nodes: seq<RawNode>): (r: seq<Node>)
    ensures |r| == |nodes|
  {
    seq(|nodes|, i requires 0 <= i < |nodes| => NormalizeNode(nodes[i]))
  }

  /** `links.map(...)` with string identifiers and a numeric value. */
  function NormalizeLinks(links: seq<RawLink>): (r: seq<Link>)
    ensures |r| == |links|
  {
    seq(|links|, i requires 0 <= i < |links| => NormalizeLink(links[i]))
  }

  function Prepared(nodes: seq<RawNode>, links: seq<RawLink>): Graph {
    Graph(NormalizeNodes(nodes), NormalizeLinks(links))
  }

  /** The check of `handleSearch`: both lists present and at least one node. */
  predicate Usable(data: RawNetwork) {
    data.nodes.Some? && data.links.Some? && |data.nodes.value| != 0
  }

  /** The check of `handleNodeClick`, which accepts an empty node list. */
  predicate HasLists(data: Option<RawNetwork>) {
    data.Some? && data.value.nodes.Some? && data.value.links.Some?
  }

  predicate NaNFree(g: Graph) {
    forall i :: 0 <= i < |g.links| ==> !g.links[i].value.NaN?
  }

  /** A normalised graph sent back as JSON, as the backend would: identifiers
      as strings and values as numbers. */
  function AsRaw(g: Graph): RawNetwork {
    RawNetwork(
      Some(seq(|g.nodes|, i requires 0 <= i < |g.nodes| =>
             RawNode(JsString(g.nodes[i].id), g.nodes[i].labelText, g.nodes[i].kind))),
      Some(seq(|g.links|, i requires 0 <= i < |g.links| =>
             var l := g.links[i];
             RawLink(JsString(l.id), JsString(l.source), JsString(l.target), Numeric(l.value), l.timestamp))))
  }

  /** A number that is not NaN is kept as it is, negative numbers and
      infinities included; NaN and every non-number become 0. */
  lemma LinkValueRule(v: ValueField)
    ensures !LinkValue(v).NaN?
    ensures v.Numeric? && !v.n.NaN? ==> LinkValue(v) == v.n
    ensures v.Numeric? && v.n.Finite? && v.n.r < 0.0 ==> LinkValue(v) == v.n
    ensures v == NotNumeric || v == Numeric(NaN) ==> LinkValue(v) == Finite(0.0)
  {
  }

  /** Normalisation keeps the number and the order of nodes and links, turns
      their identifiers into strings and keeps every other field. */
  lemma NormalizePreserves(nodes: seq<RawNode>, links: seq<RawLink>)
    ensures var g := Prepared(nodes, links);
      && |g.nodes| == |nodes| && |g.links| == |links|
      && (forall i :: 0 <= i < |nodes| ==>
            g.nodes[i].id == ToString(nodes[i].id)
            && g.nodes[i].labelText == nodes[i].labelText && g.nodes[i].kind == nodes[i].kind)
      && (forall i :: 0 <= i < |links| ==>
            g.links[i].id == ToString(links[i].id)
            && g.links[i].source == ToString(links[i].source)
            && g.links[i].target == ToString(links[i].target)
            && g.links[i].value == LinkValue(links[i].value)
            && g.links[i].timestamp == links[i].timestamp)
      && NaNFree(g)
  {
    var g := Prepared(nodes, links);
    forall i | 0 <= i < |links|
      ensures !g.links[i].value.NaN?
    {
      LinkValueRule(links[i].value);
    }
  }

  /** Normalising a graph that is already normalised changes nothing. */
  lemma NormalizeIdempotent(nodes: seq<RawNode>, links: seq<RawLink>)
    ensures var g := Prepared(nodes, links);
      Prepared(AsRaw(g).nodes.value, AsRaw(g).links.value) == g
  {
    var g := Prepared(nodes, links);
    var raw := AsRaw(g);
    var g' := Prepared(raw.nodes.value, raw.links.value);
    assert g'.nodes == g.nodes by {
      forall i | 0 <= i < |g.nodes|
        ensures g'.nodes[i] == g.nodes[i]
      {
        assert raw.nodes.value[i].id == JsString(g.nodes[i].id);
      }
    }
    assert g'.links == g.links by {
      forall i | 0 <= i < |g.links|
        ensures g'.links[i] == g.links[i]
      {
        var l := g.links[i];
        LinkValueRule(links[i].value);
        assert raw.links.value[i] == RawLink(JsString(l.id), JsString(l.source), JsString(l.target),
                                             Numeric(l.value), l.timestamp);
      }
    }
  }

  /** `nodes.find(node => node.type === 'source')`. */
  function FindSource(nodes: seq<Node>): Option<Node> {
    if nodes == [] then None
    else if nodes[0].kind == "source" then Some(nodes[0])
    else FindSource(nodes[1..])
  }

  /** The first node of type "source", if there is one. */
  lemma {:induction false} FindSourceMeaning(nodes: seq<Node>)
    ensures FindSource(nodes).None? <==> forall i :: 0 <= i < |nodes| ==> nodes[i].kind != "source"
    ensures FindSource(nodes).Some? ==>
              exists i :: 0 <= i < |nodes| && nodes[i] == FindSource(nodes).value && nodes[i].kind == "source"
                          && forall j :: 0 <= j < i ==> nodes[j].kind != "source"
  {
    if nodes != [] && nodes[0].kind != "source" {
      var rest := nodes[1..];
      FindSourceMeaning(rest);
      assert forall i :: 1 <= i < |nodes| ==> nodes[i] == rest[i - 1];
      if FindSource(rest).Some? {
        var k :| 0 <= k < |rest| && rest[k] == FindSource(rest).value && rest[k].kind == "source"
                 && forall j :: 0 <= j < k ==> rest[j].kind != "source";
        assert nodes[k + 1] == rest[k];
      }
    }
  }

  // ---------------------------------------------------------------------
  // Page state and its transitions

  /** The React state of the page that the handlers change. */
  datatype View = View(
    network: Option<Graph>,
    networkData: Option<Graph>,
    focusedNode: Option<Node>,
    addressTransactions: seq<Tx>,
    addressNetworkData: Option<Graph>,
    showingAddressTransactions: bool,
    transactionPage: nat,
    loading: bool,
    error: Option<string>,
    visualizationMode: string)

  function Initial(): View {
    View(None, None, None, [], None, false, 0, false, None, "center")
  }

  /** What the page keeps true: every graph it holds has numeric values, the
      saved full graph has a node, the transaction list is hidden only when it is
      empty, and drill-down data exists only for a focused node. */
  predicate Consistent(v: View) {
    && (v.network.Some? ==> NaNFree(v.network.value))
    && (v.networkData.Some? ==> NaNFree(v.networkData.value) && |v.networkData.value.nodes| != 0)
    && (v.addressNetworkData.Some? ==> NaNFree(v.addressNetworkData.value) && v.focusedNode.Some?)
    && (!v.showingAddressTransactions ==> v.addressTransactions == [])
  }

  /** The state after `handleSearch`, given what `getNetwork` and then
      `getTransactions` answer (an error carries its message). */
  function Searched(v: View, address: string, network: Result<RawNetwork, string>,
                    transactions: Result<seq<Tx>, string>): View
  {
    if address == "" then v.(error := Some(AddressRequired))
    else
      var w := v.(loading := false, error := None, network := None);
      match network
      case Err(m) => w.(error := Some(NetworkFailedPrefix + m))
      case Ok(data) =>
        if !Usable(data) then w.(error := Some(InvalidNetworkData))
        else
          var g := Prepared(data.nodes.value, data.links.value);
          var shown := w.(network := Some(g), networkData := Some(g));
          match transactions
          case Err(m) => shown.(error := Some(TransactionsFailedPrefix + m))
          case Ok(txs) =>
            var source := FindSource(g.nodes);
            shown.(addressTransactions := txs, showingAddressTransactions := true,
                   focusedNode := if source.Some? then source else v.focusedNode)
  }

  /** The state after `handleResetFocus`. */
  function FocusReset(v: View): View {
    v.(focusedNode := None, addressTransactions := [], addressNetworkData := None,
       showingAddressTransactions := false,
       network := if v.networkData.Some? then v.networkData else v.network)
  }

  /** The state after `handleNodeClick`, given what the transactions request and
      then the network request between the two addresses answer. */
  function Clicked(v: View, node: Node, transactions: Result<seq<Tx>, string>,
                   network: Result<Option<RawNetwork>, string>): View
  {
    if v.focusedNode.Some? && v.focusedNode.value.id == node.id then FocusReset(v)
    else
      var w := v.(focusedNode := Some(node), transactionPage := 0, loading := false);
      match transactions
      case Err(m) => w.(error := Some(AddressDataFailedPrefix + m))
      case Ok(txs) =>
        match network
        case Err(m) => w.(error := Some(AddressDataFailedPrefix + m))
        case Ok(data) =>
          var drawn :=
            if HasLists(data) then
              var g := Prepared(data.value.nodes.value, data.value.links.value);
              w.(addressNetworkData := Some(g), network := Some(g))
            else w;
          drawn.(addressTransactions := txs, showingAddressTransactions := true)
  }

  /** The state after the view-mode toggle, once its deferred redraw has run. */
  function ModeSelected(v: View, mode: Option<string>): View {
    if mode.None? then v
    else v.(visualizationMode := mode.value,
            network := if v.networkData.Some? then v.networkData else v.network)
  }

  /** A search without an address sets the error, leaves everything else as it
      was and does not depend on any answer: nothing is requested. */
  lemma SearchWithoutAddress(v: View, n1: Result<RawNetwork, string>, t1: Result<seq<Tx>, string>,
                             n2: Result<RawNetwork, string>, t2: Result<seq<Tx>, string>)
    ensures Searched(v, "", n1, t1) == v.(error := Some(AddressRequired))
    ensures Searched(v, "", n1, t1) == Searched(v, "", n2, t2)
  {
  }

  /** A failed request or an unusable answer sets the error and leaves no graph
      displayed; the saved full graph and the transaction panel are kept. */
  lemma SearchFailureShowsNothing(v: View, address: string, network: Result<RawNetwork, string>,
                                  transactions: Result<seq<Tx>, string>)
    requires address != "" && (network.Err? || !Usable(network.value))
    ensures var w := Searched(v, address, network, transactions);
      && w.network.None? && !w.loading
      && w.error == Some(if network.Err? then NetworkFailedPrefix + network.error else InvalidNetworkData)
      && w.networkData == v.networkData && w.focusedNode == v.focusedNode
      && w.addressTransactions == v.addressTransactions
      && w.showingAddressTransactions == v.showingAddressTransactions
  {
  }

  /** A usable answer is displayed and saved as the same normalised graph. A
      failing transaction request afterwards only sets the error; a successful
      one fills the panel and focuses the source node when there is one. */
  lemma SearchShowsNetwork(v: View, address: string, data: RawNetwork, transactions: Result<seq<Tx>, string>)
    requires address != "" && Usable(data)
    ensures var w := Searched(v, address, Ok(data), transactions);
      && w.network == w.networkData == Some(Prepared(data.nodes.value, data.links.value))
      && !w.loading
      && (transactions.Err? ==>
            && w.error == Some(TransactionsFailedPrefix + transactions.error)
            && w.focusedNode == v.focusedNode
            && w.addressTransactions == v.addressTransactions
            && w.showingAddressTransactions == v.showingAddressTransactions)
      && (transactions.Ok? ==>
            && w.error.None? && w.addressTransactions == transactions.value && w.showingAddressTransactions
            && (w.focusedNode == v.focusedNode ||
                (w.focusedNode.Some? && w.focusedNode.value in w.network.value.nodes
                 && w.focusedNode.value.kind == "source")))
  {
    var g := Prepared(data.nodes.value, data.links.value);
    FindSourceMeaning(g.nodes);
  }

  /** Clicking the focused node again is a reset. */
  lemma ClickOnFocusedResets(v: View, node: Node, transactions: Result<seq<Tx>, string>,
                             network: Result<Option<RawNetwork>, string>)
    requires v.focusedNode.Some? && v.focusedNode.value.id == node.id
    ensures Clicked(v, node, transactions, network) == FocusReset(v)
  {
  }

  /** A reset clears the focus, the panel and the drill-down data, and shows the
      saved full graph again when there is one. */
  lemma FocusResetMeaning(v: View)
    ensures var w := FocusReset(v);
      && w.focusedNode.None? && w.addressTransactions == [] && w.addressNetworkData.None?
      && !w.showingAddressTransactions
      && (v.networkData.Some? ==> w.network == v.networkData)
      && (v.networkData.None? ==> w.network == v.network)
      && w.networkData == v.networkData && w.error == v.error && w.loading == v.loading
  {
  }

  /** Clicking another node focuses it on the first page of its transactions.
      When a request fails only the error changes besides; otherwise the panel
      shows the transactions, and the drill-down graph, when it has both lists,
      replaces the displayed one. */
  lemma ClickOnOtherNode(v: View, node: Node, transactions: Result<seq<Tx>, string>,
                         network: Result<Option<RawNetwork>, string>)
    requires !(v.focusedNode.Some? && v.focusedNode.value.id == node.id)
    ensures var w := Clicked(v, node, transactions, network);
      && w.focusedNode == Some(node) && w.transactionPage == 0 && !w.loading
      && w.networkData == v.networkData
      && (transactions.Err? || network.Err? ==>
            && w.error == Some(AddressDataFailedPrefix + (if transactions.Err? then transactions.error
                                                          else network.error))
            && w.network == v.network && w.addressNetworkData == v.addressNetworkData
            && w.addressTransactions == v.addressTransactions
            && w.showingAddressTransactions == v.showingAddressTransactions)
      && (transactions.Ok? && network.Ok? ==>
            && w.error == v.error
            && w.addressTransactions == transactions.value && w.showingAddressTransactions
            && (HasLists(network.value) ==>
                  w.network == w.addressNetworkData
                  == Some(Prepared(network.value.value.nodes.value, network.value.value.links.value)))
            && (!HasLists(network.value) ==>
                  w.network == v.network && w.addressNetworkData == v.addressNetworkData))
  {
  }

  /** Selecting no view mode changes nothing; selecting one shows the saved full
      graph again when there is one. */
  lemma ModeSelectedMeaning(v: View, mode: Option<string>)
    ensures mode.None? ==> ModeSelected(v, mode) == v
    ensures mode.Some? ==>
              && ModeSelected(v, mode).visualizationMode == mode.value
              && (v.networkData.Some? ==> ModeSelected(v, mode).network == v.networkData)
  {
  }

  /** The page starts consistent. */
  lemma InitialConsistent()
    ensures Consistent(Initial())
  {
  }

  /** A search keeps the page consistent. */
  lemma SearchKeepsConsistent(v: View, address: string, network: Result<RawNetwork, string>,
                              transactions: Result<seq<Tx>, string>)
    requires Consistent(v)
    ensures Consistent(Searched(v, address, network, transactions))
  {
    if address != "" && network.Ok? && Usable(network.value) {
      var data := network.value;
      NormalizePreserves(data.nodes.value, data.links.value);
      var g := Prepared(data.nodes.value, data.links.value);
      FindSourceMeaning(g.nodes);
    }
  }

  /** A click, a reset and a view-mode change keep the page consistent. */
  lemma ClickKeepsConsistent(v: View, node: Node, transactions: Result<seq<Tx>, string>,
                             network: Result<Option<RawNetwork>, string>, mode: Option<string>)
    requires Consistent(v)
    ensures Consistent(FocusReset(v))
    ensures Consistent(Clicked(v, node, transactions, network))
    ensures Consistent(ModeSelected(v, mode))
  {
    if network.Ok? && HasLists(network.value) {
      NormalizePreserves(network.value.value.nodes.value, network.value.value.links.value);
    }
  }

  /** The page, with the state fields its handlers set. */
  class NetworkPage {
    var network: Option<Graph>
    var networkData: Option<Graph>
    var focusedNode: Option<Node>
    var addressTransactions: seq<Tx>
    var addressNetworkData: Option<Graph>
    var showingAddressTransactions: bool
    var transactionPage: nat
    var loading: bool
    var error: Option<string>
    var visualizationMode: string

    function State(): View
      reads this
    {
      View(network, networkData, focusedNode, addressTransactions, addressNetworkData,
           showingAddressTransactions, transactionPage, loading, error, visualizationMode)
    }

    constructor ()
      ensures State() == Initial()
    {
      network := None;
      networkData := None;
      focusedNode := None;
      addressTransactions := [];
      addressNetworkData := None;
      showingAddressTransactions := false;
      transactionPage := 0;
      loading := false;
      error := None;
      visualizationMode := "center";
    }

    /** `handleSearch`. */
    method Search(address: string, getNetwork: Result<RawNetwork, string>,
                  getTransactions: Result<seq<Tx>, string>)
      modifies this
      ensures State() == Searched(old(State()), address, getNetwork, getTransactions)
    {
      if address == "" {
        error := Some(AddressRequired);
        return;
      }
      loading := true;
      error := None;
      network := None;
      if getNetwork.Err? {
        error := Some(NetworkFailedPrefix + getNetwork.error);
        loading := false;
        return;
      }
      var data := getNetwork.value;
      if data.nodes.None? || data.links.None? || |data.nodes.value| == 0 {
        error := Some(InvalidNetworkData);
        loading := false;
        return;
      }
      var preparedData := Graph(NormalizeNodes(data.nodes.value), NormalizeLinks(data.links.value));
      assert Usable(data) && preparedData == Prepared(data.nodes.value, data.links.value);
      network := Some(preparedData);
      networkData := Some(preparedData);
      if getTransactions.Ok? {
        addressTransactions := getTransactions.value;
        showingAddressTransactions := true;
        var sourceNode := FindSource(preparedData.nodes);
        if sourceNode.Some? {
          focusedNode := sourceNode;
        }
      } else {
        error := Some(TransactionsFailedPrefix + getTransactions.error);
      }
      loading := false;
    }

    /** `handleResetFocus`. */
    method ResetFocus()
      modifies this
      ensures State() == FocusReset(old(State()))
    {
      focusedNode := None;
      addressTransactions := [];
      addressNetworkData := None;
      showingAddressTransactions := false;
      if networkData.Some? {
        network := networkData;
      }
    }

    /** `handleNodeClick`. */
    method NodeClick(node: Node, getTransactions: Result<seq<Tx>, string>,
                     getNetwork: Result<Option<RawNetwork>, string>)
      modifies this
      ensures State() == Clicked(old(State()), node, getTransactions, getNetwork)
    {
      if focusedNode.Some? && focusedNode.value.id == node.id {
        ResetFocus();
        return;
      }
      focusedNode := Some(node);
      transactionPage := 0;
      loading := true;
      if getTransactions.Err? {
        error := Some(AddressDataFailedPrefix + getTransactions.error);
        loading := false;
        return;
      }
      var transactions := getTransactions.value;
      if getNetwork.Err? {
        error := Some(AddressDataFailedPrefix + getNetwork.error);
        loading := false;
        return;
      }
      var data := getNetwork.value;
      if data.Some? && data.value.nodes.Some? && data.value.links.Some? {
        var preparedData := Graph(NormalizeNodes(data.value.nodes.value), NormalizeLinks(data.value.links.value));
        assert HasLists(data) && preparedData == Prepared(data.value.nodes.value, data.value.links.value);
        addressNetworkData := Some(preparedData);
        network := Some(preparedData);
      }
      addressTransactions := transactions;
      showingAddressTransactions := true;
      loading := false;
    }

    /** The `onChange` of the view-mode toggle; the redraw it defers is applied
        at once. */
    method SelectMode(newMode: Option<string>)
      modifies this
      ensures State() == ModeSelected(old(State()), newMode)
    {
      if newMode.Some? {
        visualizationMode := newMode.value;
        if networkData.Some? {
          network := networkData;
        }
      }
    }
  }
}
