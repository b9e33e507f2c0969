/** The transaction table (`frontend/src/components/TransactionList.js`): one
    page of rows, the highlight of the searched address, and the pagination
    state it updates. */
module TransactionList {
  import opened Wrappers
  import opened Records
  import opened Text

  /** One rendered row: the transaction and whether its sender or its recipient
      is shown highlighted. */
  datatype RowView = RowView(tx: Tx, fromHighlighted: bool, toHighlighted: bool)

  /** The rendered table: the rows of the page, the unit chip and the
      pagination's `count`, `page` and `rowsPerPage`. */
  datatype Table = Table(rows: seq<RowView>, unit: string, count: nat, page: nat, rowsPerPage: nat)

  /** `s.slice(start, end)` for non-negative bounds: both clamp to the length,
      and an end before the start gives nothing. */
  function Slice<T>(s: seq<T>, start: nat, end: nat): seq<T> {
    var b := if start < |s| then start else |s|;
    var e := if end < |s| then end else |s|;
    if e <= b then [] else s[b..e]
  }

  /** `transactions.slice(page * rowsPerPage, page * rowsPerPage + rowsPerPage)`. */
  function PageRows(transactions: seq<Tx>, page: nat, rowsPerPage: nat): seq<Tx> {
    Slice(transactions, page * rowsPerPage, page * rowsPerPage + rowsPerPage)
  }

  /** A page is the contiguous run of rows starting at `page * rowsPerPage`, as
      long as `rowsPerPage` or as what remains, and empty past the end. */
  lemma PageRowsMeaning(transactions: seq<Tx>, page: nat, rowsPerPage: nat)
    ensures var start := page * rowsPerPage;
      var r := PageRows(transactions, page, rowsPerPage);
      && |r| == (if start >= |transactions| then 0
                 else if rowsPerPage < |transactions| - start then rowsPerPage
                 else |transactions| - start)
      && (forall i :: 0 <= i < |r| ==> r[i] == transactions[start + i])
  {
  }

  /** With a positive page size every row shows on exactly one page: row `k` is
      row `k % rowsPerPage` of page `k / rowsPerPage`. */
  lemma {:induction false} EveryRowOnItsPage(transactions: seq<Tx>, rowsPerPage: nat, k: nat)
    requires 0 < rowsPerPage && k < |transactions|
    ensures var r := PageRows(transactions, k / rowsPerPage, rowsPerPage);
      k % rowsPerPage < |r| && r[k % rowsPerPage] == transactions[k]
  {
    var page := k / rowsPerPage;
    var start := page * rowsPerPage;
    assert start + k % rowsPerPage == k;
    PageRowsMeaning(transactions, page, rowsPerPage);
  }

  /** The chip after the amount. */
  function Unit(blockchain: string): string {
    if blockchain == "bitcoin" then "BTC" else "ETH"
  }

  function RowFor(tx: Tx, address: string): RowView {
    RowView(tx, tx.fromAddress == address, tx.toAddress == address)
  }

  /** What the component renders: nothing for an empty list, otherwise the page
      of rows and a pagination over the whole list. */
  function Render(transactions: seq<Tx>, page: nat, rowsPerPage: nat, blockchain: string, address: string)
    : Option<Table>
  {
    if |transactions| == 0 then None
    else
      var rows := PageRows(transactions, page, rowsPerPage);
      Some(Table(seq(|rows|, i requires 0 <= i < |rows| => RowFor(rows[i], address)),
                 Unit(blockchain), |transactions|, page, rowsPerPage))
  }

  /** An empty list renders nothing; otherwise the pagination counts the whole
      list, not the page, and the rows are the page's transactions in order, an
      address highlighted exactly when it equals the searched one, letter case
      included. */
  lemma RenderMeaning(transactions: seq<Tx>, page: nat, rowsPerPage: nat, blockchain: string, address: string)
    ensures Render(transactions, page, rowsPerPage, blockchain, address).None? <==> transactions == []
    ensures Render(transactions, page, rowsPerPage, blockchain, address).Some? ==>
              var t := Render(transactions, page, rowsPerPage, blockchain, address).value;
              var rows := PageRows(transactions, page, rowsPerPage);
              && t.count == |transactions|
              && |t.rows| == |rows|
              && (forall i :: 0 <= i < |rows| ==>
                    && t.rows[i].tx == rows[i]
                    && (t.rows[i].fromHighlighted <==> rows[i].fromAddress == address)
                    && (t.rows[i].toHighlighted <==> rows[i].toAddress == address))
  {
  }

  /** An address equal to the searched one only up to letter case is not
      highlighted, unlike the statistics, which ignore case. */
  lemma HighlightIsCaseSensitive(tx: Tx, address: string)
    requires EqualsIgnoringCase(tx.fromAddress, address) && tx.fromAddress != address
    ensures !RowFor(tx, address).fromHighlighted
  {
  }

  /** The pagination state the table updates (its `page` and `rowsPerPage`
      props, owned by the page that shows it). */
  class Pagination {
    var page: nat
    var rowsPerPage: nat

    constructor ()
      ensures page == 0 && rowsPerPage == 10
    {
      page := 0;
      rowsPerPage := 10;
    }

    /** `handleChangePage`: exactly the requested page. */
    method ChangePage(newPage: nat)
      modifies this
      ensures page == newPage && rowsPerPage == old(rowsPerPage)
    {
      page := newPage;
    }

    /** `handleChangeRowsPerPage`: the new size, back to the first page.
        `value` is the chosen option, already read as an integer. */
    method ChangeRowsPerPage(value: nat)
      modifies this
      ensures rowsPerPage == value && page == 0
    {
      rowsPerPage := value;
      page := 0;
    }
  }
}
