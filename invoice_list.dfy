/**
 * The invoice list page: the list is kept newest first, filtered by status
 * and by a case-insensitive search, and replaced wholesale after a delete or
 * a status change.
 */
module InvoiceList {
  import opened InvoiceSchema
  import JsString
  import Seqs

  // ---------------------------------------------------------------------
  // Newest first
  // ---------------------------------------------------------------------

  predicate SortedByDateDesc(s: seq<Invoice>)
  {
    forall i, j :: 0 <= i < j < |s| ==> s[i].invoiceDate >= s[j].invoiceDate
  }

  /** Puts x in front of the first invoice that is not newer than it. */
  function Insert(x: Invoice, s: seq<Invoice>): (r: seq<Invoice>)
    ensures multiset(r) == multiset(s) + multiset{x}
  {
    if s == [] || s[0].invoiceDate <= x.invoiceDate then [x] + s
    else
      assert s == [s[0]] + s[1..];
      [s[0]] + Insert(x, s[1..])
  }

  /** An upper bound on the dates of x and of s bounds the dates after the insertion. */
  lemma {:induction false} InsertBounded(x: Invoice, s: seq<Invoice>, newest: int)
    requires x.invoiceDate <= newest
    requires forall k :: 0 <= k < |s| ==> s[k].invoiceDate <= newest
    ensures forall k :: 0 <= k < |Insert(x, s)| ==> Insert(x, s)[k].invoiceDate <= newest
  {
    if s != [] && s[0].invoiceDate > x.invoiceDate {
      InsertBounded(x, s[1..], newest);
    }
  }

  /** A newest-first list stays newest first under a head that is not older than any of it. */
  lemma ConsSorted(head: Invoice, s: seq<Invoice>)
    requires SortedByDateDesc(s)
    requires forall k :: 0 <= k < |s| ==> s[k].invoiceDate <= head.invoiceDate
    ensures SortedByDateDesc([head] + s)
  {
    var r := [head] + s;
    forall i, j | 0 <= i < j < |r| ensures r[i].invoiceDate >= r[j].invoiceDate {
      if i > 0 {
        assert r[i] == s[i - 1] && r[j] == s[j - 1];
      }
    }
  }

  /** Inserting into a newest-first list keeps it newest first. */
  lemma {:induction false} InsertSorted(x: Invoice, s: seq<Invoice>)
    requires SortedByDateDesc(s)
    ensures SortedByDateDesc(Insert(x, s))
  {
    if s == [] || s[0].invoiceDate <= x.invoiceDate {
      ConsSorted(x, s);
    } else {
      InsertSorted(x, s[1..]);
      InsertBounded(x, s[1..], s[0].invoiceDate);
      ConsSorted(s[0], Insert(x, s[1..]));
    }
  }

  /** The comparator `new Date(b.invoiceDate) - new Date(a.invoiceDate)`: newest first. */
  function SortByDateDesc(s: seq<Invoice>): (r: seq<Invoice>)
    ensures SortedByDateDesc(r)
    ensures multiset(r) == multiset(s)
  {
    if s == [] then []
    else
      var rest := SortByDateDesc(s[1..]);
      InsertSorted(s[0], rest);
      assert s == [s[0]] + s[1..];
      Insert(s[0], rest)
  }

  // ---------------------------------------------------------------------
  // Status and search filters
  // ---------------------------------------------------------------------

  /** The first filter: every invoice under "All", otherwise those whose status is the one selected. */
  predicate MatchesStatus(inv: Invoice, statusFilter: string)
  {
    statusFilter == "All" || inv.status == statusFilter
  }

  /** The second filter: the lower-cased term occurs in the lower-cased number or client name. */
  predicate MatchesSearch(inv: Invoice, searchTerm: string)
  {
    || JsString.Includes(JsString.ToLower(inv.invoiceNumber), JsString.ToLower(searchTerm))
    || JsString.Includes(JsString.ToLower(inv.billTo.clientName), JsString.ToLower(searchTerm))
  }

  function StatusTest(statusFilter: string): Invoice -> bool
  {
    (inv: Invoice) => MatchesStatus(inv, statusFilter)
  }

  function SearchTest(searchTerm: string): Invoice -> bool
  {
    (inv: Invoice) => MatchesSearch(inv, searchTerm)
  }

  /** `filteredInvoices`: the status filter, then the search filter. */
  function FilterInvoices(invoices: seq<Invoice>, statusFilter: string, searchTerm: string): (r: seq<Invoice>)
    ensures forall inv :: inv in r <==> inv in invoices && MatchesStatus(inv, statusFilter) && MatchesSearch(inv, searchTerm)
  {
    Seqs.Filter(Seqs.Filter(invoices, StatusTest(statusFilter)), SearchTest(searchTerm))
  }

  /** The filtered list keeps the order of the full list. */
  lemma FilteredIsSubsequence(invoices: seq<Invoice>, statusFilter: string, searchTerm: string)
    ensures Seqs.IsSubsequence(FilterInvoices(invoices, statusFilter, searchTerm), invoices)
  {
    var byStatus := Seqs.Filter(invoices, StatusTest(statusFilter));
    Seqs.FilterIsSubsequence(invoices, StatusTest(statusFilter));
    Seqs.FilterIsSubsequence(byStatus, SearchTest(searchTerm));
    Seqs.SubsequenceTransitive(FilterInvoices(invoices, statusFilter, searchTerm), byStatus, invoices);
  }

  /** Under "All" with an empty search box the whole list is shown. */
  lemma ShowAllByDefault(invoices: seq<Invoice>)
    ensures FilterInvoices(invoices, "All", "") == invoices
  {
    Seqs.FilterAll(invoices, StatusTest("All"));
    assert JsString.ToLower("") == "";
    forall k | 0 <= k < |invoices| ensures SearchTest("")(invoices[k]) {
      JsString.IncludesEmpty(JsString.ToLower(invoices[k].invoiceNumber));
    }
    Seqs.FilterAll(invoices, SearchTest(""));
  }

  // ---------------------------------------------------------------------
  // Status toggle, delete and replace
  // ---------------------------------------------------------------------

  /** The status the toggle asks for: "Unpaid" after "Paid", "Paid" after anything else. */
  function NextStatus(status: string): (r: string)
    ensures IsStatusName(r) && r != status
    ensures r == "Unpaid" <==> status == "Paid"
  {
    if status == "Paid" then "Unpaid" else "Paid"
  }

  /** Toggling twice gives back a stored status that is one of the two names. */
  lemma ToggleTwice(status: string)
    requires IsStatusName(status)
    ensures NextStatus(NextStatus(status)) == status
  {
  }

  function OtherId(id: Id): Invoice -> bool
  {
    (inv: Invoice) => inv.id != id
  }

  /** The list after a delete: every invoice with another id, in the same order. */
  function DeleteById(invoices: seq<Invoice>, id: Id): (r: seq<Invoice>)
    ensures forall inv :: inv in r <==> inv in invoices && inv.id != id
  {
    Seqs.Filter(invoices, OtherId(id))
  }

  /** A delete keeps every copy of the other invoices, in order, and no copy of the deleted one. */
  lemma DeleteKeepsOthers(invoices: seq<Invoice>, id: Id)
    ensures Seqs.IsSubsequence(DeleteById(invoices, id), invoices)
    ensures forall inv :: multiset(DeleteById(invoices, id))[inv] == if inv.id != id then multiset(invoices)[inv] else 0
  {
    Seqs.FilterIsSubsequence(invoices, OtherId(id));
    Seqs.FilterCounts(invoices, OtherId(id));
  }

  /** The list after a status change: the server's copy in place of each invoice with its id. */
  function ReplaceById(invoices: seq<Invoice>, updated: Invoice): (r: seq<Invoice>)
    ensures |r| == |invoices|
    ensures forall k :: 0 <= k < |r| ==> r[k].id == invoices[k].id
    ensures forall k :: 0 <= k < |r| && invoices[k].id != updated.id ==> r[k] == invoices[k]
    ensures forall k :: 0 <= k < |r| && invoices[k].id == updated.id ==> r[k] == updated
  {
    seq(|invoices|, k requires 0 <= k < |invoices| => if invoices[k].id == updated.id then updated else invoices[k])
  }

  /** Applying the same server copy twice changes nothing more. */
  lemma ReplaceIdempotent(invoices: seq<Invoice>, updated: Invoice)
    ensures ReplaceById(ReplaceById(invoices, updated), updated) == ReplaceById(invoices, updated)
  {
  }

  /** When no invoice carries the id, the list is left as it is. */
  lemma ReplaceAbsentId(invoices: seq<Invoice>, updated: Invoice)
    requires forall k :: 0 <= k < |invoices| ==> invoices[k].id != updated.id
    ensures ReplaceById(invoices, updated) == invoices
  {
  }
}
