/** The dashboard page: three statistics over the fetched invoices and the five most recent ones. */
module Dashboard {
  import opened Wrappers
  import opened InvoiceSchema
  import opened InvoiceSums
  import InvoiceList

  /** `stats`: how many invoices, and the sums of the paid and of the other totals (None for NaN). */
  datatype Stats = Stats(totalInvoices: nat, totalPaid: Option<real>, totalUnpaid: Option<real>)

  /** The statistics the page shows for the fetched invoices. */
  function ComputeStats(invoices: seq<Invoice>): (st: Stats)
    ensures st.totalInvoices == |invoices|
    ensures st.totalPaid == SumTotals(PaidInvoices(invoices))
    ensures st.totalUnpaid == SumTotals(UnpaidInvoices(invoices))
    ensures AddTotal(st.totalPaid, st.totalUnpaid) == SumTotals(invoices)
    ensures st.totalPaid.Some? <==> forall k :: 0 <= k < |invoices| && IsPaid(invoices[k]) ==> invoices[k].total.Some?
  {
    PartitionSums(invoices);
    PaidTotalsDefined(invoices);
    Stats(|invoices|, SumTotals(PaidInvoices(invoices)), SumTotals(UnpaidInvoices(invoices)))
  }

  /** The paid sum is a number exactly when every paid invoice has a total. */
  lemma PaidTotalsDefined(invoices: seq<Invoice>)
    ensures SumTotals(PaidInvoices(invoices)).Some? <==> forall k :: 0 <= k < |invoices| && IsPaid(invoices[k]) ==> invoices[k].total.Some?
  {
    var paid := PaidInvoices(invoices);
    SumDefinedIffAllTotals(paid);
    if forall k :: 0 <= k < |invoices| && IsPaid(invoices[k]) ==> invoices[k].total.Some? {
      forall j | 0 <= j < |paid| ensures paid[j].total.Some? {
        assert paid[j] in paid;
        var k :| 0 <= k < |invoices| && invoices[k] == paid[j];
      }
    } else {
      var k :| 0 <= k < |invoices| && IsPaid(invoices[k]) && invoices[k].total.None?;
      assert invoices[k] in paid;
      var j :| 0 <= j < |paid| && paid[j] == invoices[k];
    }
  }

  /** `recentInvoices`: the fetched list sorted newest first, cut to its first five. */
  function RecentInvoices(invoices: seq<Invoice>): (r: seq<Invoice>)
    ensures |r| == if |invoices| < 5 then |invoices| else 5
    ensures InvoiceList.SortedByDateDesc(r)
    ensures multiset(r) <= multiset(invoices)
  {
    var sorted := InvoiceList.SortByDateDesc(invoices);
    var n := if |sorted| < 5 then |sorted| else 5;
    assert sorted == sorted[..n] + sorted[n..];
    assert multiset(sorted) == multiset(sorted[..n]) + multiset(sorted[n..]);
    sorted[..n]
  }

  /** Every invoice left out of the recent list is no newer than any invoice in it. */
  lemma RecentAreLatest(invoices: seq<Invoice>)
    ensures forall i, k :: 0 <= i < |RecentInvoices(invoices)| && 0 <= k < |invoices| && invoices[k] !in RecentInvoices(invoices) ==>
              invoices[k].invoiceDate <= RecentInvoices(invoices)[i].invoiceDate
  {
    var sorted := InvoiceList.SortByDateDesc(invoices);
    var recent := RecentInvoices(invoices);
    forall i, k | 0 <= i < |recent| && 0 <= k < |invoices| && invoices[k] !in recent
      ensures invoices[k].invoiceDate <= recent[i].invoiceDate
    {
      assert invoices[k] in multiset(sorted);
      var j :| 0 <= j < |sorted| && sorted[j] == invoices[k];
      assert forall m :: 0 <= m < |recent| ==> recent[m] == sorted[m];
      assert j >= |recent|;
      assert recent[i] == sorted[i];
    }
  }

  /** No invoices: zero statistics and nothing recent. */
  lemma EmptyDashboard()
    ensures ComputeStats([]) == Stats(0, Some(0.0), Some(0.0))
    ensures RecentInvoices([]) == []
  {
  }
}
