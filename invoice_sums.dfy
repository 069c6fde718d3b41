/**
 * Sums of stored invoice totals, as both the dashboard page and the summary
 * endpoint compute them with `reduce((acc, inv) => acc + inv.total, 0)`.
 * An invoice without a total adds `undefined`, which turns the sum into NaN
 * for good; None stands for that NaN.
 */
module InvoiceSums {
  import opened Wrappers
  import opened InvoiceSchema
  import Seqs

  /** `acc + inv.total` where either side may already be NaN. */
  function AddTotal(acc: Option<real>, total: Option<real>): (r: Option<real>)
    ensures r.Some? <==> acc.Some? && total.Some?
    ensures r.Some? ==> r.value == acc.value + total.value
  {
    match (acc, total)
    case (Some(a), Some(t)) => Some(a + t)
    case _ => None
  }

  /** The `reduce` over the totals, from the front, starting at 0. */
  function SumTotals(invoices: seq<Invoice>): Option<real>
  {
    if invoices == [] then Some(0.0)
    else AddTotal(SumTotals(invoices[..|invoices| - 1]), invoices[|invoices| - 1].total)
  }

  /** The sum is a number exactly when every invoice has a total. */
  lemma {:induction false} SumDefinedIffAllTotals(invoices: seq<Invoice>)
    ensures SumTotals(invoices).Some? <==> forall k :: 0 <= k < |invoices| ==> invoices[k].total.Some?
  {
    if invoices != [] {
      var init := invoices[..|invoices| - 1];
      SumDefinedIffAllTotals(init);
      assert forall k :: 0 <= k < |init| ==> init[k] == invoices[k];
    }
  }

  /** Appending an invoice adds its total. */
  lemma SumAppend(invoices: seq<Invoice>, inv: Invoice)
    ensures SumTotals(invoices + [inv]) == AddTotal(SumTotals(invoices), inv.total)
  {
    assert (invoices + [inv])[..|invoices|] == invoices;
  }

  /** Adding t before or after b gives the same sum. */
  lemma AddTotalSwap(a: Option<real>, t: Option<real>, b: Option<real>)
    ensures AddTotal(AddTotal(a, t), b) == AddTotal(AddTotal(a, b), t)
    ensures AddTotal(a, AddTotal(b, t)) == AddTotal(AddTotal(a, b), t)
  {
  }

  predicate IsPaid(inv: Invoice)
  {
    inv.status == "Paid"
  }

  function PaidTest(): Invoice -> bool
  {
    (inv: Invoice) => IsPaid(inv)
  }

  function UnpaidTest(): Invoice -> bool
  {
    (inv: Invoice) => !IsPaid(inv)
  }

  /** `invoices.filter((inv) => inv.status === "Paid")` */
  function PaidInvoices(invoices: seq<Invoice>): (r: seq<Invoice>)
    ensures forall inv :: inv in r <==> inv in invoices && IsPaid(inv)
  {
    Seqs.Filter(invoices, PaidTest())
  }

  /** `invoices.filter((inv) => inv.status !== "Paid")` */
  function UnpaidInvoices(invoices: seq<Invoice>): (r: seq<Invoice>)
    ensures forall inv :: inv in r <==> inv in invoices && !IsPaid(inv)
  {
    Seqs.Filter(invoices, UnpaidTest())
  }

  /**
   * Appending an invoice to the list: a "Paid" one adds its total to the
   * paid sum and leaves the other sum alone, any other one the reverse.
   */
  lemma PaidSumsStep(invoices: seq<Invoice>, inv: Invoice)
    ensures IsPaid(inv) ==>
              && SumTotals(PaidInvoices(invoices + [inv])) == AddTotal(SumTotals(PaidInvoices(invoices)), inv.total)
              && SumTotals(UnpaidInvoices(invoices + [inv])) == SumTotals(UnpaidInvoices(invoices))
    ensures !IsPaid(inv) ==>
              && SumTotals(PaidInvoices(invoices + [inv])) == SumTotals(PaidInvoices(invoices))
              && SumTotals(UnpaidInvoices(invoices + [inv])) == AddTotal(SumTotals(UnpaidInvoices(invoices)), inv.total)
  {
    var s := invoices + [inv];
    assert s[..|s| - 1] == invoices;
    if IsPaid(inv) {
      assert PaidInvoices(s) == PaidInvoices(invoices) + [inv];
      assert UnpaidInvoices(s) == UnpaidInvoices(invoices);
      SumAppend(PaidInvoices(invoices), inv);
    } else {
      assert PaidInvoices(s) == PaidInvoices(invoices);
      assert UnpaidInvoices(s) == UnpaidInvoices(invoices) + [inv];
      SumAppend(UnpaidInvoices(invoices), inv);
    }
  }

  /** Every invoice is counted once, as paid or as not paid. */
  lemma {:induction false} PartitionCounts(invoices: seq<Invoice>)
    ensures |PaidInvoices(invoices)| + |UnpaidInvoices(invoices)| == |invoices|
  {
    if invoices != [] {
      PartitionCounts(invoices[..|invoices| - 1]);
    }
  }

  /** The paid sum and the unpaid sum add up to the sum of all totals, NaN included. */
  lemma {:induction false} PartitionSums(invoices: seq<Invoice>)
    ensures AddTotal(SumTotals(PaidInvoices(invoices)), SumTotals(UnpaidInvoices(invoices))) == SumTotals(invoices)
  {
    if invoices != [] {
      var init := invoices[..|invoices| - 1];
      var last := invoices[|invoices| - 1];
      PartitionSums(init);
      if IsPaid(last) {
        assert PaidInvoices(invoices) == PaidInvoices(init) + [last];
        assert UnpaidInvoices(invoices) == UnpaidInvoices(init);
        SumAppend(PaidInvoices(init), last);
        AddTotalSwap(SumTotals(PaidInvoices(init)), last.total, SumTotals(UnpaidInvoices(init)));
      } else {
        assert PaidInvoices(invoices) == PaidInvoices(init);
        assert UnpaidInvoices(invoices) == UnpaidInvoices(init) + [last];
        SumAppend(UnpaidInvoices(init), last);
        AddTotalSwap(SumTotals(PaidInvoices(init)), last.total, SumTotals(UnpaidInvoices(init)));
      }
      assert SumTotals(invoices) == AddTotal(SumTotals(init), last.total);
    }
  }
}
