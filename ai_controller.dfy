/**
 * The pure steps of the AI endpoints: the check on the text to parse, the
 * cleanup of the model's reply before `JSON.parse`, and the statistics the
 * dashboard summary is built from. The model calls themselves are inputs.
 */
module AiController {
  import opened Wrappers
  import opened InvoiceSchema
  import opened InvoiceSums
  import JsString

  datatype HttpError = HttpError(status: nat, message: string)

  // ---------------------------------------------------------------------
  // Reply cleanup
  // ---------------------------------------------------------------------

  const JsonFence: string := "```json"

  /** `.replace(/```json/g, "").replace(/```/g, "").trim()` */
  function CleanJson(reply: string): (r: string)
    ensures r != [] ==> !JsString.IsSpace(r[0]) && !JsString.IsSpace(r[|r| - 1])
  {
    JsString.Trim(JsString.RemoveAll(JsString.RemoveAll(reply, JsonFence), JsString.Fence))
  }

  /** No "```" survives the cleanup. */
  lemma CleanedHasNoFence(reply: string)
    ensures !JsString.Includes(CleanJson(reply), JsString.Fence)
  {
    var unfenced := JsString.RemoveAll(JsString.RemoveAll(reply, JsonFence), JsString.Fence);
    JsString.NoFenceAfterRemoval(JsString.RemoveAll(reply, JsonFence));
    var i, j :| && 0 <= i <= j <= |unfenced| && CleanJson(reply) == unfenced[i..j]
                && (forall k :: 0 <= k < i ==> JsString.IsSpace(unfenced[k]))
                && (forall k :: j <= k < |unfenced| ==> JsString.IsSpace(unfenced[k]));
    JsString.SliceExcludes(unfenced, JsString.Fence, i, j);
  }

  /** A reply without any backtick is only trimmed. */
  lemma NoBackticksOnlyTrimmed(reply: string)
    requires '`' !in reply
    ensures CleanJson(reply) == JsString.Trim(reply)
  {
    JsString.RemoveAllWithoutStart(reply, JsonFence);
    JsString.RemoveAllWithoutStart(reply, JsString.Fence);
  }

  /** A reply fenced as "```json" … "```" around text without backticks cleans up to that text, trimmed. */
  lemma JsonFencedReply(body: string)
    requires '`' !in body
    ensures CleanJson(JsonFence + body + JsString.Fence) == JsString.Trim(body)
  {
    var reply := JsonFence + body + JsString.Fence;
    assert reply[..|JsonFence|] == JsonFence;
    assert reply[|JsonFence|..] == body + JsString.Fence;
    JsString.RemoveAllKeepsPrefix(body, JsString.Fence, JsonFence);
    assert JsString.RemoveAll(JsString.Fence, JsonFence) == JsString.Fence;
    JsString.RemoveAllKeepsPrefix(body, JsString.Fence, JsString.Fence);
    assert JsString.Fence[..3] == JsString.Fence;
    assert JsString.RemoveAll(JsString.Fence, JsString.Fence) == [];
    assert body + [] == body;
  }

  /**
   * A reply fenced by bare "```" around text without backticks cleans up to
   * that text, trimmed, unless the text starts with "json" (which makes the
   * opening fence a "```json" one).
   */
  lemma BareFencedReply(body: string)
    requires '`' !in body
    requires !(|body| >= 4 && body[..4] == "json")
    ensures CleanJson(JsString.Fence + body + JsString.Fence) == JsString.Trim(body)
  {
    var reply := JsString.Fence + body + JsString.Fence;
    forall k | 0 <= k <= |reply| - |JsonFence|
      ensures !JsString.OccursAt(reply, JsonFence, k)
    {
      if k == 0 && |body| >= 4 {
        assert reply[3..7] == body[..4];
        assert reply[..7][3..7] == reply[3..7];
        assert JsonFence[3..7] == "json";
      } else if k == 0 {
        assert reply[3 + |body|] == '`';
        assert reply[..7][3 + |body|] == reply[3 + |body|];
        assert JsonFence[3 + |body|] != '`';
      } else {
        assert reply[k + 2] == body[k - 1];
        assert body[k - 1] in body;
        assert reply[k..k + 7][2] == reply[k + 2];
      }
    }
    JsString.RemoveAllAbsent(reply, JsonFence);
    assert reply[..3] == JsString.Fence;
    assert reply[3..] == body + JsString.Fence;
    JsString.RemoveAllKeepsPrefix(body, JsString.Fence, JsString.Fence);
    assert JsString.Fence[..3] == JsString.Fence;
    assert JsString.RemoveAll(JsString.Fence, JsString.Fence) == [];
    assert body + [] == body;
  }

  // ---------------------------------------------------------------------
  // parseInvoiceFromText
  // ---------------------------------------------------------------------

  /**
   * `parseInvoiceFromText` up to `JSON.parse`: a missing or empty `text` is
   * refused with 400 before anything else; otherwise the cleaned reply of
   * the model (given here as `reply`) is what gets parsed.
   */
  function ParseInvoiceFromText(text: Option<string>, reply: string): (r: Result<string, HttpError>)
    ensures r.Err? <==> text.None? || text.value == ""
    ensures r.Err? ==> r.error == HttpError(400, "Text is required")
    ensures r.Ok? ==> r.value == CleanJson(reply)
    ensures r.Ok? ==> !JsString.Includes(r.value, JsString.Fence)
  {
    if text.None? || text.value == "" then Err(HttpError(400, "Text is required"))
    else
      CleanedHasNoFence(reply);
      Ok(CleanJson(reply))
  }

  /** The 400 does not depend on the reply: it comes before the model is asked. */
  lemma MissingTextIgnoresReply(reply1: string, reply2: string)
    ensures ParseInvoiceFromText(None, reply1) == ParseInvoiceFromText(Some(""), reply2)
  {
  }

  // ---------------------------------------------------------------------
  // getDashboardSummary
  // ---------------------------------------------------------------------

  /** One entry of "Recent invoices (last 5)": number, total and status. */
  datatype RecentLine = RecentLine(invoiceNumber: string, total: real, status: string)

  /** The figures of `dataSummary`; None stands for a NaN sum. */
  datatype Summary = Summary(
    totalInvoices: nat,
    paidCount: nat,
    unpaidCount: nat,
    totalRevenue: Option<real>,
    totalOutstanding: Option<real>,
    recent: seq<RecentLine>)

  /** The recent entries; None when one of them has no total, where `inv.total.toFixed(2)` throws. */
  function RecentLines(recent: seq<Invoice>): (r: Option<seq<RecentLine>>)
    ensures r.Some? <==> forall k :: 0 <= k < |recent| ==> recent[k].total.Some?
    ensures r.Some? ==> |r.value| == |recent|
    ensures r.Some? ==> forall k :: 0 <= k < |recent| ==>
              && r.value[k].invoiceNumber == recent[k].invoiceNumber
              && Some(r.value[k].total) == recent[k].total
              && r.value[k].status == recent[k].status
  {
    if exists k :: 0 <= k < |recent| && recent[k].total.None? then None
    else Some(seq(|recent|, k requires 0 <= k < |recent| => RecentLine(recent[k].invoiceNumber, recent[k].total.value, recent[k].status)))
  }

  /** `getDashboardSummary` up to the prompt, for the invoices of the requesting user. */
  function DashboardSummary(invoices: seq<Invoice>): (r: Result<Summary, HttpError>)
    ensures invoices == [] ==> r == Err(HttpError(404, "No invoices found"))
    ensures invoices != [] && r.Err? ==> r.error == HttpError(500, "Failed to parse invoice")
    ensures r.Ok? ==> r.value.totalInvoices == |invoices| && r.value.paidCount + r.value.unpaidCount == |invoices|
    ensures r.Ok? ==> r.value.paidCount == |PaidInvoices(invoices)| && r.value.unpaidCount == |UnpaidInvoices(invoices)|
    ensures r.Ok? ==> r.value.totalRevenue == SumTotals(PaidInvoices(invoices))
    ensures r.Ok? ==> r.value.totalOutstanding == SumTotals(UnpaidInvoices(invoices))
    ensures r.Ok? ==> AddTotal(r.value.totalRevenue, r.value.totalOutstanding) == SumTotals(invoices)
    ensures r.Ok? ==> |r.value.recent| == if |invoices| < 5 then |invoices| else 5
    ensures r.Ok? ==> forall k :: 0 <= k < |r.value.recent| ==>
              && r.value.recent[k].invoiceNumber == invoices[k].invoiceNumber
              && Some(r.value.recent[k].total) == invoices[k].total
              && r.value.recent[k].status == invoices[k].status
  {
    if |invoices| == 0 then Err(HttpError(404, "No invoices found"))
    else
      var paid := PaidInvoices(invoices);
      var unpaid := UnpaidInvoices(invoices);
      var recent := invoices[..if |invoices| < 5 then |invoices| else 5];
      match RecentLines(recent)
      case None => Err(HttpError(500, "Failed to parse invoice"))
      case Some(lines) =>
        PartitionCounts(invoices);
        PartitionSums(invoices);
        Ok(Summary(|invoices|, |paid|, |unpaid|, SumTotals(paid), SumTotals(unpaid), lines))
  }

  /** The summary fails exactly when one of the first five stored invoices has no total. */
  lemma SummaryFailsOnMissingRecentTotal(invoices: seq<Invoice>)
    requires invoices != []
    ensures DashboardSummary(invoices).Err? <==> exists k :: 0 <= k < |invoices| && k < 5 && invoices[k].total.None?
  {
    var recent := invoices[..if |invoices| < 5 then |invoices| else 5];
    assert forall k :: 0 <= k < |recent| ==> recent[k] == invoices[k];
  }
}
