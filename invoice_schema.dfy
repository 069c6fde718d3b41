/**
 * The stored invoice record: the item and invoice schemas, their required
 * fields, their defaults and the status enum. A schema is applied when a
 * document is built from a draft (the object handed to the model
 * constructor) and checked again when a document is saved.
 */
module InvoiceSchema {
  import opened Wrappers

  /** Document and user identifiers, compared as strings. */
  type Id = string

  /** The values of the `status` enum. */
  datatype Status = Paid | Unpaid

  function StatusName(s: Status): string
  {
    match s
    case Paid => "Paid"
    case Unpaid => "Unpaid"
  }

  /** The enum value a stored string stands for, if any. */
  function ParseStatus(name: string): (r: Option<Status>)
    ensures r.Some? ==> StatusName(r.value) == name
  {
    if name == "Paid" then Some(Paid) else if name == "Unpaid" then Some(Unpaid) else None
  }

  /** Exactly the two names of the enum parse, and each parses back to its value. */
  lemma StatusRoundTrip(s: Status, name: string)
    ensures ParseStatus(StatusName(s)) == Some(s)
    ensures ParseStatus(name).Some? <==> name == "Paid" || name == "Unpaid"
  {
  }

  predicate IsStatusName(name: string)
  {
    ParseStatus(name).Some?
  }

  const DefaultStatus: Status := Unpaid
  const DefaultPaymentTerms: string := "Net 15"
  const DefaultTaxPercentage: real := 0.0

  /** A required String path rejects a missing value and the empty string. */
  predicate Present(s: string)
  {
    s != ""
  }

  datatype Item = Item(name: string, unitPrice: real, quantity: real, taxPercentage: real, total: real)

  datatype BillFrom = BillFrom(businessName: string, email: string, address: string, phone: string)

  datatype BillTo = BillTo(clientName: string, email: string, address: string, phone: string)

  /**
   * A stored invoice. `status` holds the string assigned to the document;
   * the enum is a validation rule (see Conforms). `subtotal`, `taxTotal`
   * and `total` are optional numbers.
   */
  datatype Invoice = Invoice(
    id: Id,
    userId: Id,
    invoiceNumber: string,
    invoiceDate: int,
    dueDate: Option<int>,
    billFrom: BillFrom,
    billTo: BillTo,
    items: seq<Item>,
    notes: Option<string>,
    paymentTerms: string,
    status: string,
    subtotal: Option<real>,
    taxTotal: Option<real>,
    total: Option<real>)

  datatype SchemaError = ValidationError

  predicate BillFromComplete(b: BillFrom)
  {
    Present(b.businessName) && Present(b.email) && Present(b.address) && Present(b.phone)
  }

  predicate BillToComplete(b: BillTo)
  {
    Present(b.clientName) && Present(b.email) && Present(b.address) && Present(b.phone)
  }

  /** What every saved invoice satisfies: required paths present, a status from the enum. */
  predicate Conforms(inv: Invoice)
  {
    && Present(inv.invoiceNumber)
    && BillFromComplete(inv.billFrom)
    && BillToComplete(inv.billTo)
    && (forall k :: 0 <= k < |inv.items| ==> Present(inv.items[k].name))
    && IsStatusName(inv.status)
  }

  /** `save()`: validation of the whole document. */
  function Save(inv: Invoice): (r: Result<Invoice, SchemaError>)
    ensures r.Ok? ==> r.value == inv && inv.status in {"Paid", "Unpaid"}
    ensures r.Ok? <==> Conforms(inv)
  {
    if Conforms(inv) then Ok(inv) else Err(ValidationError)
  }

  // ---------------------------------------------------------------------
  // Building a document from a draft
  // ---------------------------------------------------------------------

  /** An item as handed to the schema: None is an undefined path. */
  datatype ItemDraft = ItemDraft(
    name: string, unitPrice: Option<real>, quantity: Option<real>,
    taxPercentage: Option<real>, total: Option<real>)

  predicate ItemDraftComplete(d: ItemDraft)
  {
    Present(d.name) && d.unitPrice.Some? && d.quantity.Some? && d.total.Some?
  }

  /** `itemSchema`: name, unitPrice, quantity and total are required; taxPercentage defaults to 0. */
  function ApplyItemSchema(d: ItemDraft): (r: Result<Item, SchemaError>)
    ensures r.Ok? <==> ItemDraftComplete(d)
    ensures r.Ok? ==> (r.value.name == d.name && Some(r.value.unitPrice) == d.unitPrice
                       && Some(r.value.quantity) == d.quantity && Some(r.value.total) == d.total)
    ensures r.Ok? ==> r.value.taxPercentage == (if d.taxPercentage.None? then DefaultTaxPercentage else d.taxPercentage.value)
  {
    if !ItemDraftComplete(d) then Err(ValidationError)
    else
      var tax := match d.taxPercentage case Some(t) => t case None => DefaultTaxPercentage;
      Ok(Item(d.name, d.unitPrice.value, d.quantity.value, tax, d.total.value))
  }

  /** The item schema applied to every item, in order; the first failure fails the list. */
  function ApplyItemsSchema(ds: seq<ItemDraft>): (r: Result<seq<Item>, SchemaError>)
    ensures r.Ok? <==> forall k :: 0 <= k < |ds| ==> ItemDraftComplete(ds[k])
    ensures r.Ok? ==> (|r.value| == |ds|
                       && forall k :: 0 <= k < |ds| ==> ApplyItemSchema(ds[k]) == Ok(r.value[k]))
  {
    if ds == [] then Ok([])
    else
      match ApplyItemSchema(ds[0])
      case Err(e) => Err(e)
      case Ok(first) =>
        match ApplyItemsSchema(ds[1..])
        case Err(e) => Err(e)
        case Ok(rest) => Ok([first] + rest)
  }

  /** The object handed to the model constructor; None is an undefined path. */
  datatype InvoiceDraft = InvoiceDraft(
    id: Id,
    userId: Id,
    invoiceNumber: string,
    invoiceDate: Option<int>,
    dueDate: Option<int>,
    billFrom: BillFrom,
    billTo: BillTo,
    items: seq<ItemDraft>,
    notes: Option<string>,
    paymentTerms: Option<string>,
    status: Option<string>,
    subtotal: Option<real>,
    taxTotal: Option<real>,
    total: Option<real>)

  /**
   * `invoiceSchema` applied to a draft and validated: `invoiceDate` defaults
   * to `now`, `paymentTerms` to "Net 15", `status` to "Unpaid".
   */
  function ApplyInvoiceSchema(d: InvoiceDraft, now: int): (r: Result<Invoice, SchemaError>)
    ensures r.Ok? <==>
      && Present(d.invoiceNumber)
      && BillFromComplete(d.billFrom)
      && BillToComplete(d.billTo)
      && (forall k :: 0 <= k < |d.items| ==> ItemDraftComplete(d.items[k]))
      && (d.status.None? || d.status.value in {"Paid", "Unpaid"})
    ensures r.Ok? ==> Conforms(r.value)
    ensures r.Ok? ==> r.value.status == (if d.status.None? then "Unpaid" else d.status.value)
    ensures r.Ok? ==> r.value.paymentTerms == (if d.paymentTerms.None? then "Net 15" else d.paymentTerms.value)
    ensures r.Ok? ==> r.value.invoiceDate == (if d.invoiceDate.None? then now else d.invoiceDate.value)
    ensures r.Ok? ==> (r.value.invoiceNumber == d.invoiceNumber && r.value.dueDate == d.dueDate
                       && r.value.billFrom == d.billFrom && r.value.billTo == d.billTo
                       && r.value.notes == d.notes)
    ensures r.Ok? ==> (r.value.id == d.id && r.value.userId == d.userId
                       && r.value.subtotal == d.subtotal && r.value.taxTotal == d.taxTotal
                       && r.value.total == d.total)
    ensures r.Ok? ==> (|r.value.items| == |d.items|
                       && forall k :: 0 <= k < |d.items| ==> ApplyItemSchema(d.items[k]) == Ok(r.value.items[k]))
  {
    var status := match d.status case Some(s) => s case None => StatusName(DefaultStatus);
    var terms := match d.paymentTerms case Some(t) => t case None => DefaultPaymentTerms;
    var date := match d.invoiceDate case Some(t) => t case None => now;
    match ApplyItemsSchema(d.items)
    case Err(e) => Err(e)
    case Ok(items) =>
      var inv := Invoice(d.id, d.userId, d.invoiceNumber, date, d.dueDate, d.billFrom, d.billTo,
                         items, d.notes, terms, status, d.subtotal, d.taxTotal, d.total);
      assert forall k :: 0 <= k < |items| ==> items[k].name == d.items[k].name;
      Save(inv)
  }
}
