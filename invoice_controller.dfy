/**
 * The invoice endpoints' logic: line-item normalisation with running
 * totals (shared by create and update), the create path, the ownership
 * check of get-by-id and update, and update's field merge on the loaded
 * document.
 */
module InvoiceController {
  import opened Wrappers
  import opened JsNumber
  import opened InvoiceSchema

  /** A line item as it arrives in a request body, before normalisation. */
  datatype RawItem = RawItem(
    name: string, unitPrice: RawNum, quantity: RawNum, taxPercentage: RawNum, taxPercent: RawNum)

  /** The errors the endpoints answer with: 404 "Invoice not found" and 500 "Server error". */
  datatype ApiError = NotFound | ServerError

  /**
   * Where the tax rate is read from: `taxPercentage` whenever that key is
   * defined (an explicit 0 included), the legacy `taxPercent` otherwise.
   * The source's `item.taxPercent || 0` is not written out: every value it
   * replaces by 0 coerces to 0 anyway.
   */
  function TaxSource(raw: RawItem): RawNum
  {
    if raw.taxPercentage != Absent then raw.taxPercentage else raw.taxPercent
  }

  /** The pre-tax amount of a line. */
  function LineSubtotal(it: Item): real
  {
    it.unitPrice * it.quantity
  }

  /** The tax of a line, at its own rate. */
  function LineTax(it: Item): real
  {
    LineSubtotal(it) * it.taxPercentage / 100.0
  }

  /** A stored line whose total is its subtotal plus its tax. */
  predicate Consistent(it: Item)
  {
    it.total == LineSubtotal(it) + LineTax(it)
  }

  /** One item of the `.map` callback: coerce the three numbers, compute the line total, keep the name. */
  function NormalizeItem(raw: RawItem): (it: Item)
    ensures it.name == raw.name
    ensures it.unitPrice == Coerce(raw.unitPrice) && it.quantity == Coerce(raw.quantity)
    ensures raw.taxPercentage != Absent ==> it.taxPercentage == Coerce(raw.taxPercentage)
    ensures raw.taxPercentage == Absent ==> it.taxPercentage == Coerce(raw.taxPercent)
    ensures Consistent(it)
  {
    var unitPrice := Coerce(raw.unitPrice);
    var quantity := Coerce(raw.quantity);
    var taxPercentage := Coerce(TaxSource(raw));
    var lineSubtotal := unitPrice * quantity;
    var lineTax := lineSubtotal * taxPercentage / 100.0;
    Item(raw.name, unitPrice, quantity, taxPercentage, lineSubtotal + lineTax)
  }

  /** The normalised list: one item per raw item, in the same order. */
  function NormalizeItems(raw: seq<RawItem>): (items: seq<Item>)
    ensures |items| == |raw|
    ensures forall k :: 0 <= k < |raw| ==> items[k] == NormalizeItem(raw[k])
  {
    if raw == [] then []
    else NormalizeItems(raw[..|raw| - 1]) + [NormalizeItem(raw[|raw| - 1])]
  }

  /** The sum of the line subtotals, accumulated front to back. */
  function SubtotalOf(items: seq<Item>): real
  {
    if items == [] then 0.0
    else SubtotalOf(items[..|items| - 1]) + LineSubtotal(items[|items| - 1])
  }

  /** The sum of the line taxes, accumulated front to back. */
  function TaxTotalOf(items: seq<Item>): real
  {
    if items == [] then 0.0
    else TaxTotalOf(items[..|items| - 1]) + LineTax(items[|items| - 1])
  }

  /**
   * The `.map` over the raw items with `subtotal +=` and `taxTotal +=` in the
   * callback, followed by `total = subtotal + taxTotal`.
   */
  method Normalize(raw: seq<RawItem>) returns (items: seq<Item>, subtotal: real, taxTotal: real, total: real)
    ensures items == NormalizeItems(raw)
    ensures subtotal == SubtotalOf(items) && taxTotal == TaxTotalOf(items)
    ensures total == subtotal + taxTotal
  {
    items, subtotal, taxTotal := [], 0.0, 0.0;
    var i := 0;
    while i < |raw|
      invariant 0 <= i <= |raw|
      invariant items == NormalizeItems(raw[..i])
      invariant subtotal == SubtotalOf(items) && taxTotal == TaxTotalOf(items)
    {
      var item := raw[i];
      var unitPrice := Coerce(item.unitPrice);
      var quantity := Coerce(item.quantity);
      var taxPercentage := Coerce(TaxSource(item));
      var lineSubtotal := unitPrice * quantity;
      var lineTax := lineSubtotal * taxPercentage / 100.0;
      var lineTotal := lineSubtotal + lineTax;
      subtotal := subtotal + lineSubtotal;
      taxTotal := taxTotal + lineTax;
      items := items + [Item(item.name, unitPrice, quantity, taxPercentage, lineTotal)];
      assert Item(item.name, unitPrice, quantity, taxPercentage, lineTotal) == NormalizeItem(raw[i]);
      assert raw[..i + 1][..i] == raw[..i];
      assert NormalizeItems(raw[..i + 1]) == NormalizeItems(raw[..i]) + [NormalizeItem(raw[i])];
      i := i + 1;
    }
    assert raw[..i] == raw;
    total := subtotal + taxTotal;
  }

  // ---------------------------------------------------------------------
  // Properties of normalisation
  // ---------------------------------------------------------------------

  /** An empty item list gives no items and zero totals. */
  lemma EmptyItems()
    ensures NormalizeItems([]) == [] && SubtotalOf([]) == 0.0 && TaxTotalOf([]) == 0.0
  {
  }

  /** Each line total is the unit price times the quantity, scaled up by the tax rate. */
  lemma LineTotalFactored(raw: RawItem)
    ensures var it := NormalizeItem(raw);
            it.total == it.unitPrice * it.quantity * (1.0 + it.taxPercentage / 100.0)
  {
  }

  /** Sums over a concatenation split into the sums of the parts. */
  lemma {:induction false} SumsOfConcat(a: seq<Item>, b: seq<Item>)
    ensures SubtotalOf(a + b) == SubtotalOf(a) + SubtotalOf(b)
    ensures TaxTotalOf(a + b) == TaxTotalOf(a) + TaxTotalOf(b)
    decreases |b|
  {
    if b == [] {
      assert a + b == a;
    } else {
      var n := |b| - 1;
      assert (a + b)[..|a + b| - 1] == a + b[..n];
      SumsOfConcat(a, b[..n]);
    }
  }

  /** A stored item read back as a raw item: every number present, no legacy key. */
  function ItemToRaw(it: Item): RawItem
  {
    RawItem(it.name, Num(it.unitPrice), Num(it.quantity), Num(it.taxPercentage), Absent)
  }

  function StoredAsRaw(items: seq<Item>): seq<RawItem>
  {
    seq(|items|, k requires 0 <= k < |items| => ItemToRaw(items[k]))
  }

  /** Re-normalising stored items whose totals are consistent gives the same items back. */
  lemma RenormalizeConsistent(items: seq<Item>)
    requires forall k :: 0 <= k < |items| ==> Consistent(items[k])
    ensures NormalizeItems(StoredAsRaw(items)) == items
  {
    var again := NormalizeItems(StoredAsRaw(items));
    forall k | 0 <= k < |items| ensures again[k] == items[k] {
      assert NormalizeItem(ItemToRaw(items[k])) == items[k];
    }
  }

  /** Normalisation is idempotent: feeding its items back in gives the same items and totals. */
  lemma NormalizeIdempotent(raw: seq<RawItem>)
    ensures NormalizeItems(StoredAsRaw(NormalizeItems(raw))) == NormalizeItems(raw)
    ensures SubtotalOf(NormalizeItems(StoredAsRaw(NormalizeItems(raw)))) == SubtotalOf(NormalizeItems(raw))
    ensures TaxTotalOf(NormalizeItems(StoredAsRaw(NormalizeItems(raw)))) == TaxTotalOf(NormalizeItems(raw))
  {
    RenormalizeConsistent(NormalizeItems(raw));
  }

  // ---------------------------------------------------------------------
  // createInvoice
  // ---------------------------------------------------------------------

  /** The fields of a create request; "" stands for a missing string, None for a missing key. */
  datatype CreateRequest = CreateRequest(
    invoiceNumber: string,
    invoiceDate: Option<int>,
    dueDate: Option<int>,
    billFrom: BillFrom,
    billTo: BillTo,
    items: Option<seq<RawItem>>,
    notes: Option<string>,
    paymentTerms: Option<string>)

  /** `items || []`. */
  function RequestItems(items: Option<seq<RawItem>>): seq<RawItem>
  {
    match items
    case Some(s) => s
    case None => []
  }

  /** A normalised item as handed to the item schema: every number defined. */
  function ItemDraftOf(it: Item): ItemDraft
  {
    ItemDraft(it.name, Some(it.unitPrice), Some(it.quantity), Some(it.taxPercentage), Some(it.total))
  }

  /** `createInvoice`: normalise the items, build the document and save it (a failed save is a 500). */
  method CreateInvoice(userId: Id, req: CreateRequest, newId: Id, now: int) returns (res: Result<Invoice, ApiError>)
    ensures res.Ok? <==>
      && Present(req.invoiceNumber)
      && BillFromComplete(req.billFrom)
      && BillToComplete(req.billTo)
      && forall k :: 0 <= k < |RequestItems(req.items)| ==> Present(RequestItems(req.items)[k].name)
    ensures res.Err? ==> res.error == ServerError
    ensures res.Ok? ==> (
      var inv := res.value;
      && inv.id == newId && inv.userId == userId
      && inv.invoiceNumber == req.invoiceNumber
      && inv.invoiceDate == (if req.invoiceDate.None? then now else req.invoiceDate.value)
      && inv.dueDate == req.dueDate
      && inv.billFrom == req.billFrom && inv.billTo == req.billTo
      && inv.notes == req.notes
      && inv.items == NormalizeItems(RequestItems(req.items))
      && inv.subtotal == Some(SubtotalOf(inv.items))
      && inv.taxTotal == Some(TaxTotalOf(inv.items))
      && inv.total == Some(SubtotalOf(inv.items) + TaxTotalOf(inv.items))
      && inv.status == "Unpaid"
      && inv.paymentTerms == (if req.paymentTerms.None? then "Net 15" else req.paymentTerms.value)
      && Conforms(inv))
  {
    var items, subtotal, taxTotal, total := Normalize(RequestItems(req.items));
    var drafts := seq(|items|, k requires 0 <= k < |items| => ItemDraftOf(items[k]));
    var draft := InvoiceDraft(newId, userId, req.invoiceNumber, req.invoiceDate, req.dueDate,
                              req.billFrom, req.billTo, drafts, req.notes, req.paymentTerms, None,
                              Some(subtotal), Some(taxTotal), Some(total));
    var saved := ApplyInvoiceSchema(draft, now);
    match saved {
      case Ok(inv) =>
        assert inv.items == items by {
          forall k | 0 <= k < |items| ensures inv.items[k] == items[k] {
            assert ApplyItemSchema(drafts[k]) == Ok(items[k]);
          }
        }
        res := Ok(inv);
      case Err(_) =>
        res := Err(ServerError);
    }
  }

  // ---------------------------------------------------------------------
  // getInvoiceById: only the owner sees an invoice
  // ---------------------------------------------------------------------

  /** `getInvoiceById` over the stored invoices: a missing id and another user's invoice are both 404. */
  function GetInvoiceById(db: map<Id, Invoice>, id: Id, userId: Id): (r: Result<Invoice, ApiError>)
    ensures r.Ok? <==> id in db && db[id].userId == userId
    ensures r.Ok? ==> r.value == db[id]
    ensures r.Err? ==> r.error == NotFound
  {
    if id !in db then Err(NotFound)
    else if db[id].userId == userId then Ok(db[id])
    else Err(NotFound)
  }

  // ---------------------------------------------------------------------
  // updateInvoice
  // ---------------------------------------------------------------------

  /**
   * The fields of an update request. "" stands for a missing or empty
   * string, None for a missing key; every such value is falsy.
   */
  datatype UpdateRequest = UpdateRequest(
    invoiceNumber: string,
    dueDate: Option<int>,
    billFrom: Option<BillFrom>,
    billTo: Option<BillTo>,
    items: Option<seq<RawItem>>,
    notes: string,
    paymentTerms: string,
    status: string)

  /** `value || stored` for a string. */
  function OrString(value: string, stored: string): string
  {
    if value != "" then value else stored
  }

  /** `value || stored` for a value that is falsy only when missing. */
  function OrStored<T>(value: Option<T>, stored: T): T
  {
    match value
    case Some(v) => v
    case None => stored
  }

  /** `(items && items.length ? items : invoice.items) || []`. */
  function UpdateSource(items: Option<seq<RawItem>>, stored: seq<Item>): (r: seq<RawItem>)
    ensures items.Some? && |items.value| > 0 ==> r == items.value
    ensures (items.None? || items.value == []) ==> r == StoredAsRaw(stored)
  {
    if items.Some? && |items.value| > 0 then items.value else StoredAsRaw(stored)
  }

  /** The `x || invoice.x` assignments of `updateInvoice`. */
  function MergedFields(inv: Invoice, req: UpdateRequest): Invoice
  {
    inv.(
      invoiceNumber := OrString(req.invoiceNumber, inv.invoiceNumber),
      dueDate := if req.dueDate.Some? then req.dueDate else inv.dueDate,
      billFrom := OrStored(req.billFrom, inv.billFrom),
      billTo := OrStored(req.billTo, inv.billTo),
      notes := if req.notes != "" then Some(req.notes) else inv.notes,
      paymentTerms := OrString(req.paymentTerms, inv.paymentTerms),
      status := OrString(req.status, inv.status))
  }

  /** The record with its items re-normalised from source and its three totals recomputed. */
  function WithItems(inv: Invoice, source: seq<RawItem>): Invoice
  {
    var items := NormalizeItems(source);
    inv.(
      items := items,
      subtotal := Some(SubtotalOf(items)),
      taxTotal := Some(TaxTotalOf(items)),
      total := Some(SubtotalOf(items) + TaxTotalOf(items)))
  }

  /** The record `updateInvoice` leaves in the document before saving it. */
  function UpdatedRecord(inv: Invoice, req: UpdateRequest): Invoice
  {
    WithItems(MergedFields(inv, req), UpdateSource(req.items, inv.items))
  }

  /**
   * The merge rule of `updateInvoice`: a falsy request field keeps the stored
   * value, a truthy one replaces it; identity and invoice date never change;
   * the items are re-normalised from the request's non-empty list or else
   * from the stored list, and the totals are recomputed from those items.
   */
  lemma UpdateMergeRule(inv: Invoice, req: UpdateRequest)
    ensures var r := UpdatedRecord(inv, req);
      && r.id == inv.id && r.userId == inv.userId && r.invoiceDate == inv.invoiceDate
      && r.invoiceNumber == (if req.invoiceNumber == "" then inv.invoiceNumber else req.invoiceNumber)
      && r.status == (if req.status == "" then inv.status else req.status)
      && r.paymentTerms == (if req.paymentTerms == "" then inv.paymentTerms else req.paymentTerms)
      && r.notes == (if req.notes == "" then inv.notes else Some(req.notes))
      && r.dueDate == (if req.dueDate.None? then inv.dueDate else req.dueDate)
      && r.billFrom == (if req.billFrom.None? then inv.billFrom else req.billFrom.value)
      && r.billTo == (if req.billTo.None? then inv.billTo else req.billTo.value)
      && (req.items.Some? && req.items.value != [] ==> r.items == NormalizeItems(req.items.value))
      && (req.items.None? || req.items.value == [] ==> r.items == NormalizeItems(StoredAsRaw(inv.items)))
      && r.subtotal == Some(SubtotalOf(r.items)) && r.taxTotal == Some(TaxTotalOf(r.items))
      && r.total == Some(SubtotalOf(r.items) + TaxTotalOf(r.items))
  {
  }

  /** An update that brings no items keeps stored items whose totals are consistent, and their sums. */
  lemma UpdateWithoutItemsKeepsItems(inv: Invoice, req: UpdateRequest)
    requires req.items.None? || req.items.value == []
    requires forall k :: 0 <= k < |inv.items| ==> Consistent(inv.items[k])
    ensures UpdatedRecord(inv, req).items == inv.items
    ensures UpdatedRecord(inv, req).total == Some(SubtotalOf(inv.items) + TaxTotalOf(inv.items))
  {
    assert UpdateSource(req.items, inv.items) == StoredAsRaw(inv.items);
    RenormalizeConsistent(inv.items);
    assert UpdatedRecord(inv, req).items == NormalizeItems(StoredAsRaw(inv.items));
  }

  /** An update is idempotent: applying the same request twice gives the record applying it once does. */
  lemma UpdateIdempotent(inv: Invoice, req: UpdateRequest)
    ensures UpdatedRecord(UpdatedRecord(inv, req), req) == UpdatedRecord(inv, req)
  {
    var once := UpdatedRecord(inv, req);
    if req.items.Some? && |req.items.value| > 0 {
    } else {
      RenormalizeConsistent(once.items);
    }
  }

  /** The Mongoose document `findById` loads; `updateInvoice` assigns its fields in place. */
  class InvoiceDocument {
    const id: Id
    const userId: Id
    var invoiceNumber: string
    var invoiceDate: int
    var dueDate: Option<int>
    var billFrom: BillFrom
    var billTo: BillTo
    var items: seq<Item>
    var notes: Option<string>
    var paymentTerms: string
    var status: string
    var subtotal: Option<real>
    var taxTotal: Option<real>
    var total: Option<real>

    /** The record the document currently holds. */
    function Snapshot(): Invoice
      reads this
    {
      Invoice(id, userId, invoiceNumber, invoiceDate, dueDate, billFrom, billTo, items, notes,
              paymentTerms, status, subtotal, taxTotal, total)
    }

    /** A document loaded from a stored record. */
    constructor Load(inv: Invoice)
      ensures Snapshot() == inv
    {
      id, userId := inv.id, inv.userId;
      invoiceNumber, invoiceDate, dueDate := inv.invoiceNumber, inv.invoiceDate, inv.dueDate;
      billFrom, billTo, items, notes := inv.billFrom, inv.billTo, inv.items, inv.notes;
      paymentTerms, status := inv.paymentTerms, inv.status;
      subtotal, taxTotal, total := inv.subtotal, inv.taxTotal, inv.total;
    }

    /** The first half of `updateInvoice`'s assignments: the `||` merge of the scalar fields. */
    method MergeFields(req: UpdateRequest)
      modifies this
      ensures Snapshot() == MergedFields(old(Snapshot()), req)
    {
      invoiceNumber := OrString(req.invoiceNumber, invoiceNumber);
      dueDate := if req.dueDate.Some? then req.dueDate else dueDate;
      billFrom := OrStored(req.billFrom, billFrom);
      billTo := OrStored(req.billTo, billTo);
      notes := if req.notes != "" then Some(req.notes) else notes;
      paymentTerms := OrString(req.paymentTerms, paymentTerms);
      status := OrString(req.status, status);
    }

    /** The second half: items and totals recomputed from a source list. */
    method RecomputeItems(source: seq<RawItem>)
      modifies this
      ensures Snapshot() == WithItems(old(Snapshot()), source)
    {
      var normalized, sub, tax, tot := Normalize(source);
      items := normalized;
      subtotal, taxTotal, total := Some(sub), Some(tax), Some(tot);
    }

    /** The assignments of `updateInvoice`: the `||` merge, then the re-normalised items and totals. */
    method ApplyUpdate(req: UpdateRequest)
      modifies this
      ensures Snapshot() == UpdatedRecord(old(Snapshot()), req)
    {
      var source := UpdateSource(req.items, items);
      MergeFields(req);
      RecomputeItems(source);
    }
  }

  /**
   * `updateInvoice`: a missing document or another user's document is a 404
   * and is left alone; otherwise the fields are merged and the document is
   * saved, a failed validation being a 500.
   */
  method UpdateInvoice(doc: InvoiceDocument?, userId: Id, req: UpdateRequest) returns (res: Result<Invoice, ApiError>)
    modifies doc
    ensures doc == null ==> res == Err(NotFound)
    ensures doc != null && doc.userId != userId ==> res == Err(NotFound) && doc.Snapshot() == old(doc.Snapshot())
    ensures doc != null && doc.userId == userId ==>
      && doc.Snapshot() == UpdatedRecord(old(doc.Snapshot()), req)
      && res == (if Conforms(doc.Snapshot()) then Ok(doc.Snapshot()) else Err(ServerError))
  {
    if doc != null && doc.userId == userId {
      doc.ApplyUpdate(req);
      match Save(doc.Snapshot()) {
        case Ok(saved) => res := Ok(saved);
        case Err(_) => res := Err(ServerError);
      }
    } else {
      res := Err(NotFound);
    }
  }
}
