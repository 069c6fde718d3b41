/**
 * The editing rules of the invoice form: the totals it displays, the total
 * of each row, the next invoice number it proposes and the add, remove and
 * edit operations on its item rows.
 */
module CreateInvoiceForm {
  import opened Wrappers
  import opened JsNumber
  import JsString
  import InvoiceController

  /** One row of the form; the numeric fields are read through `Number(x) || 0`. */
  datatype FormItem = FormItem(name: string, quantity: RawNum, unitPrice: RawNum, taxPercentage: RawNum)

  // ---------------------------------------------------------------------
  // Displayed totals
  // ---------------------------------------------------------------------

  function RowSubtotal(it: FormItem): real
  {
    Coerce(it.quantity) * Coerce(it.unitPrice)
  }

  function RowTax(it: FormItem): real
  {
    RowSubtotal(it) * (Coerce(it.taxPercentage) / 100.0)
  }

  /** The first `reduce`: the sum of quantity times price over the rows. */
  function FormSubtotal(items: seq<FormItem>): real
  {
    if items == [] then 0.0
    else FormSubtotal(items[..|items| - 1]) + RowSubtotal(items[|items| - 1])
  }

  /** The second `reduce`: the sum of the row taxes. */
  function FormTaxTotal(items: seq<FormItem>): real
  {
    if items == [] then 0.0
    else FormTaxTotal(items[..|items| - 1]) + RowTax(items[|items| - 1])
  }

  /** The row total shown in the table and in the card view: quantity times price times one plus the rate. */
  function RowTotal(it: FormItem): real
  {
    Coerce(it.quantity) * Coerce(it.unitPrice) * (1.0 + Coerce(it.taxPercentage) / 100.0)
  }

  /** The row total is the row's subtotal plus its tax. */
  lemma RowTotalIsSubtotalPlusTax(it: FormItem)
    ensures RowTotal(it) == RowSubtotal(it) + RowTax(it)
  {
    var q, p, t := Coerce(it.quantity), Coerce(it.unitPrice), Coerce(it.taxPercentage);
    assert q * p * (1.0 + t / 100.0) == q * p + q * p * (t / 100.0);
  }

  /** The request item the form sends for a row: no legacy `taxPercent` key. */
  function ToRaw(it: FormItem): InvoiceController.RawItem
  {
    InvoiceController.RawItem(it.name, it.unitPrice, it.quantity, it.taxPercentage, Absent)
  }

  /** The row total equals the line total the server stores for the row. */
  lemma RowTotalMatchesServer(it: FormItem)
    ensures InvoiceController.NormalizeItem(ToRaw(it)).total == RowTotal(it)
  {
    RowTotalIsSubtotalPlusTax(it);
    var n := InvoiceController.NormalizeItem(ToRaw(it));
    assert InvoiceController.LineSubtotal(n) == RowSubtotal(it);
    assert InvoiceController.LineTax(n) == RowTax(it);
  }

  /** The line subtotal and tax the server computes for a row are the form's. */
  lemma RowAmountsMatchServer(it: FormItem)
    ensures InvoiceController.LineSubtotal(InvoiceController.NormalizeItem(ToRaw(it))) == RowSubtotal(it)
    ensures InvoiceController.LineTax(InvoiceController.NormalizeItem(ToRaw(it))) == RowTax(it)
  {
  }

  /** The displayed subtotal and tax total are the ones the server computes for the submitted rows. */
  lemma {:induction false} FormTotalsMatchServer(items: seq<FormItem>)
    ensures FormSubtotal(items) == InvoiceController.SubtotalOf(InvoiceController.NormalizeItems(seq(|items|, k requires 0 <= k < |items| => ToRaw(items[k]))))
    ensures FormTaxTotal(items) == InvoiceController.TaxTotalOf(InvoiceController.NormalizeItems(seq(|items|, k requires 0 <= k < |items| => ToRaw(items[k]))))
  {
    var raw := seq(|items|, k requires 0 <= k < |items| => ToRaw(items[k]));
    if items != [] {
      var init := items[..|items| - 1];
      var rawInit := seq(|init|, k requires 0 <= k < |init| => ToRaw(init[k]));
      FormTotalsMatchServer(init);
      assert raw[..|raw| - 1] == rawInit;
      var normalized := InvoiceController.NormalizeItems(raw);
      assert normalized[..|normalized| - 1] == InvoiceController.NormalizeItems(rawInit);
      RowAmountsMatchServer(items[|items| - 1]);
    }
  }

  /** A form without rows shows 0 for all three totals. */
  lemma EmptyFormTotals()
    ensures FormSubtotal([]) == 0.0 && FormTaxTotal([]) == 0.0
    ensures FormSubtotal([]) + FormTaxTotal([]) == 0.0
  {
  }

  // ---------------------------------------------------------------------
  // Next invoice number
  // ---------------------------------------------------------------------

  /** `parseInt(invoiceNumber.split("-")[1])`; None stands for NaN, `parseInt(undefined)` included. */
  function SuffixNumber(invoiceNumber: string): Option<int>
  {
    match JsString.SecondField(invoiceNumber, '-')
    case None => None
    case Some(field) => ParseInt(field)
  }

  /** The parsed suffix of each invoice number, in order. */
  function Suffixes(numbers: seq<string>): (r: seq<Option<int>>)
    ensures |r| == |numbers|
    ensures forall i :: 0 <= i < |numbers| ==> r[i] == SuffixNumber(numbers[i])
  {
    seq(|numbers|, i requires 0 <= i < |numbers| => SuffixNumber(numbers[i]))
  }

  /** The largest parsed value above 0, or 0: the `forEach` with `num > maxNum` from a start of 0. */
  function MaxPositive(parsed: seq<Option<int>>): nat
  {
    if parsed == [] then 0
    else
      var m := MaxPositive(parsed[..|parsed| - 1]);
      match parsed[|parsed| - 1]
      case None => m
      case Some(n) => if n > m then n else m
  }

  /** The `maxNum` the `forEach` ends with. */
  function MaxSuffix(numbers: seq<string>): nat
  {
    MaxPositive(Suffixes(numbers))
  }

  /** "INV-" followed by n left-padded with zeros to four digits. */
  function InvoiceNumberFor(n: nat): string
  {
    "INV-" + PadStart(NatToString(n), 4, '0')
  }

  /** Every parsed value is at most MaxPositive. */
  lemma {:induction false} MaxPositiveBounds(parsed: seq<Option<int>>)
    ensures forall i :: 0 <= i < |parsed| && parsed[i].Some? ==> parsed[i].value <= MaxPositive(parsed)
  {
    if parsed != [] {
      var init := parsed[..|parsed| - 1];
      MaxPositiveBounds(init);
      assert forall i :: 0 <= i < |init| ==> init[i] == parsed[i];
    }
  }

  /** MaxPositive is 0 or one of the parsed values. */
  lemma {:induction false} MaxPositiveAttained(parsed: seq<Option<int>>)
    ensures MaxPositive(parsed) == 0 || exists i :: 0 <= i < |parsed| && parsed[i] == Some(MaxPositive(parsed) as int)
  {
    if parsed != [] {
      var init := parsed[..|parsed| - 1];
      MaxPositiveAttained(init);
      if MaxPositive(parsed) != 0 && MaxPositive(parsed) == MaxPositive(init) {
        var i :| 0 <= i < |init| && init[i] == Some(MaxPositive(init) as int);
        assert parsed[i] == init[i];
      }
    }
  }

  /** Every suffix that parses is at most MaxSuffix. */
  lemma MaxSuffixBounds(numbers: seq<string>)
    ensures forall i :: 0 <= i < |numbers| && SuffixNumber(numbers[i]).Some? ==> SuffixNumber(numbers[i]).value <= MaxSuffix(numbers)
  {
    MaxPositiveBounds(Suffixes(numbers));
  }

  /** MaxSuffix is 0 or the suffix of one of the numbers. */
  lemma MaxSuffixAttained(numbers: seq<string>)
    ensures MaxSuffix(numbers) == 0 || exists i :: 0 <= i < |numbers| && SuffixNumber(numbers[i]) == Some(MaxSuffix(numbers) as int)
  {
    MaxPositiveAttained(Suffixes(numbers));
  }

  /** The suffix of a generated number reads back as the number it was made from. */
  lemma InvoiceNumberReadsBack(n: nat)
    ensures SuffixNumber(InvoiceNumberFor(n)) == Some(n as int)
  {
    var padded := PadStart(NatToString(n), 4, '0');
    forall k | 0 <= k < |padded| ensures padded[k] != '-' {
      var s := NatToString(n);
      if k >= |padded| - |s| {
        assert padded[k] == padded[|padded| - |s|..][k - (|padded| - |s|)];
      }
    }
    JsString.SecondFieldOf("INV", padded, [], '-');
    assert "INV" + ['-'] + padded + [] == InvoiceNumberFor(n);
    ParsePaddedDecimal(n, 4);
  }

  /** One more invoice number: MaxSuffix takes its suffix when that parses above the maximum so far. */
  lemma MaxSuffixStep(numbers: seq<string>, i: nat)
    requires i < |numbers|
    ensures MaxSuffix(numbers[..i + 1]) ==
              match SuffixNumber(numbers[i])
              case None => MaxSuffix(numbers[..i])
              case Some(n) => if n > MaxSuffix(numbers[..i]) then n else MaxSuffix(numbers[..i])
  {
    var before, after := Suffixes(numbers[..i]), Suffixes(numbers[..i + 1]);
    assert after[..i] == before;
    assert after[i] == SuffixNumber(numbers[i]);
  }

  /** The `forEach` over the fetched invoices that keeps the largest suffix above 0 in `maxNum`. */
  method LargestSuffix(numbers: seq<string>) returns (maxNum: nat)
    ensures maxNum == MaxSuffix(numbers)
  {
    maxNum := 0;
    for i := 0 to |numbers|
      invariant maxNum == MaxSuffix(numbers[..i])
    {
      MaxSuffixStep(numbers, i);
      var num := SuffixNumber(numbers[i]);
      if num.Some? && num.value > maxNum {
        maxNum := num.value;
      }
    }
    assert numbers[..|numbers|] == numbers;
  }

  /** The number proposed from the fetched invoice numbers: one above the largest suffix, padded. */
  method NextInvoiceNumber(numbers: seq<string>) returns (r: string)
    ensures r == InvoiceNumberFor(MaxSuffix(numbers) + 1)
  {
    var maxNum := LargestSuffix(numbers);
    ghost var next := MaxSuffix(numbers) + 1;
    assert maxNum + 1 == next;
    r := InvoiceNumberFor(maxNum + 1);
  }

  /** The proposed number's suffix reads back as one above the largest, so it is above every parsed suffix. */
  lemma NextNumberAboveAll(numbers: seq<string>, next: nat)
    requires next == MaxSuffix(numbers) + 1
    ensures SuffixNumber(InvoiceNumberFor(next)) == Some(next as int)
    ensures forall i :: 0 <= i < |numbers| && SuffixNumber(numbers[i]).Some? ==>
              SuffixNumber(numbers[i]).value < SuffixNumber(InvoiceNumberFor(next)).value
  {
    InvoiceNumberReadsBack(next);
    MaxSuffixBounds(numbers);
  }

  /**
   * `generateNewInvoiceNumber`: None when the invoices could not be fetched
   * (the `catch` branch), otherwise the invoice numbers fetched.
   */
  method GenerateInvoiceNumber(fetched: Option<seq<string>>) returns (r: string)
    ensures fetched.None? ==> r == "INV-0001"
    ensures fetched.Some? ==> r == InvoiceNumberFor(MaxSuffix(fetched.value) + 1)
  {
    match fetched
    case None =>
      r := "INV-0001";
    case Some(numbers) =>
      r := NextInvoiceNumber(numbers);
  }

  /** With no invoices yet the first number is "INV-0001", the same as the fallback. */
  lemma FirstInvoiceNumber()
    ensures InvoiceNumberFor(MaxSuffix([]) + 1) == "INV-0001"
  {
    assert NatToString(1) == "1";
    assert PadStart("1", 4, '0') == Repeat('0', 3) + "1";
    assert Repeat('0', 3) == "000";
  }

  // ---------------------------------------------------------------------
  // Add, remove and edit rows
  // ---------------------------------------------------------------------

  /** The row `handleAddItem` appends. */
  const BlankItem := FormItem("", Num(1.0), Num(0.0), Num(0.0))

  /** `handleAddItem`: one blank row at the end, the others untouched. */
  function AddItem(items: seq<FormItem>): (r: seq<FormItem>)
    ensures |r| == |items| + 1
    ensures r[..|items|] == items && r[|items|] == BlankItem
  {
    items + [BlankItem]
  }

  /** A blank row adds nothing to the displayed totals. */
  lemma AddItemKeepsTotals(items: seq<FormItem>)
    ensures FormSubtotal(AddItem(items)) == FormSubtotal(items)
    ensures FormTaxTotal(AddItem(items)) == FormTaxTotal(items)
  {
    assert AddItem(items)[..|items|] == items;
  }

  /** `items.filter((_, i) => i !== index)`, walked from the back so that each row keeps its position. */
  function WithoutIndex(items: seq<FormItem>, index: nat): (r: seq<FormItem>)
    ensures |r| <= |items|
  {
    if items == [] then []
    else
      var init := WithoutIndex(items[..|items| - 1], index);
      if |items| - 1 != index then init + [items[|items| - 1]] else init
  }

  /** The filter removes exactly the row at index (none when index is past the end) and keeps the others in order. */
  lemma {:induction false} WithoutIndexRemovesOne(items: seq<FormItem>, index: nat)
    ensures index < |items| ==> WithoutIndex(items, index) == items[..index] + items[index + 1..]
    ensures index >= |items| ==> WithoutIndex(items, index) == items
  {
    if items != [] {
      var init := items[..|items| - 1];
      WithoutIndexRemovesOne(init, index);
      if index < |init| {
        assert init[..index] == items[..index];
        assert init[index + 1..] + [items[|items| - 1]] == items[index + 1..];
      } else if index == |init| {
        assert items[..index] == init;
      } else {
        assert init + [items[|items| - 1]] == items;
      }
    }
  }

  /** `handleRemoveItem`: refused with "At least one item is required" when one row is left. */
  function RemoveItem(items: seq<FormItem>, index: nat): (r: Result<seq<FormItem>, string>)
    ensures r.Err? <==> |items| == 1
    ensures r.Err? ==> r.error == "At least one item is required"
    ensures r.Ok? && index < |items| ==> r.value == items[..index] + items[index + 1..]
    ensures r.Ok? && index >= |items| ==> r.value == items
  {
    if |items| == 1 then Err("At least one item is required")
    else
      WithoutIndexRemovesOne(items, index);
      Ok(WithoutIndex(items, index))
  }

  /** A removal keeps every other row: the rows before and after are the multiset minus the removed one. */
  lemma RemoveItemPermutes(items: seq<FormItem>, index: nat)
    requires |items| != 1 && index < |items|
    ensures RemoveItem(items, index).Ok?
    ensures multiset(RemoveItem(items, index).value) + multiset{items[index]} == multiset(items)
  {
    assert items == items[..index] + [items[index]] + items[index + 1..];
  }

  /** The item branch of `handleInputChange`: the field named by the input gets the typed value. */
  datatype ItemEdit = SetName(name: string) | SetQuantity(quantity: RawNum) | SetUnitPrice(unitPrice: RawNum) | SetTax(taxPercentage: RawNum)

  /** The spread `{ ...item, [name]: value }`: the named field changes, the other three stay. */
  function EditField(it: FormItem, edit: ItemEdit): (r: FormItem)
    ensures edit.SetName? ==> r.name == edit.name && r.quantity == it.quantity && r.unitPrice == it.unitPrice && r.taxPercentage == it.taxPercentage
    ensures edit.SetQuantity? ==> r.name == it.name && r.quantity == edit.quantity && r.unitPrice == it.unitPrice && r.taxPercentage == it.taxPercentage
    ensures edit.SetUnitPrice? ==> r.name == it.name && r.quantity == it.quantity && r.unitPrice == edit.unitPrice && r.taxPercentage == it.taxPercentage
    ensures edit.SetTax? ==> r.name == it.name && r.quantity == it.quantity && r.unitPrice == it.unitPrice && r.taxPercentage == edit.taxPercentage
  {
    match edit
    case SetName(v) => it.(name := v)
    case SetQuantity(v) => it.(quantity := v)
    case SetUnitPrice(v) => it.(unitPrice := v)
    case SetTax(v) => it.(taxPercentage := v)
  }

  /** Editing row index: the same number of rows, that row edited, every other row unchanged. */
  function EditItem(items: seq<FormItem>, index: nat, edit: ItemEdit): (r: seq<FormItem>)
    requires index < |items|
    ensures |r| == |items|
    ensures r[index] == EditField(items[index], edit)
    ensures forall k :: 0 <= k < |items| && k != index ==> r[k] == items[k]
  {
    items[index := EditField(items[index], edit)]
  }

  /** Renaming a row leaves the displayed totals as they were. */
  lemma {:induction false} RenameKeepsTotals(items: seq<FormItem>, index: nat, name: string)
    requires index < |items|
    ensures FormSubtotal(EditItem(items, index, SetName(name))) == FormSubtotal(items)
    ensures FormTaxTotal(EditItem(items, index, SetName(name))) == FormTaxTotal(items)
  {
    var r := EditItem(items, index, SetName(name));
    var last := |items| - 1;
    assert RowSubtotal(r[last]) == RowSubtotal(items[last]) && RowTax(r[last]) == RowTax(items[last]);
    if index < last {
      assert r[..last] == EditItem(items[..last], index, SetName(name));
      RenameKeepsTotals(items[..last], index, name);
    } else {
      assert r[..last] == items[..last];
    }
  }
}
