/**
 * Editing the line items of an extracted invoice before it is saved: a
 * field change that recomputes the line total, adding a blank line,
 * removing a line, and the invoice total.
 */
module InvoicePreview {
  import opened Common

  /** A line item. Quantity and unit price come from `parseFloat` of the
      input, so they may be NaN; the total is whatever was extracted or last
      computed. */
  datatype Item = Item(description: string, quantity: Number, unitPrice: Number, total: Number)

  /** The field an input changes, with its new value. */
  datatype Change = Description(text: string) | Quantity(q: Number) | UnitPrice(p: Number)

  /** The blank line `addNewItem` appends. */
  const NewItem := Item("", Num(1.0), Num(0.0), Num(0.0))

  /** `item.total || 0`. */
  function LineTotal(item: Item): real
  {
    OrZero(item.total)
  }

  /** The item after one field change: a quantity or unit price change also
      sets the total to `(quantity || 0) * (unit_price || 0)`. */
  function Changed(item: Item, change: Change): (r: Item)
  {
    match change
    case Description(text) => item.(description := text)
    case Quantity(q) => item.(quantity := q, total := Num(OrZero(q) * OrZero(item.unitPrice)))
    case UnitPrice(p) => item.(unitPrice := p, total := Num(OrZero(item.quantity) * OrZero(p)))
  }

  /** A price or quantity change leaves the total equal to the product of the
      two, each read as 0 when missing or NaN; a description change keeps the
      total; only the changed field and the total move. */
  lemma ChangedTotals(item: Item, change: Change)
    ensures !change.Description? ==>
      Changed(item, change).total == Num(OrZero(Changed(item, change).quantity) * OrZero(Changed(item, change).unitPrice))
    ensures change.Description? ==> Changed(item, change).total == item.total
    ensures change.Description? ==> Changed(item, change) == item.(description := change.text)
    ensures change.Quantity? ==> Changed(item, change).description == item.description && Changed(item, change).unitPrice == item.unitPrice
    ensures change.UnitPrice? ==> Changed(item, change).description == item.description && Changed(item, change).quantity == item.quantity
  {
  }

  /** `calculateTotal`: the sum of the line totals, each read as 0 when
      missing or NaN, and 0 for no items. */
  function Total(items: seq<Item>): real
  {
    if items == [] then 0.0 else LineTotal(items[0]) + Total(items[1..])
  }

  lemma {:induction false} TotalAppend(a: seq<Item>, b: seq<Item>)
    ensures Total(a + b) == Total(a) + Total(b)
  {
    if a == [] {
      assert a + b == b;
    } else {
      assert (a + b)[1..] == a[1..] + b;
      TotalAppend(a[1..], b);
    }
  }

  /** The line at `i` contributes its own total once to the invoice total. */
  lemma TotalSplit(items: seq<Item>, i: int)
    requires 0 <= i < |items|
    ensures Total(items) == Total(items[..i]) + LineTotal(items[i]) + Total(items[i + 1..])
  {
    assert items == items[..i] + ([items[i]] + items[i + 1..]);
    TotalAppend(items[..i], [items[i]] + items[i + 1..]);
    TotalAppend([items[i]], items[i + 1..]);
    assert [items[i]][1..] == [];
  }

  /** `items.filter((_, i) => i !== index)`, walking the list with the
      position still to reach. */
  function WithoutIndex(items: seq<Item>, index: int): seq<Item>
  {
    if items == [] then []
    else (if index == 0 then [] else [items[0]]) + WithoutIndex(items[1..], index - 1)
  }

  /** Removal drops exactly the line at `index` and keeps the rest in
      order; an index outside the list changes nothing. */
  lemma {:induction false} WithoutIndexSpec(items: seq<Item>, index: int)
    ensures 0 <= index < |items| ==> WithoutIndex(items, index) == items[..index] + items[index + 1..]
    ensures !(0 <= index < |items|) ==> WithoutIndex(items, index) == items
  {
    if items != [] {
      WithoutIndexSpec(items[1..], index - 1);
      if index == 0 {
        assert items[1..] == items[..0] + items[1..];
      } else if 0 < index < |items| {
        assert items[..index] == [items[0]] + items[1..][..index - 1];
        assert items[index + 1..] == items[1..][index..];
      } else {
        assert items == [items[0]] + items[1..];
      }
    }
  }

  /** Removing a line lowers the invoice total by that line's total. */
  lemma RemoveLowersTotal(items: seq<Item>, index: int)
    requires 0 <= index < |items|
    ensures Total(WithoutIndex(items, index)) == Total(items) - LineTotal(items[index])
  {
    WithoutIndexSpec(items, index);
    TotalAppend(items[..index], items[index + 1..]);
    TotalSplit(items, index);
  }

  /** Appending the blank line leaves the invoice total as it was. */
  lemma AddKeepsTotal(items: seq<Item>)
    ensures Total(items + [NewItem]) == Total(items)
  {
    TotalAppend(items, [NewItem]);
    assert [NewItem][1..] == [];
  }

  /** A field change moves the invoice total by the change of that line's
      total. */
  lemma ChangeMovesTotal(items: seq<Item>, index: int, change: Change)
    requires 0 <= index < |items|
    ensures Total(items[index := Changed(items[index], change)])
         == Total(items) - LineTotal(items[index]) + LineTotal(Changed(items[index], change))
  {
    var after := items[index := Changed(items[index], change)];
    TotalSplit(items, index);
    TotalSplit(after, index);
    assert after[..index] == items[..index];
    assert after[index + 1..] == items[index + 1..];
  }

  /** The invoice being reviewed; only its line items are modelled. */
  class InvoiceEditor {
    var items: seq<Item>

    constructor (extracted: seq<Item>)
      ensures items == extracted
    {
      items := extracted;
    }

    /** `handleItemChange`: copies the list, puts at `index` a copy of the
        item with the field changed, patches that copy's total when the
        quantity or unit price changed, and stores the list. */
    method HandleItemChange(index: int, change: Change)
      requires 0 <= index < |items|
      modifies this
      ensures items == old(items)[index := Changed(old(items)[index], change)]
      ensures |items| == |old(items)|
      ensures forall j :: 0 <= j < |items| && j != index ==> items[j] == old(items)[j]
    {
      var newItems := items;
      var edited := match change
        case Description(text) => newItems[index].(description := text)
        case Quantity(q) => newItems[index].(quantity := q)
        case UnitPrice(p) => newItems[index].(unitPrice := p);
      if !change.Description? {
        edited := edited.(total := Num(OrZero(edited.quantity) * OrZero(edited.unitPrice)));
      }
      match change {
        case Description(_) =>
        case Quantity(q) =>
          assert edited.quantity == q;
        case UnitPrice(p) =>
          assert edited.unitPrice == p && edited.quantity == items[index].quantity;
          assert edited.description == items[index].description;
          assert edited.total == Num(OrZero(items[index].quantity) * OrZero(p));
          assert Changed(items[index], change).total == Num(OrZero(items[index].quantity) * OrZero(p));
          assert edited == Changed(items[index], change);
      }
      newItems := newItems[index := edited];
      items := newItems;
    }

    method AddNewItem()
      modifies this
      ensures items == old(items) + [NewItem]
    {
      items := items + [NewItem];
    }

    method RemoveItem(index: int)
      modifies this
      ensures items == WithoutIndex(old(items), index)
    {
      items := WithoutIndex(items, index);
    }
  }
}
