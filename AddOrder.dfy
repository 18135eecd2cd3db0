/** The "Add New Order" screen: the draft order with its ordered line items,
    the handlers that edit it, and the live stock hint beside the form. */
module AddOrder {
  import Text
  import Records

  /** One line of the draft. Every field holds the raw text of its input. */
  datatype LineItem = LineItem(name: string, corton: string, pieces: string, price: string, discount: string)

  /** The `field` argument of `handleItemChange`. */
  datatype ItemField = Name | Corton | Pieces | Price | Discount

  /** The `name` attribute of the header inputs handled by `handleInputChange`. */
  datatype HeaderField = Shop | Salesman | Sector | Date | Time | Status

  datatype NewOrder = NewOrder(
    shop: string, salesman: string, sector: string, date: string, time: string, status: string,
    items: seq<LineItem>)

  /** A row of the reference stock list. */
  datatype Stock = Stock(name: string, stock: int)

  const EmptyItem := LineItem("", "", "", "", "")

  function ItemValue(item: LineItem, f: ItemField): string {
    match f
    case Name => item.name
    case Corton => item.corton
    case Pieces => item.pieces
    case Price => item.price
    case Discount => item.discount
  }

  function HeaderValue(o: NewOrder, f: HeaderField): string {
    match f
    case Shop => o.shop
    case Salesman => o.salesman
    case Sector => o.sector
    case Date => o.date
    case Time => o.time
    case Status => o.status
  }

  /** `{ ...item, [field]: value }`: one field set, the others kept. */
  function WithItemField(item: LineItem, f: ItemField, value: string): (r: LineItem)
    ensures ItemValue(r, f) == value
    ensures forall g :: g != f ==> ItemValue(r, g) == ItemValue(item, g)
  {
    match f
    case Name => item.(name := value)
    case Corton => item.(corton := value)
    case Pieces => item.(pieces := value)
    case Price => item.(price := value)
    case Discount => item.(discount := value)
  }

  /** `{ ...prev, [name]: value }` on the header: one field set, the others
      and the items kept. */
  function WithHeaderField(o: NewOrder, f: HeaderField, value: string): (r: NewOrder)
    ensures HeaderValue(r, f) == value
    ensures forall g :: g != f ==> HeaderValue(r, g) == HeaderValue(o, g)
    ensures r.items == o.items
  {
    match f
    case Shop => o.(shop := value)
    case Salesman => o.(salesman := value)
    case Sector => o.(sector := value)
    case Date => o.(date := value)
    case Time => o.(time := value)
    case Status => o.(status := value)
  }

  /** The initial `newOrder` state (also what a successful save resets to). */
  function FreshOrder(): (o: NewOrder)
    ensures o.status == "Pending"
    ensures forall f :: f != Status ==> HeaderValue(o, f) == ""
    ensures |o.items| == 1 && forall f :: ItemValue(o.items[0], f) == ""
  {
    NewOrder("", "", "", "", "", "Pending", [EmptyItem])
  }

  /** The items after `handleItemChange(index, field, value)`: the item at
      `index` gets the new field value, everything else is left alone; an
      index outside the list changes nothing. */
  function ItemsWithField(items: seq<LineItem>, index: int, f: ItemField, value: string): (r: seq<LineItem>)
    ensures |r| == |items|
    ensures forall i :: 0 <= i < |items| && i != index ==> r[i] == items[i]
    ensures 0 <= index < |items| ==>
              ItemValue(r[index], f) == value &&
              forall g :: g != f ==> ItemValue(r[index], g) == ItemValue(items[index], g)
    ensures !(0 <= index < |items|) ==> r == items
  {
    if 0 <= index < |items| then items[index := WithItemField(items[index], f, value)] else items
  }

  /** The items after `removeItem(index)`: `items.filter((_, i) => i !== index)`.
      The list may become empty; there is no minimum length. */
  function ItemsWithout(items: seq<LineItem>, index: int): (r: seq<LineItem>)
    ensures 0 <= index < |items| ==> |r| == |items| - 1
    ensures 0 <= index < |items| ==>
              (forall i :: 0 <= i < index ==> r[i] == items[i]) &&
              (forall i :: index <= i < |r| ==> r[i] == items[i + 1])
    ensures !(0 <= index < |items|) ==> r == items
  {
    if 0 <= index < |items| then items[..index] + items[index + 1..] else items
  }

  /** Removing the item that `addItem` just appended gives back the list
      as it was. */
  lemma RemoveUndoesAdd(items: seq<LineItem>)
    ensures ItemsWithout(items + [EmptyItem], |items|) == items
  {
    assert (items + [EmptyItem])[..|items|] == items;
  }

  /** The line item names this stock row: the item's name is non-empty and
      occurs, ignoring case, in the stock name. */
  predicate Names(item: LineItem, s: Stock) {
    item.name != "" && Text.Matches(s.name, item.name)
  }

  /** `newOrder.items.some(item => item.name && ...)`. */
  predicate SomeItemNames(items: seq<LineItem>, s: Stock) {
    exists i :: 0 <= i < |items| && Names(items[i], s)
  }

  /** `filteredStock`: the stock rows some line item names, in stock order. */
  function FilteredStock(stockData: seq<Stock>, items: seq<LineItem>): (r: seq<Stock>)
    ensures forall k :: 0 <= k < |r| ==> r[k] in stockData && SomeItemNames(items, r[k])
    ensures forall k :: 0 <= k < |stockData| && SomeItemNames(items, stockData[k]) ==> stockData[k] in r
    ensures Records.IsSubsequence(r, stockData)
    ensures forall k :: 0 <= k < |stockData| ==>
              multiset(r)[stockData[k]] == if SomeItemNames(items, stockData[k]) then multiset(stockData)[stockData[k]] else 0
    ensures (forall i :: 0 <= i < |items| ==> items[i].name == "") ==> r == []
  {
    Records.Filter(stockData, s => SomeItemNames(items, s))
  }

  function SeedStock(): seq<Stock> {
    [Stock("Item A", 50), Stock("Item B", 30), Stock("Item C", 70), Stock("Item D", 20)]
  }

  /** Typing "item" into a line item hints every seeded stock row, since the
      search ignores case. */
  lemma ItemHintsAllSeededStock()
    ensures FilteredStock(SeedStock(), [EmptyItem.(name := "item")]) == SeedStock()
  {
    var items := [EmptyItem.(name := "item")];
    forall k | 0 <= k < |SeedStock()| ensures SomeItemNames(items, SeedStock()[k]) {
      var n := Text.Lower(SeedStock()[k].name);
      assert Text.Lower("item") == "item";
      assert n[..4] == "item";
      assert Names(items[0], SeedStock()[k]);
    }
    Records.FilterKeepsAll(SeedStock(), s => SomeItemNames(items, s));
  }

  /** The add-order screen. `setStockData` is never called, so the stock
      list is a constant of the screen. */
  class AddOrder {
    var newOrder: NewOrder
    const stockData: seq<Stock>

    constructor ()
      ensures newOrder == FreshOrder()
      ensures stockData == SeedStock()
    {
      newOrder := FreshOrder();
      stockData := SeedStock();
    }

    /** `handleInputChange`: sets one header field. */
    method HandleInputChange(f: HeaderField, value: string)
      modifies this
      ensures HeaderValue(newOrder, f) == value
      ensures forall g :: g != f ==> HeaderValue(newOrder, g) == HeaderValue(old(newOrder), g)
      ensures newOrder.items == old(newOrder.items)
    {
      newOrder := WithHeaderField(newOrder, f, value);
    }

    /** `handleItemChange(index, field, value)`. */
    method HandleItemChange(index: int, f: ItemField, value: string)
      modifies this
      ensures newOrder == old(newOrder).(items := ItemsWithField(old(newOrder.items), index, f, value))
    {
      newOrder := newOrder.(items := ItemsWithField(newOrder.items, index, f, value));
    }

    /** `addItem`: appends one empty item after the existing ones. */
    method AddItem()
      modifies this
      ensures newOrder == old(newOrder).(items := old(newOrder.items) + [EmptyItem])
    {
      newOrder := newOrder.(items := newOrder.items + [EmptyItem]);
    }

    /** `removeItem(index)`. */
    method RemoveItem(index: int)
      modifies this
      ensures newOrder == old(newOrder).(items := ItemsWithout(old(newOrder.items), index))
    {
      newOrder := newOrder.(items := ItemsWithout(newOrder.items, index));
    }

    /** The stock hint shown beside the form. */
    function StockHint(): (r: seq<Stock>)
      reads this
      ensures Records.IsSubsequence(r, stockData)
    {
      FilteredStock(stockData, newOrder.items)
    }
  }
}
