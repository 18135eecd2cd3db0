/** The "Order Management" screen: the order table with its search box and
    its view, edit and delete dialogs. */
module OrderManagement {
  import Text
  import Records
  import Search
  import opened Options

  datatype OrderLine = OrderLine(name: string, quantity: int, price: int)

  datatype Order = Order(
    id: int, shop: string, salesman: string, sector: string, date: string, time: string,
    status: string, items: seq<OrderLine>)

  /** The `name` attribute of an input in the edit dialog. */
  datatype EditField = Shop | Salesman

  function OrderId(o: Order): int {
    o.id
  }

  function OrderShop(o: Order): string {
    o.shop
  }

  function OrderSalesman(o: Order): string {
    o.salesman
  }

  /** `filteredOrders`: the orders whose shop or salesman contains the term,
      ignoring case, in their original order; the empty term keeps them all. */
  function FilteredOrders(orders: seq<Order>, term: string): (r: seq<Order>)
    ensures forall k :: 0 <= k < |r| ==>
              r[k] in orders && (Text.Matches(r[k].shop, term) || Text.Matches(r[k].salesman, term))
    ensures forall k :: 0 <= k < |orders| && (Text.Matches(orders[k].shop, term) || Text.Matches(orders[k].salesman, term)) ==>
              orders[k] in r
    ensures Records.IsSubsequence(r, orders)
    ensures forall k :: 0 <= k < |orders| ==>
              multiset(r)[orders[k]] == if Text.Matches(orders[k].shop, term) || Text.Matches(orders[k].salesman, term) then multiset(orders)[orders[k]] else 0
    ensures term == "" ==> r == orders
  {
    Search.ByEitherField(orders, OrderShop, OrderSalesman, term)
  }

  /** `{ ...prev, [name]: value }` on the selected order: one field set, the
      id, the other fields and the items kept. */
  function WithEditField(o: Order, f: EditField, value: string): (r: Order)
    ensures f == Shop ==> r.shop == value && r.salesman == o.salesman
    ensures f == Salesman ==> r.salesman == value && r.shop == o.shop
    ensures r.(shop := o.shop, salesman := o.salesman) == o
  {
    match f
    case Shop => o.(shop := value)
    case Salesman => o.(salesman := value)
  }

  function SeedOrders(): seq<Order> {
    [Order(1, "Shop A", "John Doe", "Electronics", "2024-12-20", "14:30", "Delivered",
           [OrderLine("Phone", 2, 500), OrderLine("Laptop", 1, 1200)]),
     Order(2, "Shop B", "Jane Smith", "Clothing", "2024-12-19", "10:00", "Pending",
           [OrderLine("T-Shirt", 3, 20), OrderLine("Jeans", 2, 40)]),
     Order(3, "Shop C", "Mike Johnson", "Grocery", "2024-12-18", "16:15", "Cancelled",
           [OrderLine("Milk", 5, 3), OrderLine("Bread", 2, 2)])]
  }

  /** The order screen, in the state its mount effect leaves it. */
  class OrderManagement {
    var orders: seq<Order>
    var selectedOrder: Option<Order>
    var isEditModalOpen: bool
    var isDeleteModalOpen: bool
    var isViewModalOpen: bool

    ghost predicate Valid()
      reads this
    {
      Records.UniqueIds(orders, OrderId)
    }

    constructor ()
      ensures Valid()
      ensures orders == SeedOrders() && selectedOrder == None
      ensures !isEditModalOpen && !isDeleteModalOpen && !isViewModalOpen
    {
      orders := SeedOrders();
      selectedOrder := None;
      isEditModalOpen := false;
      isDeleteModalOpen := false;
      isViewModalOpen := false;
    }

    /** `handleView(order)`. */
    method HandleView(order: Order)
      modifies this
      ensures selectedOrder == Some(order) && isViewModalOpen
      ensures orders == old(orders)
      ensures isEditModalOpen == old(isEditModalOpen) && isDeleteModalOpen == old(isDeleteModalOpen)
    {
      selectedOrder := Some(order);
      isViewModalOpen := true;
    }

    /** `handleEdit(order)`. */
    method HandleEdit(order: Order)
      modifies this
      ensures selectedOrder == Some(order) && isEditModalOpen
      ensures orders == old(orders)
      ensures isViewModalOpen == old(isViewModalOpen) && isDeleteModalOpen == old(isDeleteModalOpen)
    {
      selectedOrder := Some(order);
      isEditModalOpen := true;
    }

    /** `handleDelete(order)`. */
    method HandleDelete(order: Order)
      modifies this
      ensures selectedOrder == Some(order) && isDeleteModalOpen
      ensures orders == old(orders)
      ensures isViewModalOpen == old(isViewModalOpen) && isEditModalOpen == old(isEditModalOpen)
    {
      selectedOrder := Some(order);
      isDeleteModalOpen := true;
    }

    /** `handleEditChange`: edits the selected copy only; the list is not
        touched until the edit is saved. */
    method HandleEditChange(f: EditField, value: string)
      requires selectedOrder.Some?
      modifies this
      ensures selectedOrder == Some(WithEditField(old(selectedOrder).value, f, value))
      ensures orders == old(orders)
      ensures isEditModalOpen == old(isEditModalOpen) && isDeleteModalOpen == old(isDeleteModalOpen)
      ensures isViewModalOpen == old(isViewModalOpen)
    {
      selectedOrder := Some(WithEditField(selectedOrder.value, f, value));
    }

    /** `handleSaveEdit`: every order with the selected id becomes the edited
        copy, and the dialog closes. */
    method HandleSaveEdit()
      requires Valid()
      requires selectedOrder.Some?
      modifies this
      ensures Valid()
      ensures orders == Records.ReplaceById(old(orders), OrderId, old(selectedOrder).value)
      ensures selectedOrder == old(selectedOrder) && !isEditModalOpen
      ensures isDeleteModalOpen == old(isDeleteModalOpen) && isViewModalOpen == old(isViewModalOpen)
    {
      Records.ReplaceByIdKeepsUniqueIds(orders, OrderId, selectedOrder.value);
      orders := Records.ReplaceById(orders, OrderId, selectedOrder.value);
      isEditModalOpen := false;
    }

    /** `confirmDelete`: the orders with the selected id are removed, and the
        dialog closes. */
    method ConfirmDelete()
      requires Valid()
      requires selectedOrder.Some?
      modifies this
      ensures Valid()
      ensures orders == Records.RemoveById(old(orders), OrderId, old(selectedOrder).value.id)
      ensures selectedOrder == old(selectedOrder) && !isDeleteModalOpen
      ensures isEditModalOpen == old(isEditModalOpen) && isViewModalOpen == old(isViewModalOpen)
    {
      Records.RemoveByIdKeepsUniqueIds(orders, OrderId, selectedOrder.value.id);
      orders := Records.RemoveById(orders, OrderId, selectedOrder.value.id);
      isDeleteModalOpen := false;
    }

    /** The rows of the order table for a search term. */
    function VisibleOrders(term: string): (r: seq<Order>)
      reads this
      ensures Records.IsSubsequence(r, orders)
    {
      FilteredOrders(orders, term)
    }
  }
}
