/** The "Inventory Management" screen: the item table with its search box
    and its edit and delete dialogs. */
module ViewItems {
  import Text
  import Records
  import Search
  import opened Options

  /** An inventory row. The edit dialog writes the raw text of its inputs
      back into the fields, so every field but the id is text; the seeded
      numbers are written as their text. */
  datatype Item = Item(
    id: int, name: string, corton: string, pieces: string, purchasePrice: string,
    salePrice: string, supplier: string, purchaseDate: string)

  /** The `name` attribute of an input in the edit dialog. */
  datatype ItemField = Name | Corton | Pieces | PurchasePrice | SalePrice | Supplier | PurchaseDate

  function ItemId(it: Item): int {
    it.id
  }

  function ItemName(it: Item): string {
    it.name
  }

  function FieldValue(it: Item, f: ItemField): string {
    match f
    case Name => it.name
    case Corton => it.corton
    case Pieces => it.pieces
    case PurchasePrice => it.purchasePrice
    case SalePrice => it.salePrice
    case Supplier => it.supplier
    case PurchaseDate => it.purchaseDate
  }

  /** `{ ...prev, [name]: value }` on the selected item: exactly one field
      set, the id and the other fields kept. */
  function WithField(it: Item, f: ItemField, value: string): (r: Item)
    ensures FieldValue(r, f) == value
    ensures forall g :: g != f ==> FieldValue(r, g) == FieldValue(it, g)
    ensures r.id == it.id
  {
    match f
    case Name => it.(name := value)
    case Corton => it.(corton := value)
    case Pieces => it.(pieces := value)
    case PurchasePrice => it.(purchasePrice := value)
    case SalePrice => it.(salePrice := value)
    case Supplier => it.(supplier := value)
    case PurchaseDate => it.(purchaseDate := value)
  }

  /** `{ ...item, ...selected }`: every field of `selected` laid over `item`.
      Both carry all eight keys, so the overlay takes every field from
      `selected`. */
  function Overlay(item: Item, selected: Item): (r: Item)
    ensures forall f :: FieldValue(r, f) == FieldValue(selected, f)
    ensures item.id == selected.id ==> r.id == item.id
  {
    selected
  }

  /** `filteredInventory`: the items whose name contains the term, ignoring
      case, in their original order; the empty term keeps them all. */
  function FilteredInventory(inventory: seq<Item>, term: string): (r: seq<Item>)
    ensures forall k :: 0 <= k < |r| ==> r[k] in inventory && Text.Matches(r[k].name, term)
    ensures forall k :: 0 <= k < |inventory| && Text.Matches(inventory[k].name, term) ==> inventory[k] in r
    ensures Records.IsSubsequence(r, inventory)
    ensures forall k :: 0 <= k < |inventory| ==>
              multiset(r)[inventory[k]] == if Text.Matches(inventory[k].name, term) then multiset(inventory)[inventory[k]] else 0
    ensures term == "" ==> r == inventory
  {
    Search.ByField(inventory, ItemName, term)
  }

  /** The inventory after `handleSave`: every item with the selected id gets
      the selected item's fields laid over it; the others, and the length,
      are unchanged. */
  function SaveSelected(inventory: seq<Item>, selected: Item): (r: seq<Item>)
    ensures |r| == |inventory|
    ensures forall i :: 0 <= i < |inventory| && inventory[i].id == selected.id ==>
              r[i] == Overlay(inventory[i], selected)
    ensures forall i :: 0 <= i < |inventory| && inventory[i].id != selected.id ==> r[i] == inventory[i]
  {
    Records.ReplaceById(inventory, ItemId, selected)
  }

  function SeedInventory(): seq<Item> {
    [Item(1, "Item A", "5", "50", "200.0", "250.0", "Supplier A", "2024-01-01"),
     Item(2, "Item B", "10", "100", "150.0", "180.0", "Supplier B", "2024-01-05")]
  }

  class InventoryManagement {
    var inventory: seq<Item>
    var selectedItem: Option<Item>
    var isEditModalOpen: bool
    var isDeleteModalOpen: bool

    ghost predicate Valid()
      reads this
    {
      Records.UniqueIds(inventory, ItemId)
    }

    constructor ()
      ensures Valid()
      ensures inventory == SeedInventory() && selectedItem == None
      ensures !isEditModalOpen && !isDeleteModalOpen
    {
      inventory := SeedInventory();
      selectedItem := None;
      isEditModalOpen := false;
      isDeleteModalOpen := false;
    }

    /** `handleEdit(item)`. */
    method HandleEdit(item: Item)
      modifies this
      ensures selectedItem == Some(item) && isEditModalOpen
      ensures inventory == old(inventory) && isDeleteModalOpen == old(isDeleteModalOpen)
    {
      selectedItem := Some(item);
      isEditModalOpen := true;
    }

    /** `handleEditChange`: edits the selected copy only. */
    method HandleEditChange(f: ItemField, value: string)
      requires selectedItem.Some?
      modifies this
      ensures selectedItem == Some(WithField(old(selectedItem).value, f, value))
      ensures inventory == old(inventory)
      ensures isEditModalOpen == old(isEditModalOpen) && isDeleteModalOpen == old(isDeleteModalOpen)
    {
      selectedItem := Some(WithField(selectedItem.value, f, value));
    }

    /** `handleSave`. */
    method HandleSave()
      requires Valid()
      requires selectedItem.Some?
      modifies this
      ensures Valid()
      ensures inventory == SaveSelected(old(inventory), old(selectedItem).value)
      ensures selectedItem == old(selectedItem) && !isEditModalOpen
      ensures isDeleteModalOpen == old(isDeleteModalOpen)
    {
      Records.ReplaceByIdKeepsUniqueIds(inventory, ItemId, selectedItem.value);
      inventory := SaveSelected(inventory, selectedItem.value);
      isEditModalOpen := false;
    }

    /** `handleDelete(item)`. */
    method HandleDelete(item: Item)
      modifies this
      ensures selectedItem == Some(item) && isDeleteModalOpen
      ensures inventory == old(inventory) && isEditModalOpen == old(isEditModalOpen)
    {
      selectedItem := Some(item);
      isDeleteModalOpen := true;
    }

    /** `confirmDelete`: the items with the selected id are removed, the rest
        keep their order. */
    method ConfirmDelete()
      requires Valid()
      requires selectedItem.Some?
      modifies this
      ensures Valid()
      ensures inventory == Records.RemoveById(old(inventory), ItemId, old(selectedItem).value.id)
      ensures selectedItem == old(selectedItem) && !isDeleteModalOpen
      ensures isEditModalOpen == old(isEditModalOpen)
    {
      Records.RemoveByIdKeepsUniqueIds(inventory, ItemId, selectedItem.value.id);
      inventory := Records.RemoveById(inventory, ItemId, selectedItem.value.id);
      isDeleteModalOpen := false;
    }

    /** The rows of the inventory table for a search term. */
    function VisibleItems(term: string): (r: seq<Item>)
      reads this
      ensures Records.IsSubsequence(r, inventory)
    {
      FilteredInventory(inventory, term)
    }
  }
}
