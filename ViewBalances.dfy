/** The "Shop Management" screen: the shop table with its add/edit dialog
    and its delete confirmation. */
module ViewBalances {
  import Records
  import opened Options

  /** A shop row. Every field but the id holds the text of its form input;
      the seeded numeric balances are written as their text. */
  datatype Shop = Shop(id: int, name: string, address: string, contact: string, balance: string)

  /** `formState`: the dialog's four inputs. */
  datatype ShopForm = ShopForm(name: string, address: string, contact: string, balance: string)

  /** The `name` attribute of a dialog input. */
  datatype FormField = Name | Address | Contact | Balance

  const EmptyForm := ShopForm("", "", "", "")

  function FormValue(form: ShopForm, f: FormField): string {
    match f
    case Name => form.name
    case Address => form.address
    case Contact => form.contact
    case Balance => form.balance
  }

  /** `{ ...prev, [name]: value }`: one input set, the others kept. */
  function WithFormField(form: ShopForm, f: FormField, value: string): (r: ShopForm)
    ensures FormValue(r, f) == value
    ensures forall g :: g != f ==> FormValue(r, g) == FormValue(form, g)
  {
    match f
    case Name => form.(name := value)
    case Address => form.(address := value)
    case Contact => form.(contact := value)
    case Balance => form.(balance := value)
  }

  /** `{ ...shop }` copied into the form. */
  function FormOf(s: Shop): ShopForm
  {
    ShopForm(s.name, s.address, s.contact, s.balance)
  }

  /** A shop with the given id and the form's contents. */
  function ShopFrom(id: int, form: ShopForm): (s: Shop)
    ensures s.id == id && FormOf(s) == form
    ensures forall t: Shop :: t.id == id && FormOf(t) == form ==> t == s
  {
    Shop(id, form.name, form.address, form.contact, form.balance)
  }

  /** The guard of `saveShop`: name, address and contact non-empty and the
      balance not the empty string. */
  predicate FormComplete(form: ShopForm)
    ensures FormComplete(form) <==> forall f :: FormValue(form, f) != ""
  {
    assert FormValue(form, Name) == form.name && FormValue(form, Address) == form.address;
    assert FormValue(form, Contact) == form.contact && FormValue(form, Balance) == form.balance;
    form.name != "" && form.address != "" && form.contact != "" && form.balance != ""
  }

  function ShopId(s: Shop): int {
    s.id
  }

  /** The largest id in a non-empty list. */
  function MaxId(shops: seq<Shop>): (m: int)
    requires |shops| > 0
    ensures exists i :: 0 <= i < |shops| && shops[i].id == m
    ensures forall i :: 0 <= i < |shops| ==> shops[i].id <= m
  {
    if |shops| == 1 then shops[0].id
    else
      var m := MaxId(shops[1..]);
      assert forall i :: 1 <= i < |shops| ==> shops[i] == shops[1..][i - 1];
      if shops[0].id >= m then shops[0].id else m
  }

  /** The id of an added shop: one more than the largest id, or 1 for an
      empty list (see `MaxPlusOne` for what the screen computes there). */
  function NewShopId(shops: seq<Shop>): (id: int)
    ensures forall i :: 0 <= i < |shops| ==> shops[i].id < id
  {
    if shops == [] then 1 else MaxId(shops) + 1
  }

  /** The shops after saving an edit of shop `id`: every shop with that id
      takes the form's contents and keeps its id. */
  function UpdateShop(shops: seq<Shop>, id: int, form: ShopForm): (r: seq<Shop>)
    ensures |r| == |shops|
    ensures forall i :: 0 <= i < |shops| ==> r[i].id == shops[i].id
    ensures forall i :: 0 <= i < |shops| && shops[i].id == id ==> FormOf(r[i]) == form
    ensures forall i :: 0 <= i < |shops| && shops[i].id != id ==> r[i] == shops[i]
  {
    Records.MapWhere(shops, (s: Shop) => s.id == id, (s: Shop) => ShopFrom(s.id, form))
  }

  /** The shops after adding the form as a new shop at the end, with the id
      `NewShopId` gives: the largest id plus 1, or 1 on an empty list. */
  function AddShop(shops: seq<Shop>, form: ShopForm): (r: seq<Shop>)
    ensures |r| == |shops| + 1 && r[..|shops|] == shops
    ensures FormOf(r[|shops|]) == form
    ensures forall i :: 0 <= i < |shops| ==> shops[i].id < r[|shops|].id
    ensures shops != [] ==> r[|shops|].id == MaxId(shops) + 1
    ensures shops == [] ==> r[0].id == 1
  {
    shops + [ShopFrom(NewShopId(shops), form)]
  }

  /** The shops after deleting shop `id`: every shop with that id removed,
      the others kept in order. */
  function RemoveShop(shops: seq<Shop>, id: int): (r: seq<Shop>)
    ensures forall k :: 0 <= k < |r| ==> r[k] in shops && r[k].id != id
    ensures forall k :: 0 <= k < |shops| && shops[k].id != id ==> shops[k] in r
    ensures Records.IsSubsequence(r, shops)
    ensures forall k :: 0 <= k < |shops| ==>
              multiset(r)[shops[k]] == if shops[k].id != id then multiset(shops)[shops[k]] else 0
    ensures (forall k :: 0 <= k < |shops| ==> shops[k].id != id) ==> r == shops
  {
    Records.RemoveById(shops, ShopId, id)
  }

  /** Each of the three list updates keeps the shop ids unique. */
  lemma {:induction false} UpdatesKeepIdsUnique(shops: seq<Shop>, id: int, form: ShopForm)
    requires Records.UniqueIds(shops, ShopId)
    ensures Records.UniqueIds(UpdateShop(shops, id, form), ShopId)
    ensures Records.UniqueIds(AddShop(shops, form), ShopId)
    ensures Records.UniqueIds(RemoveShop(shops, id), ShopId)
  {
    var u := UpdateShop(shops, id, form);
    assert forall i :: 0 <= i < |u| ==> ShopId(u[i]) == ShopId(shops[i]);
    var a := AddShop(shops, form);
    assert forall i :: 0 <= i < |shops| ==> a[i] == shops[i];
    Records.RemoveByIdKeepsUniqueIds(shops, ShopId, id);
  }

  // The id as the screen computes it: `Math.max(...shops.map(s => s.id)) + 1`.
  // `Math.max()` of no arguments is `-Infinity`, and `-Infinity + 1` is
  // `-Infinity` again.

  datatype JsId = NegInfinity | Finite(n: int)

  function JsMax(a: JsId, b: JsId): JsId {
    match (a, b)
    case (NegInfinity, _) => b
    case (_, NegInfinity) => a
    case (Finite(x), Finite(y)) => if x >= y then a else b
  }

  function JsPlusOne(a: JsId): JsId {
    match a
    case NegInfinity => NegInfinity
    case Finite(x) => Finite(x + 1)
  }

  /** `Math.max(...ids)`. */
  function JsMaxOf(ids: seq<JsId>): (r: JsId)
    ensures r.NegInfinity? <==> forall i :: 0 <= i < |ids| ==> ids[i].NegInfinity?
    ensures r.Finite? ==> r in ids
    ensures forall i :: 0 <= i < |ids| && ids[i].Finite? ==> r.Finite? && ids[i].n <= r.n
  {
    if ids == [] then NegInfinity
    else
      assert forall i :: 1 <= i < |ids| ==> ids[i] == ids[1..][i - 1];
      JsMax(ids[0], JsMaxOf(ids[1..]))
  }

  /** `Math.max(...ids) + 1`, as the screen writes it. */
  function MaxPlusOne(ids: seq<JsId>): (r: JsId)
    ensures r.NegInfinity? <==> forall i :: 0 <= i < |ids| ==> ids[i].NegInfinity?
    ensures r.Finite? ==> Finite(r.n - 1) in ids
    ensures forall i :: 0 <= i < |ids| && ids[i].Finite? ==> r.Finite? && ids[i].n < r.n
  {
    JsPlusOne(JsMaxOf(ids))
  }

  function FiniteIds(shops: seq<Shop>): (ids: seq<JsId>)
    ensures |ids| == |shops|
    ensures forall i :: 0 <= i < |shops| ==> ids[i] == Finite(shops[i].id)
  {
    if shops == [] then [] else [Finite(shops[0].id)] + FiniteIds(shops[1..])
  }

  /** On a non-empty list the screen's id and `NewShopId` agree. */
  lemma {:induction false} MaxPlusOneAgreesWhenNonEmpty(shops: seq<Shop>)
    requires |shops| > 0
    ensures MaxPlusOne(FiniteIds(shops)) == Finite(NewShopId(shops))
  {
    JsMaxOfFinite(shops);
  }

  lemma {:induction false} JsMaxOfFinite(shops: seq<Shop>)
    requires |shops| > 0
    ensures JsMaxOf(FiniteIds(shops)) == Finite(MaxId(shops))
  {
    var ids := FiniteIds(shops);
    assert ids[1..] == FiniteIds(shops[1..]);
    if |shops| > 1 {
      JsMaxOfFinite(shops[1..]);
    } else {
      assert ids[1..] == [];
    }
  }

  /** On an empty list the screen's id is `-Infinity`, and a second add
      computes `-Infinity` again: two shops then share one id. */
  lemma EmptyListGivesDuplicateIds()
    ensures MaxPlusOne([]) == NegInfinity
    ensures MaxPlusOne([MaxPlusOne([])]) == MaxPlusOne([])
  {
  }

  function SeedShops(): seq<Shop> {
    [Shop(1, "Shop A", "123 Main St", "123-456-7890", "500.0"),
     Shop(2, "Shop B", "456 Elm St", "987-654-3210", "750.0"),
     Shop(3, "Shop C", "789 Oak St", "555-555-5555", "1200.0")]
  }

  class ShopManagement {
    var shops: seq<Shop>
    var selectedShop: Option<Shop>
    var formState: ShopForm
    var isModalOpen: bool
    var isDeleteModalOpen: bool

    ghost predicate Valid()
      reads this
    {
      Records.UniqueIds(shops, ShopId)
    }

    constructor ()
      ensures Valid()
      ensures shops == SeedShops() && selectedShop == None && formState == EmptyForm
      ensures !isModalOpen && !isDeleteModalOpen
    {
      shops := SeedShops();
      selectedShop := None;
      formState := EmptyForm;
      isModalOpen := false;
      isDeleteModalOpen := false;
    }

    /** `handleEditShop(shop)`: selects the shop and copies it into the form. */
    method HandleEditShop(shop: Shop)
      modifies this
      ensures selectedShop == Some(shop) && formState == FormOf(shop) && isModalOpen
      ensures shops == old(shops) && isDeleteModalOpen == old(isDeleteModalOpen)
    {
      selectedShop := Some(shop);
      formState := FormOf(shop);
      isModalOpen := true;
    }

    /** `handleAddShop`: clears the selection and empties the form. */
    method HandleAddShop()
      modifies this
      ensures selectedShop == None && formState == EmptyForm && isModalOpen
      ensures shops == old(shops) && isDeleteModalOpen == old(isDeleteModalOpen)
    {
      selectedShop := None;
      formState := EmptyForm;
      isModalOpen := true;
    }

    /** `handleDeleteShop(shop)`: selects the shop and asks for confirmation. */
    method HandleDeleteShop(shop: Shop)
      modifies this
      ensures selectedShop == Some(shop) && isDeleteModalOpen
      ensures shops == old(shops) && formState == old(formState) && isModalOpen == old(isModalOpen)
    {
      selectedShop := Some(shop);
      isDeleteModalOpen := true;
    }

    /** `confirmDeleteShop`. */
    method ConfirmDeleteShop()
      requires Valid()
      requires selectedShop.Some?
      modifies this
      ensures Valid()
      ensures shops == RemoveShop(old(shops), old(selectedShop).value.id)
      ensures !isDeleteModalOpen
      ensures selectedShop == old(selectedShop) && formState == old(formState) && isModalOpen == old(isModalOpen)
    {
      UpdatesKeepIdsUnique(shops, selectedShop.value.id, formState);
      shops := RemoveShop(shops, selectedShop.value.id);
      isDeleteModalOpen := false;
    }

    /** `handleFormChange`: sets one input of the form. */
    method HandleFormChange(f: FormField, value: string)
      modifies this
      ensures formState == WithFormField(old(formState), f, value)
      ensures shops == old(shops) && selectedShop == old(selectedShop)
      ensures isModalOpen == old(isModalOpen) && isDeleteModalOpen == old(isDeleteModalOpen)
    {
      formState := WithFormField(formState, f, value);
    }

    /** `saveShop`: an incomplete form leaves everything as it is; otherwise
        the selected shop is updated, or, with no selection, a new shop is
        added, and the dialog closes. */
    method SaveShop() returns (saved: bool)
      requires Valid()
      modifies this
      ensures Valid()
      ensures saved == FormComplete(formState)
      ensures !saved ==> shops == old(shops) && isModalOpen == old(isModalOpen)
      ensures saved && selectedShop.Some? ==> shops == UpdateShop(old(shops), selectedShop.value.id, formState)
      ensures saved && selectedShop.None? ==> shops == AddShop(old(shops), formState)
      ensures saved ==> !isModalOpen
      ensures selectedShop == old(selectedShop) && formState == old(formState)
      ensures isDeleteModalOpen == old(isDeleteModalOpen)
    {
      if !FormComplete(formState) {
        return false;
      }
      var id := if selectedShop.Some? then selectedShop.value.id else 0;
      UpdatesKeepIdsUnique(shops, id, formState);
      if selectedShop.Some? {
        shops := UpdateShop(shops, id, formState);
      } else {
        shops := AddShop(shops, formState);
      }
      isModalOpen := false;
      saved := true;
    }
  }
}
