/** The "Sector View" screen: the sector table with its search box and its
    view, name-edit and delete dialogs. */
module ViewSector {
  import Text
  import Records
  import Search
  import opened Options

  datatype Sector = Sector(id: int, name: string, shops: seq<string>)

  function SectorId(s: Sector): int {
    s.id
  }

  function SectorName(s: Sector): string {
    s.name
  }

  /** `shops.join(', ')`. */
  function JoinShops(shops: seq<string>): string {
    if shops == [] then ""
    else if |shops| == 1 then shops[0]
    else shops[0] + ", " + JoinShops(shops[1..])
  }

  /** The joined text is empty for no shops, and otherwise starts with the
      first shop name and ends with the last. */
  lemma {:induction false} JoinShopsEnds(shops: seq<string>)
    ensures shops == [] ==> JoinShops(shops) == ""
    ensures shops != [] ==> |shops[0]| <= |JoinShops(shops)| && JoinShops(shops)[..|shops[0]|] == shops[0]
    ensures shops != [] ==> var r, last := JoinShops(shops), shops[|shops| - 1];
              |last| <= |r| && r[|r| - |last|..] == last
  {
    if |shops| >= 2 {
      JoinShopsEnds(shops[1..]);
      var rest := JoinShops(shops[1..]);
      assert shops[1..][|shops[1..]| - 1] == shops[|shops| - 1];
      var r := shops[0] + ", " + rest;
      assert r[|r| - |rest|..] == rest;
    }
  }

  /** Joining two non-empty lists puts one separator between their joins. */
  lemma {:induction false} JoinShopsConcat(a: seq<string>, b: seq<string>)
    requires a != [] && b != []
    ensures JoinShops(a + b) == JoinShops(a) + ", " + JoinShops(b)
  {
    if |a| == 1 {
      assert (a + b)[1..] == b;
    } else {
      JoinShopsConcat(a[1..], b);
      assert (a + b)[1..] == a[1..] + b;
    }
  }

  /** The joined text holds every shop name and one two-character
      separator between each neighbouring pair. */
  lemma {:induction false} JoinShopsLength(shops: seq<string>)
    requires shops != []
    ensures |JoinShops(shops)| == Records.SumOf(shops, (s: string) => |s|) + 2 * (|shops| - 1)
  {
    if |shops| == 1 {
      assert shops[..0] == [];
    } else {
      var front := shops[..|shops| - 1];
      var last := shops[|shops| - 1];
      assert shops == front + [last];
      JoinShopsConcat(front, [last]);
      JoinShopsLength(front);
    }
  }

  /** The edit dialog's `onChange`: `{ ...prev, name: value }`. Only the name
      changes; the id and the shop list are untouched. */
  function WithName(s: Sector, name: string): (r: Sector)
    ensures r.name == name && r.id == s.id && r.shops == s.shops
  {
    s.(name := name)
  }

  /** `filteredSectors`: the sectors whose name contains the term, ignoring
      case, in their original order; the empty term keeps them all. */
  function FilteredSectors(sectors: seq<Sector>, term: string): (r: seq<Sector>)
    ensures forall k :: 0 <= k < |r| ==> r[k] in sectors && Text.Matches(r[k].name, term)
    ensures forall k :: 0 <= k < |sectors| && Text.Matches(sectors[k].name, term) ==> sectors[k] in r
    ensures Records.IsSubsequence(r, sectors)
    ensures forall k :: 0 <= k < |sectors| ==>
              multiset(r)[sectors[k]] == if Text.Matches(sectors[k].name, term) then multiset(sectors)[sectors[k]] else 0
    ensures term == "" ==> r == sectors
  {
    Search.ByField(sectors, SectorName, term)
  }

  function SeedSectors(): seq<Sector> {
    [Sector(1, "Electronics", ["Shop A", "Shop B", "Shop C"]),
     Sector(2, "Clothing", ["Shop D", "Shop E"]),
     Sector(3, "Groceries", ["Shop F", "Shop G", "Shop H", "Shop I"])]
  }

  /** The sector screen, in the state its mount effect leaves it. */
  class SectorView {
    var sectors: seq<Sector>
    var selectedSector: Option<Sector>
    var isEditModalOpen: bool
    var isDeleteModalOpen: bool
    var isViewModalOpen: bool

    ghost predicate Valid()
      reads this
    {
      Records.UniqueIds(sectors, SectorId)
    }

    constructor ()
      ensures Valid()
      ensures sectors == SeedSectors() && selectedSector == None
      ensures !isEditModalOpen && !isDeleteModalOpen && !isViewModalOpen
    {
      sectors := SeedSectors();
      selectedSector := None;
      isEditModalOpen := false;
      isDeleteModalOpen := false;
      isViewModalOpen := false;
    }

    /** `handleViewSector(sector)`. */
    method HandleViewSector(s: Sector)
      modifies this
      ensures selectedSector == Some(s) && isViewModalOpen
      ensures sectors == old(sectors)
      ensures isEditModalOpen == old(isEditModalOpen) && isDeleteModalOpen == old(isDeleteModalOpen)
    {
      selectedSector := Some(s);
      isViewModalOpen := true;
    }

    /** `handleEditSector(sector)`. */
    method HandleEditSector(s: Sector)
      modifies this
      ensures selectedSector == Some(s) && isEditModalOpen
      ensures sectors == old(sectors)
      ensures isViewModalOpen == old(isViewModalOpen) && isDeleteModalOpen == old(isDeleteModalOpen)
    {
      selectedSector := Some(s);
      isEditModalOpen := true;
    }

    /** `handleDeleteSector(sector)`. */
    method HandleDeleteSector(s: Sector)
      modifies this
      ensures selectedSector == Some(s) && isDeleteModalOpen
      ensures sectors == old(sectors)
      ensures isViewModalOpen == old(isViewModalOpen) && isEditModalOpen == old(isEditModalOpen)
    {
      selectedSector := Some(s);
      isDeleteModalOpen := true;
    }

    /** The name input's `onChange`. */
    method ChangeName(name: string)
      requires selectedSector.Some?
      modifies this
      ensures selectedSector == Some(WithName(old(selectedSector).value, name))
      ensures sectors == old(sectors)
      ensures isViewModalOpen == old(isViewModalOpen) && isEditModalOpen == old(isEditModalOpen)
      ensures isDeleteModalOpen == old(isDeleteModalOpen)
    {
      selectedSector := Some(WithName(selectedSector.value, name));
    }

    /** `saveEditedSector`: the sector with the selected id becomes a copy of
        the edited sector; the others are unchanged. */
    method SaveEditedSector()
      requires Valid()
      requires selectedSector.Some?
      modifies this
      ensures Valid()
      ensures sectors == Records.ReplaceById(old(sectors), SectorId, old(selectedSector).value)
      ensures selectedSector == old(selectedSector) && !isEditModalOpen
      ensures isViewModalOpen == old(isViewModalOpen) && isDeleteModalOpen == old(isDeleteModalOpen)
    {
      Records.ReplaceByIdKeepsUniqueIds(sectors, SectorId, selectedSector.value);
      sectors := Records.ReplaceById(sectors, SectorId, selectedSector.value);
      isEditModalOpen := false;
    }

    /** `confirmDeleteSector`: the sector with the selected id is removed. */
    method ConfirmDeleteSector()
      requires Valid()
      requires selectedSector.Some?
      modifies this
      ensures Valid()
      ensures sectors == Records.RemoveById(old(sectors), SectorId, old(selectedSector).value.id)
      ensures selectedSector == old(selectedSector) && !isDeleteModalOpen
      ensures isViewModalOpen == old(isViewModalOpen) && isEditModalOpen == old(isEditModalOpen)
    {
      Records.RemoveByIdKeepsUniqueIds(sectors, SectorId, selectedSector.value.id);
      sectors := Records.RemoveById(sectors, SectorId, selectedSector.value.id);
      isDeleteModalOpen := false;
    }

    /** The rows of the sector table for a search term. */
    function VisibleSectors(term: string): (r: seq<Sector>)
      reads this
      ensures Records.IsSubsequence(r, sectors)
    {
      FilteredSectors(sectors, term)
    }
  }
}
