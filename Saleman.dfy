/** The "Salesman Management" screen: the salesman table with its search
    box and its view, edit and delete dialogs. */
module Saleman {
  import Text
  import Records
  import Search
  import opened Options

  datatype Salesman = Salesman(id: int, name: string, email: string, phone: string)

  /** The three inputs of the edit dialog. */
  datatype ContactField = Name | Email | Phone

  function SalesmanId(s: Salesman): int {
    s.id
  }

  function SalesmanName(s: Salesman): string {
    s.name
  }

  function SalesmanEmail(s: Salesman): string {
    s.email
  }

  /** `{ ...selectedSalesman, name | email | phone: value }`: one field set,
      the id and the other fields kept. */
  function WithContactField(s: Salesman, f: ContactField, value: string): (r: Salesman)
    ensures r.id == s.id
    ensures f == Name ==> r == s.(name := value)
    ensures f == Email ==> r == s.(email := value)
    ensures f == Phone ==> r == s.(phone := value)
  {
    match f
    case Name => s.(name := value)
    case Email => s.(email := value)
    case Phone => s.(phone := value)
  }

  /** `filteredSalesmen`: a salesman is kept iff the name or the email
      contains the term, ignoring case; order is kept; the empty term keeps
      them all. */
  function FilteredSalesmen(salesmen: seq<Salesman>, term: string): (r: seq<Salesman>)
    ensures forall k :: 0 <= k < |r| ==>
              r[k] in salesmen && (Text.Matches(r[k].name, term) || Text.Matches(r[k].email, term))
    ensures forall k :: 0 <= k < |salesmen| && (Text.Matches(salesmen[k].name, term) || Text.Matches(salesmen[k].email, term)) ==>
              salesmen[k] in r
    ensures Records.IsSubsequence(r, salesmen)
    ensures forall k :: 0 <= k < |salesmen| ==>
              multiset(r)[salesmen[k]] == if Text.Matches(salesmen[k].name, term) || Text.Matches(salesmen[k].email, term) then multiset(salesmen)[salesmen[k]] else 0
    ensures term == "" ==> r == salesmen
  {
    Search.ByEitherField(salesmen, SalesmanName, SalesmanEmail, term)
  }

  function SeedSalesmen(): seq<Salesman> {
    [Salesman(1, "John Doe", "john.doe@example.com", "123-456-7890"),
     Salesman(2, "Jane Smith", "jane.smith@example.com", "987-654-3210"),
     Salesman(3, "Bob Johnson", "bob.johnson@example.com", "555-555-5555")]
  }

  /** The salesman screen, in the state its loading effect leaves it. */
  class SalesmanManagement {
    var salesmen: seq<Salesman>
    var selectedSalesman: Option<Salesman>
    var isViewModalOpen: bool
    var isEditModalOpen: bool
    var isDeleteModalOpen: bool

    ghost predicate Valid()
      reads this
    {
      Records.UniqueIds(salesmen, SalesmanId)
    }

    constructor ()
      ensures Valid()
      ensures salesmen == SeedSalesmen() && selectedSalesman == None
      ensures !isViewModalOpen && !isEditModalOpen && !isDeleteModalOpen
    {
      salesmen := SeedSalesmen();
      selectedSalesman := None;
      isViewModalOpen := false;
      isEditModalOpen := false;
      isDeleteModalOpen := false;
    }

    /** The row's view button. */
    method OpenView(s: Salesman)
      modifies this
      ensures selectedSalesman == Some(s) && isViewModalOpen
      ensures salesmen == old(salesmen)
      ensures isEditModalOpen == old(isEditModalOpen) && isDeleteModalOpen == old(isDeleteModalOpen)
    {
      selectedSalesman := Some(s);
      isViewModalOpen := true;
    }

    /** The row's edit button. */
    method OpenEdit(s: Salesman)
      modifies this
      ensures selectedSalesman == Some(s) && isEditModalOpen
      ensures salesmen == old(salesmen)
      ensures isViewModalOpen == old(isViewModalOpen) && isDeleteModalOpen == old(isDeleteModalOpen)
    {
      selectedSalesman := Some(s);
      isEditModalOpen := true;
    }

    /** The row's delete button. */
    method OpenDelete(s: Salesman)
      modifies this
      ensures selectedSalesman == Some(s) && isDeleteModalOpen
      ensures salesmen == old(salesmen)
      ensures isViewModalOpen == old(isViewModalOpen) && isEditModalOpen == old(isEditModalOpen)
    {
      selectedSalesman := Some(s);
      isDeleteModalOpen := true;
    }

    /** An edit-dialog input's `onChange`: edits the selected copy only. */
    method ChangeField(f: ContactField, value: string)
      requires selectedSalesman.Some?
      modifies this
      ensures selectedSalesman == Some(WithContactField(old(selectedSalesman).value, f, value))
      ensures salesmen == old(salesmen)
      ensures isViewModalOpen == old(isViewModalOpen) && isEditModalOpen == old(isEditModalOpen)
      ensures isDeleteModalOpen == old(isDeleteModalOpen)
    {
      selectedSalesman := Some(WithContactField(selectedSalesman.value, f, value));
    }

    /** `handleEditSalesman`: the salesman with the selected id becomes the
        edited copy; the others are unchanged. */
    method HandleEditSalesman()
      requires Valid()
      requires selectedSalesman.Some?
      modifies this
      ensures Valid()
      ensures salesmen == Records.ReplaceById(old(salesmen), SalesmanId, old(selectedSalesman).value)
      ensures selectedSalesman == old(selectedSalesman) && !isEditModalOpen
      ensures isViewModalOpen == old(isViewModalOpen) && isDeleteModalOpen == old(isDeleteModalOpen)
    {
      Records.ReplaceByIdKeepsUniqueIds(salesmen, SalesmanId, selectedSalesman.value);
      salesmen := Records.ReplaceById(salesmen, SalesmanId, selectedSalesman.value);
      isEditModalOpen := false;
    }

    /** `handleDeleteSalesman`: the salesman with the selected id is removed;
        the others keep their order. */
    method HandleDeleteSalesman()
      requires Valid()
      requires selectedSalesman.Some?
      modifies this
      ensures Valid()
      ensures salesmen == Records.RemoveById(old(salesmen), SalesmanId, old(selectedSalesman).value.id)
      ensures selectedSalesman == old(selectedSalesman) && !isDeleteModalOpen
      ensures isViewModalOpen == old(isViewModalOpen) && isEditModalOpen == old(isEditModalOpen)
    {
      Records.RemoveByIdKeepsUniqueIds(salesmen, SalesmanId, selectedSalesman.value.id);
      salesmen := Records.RemoveById(salesmen, SalesmanId, selectedSalesman.value.id);
      isDeleteModalOpen := false;
    }

    /** The rows of the salesman table for a search term. */
    function VisibleSalesmen(term: string): (r: seq<Salesman>)
      reads this
      ensures Records.IsSubsequence(r, salesmen)
    {
      FilteredSalesmen(salesmen, term)
    }
  }
}
