/** The category management screen: a searchable table of categories, a
    create/edit form, a delete confirmation dialog and a second, direct
    delete path guarded by the browser's `confirm()`. */
module CategoriesPage {
  import opened Rows
  import opened Text
  import opened Entities

  function CategoryMatches(term: string): Category -> bool
  {
    (c: Category) => MatchesTerm(c.name, term)
  }

  /** `filteredCategories`: the rows the table shows. */
  function FilteredCategories(categories: seq<Category>, searchTerm: string): seq<Category>
  {
    Filter(categories, CategoryMatches(searchTerm))
  }

  /** The table shows exactly, in order, the categories whose lower-cased
      name contains the lower-cased term; an empty term shows them all. */
  lemma FilteredCategoriesExactly(categories: seq<Category>, searchTerm: string)
    ensures FilteredCategories(categories, searchTerm)
            == Pick(categories, KeptIndices(categories, CategoryMatches(searchTerm), 0))
    ensures forall c :: c in FilteredCategories(categories, searchTerm)
                        <==> c in categories && MatchesTerm(c.name, searchTerm)
    ensures searchTerm == "" ==> FilteredCategories(categories, searchTerm) == categories
  {
    FilterExactly(categories, CategoryMatches(searchTerm));
    forall c ensures c in FilteredCategories(categories, searchTerm)
                     <==> c in categories && MatchesTerm(c.name, searchTerm)
    {
      FilterMembership(categories, CategoryMatches(searchTerm), c);
    }
    if searchTerm == "" {
      forall i | 0 <= i < |categories| ensures CategoryMatches("")(categories[i]) {
        MatchesEmptyTerm(categories[i].name);
      }
      FilterKeepsAll(categories, CategoryMatches(""));
    }
  }

  datatype CategoryRequest = CreateCategory(name: string) | UpdateCategory(id: int, name: string)

  /** The page's React state. */
  class CategoriesScreen {
    var categories: seq<Category>
    var loading: bool
    var submitting: bool
    var deleteId: Option<int>
    var isDeleteModalOpen: bool

    var isFormVisible: bool
    var editingCategory: Option<Category>
    var formName: string
    var searchTerm: string

    /** The initial `useState` values. */
    constructor ()
      ensures categories == [] && loading && !submitting && deleteId == None && !isDeleteModalOpen
      ensures !isFormVisible && editingCategory == None && formName == "" && searchTerm == ""
    {
      categories, loading, submitting := [], true, false;
      deleteId, isDeleteModalOpen := None, false;
      isFormVisible, editingCategory, formName, searchTerm := false, None, "", "";
    }

    /** The rows the table shows. */
    function Shown(): seq<Category>
      reads this
    {
      FilteredCategories(categories, searchTerm)
    }

    /** `fetchCategories`: a failed fetch empties the list. */
    method FetchCategories(response: Outcome<seq<Category>>)
      modifies this`categories, this`loading
      ensures !loading
      ensures categories == if response.Success? then response.value else []
      ensures searchTerm == "" ==> Shown() == categories
    {
      loading := true;
      categories := if response.Success? then response.value else [];
      loading := false;
      FilteredCategoriesExactly(categories, "");
    }

    /** `resetForm`. */
    method ResetForm()
      modifies this`editingCategory, this`formName
      ensures editingCategory == None && formName == ""
    {
      editingCategory, formName := None, "";
    }

    /** The "Tambah Kategori" button. */
    method OpenCreateForm()
      modifies this`editingCategory, this`formName, this`isFormVisible
      ensures editingCategory == None && formName == "" && isFormVisible
    {
      ResetForm();
      isFormVisible := true;
    }

    /** The "Batal" button of the form. */
    method CancelForm()
      modifies this`editingCategory, this`formName, this`isFormVisible
      ensures editingCategory == None && formName == "" && !isFormVisible
    {
      ResetForm();
      isFormVisible := false;
    }

    /** `handleEditClick`: the form is filled from the row. */
    method EditClick(c: Category)
      modifies this`editingCategory, this`formName, this`isFormVisible
      ensures editingCategory == Some(c) && formName == c.name && isFormVisible
    {
      editingCategory, formName, isFormVisible := Some(c), c.name, true;
    }

    /** The request `handleSubmit` sends for the current form. */
    function PendingRequest(): CategoryRequest
      reads this
    {
      match editingCategory
      case Some(e) => UpdateCategory(e.id, formName)
      case None => CreateCategory(formName)
    }

    /** `handleSubmit` up to its `await`. */
    method BeginSubmit() returns (request: CategoryRequest)
      modifies this`submitting
      ensures submitting && request == PendingRequest()
    {
      submitting := true;
      request := PendingRequest();
    }

    /** `handleSubmit` after its `await`: on success the edited id's rows
        are replaced (update) or the new row is appended (create) and the
        form is reset and hidden; on failure only `submitting` changes.
        `submitting` always ends false. */
    method FinishSubmit(request: CategoryRequest, response: Outcome<Category>)
      modifies this`categories, this`editingCategory, this`formName, this`isFormVisible, this`submitting
      ensures !submitting
      ensures response.Success? ==>
        && categories == (match request
                          case UpdateCategory(id, _) => ReplaceId(old(categories), CategoryId, id, response.value)
                          case CreateCategory(_) => old(categories) + [response.value])
        && editingCategory == None && formName == "" && !isFormVisible
      ensures response.Failure? ==>
        && categories == old(categories) && editingCategory == old(editingCategory)
        && formName == old(formName) && isFormVisible == old(isFormVisible)
    {
      if response.Success? {
        match request {
          case UpdateCategory(id, _) =>
            categories := ReplaceId(categories, CategoryId, id, response.value);
          case CreateCategory(_) =>
            categories := categories + [response.value];
        }
        ResetForm();
        isFormVisible := false;
      }
      submitting := false;
    }

    /** `openDeleteModal`. */
    method OpenDeleteModal(id: int)
      modifies this`deleteId, this`isDeleteModalOpen
      ensures deleteId == Some(id) && isDeleteModalOpen
    {
      deleteId, isDeleteModalOpen := Some(id), true;
    }

    /** The dialog's "Batal" button closes it and leaves `deleteId` set. */
    method CancelDelete()
      modifies this`isDeleteModalOpen
      ensures !isDeleteModalOpen
    {
      isDeleteModalOpen := false;
    }

    /** `confirmDelete`: a null `deleteId` returns at once. Otherwise the
        rows with the id go on success, and in every outcome the dialog
        closes and the id is cleared. */
    method ConfirmDelete(response: Outcome<bool>) returns (request: Option<int>)
      modifies this`categories, this`deleteId, this`isDeleteModalOpen
      ensures request == old(deleteId)
      ensures request.None? ==> categories == old(categories) && deleteId == old(deleteId)
                                && isDeleteModalOpen == old(isDeleteModalOpen)
      ensures request.Some? ==> deleteId == None && !isDeleteModalOpen
      ensures request.Some? ==> categories == if response.Success?
                                              then RemoveId(old(categories), CategoryId, request.value)
                                              else old(categories)
    {
      request := deleteId;
      if deleteId.None? {
        return;
      }
      if response.Success? {
        categories := RemoveId(categories, CategoryId, deleteId.value);
      }
      isDeleteModalOpen := false;
      deleteId := None;
    }

    /** `handleDeleteClick`: nothing happens unless `confirm()` returns
        true; then the rows with the id go if the delete succeeds, and the
        list is unchanged if it fails. */
    method DeleteClick(categoryId: int, confirmed: bool, response: Outcome<bool>)
      returns (request: Option<int>)
      modifies this`categories
      ensures request == if confirmed then Some(categoryId) else None
      ensures categories == if confirmed && response.Success?
                            then RemoveId(old(categories), CategoryId, categoryId)
                            else old(categories)
    {
      if !confirmed {
        return None;
      }
      request := Some(categoryId);
      if response.Success? {
        categories := RemoveId(categories, CategoryId, categoryId);
      }
    }
  }
}
