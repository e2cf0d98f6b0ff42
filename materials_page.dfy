/** The raw-material management screen: a searchable table of materials
    (name, stock, unit), a create/edit form and a delete confirmation
    dialog. */
module MaterialsPage {
  import opened Rows
  import opened Text
  import opened Entities

  function MaterialMatches(term: string): Material -> bool
  {
    (m: Material) => MatchesTerm(m.name, term)
  }

  /** `filteredMaterials`: the rows the table shows. */
  function FilteredMaterials(materials: seq<Material>, searchTerm: string): seq<Material>
  {
    Filter(materials, MaterialMatches(searchTerm))
  }

  /** The table shows exactly, in order, the materials whose lower-cased
      name contains the lower-cased term. */
  lemma FilteredMaterialsExactly(materials: seq<Material>, searchTerm: string)
    ensures FilteredMaterials(materials, searchTerm)
            == Pick(materials, KeptIndices(materials, MaterialMatches(searchTerm), 0))
    ensures forall m :: m in FilteredMaterials(materials, searchTerm)
                        <==> m in materials && MatchesTerm(m.name, searchTerm)
  {
    FilterExactly(materials, MaterialMatches(searchTerm));
    forall m ensures m in FilteredMaterials(materials, searchTerm)
                     <==> m in materials && MatchesTerm(m.name, searchTerm)
    {
      FilterMembership(materials, MaterialMatches(searchTerm), m);
    }
  }

  /** An empty search term shows every material. */
  lemma FilteredMaterialsEmptyTerm(materials: seq<Material>)
    ensures FilteredMaterials(materials, "") == materials
  {
    forall i | 0 <= i < |materials| ensures MaterialMatches("")(materials[i]) {
      MatchesEmptyTerm(materials[i].name);
    }
    FilterKeepsAll(materials, MaterialMatches(""));
  }

  lemma MilkPowderMatches()
    ensures MatchesTerm("Milk Powder", "milk")
  {
    assert Lower("milk") == "milk";
    assert Lower("Milk Powder")[0..4] == "milk";
    MatchesAt("Milk Powder", "milk", 0);
  }

  lemma OatMilkMatches()
    ensures MatchesTerm("Oat Milk", "milk")
  {
    assert Lower("milk") == "milk";
    assert Lower("Oat Milk")[4..8] == "milk";
    MatchesAt("Oat Milk", "milk", 4);
  }

  lemma SugarDoesNotMatch()
    ensures !MatchesTerm("Sugar", "milk")
  {
    assert Lower("milk") == "milk";
    assert Lower("Sugar") == "sugar";
    assert "sugar"[..4][0] == 's';
    assert "sugar"[1..] == "ugar";
    assert "ugar"[..4][0] == 'u';
    assert "ugar"[1..] == "gar";
  }

  /** Searching "milk" among "Milk Powder", "Sugar" and "Oat Milk" keeps
      exactly the first and the third. */
  lemma MilkSearchExample(powder: Material, sugar: Material, oat: Material)
    requires powder.name == "Milk Powder" && sugar.name == "Sugar" && oat.name == "Oat Milk"
    ensures FilteredMaterials([powder, sugar, oat], "milk") == [powder, oat]
  {
    MilkPowderMatches();
    OatMilkMatches();
    SugarDoesNotMatch();
    var keep := MaterialMatches("milk");
    assert keep(powder) && !keep(sugar) && keep(oat);
    var s := [powder, sugar, oat];
    assert s[1..] == [sugar, oat];
    assert s[1..][1..] == [oat];
    assert Filter([oat], keep) == [oat];
    assert Filter([sugar, oat], keep) == [oat];
    assert Filter(s, keep) == [powder] + Filter([sugar, oat], keep);
  }

  datatype MaterialInput = MaterialInput(name: string, stock: int, unit: string)

  datatype MaterialRequest = CreateMaterial(input: MaterialInput)
                           | UpdateMaterial(id: int, input: MaterialInput)

  /** The page's React state. */
  class MaterialsScreen {
    var materials: seq<Material>
    var loading: bool
    var submitting: bool
    var deleteId: Option<int>
    var isDeleteModalOpen: bool

    var isFormVisible: bool
    var editingMaterial: Option<Material>
    var formName: string
    var formStock: int
    var formUnit: string
    var searchTerm: string

    /** The initial `useState` values. */
    constructor ()
      ensures materials == [] && loading && !submitting && deleteId == None && !isDeleteModalOpen
      ensures !isFormVisible && editingMaterial == None
      ensures formName == "" && formStock == 0 && formUnit == "" && searchTerm == ""
    {
      materials, loading, submitting := [], true, false;
      deleteId, isDeleteModalOpen := None, false;
      isFormVisible, editingMaterial := false, None;
      formName, formStock, formUnit, searchTerm := "", 0, "", "";
    }

    /** The rows the table shows. */
    function Shown(): seq<Material>
      reads this
    {
      FilteredMaterials(materials, searchTerm)
    }

    /** `fetchMaterials`: a failed fetch empties the list. */
    method FetchMaterials(response: Outcome<seq<Material>>)
      modifies this`materials, this`loading
      ensures !loading
      ensures materials == if response.Success? then response.value else []
      ensures searchTerm == "" ==> Shown() == materials
    {
      loading := true;
      materials := if response.Success? then response.value else [];
      loading := false;
      FilteredMaterialsEmptyTerm(materials);
    }

    /** `resetForm`. */
    method ResetForm()
      modifies this`editingMaterial, this`formName, this`formStock, this`formUnit
      ensures editingMaterial == None && formName == "" && formStock == 0 && formUnit == ""
    {
      editingMaterial := None;
      formName, formStock, formUnit := "", 0, "";
    }

    /** The "Tambah Bahan Baku" button. */
    method OpenCreateForm()
      modifies this`editingMaterial, this`formName, this`formStock, this`formUnit, this`isFormVisible
      ensures editingMaterial == None && formName == "" && formStock == 0 && formUnit == ""
      ensures isFormVisible
    {
      ResetForm();
      isFormVisible := true;
    }

    /** The "Batal" button of the form. */
    method CancelForm()
      modifies this`editingMaterial, this`formName, this`formStock, this`formUnit, this`isFormVisible
      ensures editingMaterial == None && formName == "" && formStock == 0 && formUnit == ""
      ensures !isFormVisible
    {
      ResetForm();
      isFormVisible := false;
    }

    /** `handleEditClick`: the form is filled from the row. */
    method EditClick(m: Material)
      modifies this`editingMaterial, this`formName, this`formStock, this`formUnit, this`isFormVisible
      ensures editingMaterial == Some(m) && isFormVisible
      ensures formName == m.name && formStock == m.stock && formUnit == m.unit
    {
      editingMaterial := Some(m);
      formName, formStock, formUnit := m.name, m.stock, m.unit;
      isFormVisible := true;
    }

    /** The request `handleSubmit` sends for the current form. */
    function PendingRequest(): MaterialRequest
      reads this
    {
      var input := MaterialInput(formName, formStock, formUnit);
      match editingMaterial
      case Some(e) => UpdateMaterial(e.id, input)
      case None => CreateMaterial(input)
    }

    /** `handleSubmit` up to its `await`: `submitting` is raised and the
        request is built from the form as it stands. */
    method BeginSubmit() returns (request: MaterialRequest)
      modifies this`submitting
      ensures submitting && request == PendingRequest()
    {
      submitting := true;
      request := PendingRequest();
    }

    /** `handleSubmit` after its `await`, given what the service returned
        for `request`. On success the edited id's rows are replaced (update)
        or the new row is appended (create), and the form is reset and
        hidden; on failure only `submitting` changes. Either way
        `submitting` ends false. */
    method FinishSubmit(request: MaterialRequest, response: Outcome<Material>)
      modifies this`materials, this`editingMaterial, this`formName, this`formStock, this`formUnit,
               this`isFormVisible, this`submitting
      ensures !submitting
      ensures response.Success? ==>
        && materials == (match request
                         case UpdateMaterial(id, _) => ReplaceId(old(materials), MaterialId, id, response.value)
                         case CreateMaterial(_) => old(materials) + [response.value])
        && editingMaterial == None && formName == "" && formStock == 0 && formUnit == ""
        && !isFormVisible
      ensures response.Failure? ==>
        && materials == old(materials) && editingMaterial == old(editingMaterial)
        && formName == old(formName) && formStock == old(formStock) && formUnit == old(formUnit)
        && isFormVisible == old(isFormVisible)
    {
      if response.Success? {
        match request {
          case UpdateMaterial(id, _) =>
            materials := ReplaceId(materials, MaterialId, id, response.value);
          case CreateMaterial(_) =>
            materials := materials + [response.value];
        }
        ResetForm();
        isFormVisible := false;
      }
      submitting := false;
    }

    /** `openDeleteModal`. */
    method OpenDeleteModal(id: int)
      modifies this`deleteId, this`isDeleteModalOpen
      ensures deleteId == Some(id) && isDeleteModalOpen
    {
      deleteId := Some(id);
      isDeleteModalOpen := true;
    }

    /** The dialog's "Batal" button closes it and leaves `deleteId` set. */
    method CancelDelete()
      modifies this`isDeleteModalOpen
      ensures !isDeleteModalOpen
    {
      isDeleteModalOpen := false;
    }

    /** `confirmDelete`: only a null `deleteId` returns at once (an id of 0
        is sent). On success every row with the id goes; in every outcome
        the dialog closes and the id is cleared. */
    method ConfirmDelete(response: Outcome<bool>) returns (request: Option<int>)
      modifies this`materials, this`deleteId, this`isDeleteModalOpen
      ensures request == old(deleteId)
      ensures request.None? ==> materials == old(materials) && deleteId == old(deleteId)
                                && isDeleteModalOpen == old(isDeleteModalOpen)
      ensures request.Some? ==> deleteId == None && !isDeleteModalOpen
      ensures request.Some? ==> materials == if response.Success?
                                             then RemoveId(old(materials), MaterialId, request.value)
                                             else old(materials)
    {
      request := deleteId;
      if deleteId.None? {
        return;
      }
      if response.Success? {
        materials := RemoveId(materials, MaterialId, deleteId.value);
      }
      isDeleteModalOpen := false;
      deleteId := None;
    }
  }
}
