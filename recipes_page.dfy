/** The recipe management screen: a table of recipes (product, material,
    quantity) with a text search, a product filter, a create/edit form and a
    delete confirmation dialog. */
module RecipesPage {
  import opened Rows
  import opened Text
  import opened Entities

  /** A numeric form field that starts out empty: `number | ""`. */
  datatype NumField = Blank | Num(n: int)

  /** JavaScript truthiness of such a field: `""` and `0` are false. */
  predicate Truthy(f: NumField) { f.Num? && f.n != 0 }

  /** The `!search || product?.name... || material?.name...` test: an empty
      search matches everything; otherwise the product or the material
      looked up by the recipe's ids must be found and its name must contain
      the search, ignoring case. */
  predicate MatchesSearch(r: Recipe, products: seq<Product>, materials: seq<Material>, search: string)
  {
    var product := FindProduct(products, r.productId);
    var material := FindMaterial(materials, r.materialId);
    || search == ""
    || (product.Some? && MatchesTerm(product.value.name, search))
    || (material.Some? && MatchesTerm(material.value.name, search))
  }

  /** `!filterProductId || r.product_id === Number(filterProductId)`. */
  predicate MatchesProduct(r: Recipe, filterProductId: NumField)
  {
    !Truthy(filterProductId) || r.productId == filterProductId.n
  }

  function RecipeKeep(products: seq<Product>, materials: seq<Material>, search: string,
                      filterProductId: NumField): Recipe -> bool
  {
    (r: Recipe) => MatchesSearch(r, products, materials, search) && MatchesProduct(r, filterProductId)
  }

  /** `filteredRecipes`: the rows the table shows. */
  function FilteredRecipes(recipes: seq<Recipe>, products: seq<Product>, materials: seq<Material>,
                           search: string, filterProductId: NumField): seq<Recipe>
  {
    Filter(recipes, RecipeKeep(products, materials, search, filterProductId))
  }

  /** The table shows exactly the recipes that pass both tests, in the order
      of `recipes`; nothing is added or reordered. */
  lemma FilteredRecipesExactly(recipes: seq<Recipe>, products: seq<Product>, materials: seq<Material>,
                               search: string, filterProductId: NumField)
    ensures var keep := RecipeKeep(products, materials, search, filterProductId);
      FilteredRecipes(recipes, products, materials, search, filterProductId)
        == Pick(recipes, KeptIndices(recipes, keep, 0))
    ensures forall r ::
              r in FilteredRecipes(recipes, products, materials, search, filterProductId)
              <==> r in recipes && MatchesSearch(r, products, materials, search)
                   && MatchesProduct(r, filterProductId)
  {
    var keep := RecipeKeep(products, materials, search, filterProductId);
    FilterExactly(recipes, keep);
    forall r ensures r in Filter(recipes, keep) <==> r in recipes && keep(r) {
      FilterMembership(recipes, keep, r);
    }
  }

  /** With an empty search and no product filter every recipe is shown. */
  lemma FilteredRecipesNoCriteria(recipes: seq<Recipe>, products: seq<Product>, materials: seq<Material>,
                                  filterProductId: NumField)
    requires !Truthy(filterProductId)
    ensures FilteredRecipes(recipes, products, materials, "", filterProductId) == recipes
  {
    FilterKeepsAll(recipes, RecipeKeep(products, materials, "", filterProductId));
  }

  /** With a product filter set, every shown recipe belongs to that product. */
  lemma FilteredRecipesByProduct(recipes: seq<Recipe>, products: seq<Product>, materials: seq<Material>,
                                 search: string, filterProductId: NumField)
    requires Truthy(filterProductId)
    ensures forall r :: r in FilteredRecipes(recipes, products, materials, search, filterProductId)
                        ==> r.productId == filterProductId.n
  {
  }

  /** With a non-empty search, a shown recipe has its product or its
      material found (the first row with the id) with a name containing the
      search; a recipe whose product and material are both missing is never
      shown. */
  lemma FilteredRecipesBySearch(recipes: seq<Recipe>, products: seq<Product>, materials: seq<Material>,
                                search: string, filterProductId: NumField)
    requires search != ""
    ensures forall r :: r in FilteredRecipes(recipes, products, materials, search, filterProductId) ==>
      || (exists i :: 0 <= i < |products| && products[i].id == r.productId
            && (forall j :: 0 <= j < i ==> products[j].id != r.productId)
            && MatchesTerm(products[i].name, search))
      || (exists i :: 0 <= i < |materials| && materials[i].id == r.materialId
            && (forall j :: 0 <= j < i ==> materials[j].id != r.materialId)
            && MatchesTerm(materials[i].name, search))
    ensures forall r :: r in recipes
                        && (forall i :: 0 <= i < |products| ==> products[i].id != r.productId)
                        && (forall i :: 0 <= i < |materials| ==> materials[i].id != r.materialId)
                        ==> r !in FilteredRecipes(recipes, products, materials, search, filterProductId)
  {
    forall r | r in FilteredRecipes(recipes, products, materials, search, filterProductId)
      ensures
        || (exists i :: 0 <= i < |products| && products[i].id == r.productId
              && (forall j :: 0 <= j < i ==> products[j].id != r.productId)
              && MatchesTerm(products[i].name, search))
        || (exists i :: 0 <= i < |materials| && materials[i].id == r.materialId
              && (forall j :: 0 <= j < i ==> materials[j].id != r.materialId)
              && MatchesTerm(materials[i].name, search))
    {
      var p := FindIndex(products, (p: Product) => p.id == r.productId, 0);
      var m := FindIndex(materials, (m: Material) => m.id == r.materialId, 0);
      if p.Some? && MatchesTerm(products[p.value].name, search) {
      } else {
        assert m.Some? && MatchesTerm(materials[m.value].name, search);
      }
    }
    forall r | r in recipes
               && (forall i :: 0 <= i < |products| ==> products[i].id != r.productId)
               && (forall i :: 0 <= i < |materials| ==> materials[i].id != r.materialId)
      ensures r !in FilteredRecipes(recipes, products, materials, search, filterProductId)
    {
      FindProductSpec(products, r.productId);
      FindMaterialSpec(materials, r.materialId);
    }
  }

  datatype RecipeRequest = CreateRecipe(input: RecipeInput) | UpdateRecipe(id: int, input: RecipeInput)

  /** The page's React state. */
  class RecipesScreen {
    var recipes: seq<Recipe>
    var products: seq<Product>
    var materials: seq<Material>
    var loading: bool

    var isFormVisible: bool
    var editingRecipe: Option<Recipe>
    var productId: NumField
    var materialId: NumField
    var quantity: NumField

    var deleteId: Option<int>
    var isDeleteModalOpen: bool

    var search: string
    var filterProductId: NumField

    /** The initial `useState` values. */
    constructor ()
      ensures recipes == [] && products == [] && materials == [] && loading
      ensures !isFormVisible && editingRecipe == None
      ensures productId == Blank && materialId == Blank && quantity == Blank
      ensures deleteId == None && !isDeleteModalOpen
      ensures search == "" && filterProductId == Blank
    {
      recipes, products, materials, loading := [], [], [], true;
      isFormVisible, editingRecipe := false, None;
      productId, materialId, quantity := Blank, Blank, Blank;
      deleteId, isDeleteModalOpen := None, false;
      search, filterProductId := "", Blank;
    }

    /** The rows the table shows. */
    function Shown(): seq<Recipe>
      reads this
    {
      FilteredRecipes(recipes, products, materials, search, filterProductId)
    }

    /** `fetchAll`: the three lists arrive together or not at all. */
    method FetchAll(response: Outcome<(seq<Recipe>, seq<Product>, seq<Material>)>)
      modifies this`recipes, this`products, this`materials, this`loading
      ensures !loading
      ensures response.Success? ==> recipes == response.value.0 && products == response.value.1
                                    && materials == response.value.2
      ensures response.Failure? ==> recipes == old(recipes) && products == old(products)
                                    && materials == old(materials)
      ensures search == "" && !Truthy(filterProductId) ==> Shown() == recipes
    {
      loading := true;
      if response.Success? {
        recipes, products, materials := response.value.0, response.value.1, response.value.2;
      }
      loading := false;
      if !Truthy(filterProductId) {
        FilteredRecipesNoCriteria(recipes, products, materials, filterProductId);
      }
    }

    /** `resetForm`. */
    method ResetForm()
      modifies this`editingRecipe, this`productId, this`materialId, this`quantity
      ensures editingRecipe == None && productId == Blank && materialId == Blank && quantity == Blank
    {
      editingRecipe := None;
      productId, materialId, quantity := Blank, Blank, Blank;
    }

    /** The "Tambah Resep" button: an empty form for a new recipe. */
    method OpenCreateForm()
      modifies this`editingRecipe, this`productId, this`materialId, this`quantity, this`isFormVisible
      ensures editingRecipe == None && productId == Blank && materialId == Blank && quantity == Blank
      ensures isFormVisible
    {
      ResetForm();
      isFormVisible := true;
    }

    /** The "Batal" button of the form. */
    method CancelForm()
      modifies this`editingRecipe, this`productId, this`materialId, this`quantity, this`isFormVisible
      ensures editingRecipe == None && productId == Blank && materialId == Blank && quantity == Blank
      ensures !isFormVisible
    {
      ResetForm();
      isFormVisible := false;
    }

    /** The row's "Edit" button: the form is filled from the row. */
    method EditClick(r: Recipe)
      modifies this`editingRecipe, this`productId, this`materialId, this`quantity, this`isFormVisible
      ensures editingRecipe == Some(r) && isFormVisible
      ensures productId == Num(r.productId) && materialId == Num(r.materialId)
      ensures quantity == Num(r.quantityNeeded)
    {
      editingRecipe := Some(r);
      productId, materialId, quantity := Num(r.productId), Num(r.materialId), Num(r.quantityNeeded);
      isFormVisible := true;
    }

    /** The row's "Hapus" button: remember the id and open the dialog. */
    method DeleteClick(id: int)
      modifies this`deleteId, this`isDeleteModalOpen
      ensures deleteId == Some(id) && isDeleteModalOpen
    {
      deleteId := Some(id);
      isDeleteModalOpen := true;
    }

    /** The dialog's "Batal" button closes it and leaves `deleteId` set. */
    method CancelDelete()
      modifies this`isDeleteModalOpen
      ensures !isDeleteModalOpen
    {
      isDeleteModalOpen := false;
    }

    /** The guard of `handleSubmit`: all three fields truthy. */
    predicate FormFilled()
      reads this
    {
      Truthy(productId) && Truthy(materialId) && Truthy(quantity)
    }

    /** The request `handleSubmit` sends for the current form. */
    function PendingRequest(): RecipeRequest
      reads this
      requires FormFilled()
    {
      var input := RecipeInput(productId.n, materialId.n, quantity.n);
      match editingRecipe
      case Some(e) => UpdateRecipe(e.id, input)
      case None => CreateRecipe(input)
    }

    /** `handleSubmit`. `response` is what the service call returns, if one
        is made. A form with an empty or zero field makes no call and
        changes nothing. A successful update replaces the rows carrying the
        edited id, a successful create appends the new row, and then the
        form is reset and hidden. A failure leaves list and form alone. */
    method Submit(response: Outcome<Recipe>) returns (request: Option<RecipeRequest>)
      modifies this`recipes, this`editingRecipe, this`productId, this`materialId, this`quantity,
               this`isFormVisible
      ensures request == if old(FormFilled()) then Some(old(PendingRequest())) else None
      ensures request.Some? && response.Success? ==>
        && recipes == (match old(editingRecipe)
                       case Some(e) => ReplaceId(old(recipes), RecipeId, e.id, response.value)
                       case None => old(recipes) + [response.value])
        && editingRecipe == None && productId == Blank && materialId == Blank && quantity == Blank
        && !isFormVisible
      ensures request.None? || response.Failure? ==>
        && recipes == old(recipes) && editingRecipe == old(editingRecipe)
        && productId == old(productId) && materialId == old(materialId) && quantity == old(quantity)
        && isFormVisible == old(isFormVisible)
    {
      if !FormFilled() {
        return None;
      }
      request := Some(PendingRequest());
      if response.Failure? {
        return;
      }
      match editingRecipe {
        case Some(e) =>
          recipes := ReplaceId(recipes, RecipeId, e.id, response.value);
        case None =>
          recipes := recipes + [response.value];
      }
      ResetForm();
      isFormVisible := false;
    }

    /** `confirmDelete`. A missing or zero `deleteId` returns at once.
        Otherwise the delete is requested; on success every row with that id
        goes, and in every outcome the id is cleared and the dialog closed. */
    method ConfirmDelete(response: Outcome<bool>) returns (request: Option<int>)
      modifies this`recipes, this`deleteId, this`isDeleteModalOpen
      ensures request == if old(deleteId).Some? && old(deleteId).value != 0 then old(deleteId) else None
      ensures request.None? ==> recipes == old(recipes) && deleteId == old(deleteId)
                                && isDeleteModalOpen == old(isDeleteModalOpen)
      ensures request.Some? ==> deleteId == None && !isDeleteModalOpen
      ensures request.Some? ==> recipes == if response.Success?
                                           then RemoveId(old(recipes), RecipeId, request.value)
                                           else old(recipes)
    {
      if deleteId.None? || deleteId.value == 0 {
        return None;
      }
      request := deleteId;
      if response.Success? {
        recipes := RemoveId(recipes, RecipeId, deleteId.value);
      }
      deleteId := None;
      isDeleteModalOpen := false;
    }
  }
}
