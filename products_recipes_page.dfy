/** The product screen with recipes: a table of products with their
    category, a create/edit form with an image upload, a `confirm()`-guarded
    delete, and a modal that lists a product's recipes (one line per recipe,
    joined with the material list in memory) and adds new ones. */
module ProductsRecipesPage {
  import opened Rows
  import opened Text
  import opened Entities

  // ---- the recipe modal's join ----

  /** The placeholder shown for a recipe whose material is not in the list. */
  function MissingMaterialLine(materialId: int): string
  {
    "Bahan tidak ditemukan (ID: " + IntToString(materialId) + ")"
  }

  /** One list item of the modal: `name - qty unit` for the first material
      with the recipe's material id, the placeholder otherwise. */
  function RecipeLine(recipe: Recipe, materials: seq<Material>): string
  {
    match FindMaterial(materials, recipe.materialId)
    case Some(m) => m.name + " - " + IntToString(recipe.quantityNeeded) + " " + m.unit
    case None => MissingMaterialLine(recipe.materialId)
  }

  /** `selectedProductRecipes.map(...)`. */
  function RecipeLines(recipes: seq<Recipe>, materials: seq<Material>): seq<string>
  {
    if recipes == [] then []
    else [RecipeLine(recipes[0], materials)] + RecipeLines(recipes[1..], materials)
  }

  /** The modal renders exactly one line per recipe, in order. */
  lemma {:induction false} RecipeLinesOnePerRecipe(recipes: seq<Recipe>, materials: seq<Material>)
    ensures |RecipeLines(recipes, materials)| == |recipes|
    ensures forall i :: 0 <= i < |recipes| ==> RecipeLines(recipes, materials)[i] == RecipeLine(recipes[i], materials)
  {
    if recipes != [] {
      var rest := RecipeLines(recipes[1..], materials);
      RecipeLinesOnePerRecipe(recipes[1..], materials);
      assert RecipeLines(recipes, materials) == [RecipeLine(recipes[0], materials)] + rest;
      forall i | 0 < i < |recipes|
        ensures RecipeLines(recipes, materials)[i] == RecipeLine(recipes[i], materials)
      {
        assert recipes[1..][i - 1] == recipes[i];
      }
    }
  }

  /** A recipe whose material id first appears at position `k` of the list
      shows that material's name, the quantity and that material's unit. */
  lemma RecipeLineFound(recipe: Recipe, materials: seq<Material>, k: nat)
    requires k < |materials| && materials[k].id == recipe.materialId
    requires forall j :: 0 <= j < k ==> materials[j].id != recipe.materialId
    ensures RecipeLine(recipe, materials)
            == materials[k].name + " - " + IntToString(recipe.quantityNeeded) + " " + materials[k].unit
  {
    FindMaterialSpec(materials, recipe.materialId);
  }

  /** A recipe whose material id is in no row shows the placeholder with
      the raw id. */
  lemma RecipeLineMissing(recipe: Recipe, materials: seq<Material>)
    requires forall j :: 0 <= j < |materials| ==> materials[j].id != recipe.materialId
    ensures RecipeLine(recipe, materials) == MissingMaterialLine(recipe.materialId)
  {
    FindMaterialSpec(materials, recipe.materialId);
  }

  // ---- the product table and the form ----

  /** The category cell: the name of the first category whose id equals
      the product's `categories_id`, or nothing (also for a null id). */
  function CategoryCell(categories: seq<Category>, categoriesId: Option<int>): Option<string>
  {
    match categoriesId
    case None => None
    case Some(id) =>
      match FindCategory(categories, id)
      case Some(c) => Some(c.name)
      case None => None
  }

  lemma CategoryCellSpec(categories: seq<Category>, categoriesId: Option<int>)
    ensures CategoryCell(categories, categoriesId).None? <==>
            categoriesId.None? || forall i :: 0 <= i < |categories| ==> categories[i].id != categoriesId.value
    ensures forall i :: categoriesId.Some? && 0 <= i < |categories| && categories[i].id == categoriesId.value
                        && (forall j :: 0 <= j < i ==> categories[j].id != categoriesId.value)
                        ==> CategoryCell(categories, categoriesId) == Some(categories[i].name)
  {
    if categoriesId.Some? {
      var id := categoriesId.value;
      forall i | 0 <= i < |categories| && categories[i].id == id
                 && (forall j :: 0 <= j < i ==> categories[j].id != id)
        ensures CategoryCell(categories, categoriesId) == Some(categories[i].name)
      {
        FindFirstIsFirst(categories, (c: Category) => c.id == id, i);
      }
    }
  }

  /** The storage key `handleSubmit` uploads under: `<Date.now()>_<name>`. */
  function StorageKey(timestamp: nat, fileName: string): string
  {
    NatToString(timestamp) + "_" + fileName
  }

  /** The key's first underscore ends the timestamp digits, which read
      back as the timestamp; everything after it is the file name. */
  lemma StorageKeySpec(timestamp: nat, fileName: string)
    ensures var key, n := StorageKey(timestamp, fileName), |NatToString(timestamp)|;
      && |key| == n + 1 + |fileName|
      && '_' !in key[..n] && key[n] == '_'
      && AllDigits(key[..n]) && DigitsValue(key[..n]) == timestamp
      && key[n + 1..] == fileName
  {
    var digits := NatToString(timestamp);
    var key := StorageKey(timestamp, fileName);
    assert key[..|digits|] == digits;
    assert key[|digits| + 1..] == fileName;
    NatToStringRoundTrip(timestamp);
    forall i | 0 <= i < |digits| ensures digits[i] != '_' {
      assert IsDigit(digits[i]);
    }
  }

  /** `editingProduct?.image || ""`, replaced by the uploaded URL when a
      file was chosen. */
  function ImageUrl(editing: Option<Product>, uploadedUrl: Option<string>): string
  {
    match uploadedUrl
    case Some(u) => u
    case None =>
      match editing
      case Some(p) => (match p.image case Some(i) => i case None => "")
      case None => ""
  }

  datatype ProductInput = ProductInput(name: string, price: JsNumber, image: string, categoriesId: Option<int>)

  datatype ProductRequest = CreateProduct(input: ProductInput)
                          | UpdateProduct(id: int, input: ProductInput)

  /** The form state `handleSubmit` reads. */
  datatype ProductForm = ProductForm(editing: Option<Product>, name: string, price: string,
                                     categoryId: Option<int>, image: Option<File>)

  /** The request `handleSubmit` sends once the image URL is known. */
  function RequestFor(f: ProductForm, imageUrl: string): ProductRequest
  {
    var input := ProductInput(f.name, ToNumber(f.price), imageUrl, f.categoryId);
    match f.editing
    case Some(e) => UpdateProduct(e.id, input)
    case None => CreateProduct(input)
  }

  /** Editing a row (see `Edit`, which fills name, price text and category
      from it) and saving without touching the form or choosing a file
      sends the row's own name, price, image and category back. */
  lemma ResubmitUnchangedSendsRow(p: Product)
    ensures RequestFor(ProductForm(Some(p), p.name, IntToString(p.price), p.categoriesId, None), ImageUrl(Some(p), None))
            == UpdateProduct(p.id, ProductInput(p.name, Int(p.price), match p.image case Some(i) => i case None => "",
                                                p.categoriesId))
  {
    IntToStringRoundTrip(p.price);
  }

  /** The page's React state. */
  class ProductsRecipesScreen {
    var products: seq<Product>
    var categories: seq<Category>
    var rawMaterials: seq<Material>

    var isFormVisible: bool
    var formName: string
    var formPrice: string
    var formCategoryId: Option<int>
    var formImage: Option<File>
    var editingProduct: Option<Product>

    var showRecipeModal: bool
    var selectedProduct: Option<Product>
    var selectedProductRecipes: seq<Recipe>
    var selectedMaterialId: Option<int>
    var quantity: int

    /** The initial `useState` values. */
    constructor ()
      ensures products == [] && categories == [] && rawMaterials == []
      ensures !isFormVisible && formName == "" && formPrice == "" && formCategoryId == None
      ensures formImage == None && editingProduct == None
      ensures !showRecipeModal && selectedProduct == None && selectedProductRecipes == []
      ensures selectedMaterialId == None && quantity == 0
    {
      products, categories, rawMaterials := [], [], [];
      isFormVisible, formName, formPrice, formCategoryId := false, "", "", None;
      formImage, editingProduct := None, None;
      showRecipeModal, selectedProduct, selectedProductRecipes := false, None, [];
      selectedMaterialId, quantity := None, 0;
    }

    /** The form as `handleSubmit` reads it. */
    function Form(): ProductForm
      reads this
    {
      ProductForm(editingProduct, formName, formPrice, formCategoryId, formImage)
    }

    /** The lines of the recipe modal. */
    function ModalLines(): seq<string>
      reads this
    {
      RecipeLines(selectedProductRecipes, rawMaterials)
    }

    /** `loadProducts`, `loadCategories`, `loadMaterials`: a failed load
        throws and leaves the list. */
    method LoadProducts(response: Outcome<seq<Product>>)
      modifies this`products
      ensures products == if response.Success? then response.value else old(products)
    {
      if response.Success? {
        products := response.value;
      }
    }

    method LoadCategories(response: Outcome<seq<Category>>)
      modifies this`categories
      ensures categories == if response.Success? then response.value else old(categories)
    {
      if response.Success? {
        categories := response.value;
      }
    }

    method LoadMaterials(response: Outcome<seq<Material>>)
      modifies this`rawMaterials
      ensures rawMaterials == if response.Success? then response.value else old(rawMaterials)
    {
      if response.Success? {
        rawMaterials := response.value;
      }
    }

    /** `resetForm`: every form field, `editingProduct` included. */
    method ResetForm()
      modifies this`formName, this`formPrice, this`formCategoryId, this`formImage, this`editingProduct
      ensures formName == "" && formPrice == "" && formCategoryId == None
      ensures formImage == None && editingProduct == None
    {
      formName, formPrice, formCategoryId := "", "", None;
      formImage, editingProduct := None, None;
    }

    /** The "Tambah Produk" button. */
    method OpenCreateForm()
      modifies this`formName, this`formPrice, this`formCategoryId, this`formImage, this`editingProduct,
               this`isFormVisible
      ensures formName == "" && formPrice == "" && formCategoryId == None
      ensures formImage == None && editingProduct == None && isFormVisible
    {
      ResetForm();
      isFormVisible := true;
    }

    /** The "Batal" button of the form. */
    method CancelForm()
      modifies this`formName, this`formPrice, this`formCategoryId, this`formImage, this`editingProduct,
               this`isFormVisible
      ensures formName == "" && formPrice == "" && formCategoryId == None
      ensures formImage == None && editingProduct == None && !isFormVisible
    {
      ResetForm();
      isFormVisible := false;
    }

    /** The file input. */
    method ChooseFile(file: File)
      modifies this`formImage
      ensures formImage == Some(file)
    {
      formImage := Some(file);
    }

    /** `handleEdit`: name, the price as text and the category come from
        the row; a previously chosen file is left in place. */
    method Edit(p: Product)
      modifies this`editingProduct, this`formName, this`formPrice, this`formCategoryId, this`isFormVisible
      ensures editingProduct == Some(p) && formName == p.name && formPrice == IntToString(p.price)
      ensures formCategoryId == p.categoriesId && isFormVisible
      ensures Form() == ProductForm(Some(p), p.name, IntToString(p.price), p.categoriesId, old(formImage))
    {
      editingProduct, formName, formPrice := Some(p), p.name, IntToString(p.price);
      formCategoryId, isFormVisible := p.categoriesId, true;
    }

    /** `handleSubmit`. With a file chosen it is uploaded under
        `StorageKey` first (`upload` is the upload plus `getPublicUrl`); a
        failed upload aborts. On a successful update the rows whose id is
        the RETURNED row's id are replaced; a create appends; then the form
        is reset and hidden. A failure changes nothing. */
    method Submit(timestamp: nat, upload: Outcome<string>, response: Outcome<Product>)
      returns (storageKey: Option<string>, request: Option<ProductRequest>)
      modifies this`products, this`formName, this`formPrice, this`formCategoryId, this`formImage,
               this`editingProduct, this`isFormVisible
      ensures storageKey == if old(formImage).Some? then Some(StorageKey(timestamp, old(formImage).value.name)) else None
      ensures request == if old(formImage).Some? && upload.Failure? then None
                         else Some(old(RequestFor(Form(), ImageUrl(editingProduct, if formImage.Some? then Some(upload.value) else None))))
      ensures request.Some? && response.Success? ==>
        && products == (if old(editingProduct).Some?
                        then ReplaceId(old(products), ProductId, response.value.id, response.value)
                        else old(products) + [response.value])
        && formName == "" && formPrice == "" && formCategoryId == None
        && formImage == None && editingProduct == None && !isFormVisible
      ensures request.None? || response.Failure? ==>
        && products == old(products) && formName == old(formName) && formPrice == old(formPrice)
        && formCategoryId == old(formCategoryId) && formImage == old(formImage)
        && editingProduct == old(editingProduct) && isFormVisible == old(isFormVisible)
    {
      storageKey, request := None, None;
      var uploaded: Option<string> := None;
      if formImage.Some? {
        storageKey := Some(StorageKey(timestamp, formImage.value.name));
        if upload.Failure? {
          return;
        }
        uploaded := Some(upload.value);
      }
      request := Some(RequestFor(Form(), ImageUrl(editingProduct, uploaded)));
      if response.Failure? {
        return;
      }
      if editingProduct.Some? {
        products := ReplaceId(products, ProductId, response.value.id, response.value);
      } else {
        products := products + [response.value];
      }
      ResetForm();
      isFormVisible := false;
    }

    /** `handleDelete`: nothing happens unless `confirm()` returns true;
        then the rows with the id go if the delete succeeds. */
    method Delete(id: int, confirmed: bool, response: Outcome<bool>) returns (request: Option<int>)
      modifies this`products
      ensures request == if confirmed then Some(id) else None
      ensures products == if confirmed && response.Success? then RemoveId(old(products), ProductId, id)
                          else old(products)
    {
      if !confirmed {
        return None;
      }
      request := Some(id);
      if response.Success? {
        products := RemoveId(products, ProductId, id);
      }
    }

    /** `handleShowRecipes`: the product's recipes are fetched, then the
        modal opens on them. */
    method ShowRecipes(product: Product, response: Outcome<seq<Recipe>>) returns (request: int)
      modifies this`selectedProduct, this`selectedProductRecipes, this`showRecipeModal
      ensures request == product.id
      ensures response.Success? ==> selectedProduct == Some(product)
                                    && selectedProductRecipes == response.value && showRecipeModal
      ensures response.Failure? ==> selectedProduct == old(selectedProduct)
                                    && selectedProductRecipes == old(selectedProductRecipes)
                                    && showRecipeModal == old(showRecipeModal)
    {
      request := product.id;
      if response.Success? {
        selectedProduct, selectedProductRecipes, showRecipeModal := Some(product), response.value, true;
      }
    }

    /** The modal's "Tutup" button. */
    method CloseRecipeModal()
      modifies this`showRecipeModal
      ensures !showRecipeModal
    {
      showRecipeModal := false;
    }

    /** The material select: `Number(e.target.value)`, so the "Pilih bahan"
        option gives 0. */
    method SelectMaterial(id: int)
      modifies this`selectedMaterialId
      ensures selectedMaterialId == Some(id)
    {
      selectedMaterialId := Some(id);
    }

    /** The quantity input: `Number(e.target.value)`. */
    method SetQuantity(q: int)
      modifies this`quantity
      ensures quantity == q
    {
      quantity := q;
    }

    /** The guard of `handleAddRecipe`: a selected product, a material id
        that is neither null nor 0, and a quantity that is not 0. */
    predicate CanAddRecipe()
      reads this
    {
      selectedProduct.Some? && selectedMaterialId.Some? && selectedMaterialId.value != 0 && quantity != 0
    }

    /** `handleAddRecipe`: past the guard the recipe is created; on success
        it is appended to the modal's list and the material choice and
        quantity are cleared. Otherwise nothing changes. */
    method AddRecipe(response: Outcome<Recipe>) returns (request: Option<RecipeInput>)
      modifies this`selectedProductRecipes, this`selectedMaterialId, this`quantity
      ensures request == if old(CanAddRecipe())
                         then Some(RecipeInput(old(selectedProduct).value.id, old(selectedMaterialId).value, old(quantity)))
                         else None
      ensures request.Some? && response.Success? ==>
        selectedProductRecipes == old(selectedProductRecipes) + [response.value]
        && selectedMaterialId == None && quantity == 0
      ensures request.None? || response.Failure? ==>
        selectedProductRecipes == old(selectedProductRecipes)
        && selectedMaterialId == old(selectedMaterialId) && quantity == old(quantity)
    {
      if !CanAddRecipe() {
        return None;
      }
      request := Some(RecipeInput(selectedProduct.value.id, selectedMaterialId.value, quantity));
      if response.Success? {
        selectedProductRecipes := selectedProductRecipes + [response.value];
        selectedMaterialId, quantity := None, 0;
      }
    }
  }

  /** Opening the recipes of product 5, which has none yet, choosing
      material 2 and a quantity of 3 and adding the recipe lists exactly one
      line: material 2's name, the quantity 3 and material 2's unit. */
  method AddFirstRecipeExample(product: Product, materials: seq<Material>, k: nat, created: Recipe)
    returns (request: Option<RecipeInput>, lines: seq<string>)
    requires product.id == 5
    requires k < |materials| && materials[k].id == 2
    requires forall j :: 0 <= j < k ==> materials[j].id != 2
    requires created.productId == 5 && created.materialId == 2 && created.quantityNeeded == 3
    ensures request == Some(RecipeInput(5, 2, 3))
    ensures lines == [materials[k].name + " - " + "3" + " " + materials[k].unit]
  {
    var screen := new ProductsRecipesScreen();
    screen.LoadMaterials(Success(materials));
    var fetched := screen.ShowRecipes(product, Success([]));
    screen.SelectMaterial(2);
    screen.SetQuantity(3);
    request := screen.AddRecipe(Success(created));
    assert screen.selectedProductRecipes == [created] && screen.rawMaterials == materials;
    lines := screen.ModalLines();
    RecipeLineFound(created, materials, k);
    assert IntToString(3) == "3";
    assert [created][1..] == [];
    assert lines == [RecipeLine(created, materials)] + RecipeLines([], materials);
  }
}
