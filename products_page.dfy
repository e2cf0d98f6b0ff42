/** The product screen under `/products`: a searchable table of products
    (name, price, image), a create/edit form with an image upload to the
    `products` storage bucket, and an unconfirmed delete button. */
module ProductsPage {
  import opened Rows
  import opened Text
  import opened Entities

  function ProductMatches(term: string): Product -> bool
  {
    (p: Product) => MatchesTerm(p.name, term)
  }

  /** `filteredProducts`. */
  function FilteredProducts(products: seq<Product>, searchTerm: string): seq<Product>
  {
    Filter(products, ProductMatches(searchTerm))
  }

  /** The search keeps exactly, in order, the products whose lower-cased
      name contains the lower-cased term; an empty term keeps them all. */
  lemma FilteredProductsExactly(products: seq<Product>, searchTerm: string)
    ensures FilteredProducts(products, searchTerm)
            == Pick(products, KeptIndices(products, ProductMatches(searchTerm), 0))
    ensures forall p :: p in FilteredProducts(products, searchTerm)
                        <==> p in products && MatchesTerm(p.name, searchTerm)
    ensures searchTerm == "" ==> FilteredProducts(products, searchTerm) == products
  {
    FilterExactly(products, ProductMatches(searchTerm));
    forall p ensures p in FilteredProducts(products, searchTerm)
                     <==> p in products && MatchesTerm(p.name, searchTerm)
    {
      FilterMembership(products, ProductMatches(searchTerm), p);
    }
    if searchTerm == "" {
      forall i | 0 <= i < |products| ensures ProductMatches("")(products[i]) {
        MatchesEmptyTerm(products[i].name);
      }
      FilterKeepsAll(products, ProductMatches(""));
    }
  }

  /** What the page shows below the search bar. */
  datatype ProductTable = LoadingMessage | EmptyMessage | Table(rows: seq<Product>)

  /** The empty message tests `products.length`, not the filtered list. */
  function TableView(loading: bool, products: seq<Product>, searchTerm: string): ProductTable
  {
    if loading then LoadingMessage
    else if |products| == 0 then EmptyMessage
    else Table(FilteredProducts(products, searchTerm))
  }

  /** The empty message appears exactly when the loaded list is empty; a
      search that matches nothing in a non-empty list shows an empty table
      instead. */
  lemma TableViewEmptyCases(loading: bool, products: seq<Product>, searchTerm: string)
    ensures TableView(loading, products, searchTerm) == EmptyMessage <==> !loading && products == []
    ensures !loading && products != [] && (forall i :: 0 <= i < |products| ==> !MatchesTerm(products[i].name, searchTerm))
            ==> TableView(loading, products, searchTerm) == Table([])
  {
    if !loading && products != [] && (forall i :: 0 <= i < |products| ==> !MatchesTerm(products[i].name, searchTerm)) {
      FilteredProductsExactly(products, searchTerm);
      var r := FilteredProducts(products, searchTerm);
      if r != [] {
        assert r[0] in r;
      }
    }
  }

  /** The storage path `uploadImage` builds: `products/<Date.now()>.<ext>`,
      where `ext` is `file.name.split(".").pop()`. */
  function UploadPath(timestamp: nat, fileName: string): string
  {
    "products/" + NatToString(timestamp) + "." + FileExtension(fileName)
  }

  /** The path keeps the file's extension: the text after the path's last
      dot is the text after the name's last dot (the whole name when it has
      none; see `FileExtensionSpec`). */
  lemma UploadPathKeepsExtension(timestamp: nat, fileName: string)
    ensures FileExtension(UploadPath(timestamp, fileName)) == FileExtension(fileName)
  {
    FileExtensionSpec(fileName);
    FileExtensionAfterDot("products/" + NatToString(timestamp), FileExtension(fileName));
  }

  /** The path lies in the `products/` folder and the timestamp can be read
      back from the digits that follow it, up to the dot. */
  lemma UploadPathTimestamp(timestamp: nat, fileName: string)
    ensures var path, n := UploadPath(timestamp, fileName), |NatToString(timestamp)|;
      && |path| > 9 + n
      && path[..9] == "products/"
      && path[9 + n] == '.'
      && AllDigits(path[9..9 + n]) && DigitsValue(path[9..9 + n]) == timestamp
  {
    var digits := NatToString(timestamp);
    var path := UploadPath(timestamp, fileName);
    assert path[9..9 + |digits|] == digits;
    NatToStringRoundTrip(timestamp);
  }

  /** `previewImage || ""`, replaced by the uploaded URL when a file was
      chosen. */
  function ImageUrl(previewImage: Option<string>, uploadedUrl: Option<string>): string
  {
    match uploadedUrl
    case Some(u) => u
    case None => match previewImage case Some(p) => p case None => ""
  }

  datatype ProductInput = ProductInput(name: string, price: JsNumber, image: string)

  datatype ProductRequest = CreateProduct(input: ProductInput)
                          | UpdateProduct(id: int, input: ProductInput)

  /** The state `handleSubmit` reads, as its closure saw it when the form
      was submitted. */
  datatype Submission = Submission(editing: Option<Product>, name: string, price: string,
                                   image: Option<File>, preview: Option<string>)

  /** The request sent once the image URL is known. */
  function RequestFor(s: Submission, imageUrl: string): ProductRequest
  {
    var input := ProductInput(s.name, ToNumber(s.price), imageUrl);
    match s.editing
    case Some(e) => UpdateProduct(e.id, input)
    case None => CreateProduct(input)
  }

  /** Editing a row (which fills name, price text and preview from it) and
      saving without touching the form or choosing a file sends the row's
      own name, price and image back. */
  lemma ResubmitUnchangedSendsRow(p: Product)
    ensures RequestFor(Submission(Some(p), p.name, IntToString(p.price), None, p.image), ImageUrl(p.image, None))
            == UpdateProduct(p.id, ProductInput(p.name, Int(p.price), match p.image case Some(i) => i case None => ""))
  {
    IntToStringRoundTrip(p.price);
  }

  /** The page's React state. */
  class ProductsScreen {
    var products: seq<Product>
    var loading: bool
    var submitting: bool

    var isFormVisible: bool
    var editingProduct: Option<Product>
    var formName: string
    var formPrice: string
    var formImage: Option<File>
    var previewImage: Option<string>
    var searchTerm: string

    /** The initial `useState` values. */
    constructor ()
      ensures products == [] && loading && !submitting
      ensures !isFormVisible && editingProduct == None && formName == "" && formPrice == ""
      ensures formImage == None && previewImage == None && searchTerm == ""
    {
      products, loading, submitting := [], true, false;
      isFormVisible, editingProduct, formName, formPrice := false, None, "", "";
      formImage, previewImage, searchTerm := None, None, "";
    }

    /** What the page shows below the search bar. */
    function View(): ProductTable
      reads this
    {
      TableView(loading, products, searchTerm)
    }

    /** `fetchProducts`: a failed fetch keeps the old list. */
    method FetchProducts(response: Outcome<seq<Product>>)
      modifies this`products, this`loading
      ensures !loading
      ensures products == if response.Success? then response.value else old(products)
      ensures View() == EmptyMessage <==> products == []
      ensures products != [] && (forall i :: 0 <= i < |products| ==> !MatchesTerm(products[i].name, searchTerm))
              ==> View() == Table([])
    {
      loading := true;
      if response.Success? {
        products := response.value;
      }
      loading := false;
      TableViewEmptyCases(loading, products, searchTerm);
    }

    /** `resetForm`: all five form fields are cleared. */
    method ResetForm()
      modifies this`editingProduct, this`formName, this`formPrice, this`formImage, this`previewImage
      ensures editingProduct == None && formName == "" && formPrice == ""
      ensures formImage == None && previewImage == None
    {
      editingProduct, formName, formPrice := None, "", "";
      formImage, previewImage := None, None;
    }

    /** The "Tambah Produk" button. */
    method OpenCreateForm()
      modifies this`editingProduct, this`formName, this`formPrice, this`formImage, this`previewImage,
               this`isFormVisible
      ensures editingProduct == None && formName == "" && formPrice == ""
      ensures formImage == None && previewImage == None && isFormVisible
    {
      ResetForm();
      isFormVisible := true;
    }

    /** The "Batal" button of the form. */
    method CancelForm()
      modifies this`editingProduct, this`formName, this`formPrice, this`formImage, this`previewImage,
               this`isFormVisible
      ensures editingProduct == None && formName == "" && formPrice == ""
      ensures formImage == None && previewImage == None && !isFormVisible
    {
      ResetForm();
      isFormVisible := false;
    }

    /** The file input: the chosen file and a local preview URL for it.
        `objectUrl` stands for `URL.createObjectURL(file)`. */
    method ChooseFile(file: File, objectUrl: string)
      modifies this`formImage, this`previewImage
      ensures formImage == Some(file) && previewImage == Some(objectUrl)
    {
      formImage, previewImage := Some(file), Some(objectUrl);
    }

    /** `handleEditClick`: name, the price as text and the preview come
        from the row; a previously chosen file is left in place. */
    method EditClick(p: Product)
      modifies this`editingProduct, this`formName, this`formPrice, this`previewImage, this`isFormVisible
      ensures editingProduct == Some(p) && formName == p.name && formPrice == IntToString(p.price)
      ensures previewImage == p.image && isFormVisible
    {
      editingProduct, formName, formPrice := Some(p), p.name, IntToString(p.price);
      previewImage, isFormVisible := p.image, true;
    }

    /** `handleSubmit` up to its first `await`: `submitting` is raised and
        the form is captured. */
    method BeginSubmit() returns (s: Submission)
      modifies this`submitting
      ensures submitting
      ensures s == Submission(editingProduct, formName, formPrice, formImage, previewImage)
    {
      submitting := true;
      s := Submission(editingProduct, formName, formPrice, formImage, previewImage);
    }

    /** The rest of `handleSubmit`. With a file chosen, it is uploaded under
        `UploadPath` first (`upload` is the upload plus `getPublicUrl`); a
        failed upload aborts before any product call. Then the update or
        create is sent with the chosen image URL; on success the edited
        id's rows are replaced or the new row appended, and the form is
        hidden and reset. Failures change nothing but `submitting`, which
        always ends false. */
    method FinishSubmit(s: Submission, timestamp: nat, upload: Outcome<string>, response: Outcome<Product>)
      returns (uploadPath: Option<string>, request: Option<ProductRequest>)
      modifies this`products, this`editingProduct, this`formName, this`formPrice, this`formImage,
               this`previewImage, this`isFormVisible, this`submitting
      ensures !submitting
      ensures uploadPath == if s.image.Some? then Some(UploadPath(timestamp, s.image.value.name)) else None
      ensures request == if s.image.Some? && upload.Failure? then None
                         else Some(RequestFor(s, ImageUrl(s.preview, if s.image.Some? then Some(upload.value) else None)))
      ensures request.Some? && response.Success? ==>
        && products == (match s.editing
                        case Some(e) => ReplaceId(old(products), ProductId, e.id, response.value)
                        case None => old(products) + [response.value])
        && editingProduct == None && formName == "" && formPrice == ""
        && formImage == None && previewImage == None && !isFormVisible
      ensures request.None? || response.Failure? ==>
        && products == old(products) && editingProduct == old(editingProduct)
        && formName == old(formName) && formPrice == old(formPrice)
        && formImage == old(formImage) && previewImage == old(previewImage)
        && isFormVisible == old(isFormVisible)
    {
      uploadPath, request := None, None;
      var uploaded: Option<string> := None;
      if s.image.Some? {
        uploadPath := Some(UploadPath(timestamp, s.image.value.name));
        if upload.Failure? {
          submitting := false;
          return;
        }
        uploaded := Some(upload.value);
      }
      request := Some(RequestFor(s, ImageUrl(s.preview, uploaded)));
      if response.Success? {
        match s.editing {
          case Some(e) =>
            products := ReplaceId(products, ProductId, e.id, response.value);
          case None =>
            products := products + [response.value];
        }
        isFormVisible := false;
        ResetForm();
      }
      submitting := false;
    }

    /** `handleDeleteClick`: no confirmation; the rows with the id go on
        success, and the list is unchanged on failure. */
    method DeleteClick(productId: int, response: Outcome<bool>) returns (request: int)
      modifies this`products
      ensures request == productId
      ensures products == if response.Success? then RemoveId(old(products), ProductId, productId)
                          else old(products)
    {
      request := productId;
      if response.Success? {
        products := RemoveId(products, ProductId, productId);
      }
    }
  }
}
