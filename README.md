# dashboard-pos screen state, modelled in Dafny

This project models the browser side of five CRUD pages of a small
point-of-sale dashboard. The pages are the recipe list, the raw-material
list, the category list, the product list under `/products`, and the
product list with per-product recipes under `/lib/products`. Each page is a
Dafny `class`: its fields are the page's React `useState` values, and its
methods are the event handlers. A handler's `modifies` clause names exactly
the pieces of state it sets.

The pages do not compute their data; they call backend services. In the
model every such call is a parameter of the handler that makes it. The
parameter is an `Outcome<T>`: `Success(value)` for what the service
returned, or `Failure(message)` for a thrown error. The browser's
`confirm()`, `Date.now()`, the storage upload and `getPublicUrl` are
parameters in the same way. Each handler that sends a request built from the
state also returns that request, so its contract can say what reaches the
service.

Handlers that raise a `submitting` flag around an `await` are split in
two. `BeginSubmit` raises the flag and captures the form as the handler's
closure sees it. `FinishSubmit` takes that capture and the service's answer.
Handlers without such a flag are modelled as one atomic step.

The derived views are pure functions with lemmas: the searched tables, the
recipe filter that joins recipes to products and materials, the recipe
modal's join with the material list, the category cell and the storage
keys. Those lemmas state what each view keeps, drops or shows.

Modules:

- `Rows`: `Option` and `Outcome`, plus the list operations the pages apply
  to their state. These are `filter`, `find`, the `map` that replaces
  matching rows, and removal by id. Lemmas characterise each exactly:
  `Filter` is the subsequence at the kept indices, and `FindFirst` returns
  the first passing element.
- `Text`: the JavaScript string operations used by the pages. These are
  ASCII `toLowerCase`, `includes`, decimal `toString`, `Number()` of integer
  text, and `split(".").pop()`.
- `Entities`: the rows the services return, and lookup by id.
- `RecipesPage`, `MaterialsPage`, `CategoriesPage`, `ProductsPage` and
  `ProductsRecipesPage`: one module per page.

Where the type declarations and the code disagree, the model follows the
code. The `Product` interface has no `categories_id`. The `/lib/products`
page nevertheless reads and sends it, so `Entities.Product` carries a
nullable `categoriesId`.

## Model

| member | source | states |
|---|---|---|
| Rows.FilterExactly | app/lib/materials/page.tsx:55-57 | `filter` returns exactly the elements at the indices where the predicate holds, in their original order. |
| Rows.FilterMembership | app/lib/categories/page.tsx:50-52 | a value survives `filter` if and only if it is in the list and passes the predicate. |
| Rows.FilterKeepsAll | app/lib/recipes/page.tsx:120-134 | a predicate that every element passes leaves the list unchanged. |
| Rows.FindFirst | app/lib/recipes/page.tsx:121-122 | `find` gives nothing if and only if no element passes; otherwise it returns an element of the list that passes. |
| Rows.FindFirstIsFirst | app/lib/recipes/page.tsx:121-122 | `find` returns the first element that passes. |
| Rows.ReplaceWhere | app/lib/materials/page.tsx:79-81 | the replacing `map` keeps the length, replaces every hit by the new row and leaves every other row in place. |
| Rows.ReplaceWhereIdempotent | app/lib/categories/page.tsx:68-70 | replacing the same rows by the same row a second time changes nothing. |
| Rows.RemoveIdSpec | app/lib/recipes/page.tsx:109 | removal by id keeps exactly the rows with another id, in order. |
| Rows.RemoveAbsentId | app/lib/categories/page.tsx:113 | removing an id that no row carries leaves the list unchanged. |
| Rows.ReplaceId | app/products/page.tsx:89-91 | replacement by id keeps the length; a row with the id becomes the new row, and any other row stays. |
| Rows.ReplaceWhereNoHit | app/lib/recipes/page.tsx:83-85 | a replacing `map` that hits no row returns the list unchanged. |
| Rows.ReplaceAbsentId | app/lib/recipes/page.tsx:83-85 | an update whose id no row carries any more leaves the list unchanged. |
| Text.Lower | app/lib/materials/page.tsx:56 | ASCII `toLowerCase` keeps the length and leaves no capital letter; each capital becomes its own lowercase letter, and every other character stays as it was. |
| Text.LowerIdempotent | app/lib/categories/page.tsx:51 | lowercasing twice is lowercasing once. |
| Text.ContainsIff | app/lib/materials/page.tsx:56 | `includes` holds if and only if the needle occurs at some position of the text. |
| Text.ContainsEmpty | app/lib/recipes/page.tsx:127 | every text includes the empty text. |
| Text.MatchesTermIgnoresCase | app/lib/materials/page.tsx:56 | lowercasing the name or the term first does not change the search result. |
| Text.CaseVariantsLowerAlike | app/lib/materials/page.tsx:56 | two texts that differ only in the case of ASCII letters lowercase to the same text. |
| Text.MatchesTermUpToCase | app/lib/materials/page.tsx:56 | changing the case of letters in the name or in the term does not change whether the name matches. |
| Text.MatchesEmptyTerm | app/products/page.tsx:30-32 | an empty search term matches every name. |
| Text.MatchesAt | app/lib/recipes/page.tsx:127-128 | a name whose lowercase form has the lowercase term at some position matches. |
| Text.NatToString | app/products/page.tsx:54 | decimal text of a non-negative number is non-empty and all digits, with at least two digits exactly from 10 up, and no leading zero except for 0 itself. |
| Text.IntToString | app/products/page.tsx:126 | `toString` of an integer is non-empty and starts with '-' exactly for negative numbers. |
| Text.NatToStringRoundTrip | app/products/page.tsx:54 | reading the digits back gives the number. |
| Text.IntToStringRoundTrip | app/products/page.tsx:86 | `Number` of an integer's `toString` is that integer. |
| Text.SplitOn | app/products/page.tsx:53 | `split` gives at least one part, and no part contains the separator. |
| Text.SplitJoinRoundTrip | app/products/page.tsx:53 | joining the parts of a `split` with the separator gives back the text. |
| Text.FileExtensionSpec | app/products/page.tsx:53 | `split(".").pop()` has no dot and is a suffix of the name. It is the whole name when the name has no dot; otherwise a dot stands right before it. |
| Text.FileExtensionAfterDot | app/products/page.tsx:53-54 | the extension of `front.ext` is `ext` whenever `ext` has no dot. |
| Entities.FindMaterialSpec | app/lib/recipes/page.tsx:122 | looking up a material id gives nothing exactly when no row has the id, and otherwise the first row with it. |
| Entities.FindProductSpec | app/lib/recipes/page.tsx:121 | the same for a product id. |
| RecipesPage.FilteredRecipesExactly | app/lib/recipes/page.tsx:120-134 | the table shows exactly the recipes that pass both the search and the product filter, in list order. |
| RecipesPage.FilteredRecipesNoCriteria | app/lib/recipes/page.tsx:125-131 | with an empty search and an empty or zero product filter, every recipe is shown. |
| RecipesPage.FilteredRecipesByProduct | app/lib/recipes/page.tsx:130-131 | with a product filter set, every shown recipe belongs to that product. |
| RecipesPage.FilteredRecipesBySearch | app/lib/recipes/page.tsx:121-128 | with a non-empty search, a shown recipe's first-found product or material has a matching name. A recipe whose product and material are both missing is never shown. |
| RecipesPage.RecipesScreen.constructor | app/lib/recipes/page.tsx:17-35 | the initial state: empty lists, `loading` set, blank form fields, no filters. |
| RecipesPage.RecipesScreen.FetchAll | app/lib/recipes/page.tsx:38-54 | on success all three lists are replaced; on failure they are kept. `loading` ends false either way. With no search and no product filter, the table then shows every recipe. |
| RecipesPage.RecipesScreen.ResetForm | app/lib/recipes/page.tsx:61-66 | no edited recipe, and the three fields are blank. |
| RecipesPage.RecipesScreen.OpenCreateForm | app/lib/recipes/page.tsx:141-145 | the form is reset and shown. |
| RecipesPage.RecipesScreen.CancelForm | app/lib/recipes/page.tsx:236-239 | the form is reset and hidden. |
| RecipesPage.RecipesScreen.EditClick | app/lib/recipes/page.tsx:282-288 | the form holds the row's product, material and quantity, and is shown. |
| RecipesPage.RecipesScreen.DeleteClick | app/lib/recipes/page.tsx:294-297 | the row's id is pending and the dialog is open. |
| RecipesPage.RecipesScreen.CancelDelete | app/lib/recipes/page.tsx:318 | the dialog closes. |
| RecipesPage.RecipesScreen.Submit | app/lib/recipes/page.tsx:69-102 | if any field is blank or 0, nothing is sent and nothing changes. Otherwise the form is sent as an update or a create. On success the edited id's rows are replaced, or the new row is appended, and the form is reset and hidden. On failure nothing changes. |
| RecipesPage.RecipesScreen.ConfirmDelete | app/lib/recipes/page.tsx:105-117 | a null or zero id returns without touching anything. Otherwise the id is sent, the rows with it are removed on success, and the id is cleared and the dialog closed in every outcome. |
| MaterialsPage.FilteredMaterialsExactly | app/lib/materials/page.tsx:55-57 | the table shows exactly the materials whose name contains the search term, ignoring case, in list order. |
| MaterialsPage.FilteredMaterialsEmptyTerm | app/lib/materials/page.tsx:55-57 | an empty search shows every material. |
| MaterialsPage.MilkSearchExample | app/lib/materials/page.tsx:55-57 | searching "milk" among "Milk Powder", "Sugar" and "Oat Milk" shows the first and the third. |
| MaterialsPage.MaterialsScreen.constructor | app/lib/materials/page.tsx:15-27 | the initial state. |
| MaterialsPage.MaterialsScreen.FetchMaterials | app/lib/materials/page.tsx:33-48 | the list becomes the fetched rows, or empty on failure; `loading` ends false. With no search the table then shows every row. |
| MaterialsPage.MaterialsScreen.ResetForm | app/lib/materials/page.tsx:60-65 | no edited material, an empty name and unit, and a stock of 0. |
| MaterialsPage.MaterialsScreen.OpenCreateForm | app/lib/materials/page.tsx:138-142 | the form is reset and shown. |
| MaterialsPage.MaterialsScreen.CancelForm | app/lib/materials/page.tsx:221-224 | the form is reset and hidden. |
| MaterialsPage.MaterialsScreen.EditClick | app/lib/materials/page.tsx:124-130 | the form holds the row's name, stock and unit, and is shown. |
| MaterialsPage.MaterialsScreen.BeginSubmit | app/lib/materials/page.tsx:68-78 | `submitting` is raised, and the request is built from the form: an update of the edited id, or a create. |
| MaterialsPage.MaterialsScreen.FinishSubmit | app/lib/materials/page.tsx:78-100 | on success the edited id's rows are replaced, or the new row is appended, and the form is reset and hidden. On failure only `submitting` changes, and it always ends false. |
| MaterialsPage.MaterialsScreen.OpenDeleteModal | app/lib/materials/page.tsx:103-106 | the id is pending and the dialog is open. |
| MaterialsPage.MaterialsScreen.CancelDelete | app/lib/materials/page.tsx:284 | the dialog closes. |
| MaterialsPage.MaterialsScreen.ConfirmDelete | app/lib/materials/page.tsx:109-121 | only a null id returns with the list, the id and the dialog unchanged; an id of 0 is sent. On success the rows with the id go, and the dialog closes and the id clears in every outcome. |
| CategoriesPage.FilteredCategoriesExactly | app/lib/categories/page.tsx:50-52 | the table shows exactly the categories whose name contains the term, ignoring case, in order; an empty term shows them all. |
| CategoriesPage.CategoriesScreen.constructor | app/lib/categories/page.tsx:15-25 | the initial state. |
| CategoriesPage.CategoriesScreen.FetchCategories | app/lib/categories/page.tsx:28-43 | the list becomes the fetched rows, or empty on failure; `loading` ends false. With no search the table then shows every row. |
| CategoriesPage.CategoriesScreen.ResetForm | app/lib/categories/page.tsx:55-58 | no edited category, and an empty name. |
| CategoriesPage.CategoriesScreen.OpenCreateForm | app/lib/categories/page.tsx:132-136 | the form is reset and shown. |
| CategoriesPage.CategoriesScreen.CancelForm | app/lib/categories/page.tsx:186-189 | the form is reset and hidden. |
| CategoriesPage.CategoriesScreen.EditClick | app/lib/categories/page.tsx:120-124 | the form holds the row's name, and is shown. |
| CategoriesPage.CategoriesScreen.BeginSubmit | app/lib/categories/page.tsx:61-68 | `submitting` is raised, and the request is an update of the edited id or a create, with the form's name. |
| CategoriesPage.CategoriesScreen.FinishSubmit | app/lib/categories/page.tsx:65-85 | on success the edited id's rows are replaced, or the new row is appended, and the form is reset and hidden. On failure only `submitting` changes, and it always ends false. |
| CategoriesPage.CategoriesScreen.OpenDeleteModal | app/lib/categories/page.tsx:88-91 | the id is pending and the dialog is open. |
| CategoriesPage.CategoriesScreen.CancelDelete | app/lib/categories/page.tsx:247 | the dialog closes. |
| CategoriesPage.CategoriesScreen.ConfirmDelete | app/lib/categories/page.tsx:94-106 | a null id returns with the list, the id and the dialog unchanged. Otherwise the rows with the id go on success, and the dialog closes and the id clears in every outcome. |
| CategoriesPage.CategoriesScreen.DeleteClick | app/lib/categories/page.tsx:109-117 | nothing is sent unless the user confirms; then the rows with the id go if the delete succeeds, and stay if it fails. |
| ProductsPage.FilteredProductsExactly | app/products/page.tsx:30-32 | the search keeps exactly the products whose name contains the term, ignoring case, in order; an empty term keeps all. |
| ProductsPage.TableViewEmptyCases | app/products/page.tsx:241-259 | the "empty" message shows exactly when the list has loaded and is empty. A search matching nothing in a non-empty list shows an empty table. |
| ProductsPage.UploadPathKeepsExtension | app/products/page.tsx:52-55 | the storage path ends in the file's own extension. |
| ProductsPage.UploadPathTimestamp | app/products/page.tsx:52-55 | the path is `products/`, then the timestamp's digits, which read back as the timestamp, then a dot. |
| ProductsPage.ResubmitUnchangedSendsRow | app/products/page.tsx:123-129 | editing a row and saving it untouched sends back the row's own name, price and image. |
| ProductsPage.ProductsScreen.constructor | app/products/page.tsx:16-27 | the initial state. |
| ProductsPage.ProductsScreen.FetchProducts | app/products/page.tsx:35-45 | the list becomes the fetched rows, or is kept on failure; `loading` ends false. The page then shows the empty message exactly when the list is empty, and an empty table when the search matches no row of a non-empty list. |
| ProductsPage.ProductsScreen.ResetForm | app/products/page.tsx:132-138 | all five form fields are cleared. |
| ProductsPage.ProductsScreen.OpenCreateForm | app/products/page.tsx:145-149 | the form is reset and shown. |
| ProductsPage.ProductsScreen.CancelForm | app/products/page.tsx:228-231 | the form is reset and hidden. |
| ProductsPage.ProductsScreen.ChooseFile | app/products/page.tsx:198-203 | the chosen file and its object URL become the form's image and preview. |
| ProductsPage.ProductsScreen.EditClick | app/products/page.tsx:123-129 | the form holds the row's name, its price as text and its image as preview, and is shown. |
| ProductsPage.ProductsScreen.BeginSubmit | app/products/page.tsx:71-73 | `submitting` is raised, and the form is captured as it stands. |
| ProductsPage.ProductsScreen.FinishSubmit | app/products/page.tsx:74-109 | with a file chosen, it is uploaded under `UploadPath`, and a failed upload aborts with nothing sent. Otherwise the request carries the `ImageUrl`. On success the edited id's rows are replaced, or the new row is appended, and the form is reset and hidden. `submitting` always ends false. |
| ProductsPage.ProductsScreen.DeleteClick | app/products/page.tsx:112-120 | the delete is sent without confirmation; the rows with the id go on success and stay on failure. |
| ProductsRecipesPage.RecipeLinesOnePerRecipe | app/lib/products/page.tsx:303-312 | the modal lists one line per recipe, in order, each being that recipe's line. |
| ProductsRecipesPage.RecipeLineFound | app/lib/products/page.tsx:304-308 | a recipe whose material is first found at a position shows that material's name, the quantity and that material's unit. |
| ProductsRecipesPage.RecipeLineMissing | app/lib/products/page.tsx:307-309 | a recipe whose material id is in no row shows the "not found" text with the raw id. |
| ProductsRecipesPage.CategoryCellSpec | app/lib/products/page.tsx:257-259 | no category name is found exactly when the product's category id is null or in no row; otherwise it is the name of the first category with that id. |
| ProductsRecipesPage.StorageKeySpec | app/lib/products/page.tsx:69-71 | the upload key is the timestamp's digits, which read back as the timestamp and hold no underscore, then `_`, then the whole file name. |
| ProductsRecipesPage.ResubmitUnchangedSendsRow | app/lib/products/page.tsx:63-116 | the request `Submit` builds from the form `Edit` leaves (no file chosen) is an update of the row's id with the row's own name, price, image and category. |
| ProductsRecipesPage.ProductsRecipesScreen.constructor | app/lib/products/page.tsx:23-40 | the initial state. |
| ProductsRecipesPage.ProductsRecipesScreen.LoadProducts | app/lib/products/page.tsx:48-51 | the list becomes the fetched rows, or is kept when the fetch throws. |
| ProductsRecipesPage.ProductsRecipesScreen.LoadCategories | app/lib/products/page.tsx:53-56 | the same for categories. |
| ProductsRecipesPage.ProductsRecipesScreen.LoadMaterials | app/lib/products/page.tsx:58-61 | the same for materials. |
| ProductsRecipesPage.ProductsRecipesScreen.ResetForm | app/lib/products/page.tsx:102-108 | all five form fields are cleared, including the edited product. |
| ProductsRecipesPage.ProductsRecipesScreen.OpenCreateForm | app/lib/products/page.tsx:152-156 | the form is reset and shown. |
| ProductsRecipesPage.ProductsRecipesScreen.CancelForm | app/lib/products/page.tsx:227-230 | the form is reset and hidden. |
| ProductsRecipesPage.ProductsRecipesScreen.ChooseFile | app/lib/products/page.tsx:209-213 | the chosen file becomes the form's image. |
| ProductsRecipesPage.ProductsRecipesScreen.Edit | app/lib/products/page.tsx:110-116 | the form holds the row as the edited product, its name, its price as text and its category, keeps any chosen file, and is shown. |
| ProductsRecipesPage.ProductsRecipesScreen.Submit | app/lib/products/page.tsx:63-100 | with a file chosen, it is uploaded under `StorageKey`, and a failed upload aborts with nothing sent. Otherwise the request carries the `ImageUrl` and the category. On a successful update the rows with the returned row's id are replaced; a create appends; the form is reset and hidden. A failure changes nothing. |
| ProductsRecipesPage.ProductsRecipesScreen.Delete | app/lib/products/page.tsx:118-123 | nothing is sent unless the user confirms; then the rows with the id go on success. |
| ProductsRecipesPage.ProductsRecipesScreen.ShowRecipes | app/lib/products/page.tsx:126-131 | the product's recipes are requested. On success the modal opens on that product and its recipes; on failure nothing changes. |
| ProductsRecipesPage.ProductsRecipesScreen.CloseRecipeModal | app/lib/products/page.tsx:344-346 | the modal closes. |
| ProductsRecipesPage.ProductsRecipesScreen.SelectMaterial | app/lib/products/page.tsx:316-318 | the chosen option's number becomes the selected material; the empty option gives 0. |
| ProductsRecipesPage.ProductsRecipesScreen.SetQuantity | app/lib/products/page.tsx:328-332 | the number typed becomes the quantity. |
| ProductsRecipesPage.ProductsRecipesScreen.AddRecipe | app/lib/products/page.tsx:133-145 | nothing is sent without a selected product, with a null or zero material, or with a zero quantity. Otherwise the recipe is sent; on success it is appended to the modal list, and the material and quantity are cleared. |
| ProductsRecipesPage.AddFirstRecipeExample | app/lib/products/page.tsx:126-145 | opening product 5 with no recipes, choosing material 2 and quantity 3 and adding sends exactly that recipe, and the modal then lists one line: material 2's name, the quantity 3 and material 2's unit. |

## Left out

- The service modules (`productService`, `recipesService`, `materialsService`, `categoriesService`) and the storage client are not part of this model. Their results are handler parameters.
- The authentication pages, the dashboard home page, the layout and `DashboardLayout` are not part of this model; they hold no state of these five pages.
- Rendering is left out: markup, styling, toasts and `alert` texts are not modelled. Where a view decides what appears (a table, a message, a modal line), it is a function.
- Controlled-input `onChange` setters that copy an input's value into a field (names, prices, search terms, the form selects) are not modelled as methods, apart from the recipe modal's material select and quantity input; every field can hold any value of its type.
- HTML constraint validation (`required`, `type="number"`, the options of a `select`) runs in the browser before `onSubmit`. It is not modelled, so the submit handlers are specified for every form state.
- Text.Lower: only ASCII letters are lowercased; JavaScript's full Unicode case mapping is not modelled.
- Text.ToNumber: only optionally signed decimal integer text is modelled. Fractions, exponents, surrounding blanks, hexadecimal and `NaN` map to `OutsideModel`.
- Prices, stocks and quantities are unbounded integers; JavaScript's floating-point numbers and their formatting are not modelled.
- Concurrency is left out. The pages start loads concurrently (`Promise.all`, three `useEffect` loads), and a handler's `await` lets other events in. Only the `submitting` pages split their submit at the `await` (BeginSubmit/FinishSubmit); every other handler is one atomic step.
- `console.error` and the success and error toasts are output only, and are not modelled.
