/** The rows the backend tables hand to the pages. Ids and timestamps are
    assigned by the backend; the pages only compare and carry them. */
module Entities {
  import opened Rows

  datatype Category = Category(id: int, name: string, createdAt: string)

  datatype Material = Material(id: int, name: string, stock: int, unit: string, createdAt: string)

  /** `image` is a URL or null; `categoriesId` is the nullable foreign key
      that the product table carries. */
  datatype Product = Product(id: int, name: string, price: int, image: Option<string>,
                             categoriesId: Option<int>, createdAt: string)

  datatype Recipe = Recipe(id: int, productId: int, materialId: int, quantityNeeded: int,
                           createdAt: string)

  /** What a page sends to the recipe service to create or update a row. */
  datatype RecipeInput = RecipeInput(productId: int, materialId: int, quantityNeeded: int)

  /** A file picked in the browser's file input; only its name is read. */
  datatype File = File(name: string)

  /** The id of each kind of row, as a function the id-keyed list
      operations can be given. */
  function CategoryId(c: Category): int { c.id }
  function MaterialId(m: Material): int { m.id }
  function ProductId(p: Product): int { p.id }
  function RecipeId(r: Recipe): int { r.id }

  /** The first row of a list with a given id: `rows.find(x => x.id === id)`. */
  function FindMaterial(materials: seq<Material>, id: int): Option<Material>
  {
    FindFirst(materials, (m: Material) => m.id == id)
  }

  function FindCategory(categories: seq<Category>, id: int): Option<Category>
  {
    FindFirst(categories, (c: Category) => c.id == id)
  }

  function FindProduct(products: seq<Product>, id: int): Option<Product>
  {
    FindFirst(products, (p: Product) => p.id == id)
  }

  /** The lookup by id returns the first row carrying that id, and nothing
      exactly when no row carries it. */
  lemma FindMaterialSpec(materials: seq<Material>, id: int)
    ensures FindMaterial(materials, id).None? <==> forall i :: 0 <= i < |materials| ==> materials[i].id != id
    ensures forall i :: 0 <= i < |materials| && materials[i].id == id
                        && (forall j :: 0 <= j < i ==> materials[j].id != id)
                        ==> FindMaterial(materials, id) == Some(materials[i])
  {
    forall i | 0 <= i < |materials| && materials[i].id == id
                && (forall j :: 0 <= j < i ==> materials[j].id != id)
      ensures FindMaterial(materials, id) == Some(materials[i])
    {
      FindFirstIsFirst(materials, (m: Material) => m.id == id, i);
    }
  }

  lemma FindProductSpec(products: seq<Product>, id: int)
    ensures FindProduct(products, id).None? <==> forall i :: 0 <= i < |products| ==> products[i].id != id
    ensures forall i :: 0 <= i < |products| && products[i].id == id
                        && (forall j :: 0 <= j < i ==> products[j].id != id)
                        ==> FindProduct(products, id) == Some(products[i])
  {
    forall i | 0 <= i < |products| && products[i].id == id
                && (forall j :: 0 <= j < i ==> products[j].id != id)
      ensures FindProduct(products, id) == Some(products[i])
    {
      FindFirstIsFirst(products, (p: Product) => p.id == id, i);
    }
  }
}
