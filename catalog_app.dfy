/**
 * The "Snap & Shop" storefront page: products grouped by an image file name,
 * a search box, an image upload that looks the file name up in that table,
 * and a detail view for the selected product.
 */
module CatalogApp {
  import opened Options
  import opened Catalog
  import Text

  const MidnightElegance: Product :=
    Product(2, "Midnight Elegance", 4000.0, 5, "assets/dress4.png",
            "A timeless gown perfect for formal events.", "models/dress_3_la_dame_a_la_licorne.glb")
  const SunsetRadiance: Product :=
    Product(5, "Sunset Radiance", 3500.0, 5, "assets/shopping.webp",
            "A radiant gown inspired by golden sunsets.", "models/dress_3_la_dame_a_la_licorne.glb")
  const ClassicGraySuit: Product :=
    Product(3, "Classic Gray Suit", 7000.0, 5, "assets/download.png",
            "A sharp, classic gray suit for business or formal events.", "models/dress.glb")
  const ModernSlimFitSuit: Product :=
    Product(4, "Modern Slim-Fit Suit", 8500.0, 5, "assets/images.png",
            "Tailored gray slim-fit suit designed for a modern silhouette.", "models/metaretail_outfit.glb")

  type ImageTable = seq<(string, seq<Product>)>

  /** `productsByImage`, its entries in key order. */
  const ProductsByImage: ImageTable :=
    [("dress (2).png", [MidnightElegance, SunsetRadiance]),
     ("dress.png", [ClassicGraySuit, ModernSlimFitSuit])]

  /** `table[key]`: the products of the first entry with that key. */
  function Lookup(table: ImageTable, key: string): (r: Option<seq<Product>>)
    ensures r.Some? <==> exists i :: 0 <= i < |table| && table[i].0 == key
    ensures r.Some? ==> exists i :: 0 <= i < |table| && table[i] == (key, r.value)
  {
    if table == [] then None
    else if table[0].0 == key then Some(table[0].1)
    else
      var rest := Lookup(table[1..], key);
      assert forall i :: 1 <= i < |table| ==> table[i] == table[1..][i - 1];
      rest
  }

  /** `Object.values(table).flat()`. */
  function Flatten(table: ImageTable): (r: seq<Product>)
  {
    if table == [] then [] else table[0].1 + Flatten(table[1..])
  }

  lemma {:induction false} FlattenHoldsEntry(table: ImageTable, i: int)
    requires 0 <= i < |table|
    ensures forall p :: p in table[i].1 ==> p in Flatten(table)
  {
    if i > 0 {
      FlattenHoldsEntry(table[1..], i - 1);
    }
  }

  /** `allProducts`. */
  function AllProducts(): seq<Product>
  {
    Flatten(ProductsByImage)
  }

  /** All products, the gowns of the first key before the suits of the second. */
  lemma AllProductsInKeyOrder()
    ensures AllProducts() == [MidnightElegance, SunsetRadiance, ClassicGraySuit, ModernSlimFitSuit]
  {
    var table := ProductsByImage;
    assert table[1..][1..] == [];
    assert Flatten(table[1..]) == [ClassicGraySuit, ModernSlimFitSuit] + Flatten(table[1..][1..]);
  }

  /** `productsByImage[file.name.toLowerCase()] || []`. */
  function MatchesForFile(fileName: string): (r: seq<Product>)
    ensures forall p :: p in r ==> p in AllProducts()
    ensures Text.ToLower(fileName) == "dress (2).png" ==> r == [MidnightElegance, SunsetRadiance]
    ensures Text.ToLower(fileName) == "dress.png" ==> r == [ClassicGraySuit, ModernSlimFitSuit]
    ensures Text.ToLower(fileName) != "dress (2).png" && Text.ToLower(fileName) != "dress.png" ==> r == []
  {
    match Lookup(ProductsByImage, Text.ToLower(fileName))
    case Some(products) =>
      forall p | p in products ensures p in AllProducts() {
        var i :| 0 <= i < |ProductsByImage| && ProductsByImage[i] == (Text.ToLower(fileName), products);
        FlattenHoldsEntry(ProductsByImage, i);
      }
      products
    case None =>
      assert ProductsByImage[0].0 == "dress (2).png" && ProductsByImage[1].0 == "dress.png";
      []
  }

  class App {
    var searchTerm: string
    var selectedProduct: Option<Product>
    var uploadedImage: Option<string>
    var matchedProducts: seq<Product>

    /** Every matched product comes from the catalog. */
    ghost predicate Valid()
      reads this
    {
      forall p :: p in matchedProducts ==> p in AllProducts()
    }

    constructor ()
      ensures Valid()
      ensures searchTerm == "" && selectedProduct == None && uploadedImage == None && matchedProducts == []
    {
      searchTerm, selectedProduct, uploadedImage, matchedProducts := "", None, None, [];
    }

    /** `uploadedImage` is truthy. */
    predicate HasUploadedImage()
      reads this
    {
      uploadedImage.Some? && uploadedImage.value != ""
    }

    /** `filteredProducts`. */
    function FilteredProducts(): seq<Product>
      reads this
    {
      FilterProducts(AllProducts(), searchTerm)
    }

    /** `productsToShow`: the upload's matches while an image is shown, else the search results. */
    function ProductsToShow(): (r: seq<Product>)
      reads this
      requires Valid()
      ensures forall p :: p in r ==> p in AllProducts()
      ensures HasUploadedImage() ==> r == matchedProducts
      ensures !HasUploadedImage() ==> forall p :: p in r <==> p in AllProducts() && Matches(p, searchTerm)
    {
      if HasUploadedImage() then matchedProducts else FilteredProducts()
    }

    /** The detail view is rendered instead of the grid. */
    predicate ShowsDetail()
      reads this
    {
      selectedProduct.Some?
    }

    /**
     * `handleFileUpload`: no file, no change. Otherwise show the file, take the
     * products filed under its lower-cased name (none for an unknown name),
     * leave the detail view and clear the search.
     */
    method HandleFileUpload(file: Option<UploadedFile>)
      requires Valid()
      modifies this
      ensures Valid()
      ensures file.None? ==> unchanged(this)
      ensures file.Some? ==>
                && uploadedImage == Some(file.value.objectUrl)
                && matchedProducts == MatchesForFile(file.value.name)
                && selectedProduct == None && searchTerm == ""
    {
      if file.Some? {
        uploadedImage := Some(file.value.objectUrl);
        var found := MatchesForFile(file.value.name);
        matchedProducts := found;
        selectedProduct := None;
        searchTerm := "";
      }
    }

    /** The search box's `onChange`: set the term and drop the uploaded image and its matches. */
    method ChangeSearch(value: string)
      requires Valid()
      modifies this`searchTerm, this`uploadedImage, this`matchedProducts
      ensures Valid()
      ensures searchTerm == value && uploadedImage == None && matchedProducts == []
    {
      searchTerm := value;
      uploadedImage := None;
      matchedProducts := [];
    }

    /** `handleProductClick`. */
    method HandleProductClick(product: Product)
      modifies this`selectedProduct
      ensures selectedProduct == Some(product)
    {
      selectedProduct := Some(product);
    }

    /** `goBack`. */
    method GoBack()
      modifies this`selectedProduct
      ensures selectedProduct == None
    {
      selectedProduct := None;
    }
  }

  /**
   * Upload a file, then type in the search box: first the grid shows the
   * file's matches, then exactly the catalog products matching the term, in
   * catalog order.
   */
  method UploadThenSearch(file: UploadedFile, term: string)
    returns (afterUpload: seq<Product>, afterSearch: seq<Product>, detail: bool)
    requires file.objectUrl != ""
    ensures afterUpload == MatchesForFile(file.name)
    ensures afterSearch == FilterProducts(AllProducts(), term)
    ensures forall p :: p in afterSearch <==> p in AllProducts() && Matches(p, term)
    ensures !detail
  {
    var app := new App();
    app.HandleProductClick(SunsetRadiance);
    app.HandleFileUpload(Some(file));
    afterUpload := app.ProductsToShow();
    detail := app.ShowsDetail();
    app.ChangeSearch(term);
    afterSearch := app.ProductsToShow();
  }

  /** Opening a product and going back toggles the detail view. */
  method OpenAndClose(product: Product) returns (afterClick: bool, afterBack: bool)
    ensures afterClick && !afterBack
  {
    var app := new App();
    app.HandleProductClick(product);
    afterClick := app.ShowsDetail();
    app.GoBack();
    afterBack := app.ShowsDetail();
  }
}
