/**
 * The second storefront page: a fixed list of two products held in state
 * that has no setter, a search box, a detail view, and an image upload that
 * only raises an alert.
 */
module ModelShowcase {
  import opened Options
  import opened Catalog

  const Headphones: Product :=
    Product(1, "Wireless Bluetooth Headphones", 59.99, 4,
            "https://m.media-amazon.com/images/I/71jlppwxjmL._AC_UL320_.jpg",
            "Noise cancelling over-ear headphones with 30hr battery life",
            "models/dress_3_la_dame_a_la_licorne.glb")
  const SmartWatch: Product :=
    Product(2, "Smart Watch Fitness Tracker", 89.99, 5,
            "https://m.media-amazon.com/images/I/61S0a7x2yaL._AC_UL320_.jpg",
            "Heart rate monitor, waterproof, 1.4\" color touchscreen",
            "models/dress_3_la_dame_a_la_licorne.glb")

  /** The text of the alert raised for an uploaded file. */
  function UploadAlert(fileName: string): string
  {
    "Image \"" + fileName + "\" uploaded successfully!"
  }

  class App {
    /** `products`: state without a setter, so a constant of the component. */
    const products: seq<Product>
    var searchTerm: string
    var selectedProduct: Option<Product>

    constructor ()
      ensures products == [Headphones, SmartWatch]
      ensures searchTerm == "" && selectedProduct == None
    {
      products := [Headphones, SmartWatch];
      searchTerm := "";
      selectedProduct := None;
    }

    /** `filteredProducts`. */
    function FilteredProducts(): (r: seq<Product>)
      reads this
      ensures forall p :: p in r <==> p in products && Matches(p, searchTerm)
      ensures searchTerm == "" ==> r == products
    {
      EmptyTermKeepsAll(products);
      FilterProducts(products, searchTerm)
    }

    predicate ShowsDetail()
      reads this
    {
      selectedProduct.Some?
    }

    /**
     * `handleFileUpload`: touches no state (the method may modify nothing);
     * with a file it raises the alert naming it.
     */
    method HandleFileUpload(file: Option<UploadedFile>) returns (alert: Option<string>)
      ensures file.None? ==> alert == None
      ensures file.Some? ==> alert == Some(UploadAlert(file.value.name))
    {
      if file.Some? {
        alert := Some(UploadAlert(file.value.name));
      } else {
        alert := None;
      }
    }

    /** The search box's `onChange`. */
    method ChangeSearch(value: string)
      modifies this`searchTerm
      ensures searchTerm == value
    {
      searchTerm := value;
    }

    /** `handleProductClick`. */
    method HandleProductClick(product: Product)
      modifies this`selectedProduct
      ensures selectedProduct == Some(product)
    {
      selectedProduct := Some(product);
    }

    /** `goBack`. */
    method GoBack()
      modifies this`selectedProduct
      ensures selectedProduct == None
    {
      selectedProduct := None;
    }
  }

  /**
   * Search, upload, open a product and go back: the product list is the
   * original one throughout, the upload changes neither the term nor the
   * results, and the detail view follows the selection.
   */
  method SearchUploadBrowse(term: string, file: UploadedFile)
    returns (results: seq<Product>, resultsAfterUpload: seq<Product>, alert: Option<string>,
             catalog: seq<Product>, detailOpen: bool, detailAfterBack: bool)
    ensures results == resultsAfterUpload == FilterProducts([Headphones, SmartWatch], term)
    ensures alert == Some(UploadAlert(file.name))
    ensures catalog == [Headphones, SmartWatch]
    ensures detailOpen && !detailAfterBack
  {
    var app := new App();
    app.ChangeSearch(term);
    results := app.FilteredProducts();
    alert := app.HandleFileUpload(Some(file));
    resultsAfterUpload := app.FilteredProducts();
    app.HandleProductClick(SmartWatch);
    detailOpen := app.ShowsDetail();
    app.GoBack();
    detailAfterBack := app.ShowsDetail();
    catalog := app.products;
  }
}
