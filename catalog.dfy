/**
 * The storefront's product record and its search: a product matches a term
 * when its lower-cased name or description includes the lower-cased term.
 * Both storefront pages filter their product lists this way.
 */
module Catalog {
  import Text

  datatype Product = Product(id: int, name: string, price: real, rating: int,
                             image: string, description: string, modelPath: string)

  /** A file handed over by the file input, with the object URL the browser made for it. */
  datatype UploadedFile = UploadedFile(name: string, objectUrl: string)

  predicate Matches(p: Product, term: string)
  {
    || Text.Contains(Text.ToLower(p.name), Text.ToLower(term))
    || Text.Contains(Text.ToLower(p.description), Text.ToLower(term))
  }

  /** `products.filter(...)`: the matching products, in their original order. */
  function FilterProducts(products: seq<Product>, term: string): (r: seq<Product>)
    ensures |r| <= |products|
    ensures forall p :: p in r ==> p in products && Matches(p, term)
    ensures forall p :: p in products && Matches(p, term) ==> p in r
  {
    if products == [] then []
    else (if Matches(products[0], term) then [products[0]] else []) + FilterProducts(products[1..], term)
  }

  /** Filtering distributes over concatenation, so the original order is kept. */
  lemma {:induction false} FilterAppend(a: seq<Product>, b: seq<Product>, term: string)
    ensures FilterProducts(a + b, term) == FilterProducts(a, term) + FilterProducts(b, term)
  {
    if a != [] {
      assert (a + b)[1..] == a[1..] + b;
      FilterAppend(a[1..], b, term);
    } else {
      assert a + b == b;
    }
  }

  /** A list whose every product matches is kept whole. */
  lemma {:induction false} FilterKeepsAllMatching(products: seq<Product>, term: string)
    requires forall p :: p in products ==> Matches(p, term)
    ensures FilterProducts(products, term) == products
  {
    if products != [] {
      FilterKeepsAllMatching(products[1..], term);
    }
  }

  /** An empty search term lists every product. */
  lemma EmptyTermKeepsAll(products: seq<Product>)
    ensures FilterProducts(products, "") == products
  {
    forall p | p in products ensures Matches(p, "") {
      Text.ContainsEmpty(Text.ToLower(p.name));
    }
    FilterKeepsAllMatching(products, "");
  }

  /** The search ignores the case of the term. */
  lemma {:induction false} FilterIgnoresTermCase(products: seq<Product>, term: string)
    ensures FilterProducts(products, Text.ToLower(term)) == FilterProducts(products, term)
  {
    Text.ToLowerIdempotent(term);
    if products != [] {
      FilterIgnoresTermCase(products[1..], term);
    }
  }
}
