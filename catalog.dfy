/** Products as the front end holds them after the API layer has transformed them. */
module Catalog {
  import opened Wrappers

  type ProductId = int

  datatype Product = Product(
    id: ProductId,
    name: string,
    description: string,
    image: string,
    price: real,
    originalPrice: Option<real>,
    discount: real,
    rating: real,
    reviews: int,
    category: string,
    slug: string)

  /** The six products the API layer falls back to when the server cannot be reached. */
  function MockProducts(): (r: seq<Product>)
    ensures |r| == 6
  {
    [ Product(1, "Wireless Headphones", "Premium noise-cancelling wireless headphones with 30-hour battery",
              "https://images.unsplash.com/photo-1505740420928-5e560c06d30e?w=400&h=300&fit=crop",
              199.99, Some(249.99), 20.0, 4.5, 128, "electronics", "wireless-headphones"),
      Product(2, "Smart Watch Pro", "Advanced fitness tracking and health monitoring smartwatch",
              "https://images.unsplash.com/photo-1523275335684-37898b6baf30?w=400&h=300&fit=crop",
              299.99, None, 0.0, 4.8, 256, "electronics", "smart-watch-pro"),
      Product(3, "Cotton T-Shirt", "Comfortable 100% cotton t-shirt in various colors",
              "https://images.unsplash.com/photo-1521572163474-6864f9cf17ab?w=400&h=300&fit=crop",
              24.99, Some(29.99), 17.0, 4.3, 89, "clothing", "cotton-t-shirt"),
      Product(4, "Running Shoes", "Lightweight running shoes with cushioned sole",
              "https://images.unsplash.com/photo-1542291026-7eec264c27ff?w=400&h=300&fit=crop",
              89.99, Some(119.99), 25.0, 4.7, 234, "sports", "running-shoes"),
      Product(5, "Garden Tool Set", "Complete 10-piece stainless steel garden tool set",
              "https://images.unsplash.com/photo-1416879595882-3373a0480b5b?w=400&h=300&fit=crop",
              79.99, Some(99.99), 20.0, 4.4, 67, "home-garden", "garden-tool-set"),
      Product(6, "Laptop Stand", "Adjustable aluminum laptop stand for ergonomic workspace",
              "https://images.unsplash.com/photo-1527864550417-7fd91fc51a46?w=400&h=300&fit=crop",
              39.99, None, 0.0, 4.4, 94, "electronics", "laptop-stand") ]
  }

  /** filter(product => product.category === slug), keeping the input order. */
  function InCategory(ps: seq<Product>, slug: string): (r: seq<Product>)
    ensures |r| <= |ps|
    ensures forall i :: 0 <= i < |r| ==> r[i].category == slug
  {
    if ps == [] then []
    else if ps[0].category == slug then [ps[0]] + InCategory(ps[1..], slug)
    else InCategory(ps[1..], slug)
  }

  /** The category filter keeps exactly the products of that category. */
  lemma {:induction false} InCategoryMembers(ps: seq<Product>, slug: string)
    ensures forall p :: p in InCategory(ps, slug) <==> p in ps && p.category == slug
    decreases |ps|
  {
    if ps != [] {
      InCategoryMembers(ps[1..], slug);
      assert ps == [ps[0]] + ps[1..];
    }
  }
}
