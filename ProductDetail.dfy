/** The product page: which catalogue entry a route id shows, the three
    gallery images, and the quantity and selected-image counters. The route
    id reaches the page as text; what `Number(id)` makes of it is an input
    here, `None` standing for NaN (a missing or non-numeric id). Images are
    the names of the bundled asset files. */
module ProductDetail {
  import opened JsBuiltins

  datatype Product = Product(id: int, name: string, category: string, price: string, material: string,
                             image: string, dimensions: string, weight: string)

  const Showroom1: string := "showroom-1.jpg"
  const Showroom2: string := "showroom-2.jpg"

  const AllProducts: seq<Product> := [
    Product(1, "Tavola Carrara", "Masă Dining", "€12,500", "Marmură Carrara",
            "collection-dining-table.jpg", "200 x 100 x 75 cm", "180 kg"),
    Product(2, "Nero Elegante", "Masă Cafea", "€4,800", "Granit Nero Marquina",
            "collection-coffee-table.jpg", "120 x 60 x 45 cm", "85 kg"),
    Product(3, "Scultura Bianca", "Design Unic", "€18,900", "Marmură Calacatta",
            "collection-custom.jpg", "180 x 90 x 75 cm", "150 kg"),
    Product(4, "Terrazza Grande", "Exterior", "€8,200", "Granit Natural",
            "collection-outdoor.jpg", "160 x 80 x 75 cm", "200 kg"),
    Product(5, "Milano Ovale", "Masă Dining", "€15,400", "Marmură Statuario",
            Showroom1, "220 x 110 x 75 cm", "195 kg"),
    Product(6, "Firenze Noir", "Masă Dining", "€14,200", "Granit Nero Assoluto",
            Showroom2, "200 x 100 x 75 cm", "185 kg")]

  /** `p.id === Number(id)`: NaN equals no id. */
  predicate HasId(p: Product, requested: Option<real>) {
    requested.Some? && p.id as real == requested.value
  }

  /** `allProducts.find(p => p.id === Number(id)) || allProducts[0]`: the
      first product with the requested id, else the first product. */
  function FindProduct(products: seq<Product>, requested: Option<real>): (p: Product)
    requires |products| > 0
    ensures p in products
    ensures forall i :: 0 <= i < |products| && HasId(products[i], requested) &&
                        (forall j :: 0 <= j < i ==> !HasId(products[j], requested)) ==>
              p == products[i]
    ensures (forall i :: 0 <= i < |products| ==> !HasId(products[i], requested)) ==> p == products[0]
  {
    var found := Find(products, q => HasId(q, requested));
    if found.Some? then found.value else products[0]
  }

  /** The catalogue's ids are 1 to 6 in order, so no two products share one. */
  lemma ProductIds()
    ensures |AllProducts| == 6
    ensures forall i :: 0 <= i < |AllProducts| ==> AllProducts[i].id == i + 1
    ensures forall i, j :: 0 <= i < j < |AllProducts| ==> AllProducts[i].id != AllProducts[j].id
  {
  }

  /** Every product of the catalogue is reached by its own id. */
  lemma {:induction false} LookupById(i: nat)
    requires i < |AllProducts|
    ensures FindProduct(AllProducts, Some(AllProducts[i].id as real)) == AllProducts[i]
  {
    ProductIds();
    var requested := Some(AllProducts[i].id as real);
    assert HasId(AllProducts[i], requested);
    assert forall j :: 0 <= j < i ==> !HasId(AllProducts[j], requested);
  }

  /** A NaN id, or a number that is not an id of the catalogue, shows the
      first product. */
  lemma UnknownIdShowsFirst(requested: Option<real>)
    requires requested.None? || requested.value !in {1.0, 2.0, 3.0, 4.0, 5.0, 6.0}
    ensures FindProduct(AllProducts, requested) == AllProducts[0]
  {
    ProductIds();
    assert forall i :: 0 <= i < |AllProducts| ==> !HasId(AllProducts[i], requested);
  }

  /** The gallery: the product's own image, then the two showroom photos. */
  function Images(product: Product): (images: seq<string>)
    ensures |images| == 3
    ensures images[0] == product.image && images[1..] == [Showroom1, Showroom2]
  {
    [product.image, Showroom1, Showroom2]
  }

  /** The page's state slots and the gallery they index. */
  class ProductPage {
    var quantity: int
    var selectedImage: int
    var images: seq<string>

    /** The counter is at least 1 and the selection is an image of the gallery. */
    predicate Valid()
      reads this
    {
      quantity >= 1 && |images| == 3 && 0 <= selectedImage < |images|
    }

    /** Opening the page for a route id. */
    constructor (requested: Option<real>)
      ensures Valid()
      ensures quantity == 1 && selectedImage == 0
      ensures images == Images(FindProduct(AllProducts, requested))
    {
      quantity := 1;
      selectedImage := 0;
      images := Images(FindProduct(AllProducts, requested));
    }

    /** The large image shown. */
    function Shown(): (image: string)
      reads this
      requires Valid()
      ensures image in images
    {
      images[selectedImage]
    }

    /** The minus button: `Math.max(1, quantity - 1)`. */
    method Minus()
      requires Valid()
      modifies this`quantity
      ensures Valid()
      ensures quantity == if old(quantity) > 1 then old(quantity) - 1 else 1
    {
      quantity := if quantity - 1 >= 1 then quantity - 1 else 1;
    }

    /** The plus button. */
    method Plus()
      requires Valid()
      modifies this`quantity
      ensures Valid()
      ensures quantity == old(quantity) + 1
    {
      quantity := quantity + 1;
    }

    /** A thumbnail click, for the thumbnail at position `idx` of the gallery. */
    method SelectImage(idx: int)
      requires Valid() && 0 <= idx < |images|
      modifies this`selectedImage
      ensures Valid()
      ensures selectedImage == idx && Shown() == images[idx]
    {
      selectedImage := idx;
    }
  }
}
