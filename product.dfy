/** The product detail page (src/pages/ProductPage.tsx): looking the route's
    id up in the page's own product list, the size, colour, quantity and
    custom-design state, the Add to Cart gate and call, the image list handed
    to the gallery, and the "You Might Also Like" list. Prices are integer
    cents. */
module ProductPage {
  import opened Wrappers
  import opened Text
  import opened Sequences
  import ProductGallery

  /** A product as the page's list describes it. */
  datatype ProductDetail = ProductDetail(
    id: string, name: string, price: int, description: string,
    images: seq<string>, sizes: seq<string>, colors: seq<string>,
    material: string, category: string)

  /** The page's product list. */
  const MockProducts: seq<ProductDetail> := [
    ProductDetail(
      "1", "Cosmic Explorer Hoodie", 5999,
      "Stay warm with this premium hoodie featuring a stunning cosmic explorer design. This comfortable hoodie is perfect for everyday wear.",
      ["https://images.pexels.com/photos/6311392/pexels-photo-6311392.jpeg",
       "https://images.pexels.com/photos/7679720/pexels-photo-7679720.jpeg",
       "https://images.pexels.com/photos/7679723/pexels-photo-7679723.jpeg"],
      ["S", "M", "L", "XL", "XXL"], ["Black", "Navy", "Gray"],
      "80% cotton, 20% polyester", "Hoodies"),
    ProductDetail(
      "2", "Neon Tiger T-Shirt", 3499,
      "Make a statement with this vibrant Neon Tiger T-shirt. This eye-catching design is printed on a premium quality t-shirt for maximum comfort and durability.",
      ["https://images.pexels.com/photos/1926769/pexels-photo-1926769.jpeg",
       "https://images.pexels.com/photos/2466756/pexels-photo-2466756.jpeg",
       "https://images.pexels.com/photos/1833082/pexels-photo-1833082.jpeg"],
      ["XS", "S", "M", "L", "XL"], ["White", "Black", "Navy"],
      "100% organic cotton", "T-Shirts"),
    ProductDetail(
      "3", "Synthwave Dreams Hoodie", 6499,
      "Embrace the retro-futuristic aesthetic with our Synthwave Dreams Hoodie. This premium hoodie features a stunning sunset grid design inspired by 80s retro aesthetics.",
      ["https://images.pexels.com/photos/5698851/pexels-photo-5698851.jpeg",
       "https://images.pexels.com/photos/5698858/pexels-photo-5698858.jpeg",
       "https://images.pexels.com/photos/5698849/pexels-photo-5698849.jpeg"],
      ["S", "M", "L", "XL"], ["Black", "Purple"],
      "70% cotton, 30% polyester", "Hoodies")
  ]

  /** The callbacks the page passes to `find` and `filter`. */
  function IdIs(id: string): ProductDetail -> bool
  {
    (p: ProductDetail) => p.id == id
  }

  function IdIsNot(id: string): ProductDetail -> bool
  {
    (p: ProductDetail) => p.id != id
  }

  /** `products.find(p => p.id === id)`: a product with the id, or None
      (the not-found view) when there is none. */
  function FindProduct(products: seq<ProductDetail>, id: string): (r: Option<ProductDetail>)
    ensures r.None? <==> forall i :: 0 <= i < |products| ==> products[i].id != id
    ensures r.Some? ==> r.value.id == id && r.value in products
  {
    var r := Find(products, IdIs(id));
    assert r.Some? ==> r.value in products by {
      if r.Some? { FindProductIsMember(products, id); }
    }
    r
  }

  lemma {:induction false} FindProductIsMember(products: seq<ProductDetail>, id: string)
    ensures Find(products, IdIs(id)).Some? ==> Find(products, IdIs(id)).value in products
  {
    if products != [] && products[0].id != id {
      FindProductIsMember(products[1..], id);
      assert Find(products, IdIs(id)) == Find(products[1..], IdIs(id));
    }
  }

  /** The lookup returns the first product carrying the id. */
  lemma FindProductIsFirst(products: seq<ProductDetail>, id: string, i: nat)
    requires i < |products| && products[i].id == id
    requires forall j :: 0 <= j < i ==> products[j].id != id
    ensures FindProduct(products, id) == Some(products[i])
  {
    FindIsFirst(products, IdIs(id), i);
  }

  /** In the shipped list every product is found under its own id. */
  lemma ShippedProductsAreFound(k: nat)
    requires k < |MockProducts|
    ensures FindProduct(MockProducts, MockProducts[k].id) == Some(MockProducts[k])
  {
    assert MockProducts[0].id == "1" && MockProducts[1].id == "2" && MockProducts[2].id == "3";
    FindProductIsFirst(MockProducts, MockProducts[k].id, k);
  }

  /** `MOCK_PRODUCTS.filter(p => p.id !== id)`: the other products. */
  function Recommendations(products: seq<ProductDetail>, id: string): (r: seq<ProductDetail>)
    ensures forall p :: p in r <==> p in products && p.id != id
    ensures IsSubsequence(r, products)
  {
    FilterIsSubsequence(products, IdIsNot(id));
    Filter(products, IdIsNot(id))
  }

  /** The recommendations never include the product being viewed. The
      second clause is about the expression alone: for an id no product
      has it keeps the whole list, but the page shows its not-found view
      in that case and never renders the list. */
  lemma RecommendationsExcludeCurrent(products: seq<ProductDetail>, id: string)
    ensures forall i :: 0 <= i < |Recommendations(products, id)| ==>
      Recommendations(products, id)[i].id != id
    ensures FindProduct(products, id).None? ==> Recommendations(products, id) == products
  {
    if FindProduct(products, id).None? {
      FilterKeepsAll(products, IdIsNot(id));
    }
    forall i | 0 <= i < |Recommendations(products, id)|
      ensures Recommendations(products, id)[i].id != id
    {
      assert Recommendations(products, id)[i] in Recommendations(products, id);
    }
  }

  /** On the page of a listed product, "You Might Also Like" shows every
      other listed product, in list order. */
  lemma RecommendationsOfShownProduct(k: nat)
    requires k < |MockProducts|
    ensures Recommendations(MockProducts, MockProducts[k].id) == MockProducts[..k] + MockProducts[k + 1..]
    ensures |Recommendations(MockProducts, MockProducts[k].id)| == |MockProducts| - 1
  {
    assert MockProducts[0].id == "1" && MockProducts[1].id == "2" && MockProducts[2].id == "3";
    FilterDropsOne(MockProducts, IdIsNot(MockProducts[k].id), k);
  }

  /** The images handed to the gallery: with a (truthy) custom design, the
      product's first image (if any) followed by the design; otherwise the
      product's own images. */
  function GalleryImages(p: ProductDetail, customDesign: Option<string>): (r: seq<string>)
    ensures Truthy(customDesign) ==>
      && |r| == (if |p.images| > 0 then 2 else 1)
      && r[|r| - 1] == customDesign.value
      && (|p.images| > 0 ==> r[0] == p.images[0])
    ensures !Truthy(customDesign) ==> r == p.images
  {
    if Truthy(customDesign) then
      p.images[..if |p.images| > 0 then 1 else 0] + [customDesign.value]
    else p.images
  }

  /** The quantity minus button: one less, never below 1. */
  function StepDown(q: int): (r: int)
    ensures r >= 1
    ensures q >= 2 ==> r == q - 1
    ensures q <= 1 ==> r == 1
  {
    if q - 1 > 1 then q - 1 else 1
  }

  /** The quantity plus button: one more. */
  function StepUp(q: int): (r: int)
    ensures q >= 1 ==> r >= 2
  {
    q + 1
  }

  /** Minus undoes plus from any valid quantity; plus undoes minus above 1. */
  lemma StepsUndo(q: int)
    requires q >= 1
    ensures StepDown(StepUp(q)) == q
    ensures q >= 2 ==> StepUp(StepDown(q)) == q
  {
  }

  /** What `handleAddToCart` hands to the cart store: the product, the custom
      design (dropped when falsy) and the quantity. There is no size or
      colour in it. */
  datatype CartAdd = CartAdd(product: ProductDetail, customDesign: Option<string>, quantity: int)

  /** The page state of one mounted product page. The route element is the
      same for every id, so following a link to another product keeps the
      component, and with it every piece of state except the looked-up
      product. */
  class ProductView {
    var product: Option<ProductDetail>
    var selectedSize: string
    var selectedColor: string
    var quantity: int
    var customDesign: Option<string>

    /** The quantity shown is at least 1. */
    predicate Valid()
      reads this
    {
      quantity >= 1
    }

    /** The Add to Cart button is enabled: a size and a colour are chosen. */
    predicate CanAddToCart()
      reads this
    {
      selectedSize != "" && selectedColor != ""
    }

    /** First mount on a product route: the first product with that id, nothing chosen,
        quantity 1, no custom design. */
    constructor (routeId: string)
      ensures product == FindProduct(MockProducts, routeId)
      ensures selectedSize == "" && selectedColor == "" && quantity == 1 && customDesign == None
      ensures Valid() && !CanAddToCart()
    {
      product := FindProduct(MockProducts, routeId);
      selectedSize := "";
      selectedColor := "";
      quantity := 1;
      customDesign := None;
    }

    /** A size button. */
    method SelectSize(size: string)
      modifies this
      ensures product == old(product)
      ensures selectedSize == size
      ensures selectedColor == old(selectedColor) && quantity == old(quantity)
      ensures customDesign == old(customDesign)
      ensures CanAddToCart() <==> size != "" && selectedColor != ""
    {
      selectedSize := size;
    }

    /** A colour button. */
    method SelectColor(color: string)
      modifies this
      ensures product == old(product)
      ensures selectedColor == color
      ensures selectedSize == old(selectedSize) && quantity == old(quantity)
      ensures customDesign == old(customDesign)
      ensures CanAddToCart() <==> selectedSize != "" && color != ""
    {
      selectedColor := color;
    }

    /** The quantity minus button, clamped at 1. */
    method Decrement()
      modifies this
      ensures product == old(product)
      ensures quantity == StepDown(old(quantity))
      ensures selectedSize == old(selectedSize) && selectedColor == old(selectedColor)
      ensures customDesign == old(customDesign)
      ensures Valid()
    {
      quantity := if quantity - 1 > 1 then quantity - 1 else 1;
    }

    /** The quantity plus button. */
    method Increment()
      requires Valid()
      modifies this
      ensures product == old(product)
      ensures quantity == StepUp(old(quantity))
      ensures selectedSize == old(selectedSize) && selectedColor == old(selectedColor)
      ensures customDesign == old(customDesign)
      ensures Valid()
    {
      quantity := quantity + 1;
    }

    /** The image editor reports a generated design. */
    method SetCustomDesign(design: string)
      modifies this
      ensures product == old(product)
      ensures customDesign == Some(design)
      ensures selectedSize == old(selectedSize) && selectedColor == old(selectedColor)
      ensures quantity == old(quantity)
    {
      customDesign := Some(design);
    }

    /** Following a link to another product (a recommendation card): the
        page stays mounted, so only the product is looked up again; the
        size, colour, quantity and design carry over. */
    method ChangeRoute(routeId: string)
      modifies this
      ensures product == FindProduct(MockProducts, routeId)
      ensures selectedSize == old(selectedSize) && selectedColor == old(selectedColor)
      ensures quantity == old(quantity) && customDesign == old(customDesign)
      ensures CanAddToCart() == old(CanAddToCart())
    {
      product := FindProduct(MockProducts, routeId);
    }

    /** The same navigation if the page were remounted for each id (a route
        keyed on the id): every choice starts afresh. */
    method ChangeRouteResetting(routeId: string)
      modifies this
      ensures product == FindProduct(MockProducts, routeId)
      ensures selectedSize == "" && selectedColor == "" && quantity == 1 && customDesign == None
      ensures Valid() && !CanAddToCart()
    {
      product := FindProduct(MockProducts, routeId);
      selectedSize := "";
      selectedColor := "";
      quantity := 1;
      customDesign := None;
    }

    /** The gallery's image list for the current state. */
    function Gallery(): seq<string>
      reads this
      requires product.Some?
    {
      GalleryImages(product.value, customDesign)
    }

    /** `handleAddToCart`: nothing without a product; otherwise the product,
        the design when truthy, and the current quantity. */
    method HandleAddToCart() returns (call: Option<CartAdd>)
      ensures call.None? <==> product.None?
      ensures call.Some? ==> call.value.product == product.value
      ensures call.Some? ==> call.value.quantity == quantity
      ensures call.Some? ==>
        call.value.customDesign == (if Truthy(customDesign) then customDesign else None)
    {
      if product.Some? {
        var design := if customDesign.Some? && customDesign.value != "" then customDesign else None;
        call := Some(CartAdd(product.value, design, quantity));
      } else {
        call := None;
      }
    }

    /** A click on Add to Cart: a disabled button does nothing. */
    method ClickAddToCart() returns (call: Option<CartAdd>)
      ensures call.Some? <==> CanAddToCart() && product.Some?
      ensures call.Some? ==> call.value == CartAdd(product.value,
        if Truthy(customDesign) then customDesign else None, quantity)
    {
      if CanAddToCart() {
        call := HandleAddToCart();
      } else {
        call := None;
      }
    }
  }

  /** The gallery keeps its index when the page swaps its image list: on
      the first product, one press of the left arrow shows the third image
      (index 2); a custom design then cuts the list to two images, and the
      kept index points past its end, so the main picture has no source. */
  method StaleGalleryIndexScenario() returns (index: nat, count: nat, shown: Option<string>)
    ensures count > 0 && index >= count
    ensures shown == None
  {
    var p := MockProducts[0];
    var g := new ProductGallery.Gallery(GalleryImages(p, None));
    g.GoToPrevious();
    ProductGallery.PrevSteps(0, 3);
    g.ReceiveImages(GalleryImages(p, Some("design.png")));
    index, count := g.currentIndex, |g.images|;
    shown := g.CurrentImage();
  }

  /** With the index reset on each new list, the same steps leave the
      gallery showing an image. */
  method ResettingGalleryScenario() returns (shown: Option<string>)
    ensures shown == Some(MockProducts[0].images[0])
  {
    var p := MockProducts[0];
    var g := new ProductGallery.Gallery(GalleryImages(p, None));
    g.GoToPrevious();
    g.ReceiveImagesResetting(GalleryImages(p, Some("design.png")));
    shown := g.CurrentImage();
  }

  /** Choices made on one product follow the visitor to the next: size,
      colour, quantity 2 and a design chosen on product 1, then a
      recommendation link to product 2, and Add to Cart is already enabled
      and sends product 2 with product 1's design and quantity. */
  method RouteChangeScenario() returns (call: Option<CartAdd>)
    ensures call == Some(CartAdd(MockProducts[1], Some("design.png"), 2))
  {
    var view := new ProductView("1");
    view.SelectSize("M");
    view.SelectColor("Black");
    view.Increment();
    view.SetCustomDesign("design.png");
    view.ChangeRoute("2");
    ShippedProductsAreFound(1);
    call := view.ClickAddToCart();
  }

  /** With the page remounted per id, the same steps leave Add to Cart
      disabled on arrival, so nothing is sent. */
  method ResettingRouteScenario() returns (call: Option<CartAdd>)
    ensures call == None
  {
    var view := new ProductView("1");
    view.SelectSize("M");
    view.SelectColor("Black");
    view.Increment();
    view.SetCustomDesign("design.png");
    view.ChangeRouteResetting("2");
    call := view.ClickAddToCart();
  }
}
