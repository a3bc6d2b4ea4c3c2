/**
 * The product tile (src/components/ProductCard.tsx): it prices its product
 * from the rate the store resolves for the product's metal and purity, and
 * its add-to-cart button either sends an anonymous visitor to the login page
 * or hands the product and that same price to the cart.
 */
module ProductCard {
  import opened Wrappers
  import opened Types
  import opened Pricing
  import opened MetalRatesStore

  /** The rate used for the tile: `getRate(product.metal_type, product.purity)`. */
  function CurrentRate(product: Product, rates: seq<MetalRate>): real {
    RateFor(rates, product.metal_type, product.purity)
  }

  /** The price shown on the tile, `priceDetails.total`. */
  function DisplayedPrice(product: Product, rates: seq<MetalRate>): int {
    CalculateProductPrice(product, CurrentRate(product, rates)).total
  }

  /**
   * A product whose metal and purity no loaded row matches and the fallback
   * table does not know (a "diamond" product, say) is priced from rate 0: a
   * percentage-charged one shows 0, a fixed-charged one shows its charge plus GST.
   */
  lemma UnratedProductPricedAtZero(product: Product, rates: seq<MetalRate>)
    requires product.metal_type == "diamond"
    requires forall i :: 0 <= i < |rates| ==> !RowMatches(rates[i], product.metal_type, product.purity)
    ensures CurrentRate(product, rates) == 0.0
    ensures product.making_charge_type == "percentage" ==> DisplayedPrice(product, rates) == 0
    ensures product.making_charge_type != "percentage" ==>
      DisplayedPrice(product, rates) == Round(product.making_charge_value * 103.0 / 100.0)
  {
    UnknownPairIsZero(product.purity);
    ZeroRate(product);
  }

  /**
   * The tile's price follows the first loaded row for the product's metal and
   * purity: it is the calculator's total at that row's rate.
   */
  lemma DisplayedPriceFromFirstMatch(product: Product, rates: seq<MetalRate>, k: nat)
    requires k < |rates| && RowMatches(rates[k], product.metal_type, product.purity)
    requires forall j :: 0 <= j < k ==> !RowMatches(rates[j], product.metal_type, product.purity)
    ensures DisplayedPrice(product, rates) == CalculateProductPrice(product, rates[k].rate_per_gram).total
  {
    RateForFirstMatch(rates, product.metal_type, product.purity, k);
  }

  /** The product tile's state and the effects of its handler that the page can observe. */
  class ProductTile {
    const product: Product
    var isAdding: bool
    /** The `addItem(product, price)` calls made on the cart store, oldest first. */
    var cartAdds: seq<(Product, int)>
    /** The paths passed to `router.push`, oldest first. */
    var navigations: seq<string>
    /** The error toasts shown, oldest first. */
    var toasts: seq<string>

    constructor (product: Product)
      ensures this.product == product
      ensures !isAdding && cartAdds == [] && navigations == [] && toasts == []
    {
      this.product := product;
      isAdding := false;
      cartAdds, navigations, toasts := [], [], [];
    }

    /**
     * `handleAddToCart`, given the session's user and the rate store the
     * tile was rendered with. Without a user the tile shows a toast and
     * redirects to /login, and neither the cart nor `isAdding` changes.
     * With a user it sets `isAdding` and adds the product once, at the price
     * the tile displays.
     */
    method HandleAddToCart(user: Option<AuthUser>, store: MetalRatesState)
      modifies this
      ensures user.None? ==>
        && isAdding == old(isAdding) && cartAdds == old(cartAdds)
        && navigations == old(navigations) + ["/login"]
        && toasts == old(toasts) + ["Please login to add items to cart"]
      ensures user.Some? ==>
        && isAdding
        && cartAdds == old(cartAdds) + [(product, DisplayedPrice(product, store.rates))]
        && navigations == old(navigations) && toasts == old(toasts)
    {
      if user.None? {
        toasts := toasts + ["Please login to add items to cart"];
        navigations := navigations + ["/login"];
        return;
      }
      var total := CalculateProductPrice(product, store.GetRate(product.metal_type, product.purity)).total;
      isAdding := true;
      cartAdds := cartAdds + [(product, total)];
    }
  }
}
