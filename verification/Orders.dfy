/**
 * Building the order request from the freshly fetched cart, the selected
 * address and the product list.
 */
module Orders {
  import opened Wrappers
  import opened Amounts

  /** The cart as the cart service returns it; `cartId` may be missing. */
  datatype Cart = Cart(cartId: Option<int>)

  /** The selected delivery address; only its id enters the order. */
  datatype Address = Address(addressId: int)

  /** One line of an order request. */
  datatype OrderItem = OrderItem(itemId: int, quantity: int)

  /** The request sent to the order service. */
  datatype OrderRequest = OrderRequest(cartId: int, addressId: int, items: seq<OrderItem>)

  /** Why a request cannot be built. */
  datatype OrderError =
    | InvalidCart     // no cart, or a falsy cartId: 'Invalid cart or cartId'
    | MissingAddress  // no address selected: reading its addressId throws

  /** A cart is usable when it exists and its cartId is truthy (present and not 0). */
  predicate UsableCart(cart: Option<Cart>) {
    cart.Some? && cart.value.cartId.Some? && cart.value.cartId.value != 0
  }

  /** The order lines for the products, in the same order. */
  function ItemsOf(ps: seq<Product>): (r: seq<OrderItem>)
    ensures |r| == |ps|
    ensures forall i :: 0 <= i < |ps| ==> r[i].itemId == ps[i].id && r[i].quantity == ps[i].quantity
  {
    if ps == [] then [] else [OrderItem(ps[0].id, ps[0].quantity)] + ItemsOf(ps[1..])
  }

  /** The number of units over a list of products. */
  function UnitsOfProducts(ps: seq<Product>): int {
    if ps == [] then 0 else ps[0].quantity + UnitsOfProducts(ps[1..])
  }

  /** The number of units over a list of order lines. */
  function UnitsOfItems(items: seq<OrderItem>): int {
    if items == [] then 0 else items[0].quantity + UnitsOfItems(items[1..])
  }

  /** The order lines ask for exactly as many units as the product list holds. */
  lemma {:induction false} ItemsKeepUnits(ps: seq<Product>)
    ensures UnitsOfItems(ItemsOf(ps)) == UnitsOfProducts(ps)
  {
    if ps != [] {
      var items := ItemsOf(ps);
      assert items[1..] == ItemsOf(ps[1..]);
      ItemsKeepUnits(ps[1..]);
    }
  }

  /**
   * The order request: it fails when the cart is missing or has a falsy id,
   * and otherwise (given an address) takes the cart's id, the address's id
   * and one line per product.
   */
  function CreateOrderRequest(cart: Option<Cart>, address: Option<Address>, ps: seq<Product>)
    : (r: Result<OrderRequest, OrderError>)
    ensures r.Ok? <==> UsableCart(cart) && address.Some?
    ensures !UsableCart(cart) ==> r == Err(InvalidCart)
    ensures UsableCart(cart) && address.None? ==> r == Err(MissingAddress)
    ensures r.Ok? ==> r.value.cartId == cart.value.cartId.value && r.value.cartId != 0
    ensures r.Ok? ==> r.value.addressId == address.value.addressId
    ensures r.Ok? ==> |r.value.items| == |ps| &&
                      forall i :: 0 <= i < |ps| ==> r.value.items[i] == OrderItem(ps[i].id, ps[i].quantity)
  {
    if !UsableCart(cart) then Err(InvalidCart)
    else if address.None? then Err(MissingAddress)
    else Ok(OrderRequest(cart.value.cartId.value, address.value.addressId, ItemsOf(ps)))
  }

  /** The request from an empty product list has no lines. */
  lemma EmptyProductsGiveNoItems(cart: Option<Cart>, address: Option<Address>)
    requires UsableCart(cart) && address.Some?
    ensures CreateOrderRequest(cart, address, []).Ok?
    ensures CreateOrderRequest(cart, address, []).value.items == []
  {
  }

  /** A cart with id 0, a cart without id and no cart at all are all refused. */
  lemma FalsyCartsRefused(address: Option<Address>, ps: seq<Product>)
    ensures CreateOrderRequest(Some(Cart(Some(0))), address, ps) == Err(InvalidCart)
    ensures CreateOrderRequest(Some(Cart(None)), address, ps) == Err(InvalidCart)
    ensures CreateOrderRequest(None, address, ps) == Err(InvalidCart)
  {
  }
}
