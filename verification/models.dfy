/** Record shapes of the storefront (src/models/index.ts).
    Money is held in integer cents; quantities are integers and may go
    below one, since nothing in the cart code clamps them. */
module Models {
  import opened Wrappers

  /** IProduct: one catalogue entry. */
  datatype Product = Product(
    productId: int,
    name: string,
    description: string,
    price: int,
    category: string,
    image: string)

  /** ICartProduct: a product plus the quantity held in the cart. */
  datatype CartProduct = CartProduct(
    productId: int,
    name: string,
    description: string,
    price: int,
    category: string,
    image: string,
    quantity: int)

  /** ICartTotal. `installments` is declared by the interface but the
      object the cart builds never sets it, so it is optional here. */
  datatype CartTotal = CartTotal(
    productQuantity: int,
    installments: Option<int>,
    totalPrice: int,
    currencyId: string,
    currencyFormat: string)
}
