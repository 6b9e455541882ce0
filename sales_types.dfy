/** Records shared by the dashboard, its views and the splash widget, and the
    raw event the sales hub delivers. Money is kept in integer cents. */
module SalesTypes {

  datatype Option<+T> = None | Some(value: T)

  datatype User = User(id: int, name: string)

  /** unitPrice is in cents per month. */
  datatype Product = Product(id: int, name: string, unitPrice: int)

  /** A sale as announced by the hub: ids only, duration in months. */
  datatype RawEvent = RawEvent(userId: int, productId: int, duration: int)

  /** An enriched sale; value is in cents. */
  datatype Sale = Sale(id: int, user: User, product: Product, duration: int, value: int)

  /** One entry of the per-user totals record. */
  datatype TopSeller = TopSeller(user: User, total: int)

  /** Value of a sale in cents: unit price times the number of months. */
  function SaleValue(product: Product, duration: int): int
  {
    product.unitPrice * duration
  }
}
