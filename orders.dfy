/** The WooCommerce order, reduced to the fields the EBANX code reads. */
module Orders {

  /**
   * `id` is the order's post id; `status` is the status without the "wc-"
   * prefix ("pending", "on-hold", ...); `total` is `get_total()`.
   */
  datatype Order = Order(
    id: nat,
    status: string,
    billingFirstName: string,
    billingLastName: string,
    billingEmail: string,
    billingCountry: string,
    paymentMethod: string,
    total: real)
}
