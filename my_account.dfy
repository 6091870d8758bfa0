/**
 * The My Account hooks (`WC_EBANX_My_Account`): the filter that adds a
 * "View Banking Ticket" action to an order in the My Orders list, and the
 * dispatch from an order's payment method to the gateway whose thank-you
 * page is shown on the order details page.
 */
module MyAccount {
  import opened Wrappers
  import opened Php
  import opened Orders

  /** One entry of the My Orders actions array. */
  datatype Action = Action(url: string, name: string)

  /** Post metadata, keyed by post id and meta key. */
  type PostMeta = map<(nat, string), string>

  const BankingTicketMethod := "ebanx-banking-ticket"
  const BankingTicketUrlKey := "Banking Ticket URL"
  const ViewBankingTicket := "View Banking Ticket"

  /** `get_post_meta($id, $key, true)`: the stored value, or "" when there is none. */
  function GetPostMeta(meta: PostMeta, id: nat, key: string): string {
    if (id, key) in meta then meta[(id, key)] else ""
  }

  /** The order is a banking-ticket order still awaiting payment. */
  predicate AwaitsBankingTicket(order: Order) {
    order.paymentMethod == BankingTicketMethod && order.status in ["pending", "on-hold"]
  }

  /**
   * `my_orders_banking_ticket_link`: the actions are returned unchanged unless
   * the order awaits a banking ticket payment and has a non-empty ticket URL;
   * then exactly one "View Banking Ticket" action for that URL is appended
   * after all the others.
   */
  function MyOrdersBankingTicketLink(actions: seq<Action>, order: Order, meta: PostMeta): (r: seq<Action>)
    ensures !AwaitsBankingTicket(order) ==> r == actions
    ensures Empty(GetPostMeta(meta, order.id, BankingTicketUrlKey)) ==> r == actions
    ensures r != actions <==>
      AwaitsBankingTicket(order) && !Empty(GetPostMeta(meta, order.id, BankingTicketUrlKey))
    ensures r != actions ==>
      |r| == |actions| + 1
      && r[..|actions|] == actions
      && r[|actions|] == Action(GetPostMeta(meta, order.id, BankingTicketUrlKey), ViewBankingTicket)
  {
    if AwaitsBankingTicket(order) then
      var url := GetPostMeta(meta, order.id, BankingTicketUrlKey);
      if !Empty(url) then actions + [Action(url, ViewBankingTicket)] else actions
    else actions
  }

  /** The eight gateways whose thank-you page `order_details` can show. */
  datatype Gateway = CreditCard | BankingTicket | Eft | Oxxo | Pagoefectivo | Safetypay | Servipag | Tef

  /** The payment-method id each gateway is registered under. */
  function MethodId(g: Gateway): string {
    match g
    case CreditCard => "ebanx-credit-card"
    case BankingTicket => "ebanx-banking-ticket"
    case Eft => "ebanx-eft"
    case Oxxo => "ebanx-oxxo"
    case Pagoefectivo => "ebanx-pagoefectivo"
    case Safetypay => "ebanx-safetypay"
    case Servipag => "ebanx-servipag"
    case Tef => "ebanx-tef"
  }

  /**
   * The `switch` of `order_details`: the gateway whose case label is the
   * payment method, or None when no label matches. It is the inverse of
   * `MethodId`.
   */
  function GatewayFor(paymentMethod: string): (r: Option<Gateway>)
    ensures r.Some? ==> MethodId(r.value) == paymentMethod
    ensures r.None? <==> forall g: Gateway :: MethodId(g) != paymentMethod
  {
    if paymentMethod == "ebanx-credit-card" then Some(CreditCard)
    else if paymentMethod == "ebanx-banking-ticket" then Some(BankingTicket)
    else if paymentMethod == "ebanx-eft" then Some(Eft)
    else if paymentMethod == "ebanx-oxxo" then Some(Oxxo)
    else if paymentMethod == "ebanx-pagoefectivo" then Some(Pagoefectivo)
    else if paymentMethod == "ebanx-safetypay" then Some(Safetypay)
    else if paymentMethod == "ebanx-servipag" then Some(Servipag)
    else if paymentMethod == "ebanx-tef" then Some(Tef)
    else None
  }

  /** The eight case labels are distinct, so every gateway is reached by its own id and by no other. */
  lemma GatewayForMethodId(g: Gateway, paymentMethod: string)
    ensures GatewayFor(MethodId(g)) == Some(g)
    ensures GatewayFor(paymentMethod) == Some(g) <==> paymentMethod == MethodId(g)
  {
  }

  /** A call of a gateway's static `thankyou_page` with an order id. */
  datatype ThankyouCall = ThankyouCall(gateway: Gateway, orderId: nat)

  /** The thank-you pages rendered so far, in order. */
  class ThankyouPages {
    var calls: seq<ThankyouCall>

    constructor ()
      ensures calls == []
    {
      calls := [];
    }

    method ThankyouPage(g: Gateway, orderId: nat)
      modifies this
      ensures calls == old(calls) + [ThankyouCall(g, orderId)]
    {
      calls := calls + [ThankyouCall(g, orderId)];
    }
  }

  /**
   * `order_details`: one thank-you page call, with the order id, for the
   * gateway the order's payment method names; none for any other method.
   */
  method OrderDetails(order: Order, pages: ThankyouPages)
    modifies pages
    ensures GatewayFor(order.paymentMethod).None? ==> pages.calls == old(pages.calls)
    ensures GatewayFor(order.paymentMethod).Some? ==>
      pages.calls == old(pages.calls) + [ThankyouCall(GatewayFor(order.paymentMethod).value, order.id)]
  {
    match order.paymentMethod {
      case "ebanx-credit-card" => pages.ThankyouPage(CreditCard, order.id);
      case "ebanx-banking-ticket" => pages.ThankyouPage(BankingTicket, order.id);
      case "ebanx-eft" => pages.ThankyouPage(Eft, order.id);
      case "ebanx-oxxo" => pages.ThankyouPage(Oxxo, order.id);
      case "ebanx-pagoefectivo" => pages.ThankyouPage(Pagoefectivo, order.id);
      case "ebanx-safetypay" => pages.ThankyouPage(Safetypay, order.id);
      case "ebanx-servipag" => pages.ThankyouPage(Servipag, order.id);
      case "ebanx-tef" => pages.ThankyouPage(Tef, order.id);
      case _ =>
    }
  }
}
