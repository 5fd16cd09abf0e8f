/** CheckoutOrderService: pay for one's own pending order. */
module CheckoutOrder {
  import opened Outcomes
  import opened Text
  import opened Statuses
  import Orders
  import Repositories
  import GetOrder

  class CheckoutOrderService {
    const orderRepository: Repositories.OrderRepository

    constructor (orderRepository: Repositories.OrderRepository)
      ensures this.orderRepository == orderRepository
    {
      this.orderRepository := orderRepository;
    }

    /**
     * `execute($orderId, $customerId)`: the same access guards as GetOrder, then `pay`,
     * then `save`. Any refusal leaves every order as it was and saves nothing; success
     * marks that one order paid and saves it once.
     */
    method Execute(orderId: int, customerId: string) returns (r: Result<Orders.Order>)
      modifies orderRepository`saved, orderRepository.orders.Values
      ensures var access := old(GetOrder.Execute(orderRepository, orderId, customerId));
              access.Err? ==> r == access && orderRepository.saved == old(orderRepository.saved)
                              && unchanged(orderRepository.orders.Values)
      ensures var access := old(GetOrder.Execute(orderRepository, orderId, customerId));
              access.Ok? ==>
                var order := access.value;
                var refusal := old(Orders.PayRefusal(order.status, |order.items|, order.total));
                && order.items == old(order.items) && order.total == old(order.total)
                && (forall o | o in old(orderRepository.orders.Values) && o != order :: unchanged(o))
                && (refusal.Some? ==> r == Err(refusal.value) && order.status == old(order.status)
                                      && orderRepository.saved == old(orderRepository.saved))
                && (refusal.None? ==> r == Ok(order) && order.status == Paid
                                      && orderRepository.saved == old(orderRepository.saved) + [order])
    {
      if IsBlank(customerId) {
        return Err(GetOrder.CustomerIdRequired);
      }
      if orderId !in orderRepository.orders {
        return Err(OrderNotFound);
      }
      var order := orderRepository.orders[orderId];
      if order.customerId != customerId {
        return Err(ForbiddenOrderAccess);
      }
      var paid := order.Pay();
      if paid.Fail? {
        return Err(paid.error);
      }
      orderRepository.Save(order);
      return Ok(order);
    }
  }
}
