/** GetOrderService: look an order up on behalf of a customer. */
module GetOrder {
  import opened Outcomes
  import opened Text
  import Orders
  import Repositories

  const CustomerIdRequired := InvalidArgument("Customer ID is required")

  /**
   * `execute($orderId, $customerId)`: refuses a blank customer id, then a missing order,
   * then an order owned by someone else; otherwise returns the stored order object itself.
   * Only the owner, named exactly, ever gets an order back.
   */
  function Execute(repository: Repositories.OrderRepository, orderId: int, customerId: string): (r: Result<Orders.Order>)
    reads repository
    ensures r.Ok? <==> !IsBlank(customerId) && orderId in repository.orders
                       && repository.orders[orderId].customerId == customerId
    ensures r.Ok? ==> r.value == repository.orders[orderId] && r.value.customerId == customerId
    ensures IsBlank(customerId) ==> r == Err(CustomerIdRequired)
    ensures !IsBlank(customerId) && orderId !in repository.orders ==> r == Err(OrderNotFound)
    ensures (!IsBlank(customerId) && orderId in repository.orders
             && repository.orders[orderId].customerId != customerId) ==> r == Err(ForbiddenOrderAccess)
  {
    if IsBlank(customerId) then Err(CustomerIdRequired)
    else if orderId !in repository.orders then Err(OrderNotFound)
    else
      var order := repository.orders[orderId];
      if order.customerId != customerId then Err(ForbiddenOrderAccess)
      else Ok(order)
  }
}
