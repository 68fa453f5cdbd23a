/**
  The records of the host's sale module that the delivery-date extension
  reads and writes, reduced to the attributes the extension uses.
 */
module SaleModel {
  import opened Wrappers

  /** A calendar date. The extension only stores, copies and compares dates. */
  type Date = int

  /** The `type` value of a sale line that stands for a product (not a title, subtotal or comment). */
  const LineKind: string := "line"

  /** Field and column names the extension refers to. */
  const RequestedField: string := "requested_delivery_date"
  const ShippingField: string := "shipping_date"
  const ManualField: string := "manual_delivery_date"
  const PlannedDateField: string := "planned_date"

  /**
    A sale line: its record id, its `type`, its product (a record id),
    its quantity (`None` when unset), the requested delivery date this
    extension adds, and the ids of the stock moves created from it.
   */
  datatype SaleLine = SaleLine(
    id: int,
    kind: string,
    product: Option<int>,
    quantity: Option<int>,
    requestedDeliveryDate: Option<Date>,
    moves: seq<int>)

  /** A sale order and its lines, in order. */
  datatype Sale = Sale(id: int, lines: seq<SaleLine>)

  /**
    The host's own `on_change_with_shipping_date` of a sale line, which the
    extension overrides and calls through `super()`. It is foreign code, so
    every operation that uses it takes it as a parameter.
   */
  type BaseShippingDate = SaleLine -> Option<Date>

  /** Every line of every sale, in sale-then-line order. */
  function AllLines(sales: seq<Sale>): (lines: seq<SaleLine>)
    ensures forall l :: l in lines <==> exists s :: s in sales && l in s.lines
  {
    if sales == [] then [] else AllLines(sales[..|sales| - 1]) + sales[|sales| - 1].lines
  }
}
