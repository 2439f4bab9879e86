/** The derived availability status of a product (calculate_product_status). */
module StockStatus {

  datatype Status = OutOfStock | LowStock | InStock

  /** The status string the source stores: 'out-of-stock', 'low-stock' or 'in-stock'. */
  function StatusName(s: Status): string {
    match s
    case OutOfStock => "out-of-stock"
    case LowStock => "low-stock"
    case InStock => "in-stock"
  }

  /**
   * Zero stock is out of stock whatever the threshold; a positive threshold at or
   * above the stock makes it low; a threshold of 0 switches low-stock alerting off.
   */
  function CalculateStatus(stock: int, lowStockAlert: int): (s: Status)
    ensures stock == 0 <==> s == OutOfStock
    ensures s == LowStock <==> stock != 0 && 0 < lowStockAlert && stock <= lowStockAlert
    ensures s == InStock <==> stock != 0 && (lowStockAlert <= 0 || lowStockAlert < stock)
  {
    if stock == 0 then OutOfStock
    else if lowStockAlert > 0 && stock <= lowStockAlert then LowStock
    else InStock
  }

  /** A threshold of 0 (or less) never yields low-stock, not even for a stock of 1. */
  lemma ZeroThresholdNeverLow(stock: int, lowStockAlert: int)
    requires lowStockAlert <= 0
    ensures CalculateStatus(stock, lowStockAlert) != LowStock
    ensures stock != 0 ==> CalculateStatus(stock, lowStockAlert) == InStock
  {
  }
}
