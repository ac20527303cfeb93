/** The customer-facing order status of the storefront
    (frontend-leptos/src/types/order.rs) and its two renderings. */
module OrderTypes {

  datatype OrderStatus = Pending | Processing | Shipped | Delivered | Cancelled

  function Label(s: OrderStatus): string {
    match s
    case Pending => "Pending"
    case Processing => "Processing"
    case Shipped => "Shipped"
    case Delivered => "Delivered"
    case Cancelled => "Cancelled"
  }

  function BadgeClass(s: OrderStatus): string {
    match s
    case Pending => "badge"
    case Processing => "badge-primary"
    case Shipped => "badge-info"
    case Delivered => "badge-success"
    case Cancelled => "badge-error"
  }

  /** No two statuses share a label. */
  lemma LabelInjective(a: OrderStatus, b: OrderStatus)
    ensures Label(a) == Label(b) <==> a == b
  {
    match a
    case Pending => assert Label(a)[0] == 'P' && Label(a)[1] == 'e';
    case Processing => assert Label(a)[0] == 'P' && Label(a)[1] == 'r';
    case Shipped => assert Label(a)[0] == 'S';
    case Delivered => assert Label(a)[0] == 'D';
    case Cancelled => assert Label(a)[0] == 'C';
  }

  /** No two statuses share a badge class, and every class is "badge" or
      starts with "badge-". */
  lemma BadgeClassInjective(a: OrderStatus, b: OrderStatus)
    ensures BadgeClass(a) == BadgeClass(b) <==> a == b
    ensures BadgeClass(a) == "badge" || BadgeClass(a)[..6] == "badge-"
  {
    match a
    case Pending => assert |BadgeClass(a)| == 5;
    case Processing => assert BadgeClass(a)[6] == 'p';
    case Shipped => assert BadgeClass(a)[6] == 'i';
    case Delivered => assert BadgeClass(a)[6] == 's';
    case Cancelled => assert BadgeClass(a)[6] == 'e';
  }
}
