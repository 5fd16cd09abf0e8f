/** The backed enum of order states and its display label. */
module Statuses {
  import opened Outcomes

  datatype OrderStatus = Pending | Paid | Cancelled | Failed {

    /** The backing string, as stored in the status column and sent by the API. */
    function Value(): (v: string)
      ensures |v| > 0
    {
      match this
      case Pending => "pending"
      case Paid => "paid"
      case Cancelled => "cancelled"
      case Failed => "failed"
    }

    /** `label()`: the backing string with its first letter capitalised. */
    function Label(): (l: string)
      ensures |l| == |Value()|
      ensures l[0] == Upper(Value()[0]) && l[1..] == Value()[1..]
    {
      match this
      case Pending => "Pending"
      case Paid => "Paid"
      case Cancelled => "Cancelled"
      case Failed => "Failed"
    }
  }

  function Upper(c: char): (u: char) {
    if 'a' <= c <= 'z' then (c as int - 32) as char else c
  }

  /** The backed enum's `tryFrom`: the case whose backing string is v, if any. */
  function TryFrom(v: string): (r: Option<OrderStatus>)
    ensures forall c: OrderStatus :: r == Some(c) <==> c.Value() == v
  {
    if v == "pending" then Some(Pending)
    else if v == "paid" then Some(Paid)
    else if v == "cancelled" then Some(Cancelled)
    else if v == "failed" then Some(Failed)
    else None
  }
}
