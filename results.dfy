/** Outcomes of the pricing operations: a value, or the exception the Python
    code would raise instead of returning one. */
module Results {

  /** The exceptions the modelled code can raise. */
  datatype Error =
    | InvalidOptionType  // ValueError: option type is neither 'call' nor 'put'
    | InvalidDirection   // ValueError: direction is neither 'long' nor 'short'
    | UnboundPayoff      // UnboundLocalError: no branch of calculate_payoff assigned `payoff`
    | EmptyStrikeList    // ValueError: min() of an empty list of strikes

  datatype Result<+T> = Ok(value: T) | Err(error: Error)

  /** Python's `a + b` where both operands are calls that may raise: the left
      operand is evaluated first, so its exception wins. */
  function AddResults(a: Result<real>, b: Result<real>): (r: Result<real>)
    ensures r.Ok? <==> a.Ok? && b.Ok?
    ensures r.Ok? ==> r.value == a.value + b.value
    ensures a.Err? ==> r == Err(a.error)
    ensures a.Ok? && b.Err? ==> r == Err(b.error)
  {
    match a
    case Err(e) => Err(e)
    case Ok(x) =>
      match b
      case Err(e) => Err(e)
      case Ok(y) => Ok(x + y)
  }
}
