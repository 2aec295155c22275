/** The ValueError the iterative generators raise for an index outside 3 < n < 100. */
module Validation {

  /** A raised `ValueError`, with the text it is raised with. */
  datatype Error = ValueError(message: string)

  datatype Result<T> = Ok(value: T) | Err(error: Error)

  /** The message both iterative generators raise: "n must be a positive integer greater than 3 and less than 100". */
  const RangeMessage: string := "n은 3보다 크고 100보다 작은 양의 정수여야 한다"

  /** The range guard of both iterative generators, `n <= 3 or n >= 100`: it refuses exactly the
      indices outside the open interval the message names. */
  function OutOfRange(n: int): (refused: bool)
    ensures !refused <==> 3 < n < 100
  {
    n <= 3 || n >= 100
  }
}
