/** The application error-code bands. Both classifiers use the same if-chain:
    src/uzum_payments/connection.py:80-89 and src/uzum_payments/client.py:298-307. */
module Bands {
  import opened Exceptions

  /** The kind a numeric `errorCode` selects: the first of `>= 5000`, `>= 3000`,
      `>= 2000`, `>= 1000` that holds, else UnexpectedError. Each band is the
      half-open interval up to the next bound. */
  function CodeBand(n: int): (k: ErrorKind)
    ensures k == InternalError <==> 5000 <= n
    ensures k == PaymentErrors <==> 3000 <= n < 5000
    ensures k == ValidationError <==> 2000 <= n < 3000
    ensures k == AuthenticationError <==> 1000 <= n < 2000
    ensures k == UnexpectedError <==> n < 1000
  {
    if n >= 5000 then InternalError
    else if n >= 3000 then PaymentErrors
    else if n >= 2000 then ValidationError
    else if n >= 1000 then AuthenticationError
    else UnexpectedError
  }

  /** The position of a band from the bottom; kinds outside the bands rank -1. */
  function BandRank(k: ErrorKind): int {
    match k
    case UnexpectedError => 0
    case AuthenticationError => 1
    case ValidationError => 2
    case PaymentErrors => 3
    case InternalError => 4
    case _ => -1
  }

  /** A larger code never falls into a lower band. */
  lemma BandsMonotone(n: int, m: int)
    requires n <= m
    ensures 0 <= BandRank(CodeBand(n)) <= BandRank(CodeBand(m))
  {
  }
}
