/** The ways the location record and the analyzer can refuse a request.
    The program raises `ValueError` for all but the last, with a message
    naming the case; the model keeps the cases apart. */
module WellnessErrors {

  datatype Error =
    | UnknownFactor(factor: string)
    | InvalidScore(score: real)
    | UnknownCategory(category: string)
    | AmbiguousSelector
      /** Averaging found recorded values but none of them positive, which
          only a record breaking the score-range invariant can hold. */
    | DivisionByZero
}
