/** Values shared by both front ends of the number guesser: the try limit,
    a difficulty, and one line of player input. */
module Rules {

  datatype Option<T> = None | Some(value: T)

  /** The try limit of a game. Easy uses a floating-point infinity in the
      source; here it is the explicit case Unlimited. */
  datatype TryLimit = Finite(n: int) | Unlimited

  /** A difficulty: the secret lies in [1, rangeLimit] and at most maxTries
      numeric guesses are allowed. */
  datatype Difficulty = Difficulty(rangeLimit: int, maxTries: TryLimit)

  /** One line of input: either text that int() accepts, or text it rejects
      with a ValueError. */
  datatype RawGuess = Number(value: int) | Unparsable

  /** A difficulty a game can actually be played with: the secret can be drawn
      and a finite limit can be reached. */
  predicate Playable(d: Difficulty)
  {
    1 <= d.rangeLimit && (d.maxTries.Finite? ==> 1 <= d.maxTries.n)
  }
}
