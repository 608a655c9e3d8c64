/** The run configuration shared by every flow, and the joke policy they all apply. */
module AppConfig {

  /** How many cat jokes a review earns. */
  datatype JokeMode = NONE | DEFAULT | CHAOTIC

  /** The immutable input of one live run. */
  datatype ReviewConfig = ReviewConfig(pdfPath: string, jokeMode: JokeMode)

  /** A random draw of the CHAOTIC policy: randint(1, 3). */
  predicate ValidDraw(draw: int) {
    1 <= draw <= 3
  }

  /** Number of joke calls the policy makes for one review: none in NONE mode, one in
      DEFAULT mode when the review has issues, and the drawn count in CHAOTIC mode. */
  function JokeQuota(mode: JokeMode, hasIssues: bool, draw: int): nat
    requires mode == CHAOTIC ==> ValidDraw(draw)
  {
    match mode
    case CHAOTIC => draw
    case DEFAULT => if hasIssues then 1 else 0
    case NONE => 0
  }
}
