/** The values the UCI adapter works with. */
module UciTypes {

  /** Side to move. */
  datatype Color = White | Black

  /**
   * One side's clock: moves to go, remaining time, increment and fixed time per
   * move, in milliseconds where they are times. A zero field is "not set".
   */
  datatype TimeControl = TimeControl(moves: int, time: int, increment: int, fixedTime: int)

  /** Search limits configured for an engine; zero means "no limit". */
  datatype Limit = Limit(nodes: int, plies: int)

  /**
   * How to launch an engine and what to send it: its options are name/value
   * pairs kept in the order they were configured.
   */
  datatype EngineConfiguration = EngineConfiguration(
    name: string,
    dir: string,
    cmd: string,
    options: seq<(string, string)>,
    limit: Limit)

  /** The failures the adapter reports instead of throwing. */
  datatype UciError =
    | MalformedResponse   // an expected token is missing or unreadable
    | HandshakeFailure    // neither "uciok" nor the readiness probe arrived in time
    | Disconnected        // the engine process cannot be written to or read from
}
