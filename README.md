# fastchess UCI engine adapter, modelled in Dafny

This project models `UciEngine`, the object through which fastchess talks to a
chess engine over the UCI text protocol. It covers three parts.

1. **Command building.** `buildPositionInput` writes `position startpos|fen <fen> [moves ...]`.
   `buildGoInput` writes `go` with the node and ply limits and either `movetime`
   or the two clocks, the two increments and `movestogo`. `sendSetoption`
   writes `setoption name <n> value <v>`.
2. **Reading the transcript.** `readEngine` replaces the stored output lines.
   `bestmove` takes the move after `bestmove` on the last line. `lastInfo`
   splits the line before it. `lastScoreType` and `lastScore` read the score
   kind and value from that info line.
3. **The handshake.** `isResponsive` sends `isready` and waits for `readyok`.
   `sendUciNewGame` sends `ucinewgame`. `startEngine` launches the engine,
   sends `uci`, waits for `uciok`, falls back to a 60-second readiness probe,
   and then sends every configured option in order.

Layout:

- `wrappers.dfy` holds `Option`, `Result` and `Outcome`.
- `str_utils.dfy` (module `StrUtils`) covers splitting on spaces, joining with
  single spaces, the token after a key (`findElement`), printing integers in
  decimal, and `std::stoi`.
- `uci_types.dfy` holds the configuration, time control, colour and error
  values.
- `uci_commands.dfy` (module `UciCommands`) describes each command as a list of
  tokens. It proves what an engine reading that list finds in it.
- `uci_transcript.dfy` (module `UciTranscript`) models the four parsing
  functions as functions over the output lines.
- `uci_engine.dfy` (module `Uci`) holds the class `UciEngine`. Its `output`,
  `timedOut` and `alive` fields are updated in place by its methods. Its ghost
  `log` records every launch, write and read the adapter asks of the process.
  - The build methods are proved equal to the joined token lists of
    `UciCommands`.
  - The handshake methods are proved to produce exactly `HandshakeOutcome` and
    `HandshakeLog`.

The process channel is abstract:

- A write succeeds exactly while `alive` holds, and appends `Wrote(line + "\n")`
  to the log.
- Every read takes a `Reply` argument. The argument is either the lines
  received, together with whether the deadline passed first, or `Broken`.
- Exceptions become `Result`/`Outcome` values:
  - a broken channel gives `Disconnected`;
  - the handshake `runtime_error` gives `HandshakeFailure`;
  - a missing `bestmove` and an unparsable score give `MalformedResponse`.

Where the design description and the code disagree, the model follows the code:

- **Default score kind.** The default kind is the token `cp`, as in
  `lastScoreType` (uci_engine.cpp:142), not "centipawn".
- **Unparsable score.** `lastScore` (uci_engine.cpp:146) reads the token after
  the kind with `findElement<int>` and falls back to 0 only when no such token
  exists. `findElement<int>` is not part of this model. It is taken to convert
  the token with `std::stoi`, which throws on a token that is not a number or
  is out of range. Under that assumption the model returns `MalformedResponse`
  for such a token, rather than 0 as the design description's default
  suggests. It gives 0 only when the kind is absent or is the last token.
- **No score token.** When there is no `score` token, `lastScore` looks for the
  token after `cp` anywhere on the info line, and so does the model.

## Model

| member | source | states |
|---|---|---|
| UciCommands.PositionStartsWith | src/engines/uci_engine.cpp:35 | the command starts with `position startpos` for the keyword `startpos`, and otherwise with `position fen ` followed by the FEN given |
| UciCommands.PositionCommandTokens | src/engines/uci_engine.cpp:33-45 | an engine splitting the command reads the head words (the FEN's own fields), then `moves` and every move in order when there are moves |
| UciCommands.PositionWithoutMoves | src/engines/uci_engine.cpp:37-42 | with an empty move list no `moves` token is sent |
| UciCommands.PositionMovesTail | src/engines/uci_engine.cpp:37-42 | with moves, everything after the first `moves` token is exactly the move list, in order (a round trip of the move history) |
| Uci.UciEngine.BuildPositionInput | src/engines/uci_engine.cpp:33-45 | the string built by appending `" " + move` in a loop equals the position tokens joined by single spaces |
| UciCommands.GoCommandShape | src/engines/uci_engine.cpp:47-77 | the command is `go` followed by keyword/number pairs in the fixed order nodes, depth, movetime, wtime, btime, winc, binc, movestogo, each at most once |
| UciCommands.GoCommandRoundTrip | src/engines/uci_engine.cpp:47-77 | splitting the command gives back exactly its tokens |
| UciCommands.GoNodesField | src/engines/uci_engine.cpp:52 | `nodes` appears iff the node limit is non-zero, and is then followed by that limit |
| UciCommands.GoDepthField | src/engines/uci_engine.cpp:54 | `depth` appears iff the ply limit is non-zero, and is then followed by that limit |
| UciCommands.GoMoveTime | src/engines/uci_engine.cpp:57-58 | a non-zero fixed time is sent as `movetime` followed by that time |
| UciCommands.GoFixedTimeExcludesClock | src/engines/uci_engine.cpp:56-74 | with a fixed time, none of wtime, btime, winc, binc, movestogo is sent |
| UciCommands.GoNoMoveTime | src/engines/uci_engine.cpp:59-74 | without a fixed time, no `movetime` is sent |
| UciCommands.GoTimeFields | src/engines/uci_engine.cpp:60-65 | without a fixed time, wtime and btime appear iff the mover's time is non-zero; White's value is from the mover's clock when White moves and from the opponent's otherwise, and Black's the other way round |
| UciCommands.GoIncrementFields | src/engines/uci_engine.cpp:60-69 | without a fixed time, winc and binc appear iff the mover's increment is non-zero, with values mapped to the colours like the times |
| UciCommands.GoMovesToGoField | src/engines/uci_engine.cpp:71-73 | without a fixed time, `movestogo` appears iff the mover's clock sets it, and is then followed by it |
| UciCommands.GoExampleBlackToMove | src/engines/uci_engine.cpp:60-69 | Black to move with 60000 ms and a 1000 ms increment gives `go wtime <opponent's time> btime 60000 winc <opponent's increment> binc 1000`, with no movestogo |
| Uci.UciEngine.BuildGoInput | src/engines/uci_engine.cpp:47-77 | the string streamed field by field equals the go tokens joined by single spaces |
| UciCommands.SetoptionWords | src/engines/uci_engine.cpp:83-85 | the engine reads `setoption name`, the name's words, `value`, the value's words |
| UciCommands.SetoptionFields | src/engines/uci_engine.cpp:83-85 | for a one-word name other than `value` and a one-word value, the tokens after `name` and after `value` are that name and that value |
| Uci.UciEngine.SendSetoption | src/engines/uci_engine.cpp:83-85 | a running engine receives the setoption line and a newline; a stopped one is reported disconnected and receives nothing |
| UciTranscript.BestMove | src/engines/uci_engine.cpp:131-135 | the move is one space-free token, and the only failure is a malformed reply |
| UciTranscript.BestMoveReply | src/engines/uci_engine.cpp:131-135 | a last line `... bestmove m ...` with no earlier `bestmove` yields exactly m |
| UciTranscript.BestMoveMissing | src/engines/uci_engine.cpp:131-135 | a last line without `bestmove` followed by a token is a malformed reply |
| UciTranscript.LastInfo | src/engines/uci_engine.cpp:137-139 | the info tokens are non-empty and space-free, and joined with single spaces they give back the second-to-last line |
| UciTranscript.LastScoreType | src/engines/uci_engine.cpp:141-143 | the kind is a single space-free token |
| UciTranscript.NoScoreKind | src/engines/uci_engine.cpp:141-143 | an info line without `score` gives the kind `cp` |
| UciTranscript.LastScore | src/engines/uci_engine.cpp:145-147 | a score is a 32-bit integer, and the only failure is a malformed reply |
| UciTranscript.InfoScore | src/engines/uci_engine.cpp:141-147 | an info line `... score kind v ...` gives the kind and the value v back, for every 32-bit v (print-then-parse round trip) |
| UciTranscript.NoScoreValue | src/engines/uci_engine.cpp:145-147 | an info line without `score` and without `cp` gives 0, not an error |
| UciTranscript.ScoreNotANumber | src/engines/uci_engine.cpp:145-147 | a kind followed by a token that is not a 32-bit integer gives a malformed reply |
| UciTranscript.ExampleReply | src/engines/uci_engine.cpp:131-147 | the reply `info depth 10 score cp 34` then `bestmove e2e4` gives the kind `cp`, the score 34 and the move `e2e4` |
| StrUtils.JoinSplit | src/engines/uci_engine.cpp:138 | joining the pieces of a split line gives the line back |
| StrUtils.StoIRoundTrip | src/engines/uci_engine.cpp:146 | every 32-bit integer printed in decimal parses back to itself |
| Uci.UciEngine.WriteEngine | src/engines/uci_engine.cpp:120-129 | a running engine receives the input and a newline; otherwise the write fails as a disconnection and nothing is sent |
| Uci.UciEngine.ReadEngine | src/engines/uci_engine.cpp:106-118 | the transcript is replaced (never appended to) by the lines read, and the timeout flag is set from the read; a broken channel leaves the transcript empty and is reported |
| Uci.UciEngine.IsResponsive | src/engines/uci_engine.cpp:13-19 | a stopped engine is unresponsive, and nothing is sent or changed; otherwise `isready` is written and `readyok` awaited with the given threshold; the result is whether the read finished in time, and the transcript and timeout flag are those of that read (empty after a broken channel) |
| Uci.UciEngine.SendUciNewGame | src/engines/uci_engine.cpp:21-24 | `ucinewgame` is written, then the readiness probe with the engine's ping time decides the result and sets the transcript and timeout flag; a stopped engine is reported disconnected and keeps both |
| Uci.UciEngine.SendUci | src/engines/uci_engine.cpp:26 | `uci` is written to a running engine |
| Uci.UciEngine.ReadUci | src/engines/uci_engine.cpp:28-31 | `uciok` is awaited with the default threshold; the result is whether it came in time, and the transcript and timeout flag become the reply's lines and flag (empty after a broken channel) |
| Uci.UciEngine.InitProcess | src/engines/uci_engine.cpp:93 | the process for `dir + cmd` is launched under the engine's name and is alive afterwards |
| Uci.UciEngine.StartEngine | src/engines/uci_engine.cpp:92-104 | the result and the exact sequence of launches, writes and reads are those of `HandshakeOutcome` and `HandshakeLog`; the transcript and timeout flag are those `LastTranscript` gives for the last read |
| Uci.UciEngine.SendOptions | src/engines/uci_engine.cpp:101-103 | the running engine receives one setoption write per configured option, in configuration order |
| Uci.LastTranscript | src/engines/uci_engine.cpp:95-99 | after an in-time `uciok` the transcript is that reply with the flag cleared; after a timed-out `uciok` it is what the readiness probe read, with the flag still set when the probe's channel broke; a broken `uciok` read leaves it empty |
| Uci.HandshakeFailureIff | src/engines/uci_engine.cpp:97-99 | the handshake fails for lack of an answer exactly when both the `uciok` read and the readiness probe time out |
| Uci.HandshakeWithUciOk | src/engines/uci_engine.cpp:95-103 | an in-time `uciok` skips the readiness probe and is followed directly by the options |
| Uci.HandshakeOptions | src/engines/uci_engine.cpp:97-103 | a successful handshake ends with one setoption write per configured option, in configuration order; a failed one's log is exactly the launch, `uci`, the `uciok` wait and the probe when there was one, so no option is sent |
| Uci.SetoptionWriteAt | src/engines/uci_engine.cpp:101-103 | the i-th option write is the setoption line of the i-th configured option |

## Left out

- `getConfig` and `loadConfig`: the configuration is a constant field of the class, and replacing it is not modelled.
- `sendQuit` and `restartEngine`: shutdown and restart of the process are not part of this model.
- `output` and `timedout`: these accessors are the fields `output` and `timedOut` themselves.
- Process plumbing (`initProcess`, `readProcess`, `writeProcess`, `isAlive`, `killProcess`) is an abstract channel:
  - a read's outcome is a parameter;
  - `alive` changes only at launch, so a process that exits on its own between two calls is not modelled;
  - a launch that fails is not modelled.
- Logging of disconnections is left out, because it has no effect on the adapter's state.
- Deadlines and clocks: the timeout of a read is whatever the `Reply` parameter says. No time passes in the model.
- `str_utils::splitString` and `str_utils::findElement` are not part of this model. Their behaviour is taken as:
  - a split on every single space, with empty pieces kept;
  - the token after the first occurrence of the key.
  - A key that is the last token gives "absent" here, where the C++ would read past the end.
  - `findElement<int>` converts the token with `std::stoi`. A token that is not a number or is out of range throws, which the model reports as `MalformedResponse`.
- StrUtils.StoI: leading whitespace other than a space (tabs, newlines) is not skipped as `std::stoi` would, because tokens come from a split on spaces.
- Integer widths: limits, times and thresholds are unbounded integers, printed exactly. Only the parsed score is bounded, to a 32-bit `int`.
- `options.h` is not part of this model.
- The `startsWith` helper is not part of this model, because the adapter does not call it. The test that `startsWith(s, "")` is false therefore has no counterpart here.
- The match and scheduler layers that drive the adapter are not part of this model.
