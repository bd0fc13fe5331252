/**
 * The UCI adapter of one engine process: it builds the command lines, keeps
 * the transcript of the last read and runs the start-up handshake. The
 * process channel is abstract: a write succeeds exactly while the process is
 * alive, and every read is answered by a `Reply` the caller supplies, which
 * stands for whatever the engine sends before the marker or the deadline.
 */
module Uci {
  import opened Wrappers
  import opened StrUtils
  import opened UciTypes
  import opened UciCommands

  /** What the adapter has asked of the process channel, in order. */
  datatype Event =
    | Launched(command: string, name: string)
    | Wrote(line: string)
    | Awaited(marker: string, threshold: int)

  /**
   * The answer to one read: the lines received up to the marker and whether the
   * deadline passed first, or a channel that broke while reading.
   */
  datatype Reply = Lines(lines: seq<string>, timedOut: bool) | Broken

  /** The deadline of the readiness probe that stands in for a missing "uciok", in milliseconds. */
  const FallbackPingTime: int := 60000

  /** The line the channel receives for a command: the command and a newline. */
  function Line(command: string): string
  {
    command + "\n"
  }

  /** The writes of one setoption command per configured option, in configuration order. */
  function SetoptionWrites(options: seq<(string, string)>): (w: seq<Event>)
    ensures |w| == |options|
  {
    if options == [] then []
    else
      var (name, value) := options[|options| - 1];
      SetoptionWrites(options[..|options| - 1]) + [Wrote(Line(SetoptionLine(name, value)))]
  }

  /** The i-th write of the options is the setoption line of the i-th option. */
  lemma {:induction false} SetoptionWriteAt(options: seq<(string, string)>, i: nat)
    requires i < |options|
    ensures SetoptionWrites(options)[i] == Wrote(Line(SetoptionLine(options[i].0, options[i].1)))
  {
    if i < |options| - 1 {
      SetoptionWriteAt(options[..|options| - 1], i);
    }
  }

  /** The probe that follows an "isready" write: it waits for "readyok". */
  function Probe(threshold: int): seq<Event>
  {
    [Wrote(Line("isready")), Awaited("readyok", threshold)]
  }

  /** Whether a reply arrived before its deadline, or the channel broke. */
  function InTime(reply: Reply): Result<bool, UciError>
  {
    match reply
    case Lines(_, timedOut) => Ok(!timedOut)
    case Broken => Err(Disconnected)
  }

  /**
   * How the handshake ends: it fails when the channel breaks, and when neither
   * "uciok" nor, after it, the readiness probe arrives in time.
   */
  function HandshakeOutcome(uciReply: Reply, readyReply: Reply): Outcome<UciError>
  {
    match InTime(uciReply)
    case Err(e) => Fail(e)
    case Ok(true) => Pass
    case Ok(false) =>
      match InTime(readyReply)
      case Err(e) => Fail(e)
      case Ok(true) => Pass
      case Ok(false) => Fail(HandshakeFailure)
  }

  /** Launching the configured command, announcing UCI and waiting for "uciok". */
  function HandshakeStart(config: EngineConfiguration, readTimeout: int): seq<Event>
  {
    [Launched(config.dir + config.cmd, config.name), Wrote(Line("uci")), Awaited("uciok", readTimeout)]
  }

  /** Everything the handshake asks of the channel, for each way the two reads can go. */
  function HandshakeLog(config: EngineConfiguration, readTimeout: int, uciReply: Reply, readyReply: Reply): seq<Event>
  {
    var start := HandshakeStart(config, readTimeout);
    var probe := if uciReply.Lines? && uciReply.timedOut then Probe(FallbackPingTime) else [];
    var options := if HandshakeOutcome(uciReply, readyReply).Pass? then SetoptionWrites(config.options) else [];
    start + probe + options
  }

  /** The transcript and timeout flag one read leaves behind, given the flag before it. */
  function AfterRead(timedOut: bool, reply: Reply): (seq<string>, bool)
  {
    match reply
    case Lines(lines, late) => (lines, late)
    case Broken => ([], timedOut)
  }

  /**
   * The transcript and flag the handshake leaves: those of the readiness probe
   * when "uciok" timed out, and those of the wait for "uciok" otherwise.
   */
  function LastTranscript(timedOut: bool, uciReply: Reply, readyReply: Reply): (t: (seq<string>, bool))
    ensures uciReply.Lines? && !uciReply.timedOut ==> t == (uciReply.lines, false)
    ensures uciReply.Broken? ==> t == ([], timedOut)
    ensures uciReply.Lines? && uciReply.timedOut ==>
      (readyReply.Lines? ==> t == (readyReply.lines, readyReply.timedOut)) &&
      (readyReply.Broken? ==> t == ([], true))
  {
    var afterUci := AfterRead(timedOut, uciReply);
    if uciReply.Lines? && uciReply.timedOut then AfterRead(afterUci.1, readyReply) else afterUci
  }

  lemma HandshakeLogFailed(config: EngineConfiguration, readTimeout: int, uciReply: Reply, readyReply: Reply)
    requires HandshakeOutcome(uciReply, readyReply).Fail?
    ensures HandshakeLog(config, readTimeout, uciReply, readyReply) ==
      HandshakeStart(config, readTimeout) + (if uciReply.Lines? && uciReply.timedOut then Probe(FallbackPingTime) else [])
  {
    AppendNil(HandshakeStart(config, readTimeout) + (if uciReply.Lines? && uciReply.timedOut then Probe(FallbackPingTime) else []));
  }

  lemma HandshakeLogPassed(config: EngineConfiguration, readTimeout: int, uciReply: Reply, readyReply: Reply)
    requires HandshakeOutcome(uciReply, readyReply).Pass?
    ensures HandshakeLog(config, readTimeout, uciReply, readyReply) ==
      HandshakeStart(config, readTimeout) + (if uciReply.Lines? && uciReply.timedOut then Probe(FallbackPingTime) else [])
      + SetoptionWrites(config.options)
  {
  }

  /** The handshake fails for lack of an answer exactly when both reads time out. */
  lemma HandshakeFailureIff(uciReply: Reply, readyReply: Reply)
    ensures HandshakeOutcome(uciReply, readyReply) == Fail(HandshakeFailure) <==>
      uciReply.Lines? && uciReply.timedOut && readyReply.Lines? && readyReply.timedOut
  {
  }

  /** An in-time "uciok" skips the readiness probe and sends the options straight after it. */
  lemma HandshakeWithUciOk(config: EngineConfiguration, readTimeout: int, lines: seq<string>, readyReply: Reply)
    ensures HandshakeOutcome(Lines(lines, false), readyReply) == Pass
    ensures HandshakeLog(config, readTimeout, Lines(lines, false), readyReply) ==
      [Launched(config.dir + config.cmd, config.name), Wrote(Line("uci")), Awaited("uciok", readTimeout)]
      + SetoptionWrites(config.options)
  {
    assert HandshakeLog(config, readTimeout, Lines(lines, false), readyReply) ==
      [Launched(config.dir + config.cmd, config.name), Wrote(Line("uci")), Awaited("uciok", readTimeout)]
      + [] + SetoptionWrites(config.options);
  }

  /**
   * A successful handshake ends with one setoption write per configured option,
   * in configuration order; a failed one stops after the launch, "uci", the wait
   * for "uciok" and the probe when there was one, so it sends no option.
   */
  lemma HandshakeOptions(config: EngineConfiguration, readTimeout: int, uciReply: Reply, readyReply: Reply)
    ensures var log := HandshakeLog(config, readTimeout, uciReply, readyReply);
      var n := |config.options|;
      (HandshakeOutcome(uciReply, readyReply).Pass? ==>
        |log| >= n &&
        forall i :: 0 <= i < n ==>
          log[|log| - n + i] == Wrote(Line(SetoptionLine(config.options[i].0, config.options[i].1)))) &&
      (HandshakeOutcome(uciReply, readyReply).Fail? ==>
        log == HandshakeStart(config, readTimeout) + (if uciReply.Lines? && uciReply.timedOut then Probe(FallbackPingTime) else []))
  {
    var log := HandshakeLog(config, readTimeout, uciReply, readyReply);
    var n := |config.options|;
    if HandshakeOutcome(uciReply, readyReply).Pass? {
      var head := [Launched(config.dir + config.cmd, config.name), Wrote(Line("uci")), Awaited("uciok", readTimeout)]
        + (if uciReply.Lines? && uciReply.timedOut then Probe(FallbackPingTime) else []);
      assert log == head + SetoptionWrites(config.options);
      forall i | 0 <= i < n
        ensures log[|log| - n + i] == Wrote(Line(SetoptionLine(config.options[i].0, config.options[i].1)))
      {
        SetoptionWriteAt(config.options, i);
      }
    } else {
      HandshakeLogFailed(config, readTimeout, uciReply, readyReply);
    }
  }

  /** A keyword and its value appended to a token list extend its joined text by " key value". */
  lemma JoinPush(input: string, toks: seq<string>, key: string, keyText: string, value: string)
    requires toks != [] && input == Join(toks) && keyText == " " + key + " "
    ensures input + keyText + value == Join(toks + [key, value])
  {
    JoinAppend(toks, [key, value]);
    assert [key, value][1..] == [value];
    assert [value][1..] == [];
    assert SpacePrefixed([value]) == " " + value;
    assert SpacePrefixed([key, value]) == " " + key + " " + value;
  }

  /** Each keyword of the search command as it is written, with a space on either side. */
  lemma GoKeyTexts()
    ensures " nodes " == " " + "nodes" + " " && " depth " == " " + "depth" + " "
    ensures " movetime " == " " + "movetime" + " "
    ensures " wtime " == " " + "wtime" + " " && " btime " == " " + "btime" + " "
    ensures " winc " == " " + "winc" + " " && " binc " == " " + "binc" + " "
    ensures " movestogo " == " " + "movestogo" + " "
  {
  }

  /** A field that is present or absent extends the joined text accordingly. */
  lemma PushField(input: string, toks: seq<string>, key: string, keyText: string, value: string,
                  present: bool, field: seq<string>)
    requires toks != []
    requires input == Join(toks)
    requires keyText == " " + key + " "
    requires field == if present then [key, value] else []
    ensures (if present then input + keyText + value else input) == Join(toks + field)
  {
    if present {
      JoinPush(input, toks, key, keyText, value);
    } else {
      assert toks + field == toks;
    }
  }

  /** Two fields that are present or absent together extend the joined text accordingly. */
  lemma PushFieldPair(input: string, toks: seq<string>, k1: string, t1: string, v1: string,
                      k2: string, t2: string, v2: string, present: bool, fields: seq<string>)
    requires toks != [] && input == Join(toks) && t1 == " " + k1 + " " && t2 == " " + k2 + " "
    requires fields == if present then [k1, v1] + [k2, v2] else []
    ensures (if present then input + t1 + v1 + t2 + v2 else input) == Join(toks + fields)
  {
    if present {
      JoinPush(input, toks, k1, t1, v1);
      JoinPush(input + t1 + v1, toks + [k1, v1], k2, t2, v2);
      assert toks + [k1, v1] + [k2, v2] == toks + fields;
    } else {
      assert toks + fields == toks;
    }
  }

  /** A token appended to a token list extends its joined text by a space and the token. */
  lemma JoinPushOne(input: string, toks: seq<string>, t: string)
    requires toks != [] && input == Join(toks)
    ensures input + " " + t == Join(toks + [t])
  {
    JoinAppend(toks, [t]);
    assert [t][1..] == [];
  }

  /** The position command's opening words as text. */
  lemma PositionHeadText(fen: string)
    ensures Join(PositionHead(fen)) == if fen == "startpos" then "position startpos" else "position fen " + fen
  {
    if fen == "startpos" {
      assert PositionHead(fen)[1..] == ["startpos"];
      assert SpacePrefixed(["startpos"]) == " startpos";
    } else {
      assert PositionHead(fen)[1..] == ["fen", fen];
      assert ["fen", fen][1..] == [fen];
      assert SpacePrefixed([fen]) == " " + fen;
      assert SpacePrefixed(["fen", fen]) == " fen " + fen;
    }
  }

  /** The search command is the limit fields followed by the clock fields of one of two kinds. */
  lemma GoTokensParts(limit: Limit, stm: Color, tc: TimeControl, tc2: TimeControl)
    ensures GoTokens(limit, stm, tc, tc2) == ["go"] + NodesField(limit) + DepthField(limit) + ClockTokens(stm, tc, tc2)
    ensures tc.fixedTime != 0 ==> ClockTokens(stm, tc, tc2) == Field("movetime", tc.fixedTime)
    ensures tc.fixedTime == 0 ==>
      ClockTokens(stm, tc, tc2) == TimeFields(stm, tc, tc2) + IncrementFields(stm, tc, tc2) + MovesToGoField(tc)
  {
  }

  class UciEngine {
    const config: EngineConfiguration
    /** The deadline of the readiness probe after "ucinewgame". */
    const pingTime: int
    /** The deadline of a read that names none, such as the wait for "uciok". */
    const readTimeout: int
    /** The lines of the last read, in the order they arrived. */
    var output: seq<string>
    /** Whether the last read ended at its deadline rather than at its marker. */
    var timedOut: bool
    /** Whether the engine process is running. */
    var alive: bool
    ghost var log: seq<Event>

    constructor (config: EngineConfiguration, pingTime: int, readTimeout: int)
      ensures this.config == config && this.pingTime == pingTime && this.readTimeout == readTimeout
      ensures output == [] && !timedOut && !alive && log == []
    {
      this.config := config;
      this.pingTime := pingTime;
      this.readTimeout := readTimeout;
      output := [];
      timedOut := false;
      alive := false;
      log := [];
    }

    /** Launches the process that runs the configured command. */
    method InitProcess()
      modifies this`alive, this`log
      ensures alive && log == old(log) + [Launched(config.dir + config.cmd, config.name)]
    {
      alive := true;
      log := log + [Launched(config.dir + config.cmd, config.name)];
    }

    /** Writes one command line; a process that is not running cannot take it. */
    method WriteEngine(input: string) returns (r: Outcome<UciError>)
      modifies this`log
      ensures alive ==> r == Pass && log == old(log) + [Wrote(Line(input))]
      ensures !alive ==> r == Fail(Disconnected) && log == old(log)
    {
      if alive {
        log := log + [Wrote(Line(input))];
        r := Pass;
      } else {
        r := Fail(Disconnected);
      }
    }

    /**
     * Reads until `marker` or the deadline. The transcript is emptied first and
     * then replaced by the lines read, so a broken channel leaves it empty.
     */
    method ReadEngine(marker: string, threshold: int, reply: Reply) returns (r: Result<seq<string>, UciError>)
      modifies this`output, this`timedOut, this`log
      ensures log == old(log) + [Awaited(marker, threshold)]
      ensures reply.Lines? ==> r == Ok(reply.lines) && output == reply.lines && timedOut == reply.timedOut
      ensures reply.Broken? ==> r == Err(Disconnected) && output == [] && timedOut == old(timedOut)
    {
      output := [];
      log := log + [Awaited(marker, threshold)];
      match reply
      case Lines(lines, late) =>
        output := lines;
        timedOut := late;
        r := Ok(lines);
      case Broken =>
        r := Err(Disconnected);
    }

    /**
     * Pings a running engine and reports whether "readyok" came before the
     * deadline; an engine that is not running is not responsive, and is not written to.
     */
    method IsResponsive(threshold: int, reply: Reply) returns (r: Result<bool, UciError>)
      modifies this`output, this`timedOut, this`log
      ensures !alive ==> r == Ok(false) && log == old(log) && output == old(output) && timedOut == old(timedOut)
      ensures alive ==> r == InTime(reply) && log == old(log) + Probe(threshold)
      ensures alive && reply.Lines? ==> output == reply.lines && timedOut == reply.timedOut
      ensures alive && reply.Broken? ==> output == [] && timedOut == old(timedOut)
    {
      if !alive {
        return Ok(false);
      }
      var _ := WriteEngine("isready");
      var read := ReadEngine("readyok", threshold, reply);
      if read.Err? {
        return Err(read.error);
      }
      r := Ok(!timedOut);
    }

    /** Starts a new game and checks, within the ping time, that the engine is still there. */
    method SendUciNewGame(reply: Reply) returns (r: Result<bool, UciError>)
      modifies this`output, this`timedOut, this`log
      ensures !alive ==> r == Err(Disconnected) && log == old(log) && output == old(output) && timedOut == old(timedOut)
      ensures alive ==> r == InTime(reply) && log == old(log) + [Wrote(Line("ucinewgame"))] + Probe(pingTime)
      ensures alive && reply.Lines? ==> output == reply.lines && timedOut == reply.timedOut
      ensures alive && reply.Broken? ==> output == [] && timedOut == old(timedOut)
    {
      var w := WriteEngine("ucinewgame");
      if w.Fail? {
        return Err(w.error);
      }
      r := IsResponsive(pingTime, reply);
    }

    /** Announces the UCI protocol. */
    method SendUci() returns (r: Outcome<UciError>)
      modifies this`log
      ensures alive ==> r == Pass && log == old(log) + [Wrote(Line("uci"))]
      ensures !alive ==> r == Fail(Disconnected) && log == old(log)
    {
      r := WriteEngine("uci");
    }

    /** Waits for "uciok" and reports whether it came before the default deadline. */
    method ReadUci(reply: Reply) returns (r: Result<bool, UciError>)
      modifies this`output, this`timedOut, this`log
      ensures r == InTime(reply) && log == old(log) + [Awaited("uciok", readTimeout)]
      ensures reply.Lines? ==> output == reply.lines && timedOut == reply.timedOut
      ensures reply.Broken? ==> output == [] && timedOut == old(timedOut)
    {
      var read := ReadEngine("uciok", readTimeout, reply);
      if read.Err? {
        return Err(read.error);
      }
      r := Ok(!timedOut);
    }

    /** Sets one engine option. */
    method SendSetoption(name: string, value: string) returns (r: Outcome<UciError>)
      modifies this`log
      ensures alive ==> r == Pass && log == old(log) + [Wrote(Line(SetoptionLine(name, value)))]
      ensures !alive ==> r == Fail(Disconnected) && log == old(log)
    {
      r := WriteEngine(SetoptionLine(name, value));
    }

    /** Sends every configured option to the running engine, in configuration order. */
    method SendOptions()
      requires alive
      modifies this`log
      ensures log == old(log) + SetoptionWrites(config.options)
    {
      for i := 0 to |config.options|
        invariant log == old(log) + SetoptionWrites(config.options[..i])
      {
        var (name, value) := config.options[i];
        var _ := SendSetoption(name, value);
        assert config.options[..i + 1][..i] == config.options[..i];
      }
      assert config.options[..|config.options|] == config.options;
    }

    /**
     * Launches the engine and shakes hands: "uci", then "uciok" or, failing
     * that, a readiness probe with the long fallback deadline; on success every
     * configured option is sent, in order.
     */
    method StartEngine(uciReply: Reply, readyReply: Reply) returns (r: Outcome<UciError>)
      modifies this`output, this`timedOut, this`alive, this`log
      ensures alive
      ensures r == HandshakeOutcome(uciReply, readyReply)
      ensures log == old(log) + HandshakeLog(config, readTimeout, uciReply, readyReply)
      ensures (output, timedOut) == LastTranscript(old(timedOut), uciReply, readyReply)
    {
      ghost var start := HandshakeStart(config, readTimeout);
      InitProcess();
      var _ := SendUci();
      var uci := ReadUci(uciReply);
      Snoc3(old(log), start[0], start[1], start[2]);
      ghost var probe: seq<Event> := [];
      if uci.Err? {
        HandshakeLogFailed(config, readTimeout, uciReply, readyReply);
        AppendNil(start);
        return Fail(uci.error);
      }
      if !uci.value {
        var ready := IsResponsive(FallbackPingTime, readyReply);
        probe := Probe(FallbackPingTime);
        Assoc(old(log), start, probe);
        if ready.Err? {
          HandshakeLogFailed(config, readTimeout, uciReply, readyReply);
          return Fail(ready.error);
        }
        if !ready.value {
          HandshakeLogFailed(config, readTimeout, uciReply, readyReply);
          return Fail(HandshakeFailure);
        }
      } else {
        AppendNil(start);
      }
      SendOptions();
      HandshakeLogPassed(config, readTimeout, uciReply, readyReply);
      Assoc(old(log), start + probe, SetoptionWrites(config.options));
      r := Pass;
    }

    /** The position command: the start position or a FEN, then the moves played. */
    method BuildPositionInput(moves: seq<string>, fen: string) returns (position: string)
      ensures position == Join(PositionTokens(moves, fen))
    {
      position := if fen == "startpos" then "position startpos" else "position fen " + fen;
      ghost var toks := PositionHead(fen);
      PositionHeadText(fen);
      if moves != [] {
        JoinPushOne(position, toks, "moves");
        position := position + " moves";
        toks := toks + ["moves"];
        for i := 0 to |moves|
          invariant toks == PositionHead(fen) + ["moves"] + moves[..i]
          invariant position == Join(toks)
        {
          JoinPushOne(position, toks, moves[i]);
          position := position + " " + moves[i];
          toks := toks + [moves[i]];
          assert moves[..i + 1] == moves[..i] + [moves[i]];
        }
        assert moves[..|moves|] == moves;
        assert PositionTokens(moves, fen) == PositionHead(fen) + ["moves"] + moves;
      } else {
        assert PositionTokens(moves, fen) == PositionHead(fen);
      }
    }

    /**
     * The search command: the node and ply limits, then either the fixed move
     * time or the two clocks, the two increments and the moves to go.
     */
    method BuildGoInput(stm: Color, tc: TimeControl, tc2: TimeControl) returns (input: string)
      ensures input == Join(GoTokens(config.limit, stm, tc, tc2))
    {
      GoKeyTexts();
      input := "go";
      ghost var toks: seq<string> := ["go"];
      assert input == Join(toks);
      var nodes, plies := config.limit.nodes, config.limit.plies;
      PushField(input, toks, "nodes", " nodes ", IntToDecimal(nodes), nodes != 0, NodesField(config.limit));
      if nodes != 0 {
        input := input + " nodes " + IntToDecimal(nodes);
      }
      toks := toks + NodesField(config.limit);
      PushField(input, toks, "depth", " depth ", IntToDecimal(plies), plies != 0, DepthField(config.limit));
      if plies != 0 {
        input := input + " depth " + IntToDecimal(plies);
      }
      toks := toks + DepthField(config.limit);
      ghost var limits := toks;
      GoTokensParts(config.limit, stm, tc, tc2);
      if tc.fixedTime != 0 {
        PushField(input, toks, "movetime", " movetime ", IntToDecimal(tc.fixedTime), true, Field("movetime", tc.fixedTime));
        input := input + " movetime " + IntToDecimal(tc.fixedTime);
        toks := toks + Field("movetime", tc.fixedTime);
      } else {
        var white := if stm == White then tc else tc2;
        var black := if stm == White then tc2 else tc;
        PushFieldPair(input, toks, "wtime", " wtime ", IntToDecimal(white.time), "btime", " btime ", IntToDecimal(black.time),
                      tc.time != 0, TimeFields(stm, tc, tc2));
        if tc.time != 0 {
          input := input + " wtime " + IntToDecimal(white.time) + " btime " + IntToDecimal(black.time);
        }
        toks := toks + TimeFields(stm, tc, tc2);
        PushFieldPair(input, toks, "winc", " winc ", IntToDecimal(white.increment), "binc", " binc ", IntToDecimal(black.increment),
                      tc.increment != 0, IncrementFields(stm, tc, tc2));
        if tc.increment != 0 {
          input := input + " winc " + IntToDecimal(white.increment) + " binc " + IntToDecimal(black.increment);
        }
        toks := toks + IncrementFields(stm, tc, tc2);
        PushField(input, toks, "movestogo", " movestogo ", IntToDecimal(tc.moves), tc.moves != 0, MovesToGoField(tc));
        if tc.moves != 0 {
          input := input + " movestogo " + IntToDecimal(tc.moves);
        }
        toks := toks + MovesToGoField(tc);
        Assoc4(limits, TimeFields(stm, tc, tc2), IncrementFields(stm, tc, tc2), MovesToGoField(tc));
      }
    }
  }
}
