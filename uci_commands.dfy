/**
 * The commands the adapter sends to an engine, as lists of tokens joined by
 * single spaces: `position`, `go` and `setoption`. The engine class builds the
 * same strings step by step and proves them equal to the joined tokens; the
 * lemmas here say what an engine reading those tokens finds in them.
 */
module UciCommands {
  import opened Wrappers
  import opened StrUtils
  import opened UciTypes

  // ---------------------------------------------------------------------------
  // position startpos | fen <fen> [moves m1 m2 ...]
  // ---------------------------------------------------------------------------

  /** The keyword "startpos" selects the standard start; any other string is sent as a FEN. */
  function PositionHead(fen: string): seq<string>
  {
    if fen == "startpos" then ["position", "startpos"] else ["position", "fen", fen]
  }

  /** The "moves" section: absent for an empty move list. */
  function MovesSection(moves: seq<string>): seq<string>
  {
    if moves == [] then [] else ["moves"] + moves
  }

  function PositionTokens(moves: seq<string>, fen: string): seq<string>
  {
    PositionHead(fen) + MovesSection(moves)
  }

  /** The command opens with the start keyword, or with "fen" and the FEN given. */
  lemma PositionStartsWith(moves: seq<string>, fen: string)
    ensures fen == "startpos" ==> "position startpos" <= Join(PositionTokens(moves, fen))
    ensures fen != "startpos" ==> "position fen " + fen <= Join(PositionTokens(moves, fen))
  {
    JoinAppend(PositionHead(fen), MovesSection(moves));
    if fen == "startpos" {
      assert Join(PositionHead(fen)) == "position startpos";
    } else {
      assert SpacePrefixed([fen]) == " " + fen;
      assert SpacePrefixed(["fen", fen]) == " fen " + fen;
      assert Join(PositionHead(fen)) == "position fen " + fen;
    }
  }

  /**
   * What an engine splitting the command on spaces reads: the head (the FEN split
   * into its fields), then "moves" and every move in order when there are moves.
   */
  lemma PositionCommandTokens(moves: seq<string>, fen: string)
    requires SpaceFree(moves)
    ensures Split(Join(PositionTokens(moves, fen))) == HeadWords(fen) + MovesSection(moves)
  {
    SplitJoin(PositionTokens(moves, fen));
    SplitAllAppend(PositionHead(fen), MovesSection(moves));
    PositionHeadPieces(fen);
    MovesSectionPieces(moves);
  }

  /** The words of the head as an engine reads them: a FEN contributes its space-separated fields. */
  function HeadWords(fen: string): seq<string>
  {
    if fen == "startpos" then ["position", "startpos"] else ["position", "fen"] + Split(fen)
  }

  lemma PositionHeadPieces(fen: string)
    ensures SplitAll(PositionHead(fen)) == HeadWords(fen)
  {
    if fen == "startpos" {
      StartposHeadPieces();
    } else {
      FenHeadPieces(fen);
    }
  }

  lemma StartposHeadPieces()
    ensures SplitAll(["position", "startpos"]) == ["position", "startpos"]
  {
    WordsPieces("position", "startpos");
  }

  lemma FenHeadPieces(fen: string)
    ensures SplitAll(["position", "fen", fen]) == ["position", "fen"] + Split(fen)
  {
    WordsThenPieces("position", "fen", fen);
  }

  /** Two space-free words are their own pieces. */
  lemma WordsPieces(a: string, b: string)
    requires ' ' !in a && ' ' !in b
    ensures SplitAll([a, b]) == [a, b]
  {
    SplitSpaceFree(a);
    SplitSpaceFree(b);
    SplitAllPair(a, b);
  }

  /** Two space-free words, then the pieces of any third string. */
  lemma WordsThenPieces(a: string, b: string, c: string)
    requires ' ' !in a && ' ' !in b
    ensures SplitAll([a, b, c]) == [a, b] + Split(c)
  {
    SplitSpaceFree(a);
    SplitSpaceFree(b);
    assert [a, b, c][1..] == [b, c];
    SplitAllPair(b, c);
  }

  lemma SplitAllPair(a: string, b: string)
    ensures SplitAll([a, b]) == Split(a) + Split(b)
  {
    assert [a, b][1..] == [b];
    assert SplitAll([b]) == Split(b) + SplitAll([]);
  }

  lemma MovesSectionPieces(moves: seq<string>)
    requires SpaceFree(moves)
    ensures SplitAll(MovesSection(moves)) == MovesSection(moves)
  {
    if moves != [] {
      SplitSpaceFree("moves");
      SplitAllSpaceFree(moves);
      assert (["moves"] + moves)[1..] == moves;
    }
  }

  /** With no moves the engine sees no "moves" token. */
  lemma PositionWithoutMoves(fen: string)
    requires fen != "startpos" ==> "moves" !in Split(fen)
    ensures "moves" !in Split(Join(PositionTokens([], fen)))
  {
    PositionCommandTokens([], fen);
    HeadWordsWithoutMoves(fen);
    assert HeadWords(fen) + MovesSection([]) == HeadWords(fen);
  }

  /**
   * The moves section round trip: with moves, everything after the first
   * "moves" token is the move list, in order.
   */
  lemma PositionMovesTail(moves: seq<string>, fen: string)
    requires moves != [] && SpaceFree(moves)
    requires fen != "startpos" ==> "moves" !in Split(fen)
    ensures var toks := Split(Join(PositionTokens(moves, fen)));
      "moves" in toks && toks[IndexOf(toks, "moves") + 1..] == moves
  {
    PositionCommandTokens(moves, fen);
    HeadWordsWithoutMoves(fen);
    MovesFollowKeyword(HeadWords(fen), moves, Split(Join(PositionTokens(moves, fen))));
  }

  lemma HeadWordsWithoutMoves(fen: string)
    requires fen != "startpos" ==> "moves" !in Split(fen)
    ensures "moves" !in HeadWords(fen)
  {
  }

  lemma MovesFollowKeyword(head: seq<string>, moves: seq<string>, toks: seq<string>)
    requires moves != [] && "moves" !in head && toks == head + MovesSection(moves)
    ensures "moves" in toks && toks[IndexOf(toks, "moves") + 1..] == moves
  {
    TailAfterKey(head, "moves", moves);
  }

  // ---------------------------------------------------------------------------
  // go [nodes N] [depth D] (movetime T | [wtime W btime B] [winc WI binc BI] [movestogo M])
  // ---------------------------------------------------------------------------

  /** The clock that belongs to White: the mover's own when White moves. */
  function WhiteClock(stm: Color, tc: TimeControl, tc2: TimeControl): TimeControl
  {
    if stm == White then tc else tc2
  }

  /** The clock that belongs to Black. */
  function BlackClock(stm: Color, tc: TimeControl, tc2: TimeControl): TimeControl
  {
    if stm == White then tc2 else tc
  }

  /** A keyword followed by the decimal value it announces. */
  function Field(key: string, value: int): seq<string>
  {
    [key, IntToDecimal(value)]
  }

  function NodesField(limit: Limit): seq<string>
  {
    if limit.nodes != 0 then Field("nodes", limit.nodes) else []
  }

  function DepthField(limit: Limit): seq<string>
  {
    if limit.plies != 0 then Field("depth", limit.plies) else []
  }

  /** Remaining times; present when the mover's clock has a time. */
  function TimeFields(stm: Color, tc: TimeControl, tc2: TimeControl): seq<string>
  {
    if tc.time != 0 then
      Field("wtime", WhiteClock(stm, tc, tc2).time) + Field("btime", BlackClock(stm, tc, tc2).time)
    else []
  }

  /** Increments; present when the mover's clock has an increment. */
  function IncrementFields(stm: Color, tc: TimeControl, tc2: TimeControl): seq<string>
  {
    if tc.increment != 0 then
      Field("winc", WhiteClock(stm, tc, tc2).increment) + Field("binc", BlackClock(stm, tc, tc2).increment)
    else []
  }

  /** Moves to the next time control, taken from the mover's clock. */
  function MovesToGoField(tc: TimeControl): seq<string>
  {
    if tc.moves != 0 then Field("movestogo", tc.moves) else []
  }

  /** A fixed move time replaces every clock field. */
  function ClockTokens(stm: Color, tc: TimeControl, tc2: TimeControl): seq<string>
  {
    if tc.fixedTime != 0 then Field("movetime", tc.fixedTime)
    else TimeFields(stm, tc, tc2) + IncrementFields(stm, tc, tc2) + MovesToGoField(tc)
  }

  /** The search command for the side to move, whose clock is `tc`; `tc2` is the opponent's. */
  function GoTokens(limit: Limit, stm: Color, tc: TimeControl, tc2: TimeControl): seq<string>
  {
    ["go"] + NodesField(limit) + DepthField(limit) + ClockTokens(stm, tc, tc2)
  }

  /** The fixed order of the fields of a go command; 8 for any other word. */
  function Rank(key: string): nat
  {
    if key == "nodes" then 0
    else if key == "depth" then 1
    else if key == "movetime" then 2
    else if key == "wtime" then 3
    else if key == "btime" then 4
    else if key == "winc" then 5
    else if key == "binc" then 6
    else if key == "movestogo" then 7
    else 8
  }

  /**
   * `s` is a run of keyword/numeral pairs whose keywords have ranks in
   * [lo, hi), strictly increasing, so each keyword appears at most once.
   */
  predicate OrderedFields(s: seq<string>, lo: nat, hi: nat)
    decreases |s|
  {
    s == [] ||
    (|s| >= 2 && IsWord(s[0]) && ' ' !in s[0] && lo <= Rank(s[0]) < hi && IsNumeral(s[1])
     && OrderedFields(s[2..], Rank(s[0]) + 1, hi))
  }

  lemma FieldOrdered(key: string, value: int, lo: nat, hi: nat)
    requires IsWord(key) && ' ' !in key && lo <= Rank(key) < hi
    ensures OrderedFields(Field(key, value), lo, hi)
  {
    assert Field(key, value)[2..] == [];
  }

  /** Lowering the lower bound keeps fields ordered. */
  lemma OrderedFieldsWeaken(s: seq<string>, lo: nat, lo': nat, hi: nat)
    requires OrderedFields(s, lo, hi) && lo' <= lo
    ensures OrderedFields(s, lo', hi)
  {
  }

  lemma {:induction false} OrderedFieldsConcat(a: seq<string>, b: seq<string>, lo: nat, mid: nat, hi: nat)
    requires lo <= mid <= hi && OrderedFields(a, lo, mid) && OrderedFields(b, mid, hi)
    ensures OrderedFields(a + b, lo, hi)
    decreases |a|
  {
    if a == [] {
      assert a + b == b;
      OrderedFieldsWeaken(b, mid, lo, hi);
    } else {
      assert (a + b)[2..] == a[2..] + b;
      OrderedFieldsConcat(a[2..], b, Rank(a[0]) + 1, mid, hi);
      assert (a + b)[0] == a[0] && (a + b)[1] == a[1];
    }
  }

  /** A word whose rank lies outside the range is absent from the fields. */
  lemma {:induction false} NotInOrderedFields(s: seq<string>, lo: nat, hi: nat, key: string)
    requires OrderedFields(s, lo, hi)
    requires IsWord(key) && !(lo <= Rank(key) < hi)
    ensures key !in s
    decreases |s|
  {
    if s != [] {
      WordNotNumeral(key, s[1]);
      NotInOrderedFields(s[2..], Rank(s[0]) + 1, hi, key);
      assert s == [s[0], s[1]] + s[2..];
    }
  }

  lemma ClockPiecesOrdered(stm: Color, tc: TimeControl, tc2: TimeControl)
    ensures OrderedFields(TimeFields(stm, tc, tc2), 3, 5)
    ensures OrderedFields(IncrementFields(stm, tc, tc2), 5, 7)
    ensures OrderedFields(MovesToGoField(tc), 7, 8)
  {
    TimeFieldsOrdered(stm, tc, tc2);
    IncrementFieldsOrdered(stm, tc, tc2);
  }

  lemma TimeFieldsOrdered(stm: Color, tc: TimeControl, tc2: TimeControl)
    ensures OrderedFields(TimeFields(stm, tc, tc2), 3, 5)
  {
    if tc.time != 0 {
      var w, b := WhiteClock(stm, tc, tc2).time, BlackClock(stm, tc, tc2).time;
      FieldOrdered("wtime", w, 3, 4);
      FieldOrdered("btime", b, 4, 5);
      OrderedFieldsConcat(Field("wtime", w), Field("btime", b), 3, 4, 5);
    }
  }

  lemma IncrementFieldsOrdered(stm: Color, tc: TimeControl, tc2: TimeControl)
    ensures OrderedFields(IncrementFields(stm, tc, tc2), 5, 7)
  {
    if tc.increment != 0 {
      var w, b := WhiteClock(stm, tc, tc2).increment, BlackClock(stm, tc, tc2).increment;
      FieldOrdered("winc", w, 5, 6);
      FieldOrdered("binc", b, 6, 7);
      OrderedFieldsConcat(Field("winc", w), Field("binc", b), 5, 6, 7);
    }
  }

  lemma LimitPiecesOrdered(limit: Limit)
    ensures OrderedFields(NodesField(limit), 0, 1)
    ensures OrderedFields(DepthField(limit), 1, 2)
    ensures OrderedFields(NodesField(limit) + DepthField(limit), 0, 2)
  {
    OrderedFieldsConcat(NodesField(limit), DepthField(limit), 0, 1, 2);
  }

  lemma ClockTokensOrdered(stm: Color, tc: TimeControl, tc2: TimeControl)
    ensures OrderedFields(ClockTokens(stm, tc, tc2), 2, 8)
  {
    if tc.fixedTime != 0 {
      FieldOrdered("movetime", tc.fixedTime, 2, 8);
    } else {
      ClockPiecesOrdered(stm, tc, tc2);
      OrderedFieldsConcat(TimeFields(stm, tc, tc2), IncrementFields(stm, tc, tc2), 3, 5, 7);
      OrderedFieldsConcat(TimeFields(stm, tc, tc2) + IncrementFields(stm, tc, tc2), MovesToGoField(tc), 3, 7, 8);
      assert OrderedFields(ClockTokens(stm, tc, tc2), 3, 8);
    }
  }

  /**
   * Shape of the go command: "go", then keyword/value pairs in the fixed order
   * nodes, depth, movetime, wtime, btime, winc, binc, movestogo, each keyword at
   * most once and each value a decimal numeral.
   */
  lemma GoCommandShape(limit: Limit, stm: Color, tc: TimeControl, tc2: TimeControl)
    ensures var toks := GoTokens(limit, stm, tc, tc2);
      toks[0] == "go" && OrderedFields(toks[1..], 0, 8)
  {
    var limits := NodesField(limit) + DepthField(limit);
    var clock := ClockTokens(stm, tc, tc2);
    LimitPiecesOrdered(limit);
    ClockTokensOrdered(stm, tc, tc2);
    OrderedFieldsConcat(limits, clock, 0, 2, 8);
    Assoc4(["go"], NodesField(limit), DepthField(limit), clock);
    HeadAndRest("go", limits + clock);
  }

  /** Keywords and numerals hold no space. */
  lemma {:induction false} OrderedFieldsSpaceFree(s: seq<string>, lo: nat, hi: nat)
    requires OrderedFields(s, lo, hi)
    ensures SpaceFree(s)
    decreases |s|
  {
    if s != [] {
      OrderedFieldsSpaceFree(s[2..], Rank(s[0]) + 1, hi);
      assert s == [s[0], s[1]] + s[2..];
    }
  }

  /** The command string splits back into exactly the go tokens. */
  lemma GoCommandRoundTrip(limit: Limit, stm: Color, tc: TimeControl, tc2: TimeControl)
    ensures Split(Join(GoTokens(limit, stm, tc, tc2))) == GoTokens(limit, stm, tc, tc2)
  {
    var toks := GoTokens(limit, stm, tc, tc2);
    assert SpaceFree(toks) by {
      GoCommandShape(limit, stm, tc, tc2);
      OrderedFieldsSpaceFree(toks[1..], 0, 8);
      assert toks == [toks[0]] + toks[1..];
    }
    SplitJoinRoundTrip(toks);
  }

  // Which keywords each piece of the go command can hold.

  lemma NodesWithout(limit: Limit, key: string)
    requires IsWord(key) && Rank(key) != 0
    ensures key !in NodesField(limit)
  {
    LimitPiecesOrdered(limit);
    NotInOrderedFields(NodesField(limit), 0, 1, key);
  }

  lemma DepthWithout(limit: Limit, key: string)
    requires IsWord(key) && Rank(key) != 1
    ensures key !in DepthField(limit)
  {
    LimitPiecesOrdered(limit);
    NotInOrderedFields(DepthField(limit), 1, 2, key);
  }

  lemma ClockWithout(stm: Color, tc: TimeControl, tc2: TimeControl, key: string)
    requires IsWord(key) && Rank(key) < 2
    ensures key !in ClockTokens(stm, tc, tc2)
  {
    ClockTokensOrdered(stm, tc, tc2);
    NotInOrderedFields(ClockTokens(stm, tc, tc2), 2, 8, key);
  }

  lemma TimeWithout(stm: Color, tc: TimeControl, tc2: TimeControl, key: string)
    requires IsWord(key) && !(3 <= Rank(key) < 5)
    ensures key !in TimeFields(stm, tc, tc2)
  {
    ClockPiecesOrdered(stm, tc, tc2);
    NotInOrderedFields(TimeFields(stm, tc, tc2), 3, 5, key);
  }

  lemma IncrementWithout(stm: Color, tc: TimeControl, tc2: TimeControl, key: string)
    requires IsWord(key) && !(5 <= Rank(key) < 7)
    ensures key !in IncrementFields(stm, tc, tc2)
  {
    ClockPiecesOrdered(stm, tc, tc2);
    NotInOrderedFields(IncrementFields(stm, tc, tc2), 5, 7, key);
  }

  lemma MovesToGoWithout(tc: TimeControl, key: string)
    requires IsWord(key) && Rank(key) != 7
    ensures key !in MovesToGoField(tc)
  {
  }

  /** Without a fixed move time the clock is the time, increment and moves-to-go pieces in turn. */
  lemma GoTokensUnfixed(limit: Limit, stm: Color, tc: TimeControl, tc2: TimeControl)
    requires tc.fixedTime == 0
    ensures GoTokens(limit, stm, tc, tc2) ==
      ["go"] + NodesField(limit) + DepthField(limit)
      + TimeFields(stm, tc, tc2) + IncrementFields(stm, tc, tc2) + MovesToGoField(tc)
  {
  }

  /** The same decomposition, with the time piece between the limits and the rest of the clock. */
  lemma GoTokensAroundTime(limit: Limit, stm: Color, tc: TimeControl, tc2: TimeControl)
    requires tc.fixedTime == 0
    ensures GoTokens(limit, stm, tc, tc2) ==
      (["go"] + NodesField(limit) + DepthField(limit)) + TimeFields(stm, tc, tc2)
      + (IncrementFields(stm, tc, tc2) + MovesToGoField(tc))
  {
    GoTokensUnfixed(limit, stm, tc, tc2);
    Assoc(["go"] + NodesField(limit) + DepthField(limit) + TimeFields(stm, tc, tc2),
          IncrementFields(stm, tc, tc2), MovesToGoField(tc));
  }

  /** An optional keyword/value piece between parts that do not hold the keyword. */
  lemma PieceLookup(pre: seq<string>, piece: seq<string>, post: seq<string>, key: string, v: string)
    requires key !in pre && key !in post
    requires piece == [] || piece == [key, v]
    ensures key in pre + piece + post <==> piece != []
    ensures FindElement(pre + piece + post, key) == if piece == [] then None else Some(v)
  {
    if piece == [] {
      assert pre + piece + post == pre + post;
    } else {
      FindElementAt(pre, key, v, post);
    }
  }

  /** An optional piece of two keyword/value pairs between parts that hold neither keyword. */
  lemma PairPieceLookup(pre: seq<string>, piece: seq<string>, post: seq<string>,
                        k1: string, v1: string, k2: string, v2: string)
    requires k1 !in pre && k2 !in pre && k1 !in post && k2 !in post
    requires k1 != k2 && k2 != v1
    requires piece == [] || piece == [k1, v1, k2, v2]
    ensures k1 in pre + piece + post <==> piece != []
    ensures k2 in pre + piece + post <==> piece != []
    ensures piece != [] ==> FindElement(pre + piece + post, k1) == Some(v1)
    ensures piece != [] ==> FindElement(pre + piece + post, k2) == Some(v2)
  {
    if piece == [] {
      assert pre + piece + post == pre + post;
    } else {
      assert pre + piece + post == pre + [k1, v1] + ([k2, v2] + post);
      FindElementAt(pre, k1, v1, [k2, v2] + post);
      assert pre + piece + post == (pre + [k1, v1]) + [k2, v2] + post;
      FindElementAt(pre + [k1, v1], k2, v2, post);
    }
  }

  /** "nodes" appears exactly when the node limit is set, followed by that limit. */
  lemma GoNodesField(limit: Limit, stm: Color, tc: TimeControl, tc2: TimeControl)
    ensures var toks := GoTokens(limit, stm, tc, tc2);
      ("nodes" in toks <==> limit.nodes != 0) &&
      FindElement(toks, "nodes") == (if limit.nodes != 0 then Some(IntToDecimal(limit.nodes)) else None)
  {
    var rest := DepthField(limit) + ClockTokens(stm, tc, tc2);
    DepthWithout(limit, "nodes");
    ClockWithout(stm, tc, tc2, "nodes");
    assert GoTokens(limit, stm, tc, tc2) == ["go"] + NodesField(limit) + rest;
    PieceLookup(["go"], NodesField(limit), rest, "nodes", IntToDecimal(limit.nodes));
  }

  /** "depth" appears exactly when the ply limit is set, followed by that limit. */
  lemma GoDepthField(limit: Limit, stm: Color, tc: TimeControl, tc2: TimeControl)
    ensures var toks := GoTokens(limit, stm, tc, tc2);
      ("depth" in toks <==> limit.plies != 0) &&
      FindElement(toks, "depth") == (if limit.plies != 0 then Some(IntToDecimal(limit.plies)) else None)
  {
    NodesWithout(limit, "depth");
    ClockWithout(stm, tc, tc2, "depth");
    PieceLookup(["go"] + NodesField(limit), DepthField(limit), ClockTokens(stm, tc, tc2), "depth", IntToDecimal(limit.plies));
  }

  /** With a fixed move time the command carries "movetime" and that time. */
  lemma GoMoveTime(limit: Limit, stm: Color, tc: TimeControl, tc2: TimeControl)
    requires tc.fixedTime != 0
    ensures FindElement(GoTokens(limit, stm, tc, tc2), "movetime") == Some(IntToDecimal(tc.fixedTime))
  {
    var head := ["go"] + NodesField(limit) + DepthField(limit);
    NodesWithout(limit, "movetime");
    DepthWithout(limit, "movetime");
    assert GoTokens(limit, stm, tc, tc2) == head + ["movetime", IntToDecimal(tc.fixedTime)] + [];
    FindElementAt(head, "movetime", IntToDecimal(tc.fixedTime), []);
  }

  /** A fixed move time leaves only the limits and "movetime". */
  lemma FixedTimeFieldsOrdered(limit: Limit, tc: TimeControl)
    ensures OrderedFields(NodesField(limit) + DepthField(limit) + Field("movetime", tc.fixedTime), 0, 3)
  {
    LimitPiecesOrdered(limit);
    FieldOrdered("movetime", tc.fixedTime, 2, 3);
    OrderedFieldsConcat(NodesField(limit) + DepthField(limit), Field("movetime", tc.fixedTime), 0, 2, 3);
  }

  /**
   * Fixed move time excludes the clock: when the mover's fixed time is set, none
   * of wtime, btime, winc, binc, movestogo is sent.
   */
  lemma GoFixedTimeExcludesClock(limit: Limit, stm: Color, tc: TimeControl, tc2: TimeControl)
    requires tc.fixedTime != 0
    ensures var toks := GoTokens(limit, stm, tc, tc2);
      "wtime" !in toks && "btime" !in toks && "winc" !in toks && "binc" !in toks && "movestogo" !in toks
  {
    var fields := NodesField(limit) + DepthField(limit) + Field("movetime", tc.fixedTime);
    FixedTimeFieldsOrdered(limit, tc);
    assert GoTokens(limit, stm, tc, tc2) == ["go"] + fields;
    NotInOrderedFields(fields, 0, 3, "wtime");
    NotInOrderedFields(fields, 0, 3, "btime");
    NotInOrderedFields(fields, 0, 3, "winc");
    NotInOrderedFields(fields, 0, 3, "binc");
    NotInOrderedFields(fields, 0, 3, "movestogo");
  }

  /** Without a fixed move time the command carries no "movetime". */
  lemma GoNoMoveTime(limit: Limit, stm: Color, tc: TimeControl, tc2: TimeControl)
    requires tc.fixedTime == 0
    ensures "movetime" !in GoTokens(limit, stm, tc, tc2)
  {
    GoTokensUnfixed(limit, stm, tc, tc2);
    NodesWithout(limit, "movetime");
    DepthWithout(limit, "movetime");
    TimeWithout(stm, tc, tc2, "movetime");
    IncrementWithout(stm, tc, tc2, "movetime");
    MovesToGoWithout(tc, "movetime");
  }

  /** The limit fields and the "go" before them hold no clock keyword. */
  lemma HeadWithout(limit: Limit, key: string)
    requires IsWord(key) && 2 <= Rank(key) < 8
    ensures key !in ["go"] + NodesField(limit) + DepthField(limit)
  {
    NodesWithout(limit, key);
    DepthWithout(limit, key);
  }

  /** The increments and moves-to-go hold no limit or time keyword. */
  lemma AfterTimeWithout(stm: Color, tc: TimeControl, tc2: TimeControl, key: string)
    requires IsWord(key) && Rank(key) < 5
    ensures key !in IncrementFields(stm, tc, tc2) + MovesToGoField(tc)
  {
    IncrementWithout(stm, tc, tc2, key);
    MovesToGoWithout(tc, key);
  }

  /** The times and everything before them hold no increment or moves-to-go keyword. */
  lemma BeforeIncrementWithout(limit: Limit, stm: Color, tc: TimeControl, tc2: TimeControl, key: string)
    requires IsWord(key) && 5 <= Rank(key) < 8
    ensures key !in ["go"] + NodesField(limit) + DepthField(limit) + TimeFields(stm, tc, tc2)
  {
    HeadWithout(limit, key);
    TimeWithout(stm, tc, tc2, key);
  }

  /** The time piece is empty or the two times, White's first. */
  lemma TimeFieldsShape(stm: Color, tc: TimeControl, tc2: TimeControl)
    ensures TimeFields(stm, tc, tc2) == [] <==> tc.time == 0
    ensures TimeFields(stm, tc, tc2) == [] ||
      TimeFields(stm, tc, tc2) == ["wtime", IntToDecimal(WhiteClock(stm, tc, tc2).time),
                                  "btime", IntToDecimal(BlackClock(stm, tc, tc2).time)]
  {
  }

  /** The increment piece is empty or the two increments, White's first. */
  lemma IncrementFieldsShape(stm: Color, tc: TimeControl, tc2: TimeControl)
    ensures IncrementFields(stm, tc, tc2) == [] <==> tc.increment == 0
    ensures IncrementFields(stm, tc, tc2) == [] ||
      IncrementFields(stm, tc, tc2) == ["winc", IntToDecimal(WhiteClock(stm, tc, tc2).increment),
                                       "binc", IntToDecimal(BlackClock(stm, tc, tc2).increment)]
  {
  }

  /**
   * Without a fixed move time, wtime and btime appear exactly when the mover's
   * clock has a time; White's comes from the mover's clock when White moves and
   * from the opponent's otherwise, Black's the other way round.
   */
  lemma GoTimeFields(limit: Limit, stm: Color, tc: TimeControl, tc2: TimeControl)
    requires tc.fixedTime == 0
    ensures var toks := GoTokens(limit, stm, tc, tc2);
      ("wtime" in toks <==> tc.time != 0) && ("btime" in toks <==> tc.time != 0) &&
      (tc.time != 0 ==>
        FindElement(toks, "wtime") == Some(IntToDecimal(WhiteClock(stm, tc, tc2).time)) &&
        FindElement(toks, "btime") == Some(IntToDecimal(BlackClock(stm, tc, tc2).time)))
  {
    var w := IntToDecimal(WhiteClock(stm, tc, tc2).time);
    GoTokensAroundTime(limit, stm, tc, tc2);
    HeadWithout(limit, "wtime");
    HeadWithout(limit, "btime");
    AfterTimeWithout(stm, tc, tc2, "wtime");
    AfterTimeWithout(stm, tc, tc2, "btime");
    TimeFieldsShape(stm, tc, tc2);
    WordNotNumeral("btime", w);
    PairPieceLookup(["go"] + NodesField(limit) + DepthField(limit), TimeFields(stm, tc, tc2),
                    IncrementFields(stm, tc, tc2) + MovesToGoField(tc),
                    "wtime", w, "btime", IntToDecimal(BlackClock(stm, tc, tc2).time));
  }

  /**
   * Without a fixed move time, winc and binc appear exactly when the mover's
   * clock has an increment, mapped to the colours like the times.
   */
  lemma GoIncrementFields(limit: Limit, stm: Color, tc: TimeControl, tc2: TimeControl)
    requires tc.fixedTime == 0
    ensures var toks := GoTokens(limit, stm, tc, tc2);
      ("winc" in toks <==> tc.increment != 0) && ("binc" in toks <==> tc.increment != 0) &&
      (tc.increment != 0 ==>
        FindElement(toks, "winc") == Some(IntToDecimal(WhiteClock(stm, tc, tc2).increment)) &&
        FindElement(toks, "binc") == Some(IntToDecimal(BlackClock(stm, tc, tc2).increment)))
  {
    var w := IntToDecimal(WhiteClock(stm, tc, tc2).increment);
    GoTokensUnfixed(limit, stm, tc, tc2);
    BeforeIncrementWithout(limit, stm, tc, tc2, "winc");
    BeforeIncrementWithout(limit, stm, tc, tc2, "binc");
    MovesToGoWithout(tc, "winc");
    MovesToGoWithout(tc, "binc");
    IncrementFieldsShape(stm, tc, tc2);
    WordNotNumeral("binc", w);
    PairPieceLookup(["go"] + NodesField(limit) + DepthField(limit) + TimeFields(stm, tc, tc2),
                    IncrementFields(stm, tc, tc2), MovesToGoField(tc),
                    "winc", w, "binc", IntToDecimal(BlackClock(stm, tc, tc2).increment));
  }

  /** Without a fixed move time, movestogo appears exactly when the mover's clock sets it. */
  lemma GoMovesToGoField(limit: Limit, stm: Color, tc: TimeControl, tc2: TimeControl)
    requires tc.fixedTime == 0
    ensures var toks := GoTokens(limit, stm, tc, tc2);
      ("movestogo" in toks <==> tc.moves != 0) &&
      (tc.moves != 0 ==> FindElement(toks, "movestogo") == Some(IntToDecimal(tc.moves)))
  {
    var head := ["go"] + NodesField(limit) + DepthField(limit) + TimeFields(stm, tc, tc2) + IncrementFields(stm, tc, tc2);
    GoTokensUnfixed(limit, stm, tc, tc2);
    BeforeIncrementWithout(limit, stm, tc, tc2, "movestogo");
    IncrementWithout(stm, tc, tc2, "movestogo");
    assert GoTokens(limit, stm, tc, tc2) == head + MovesToGoField(tc) + [];
    PieceLookup(head, MovesToGoField(tc), [], "movestogo", IntToDecimal(tc.moves));
  }

  /**
   * The example of a black mover with 60 s and a 1 s increment and no limits:
   * White's time and increment come from the opponent's clock, Black's from the
   * mover's, and there is no movestogo.
   */
  lemma GoExampleBlackToMove(tc2: TimeControl)
    ensures GoTokens(Limit(0, 0), Black, TimeControl(0, 60000, 1000, 0), tc2) ==
      ["go", "wtime", IntToDecimal(tc2.time), "btime", "60000",
       "winc", IntToDecimal(tc2.increment), "binc", "1000"]
  {
    ExampleClockDigits();
  }

  /** 60000 and 1000 print as "60000" and "1000". */
  lemma ExampleClockDigits()
    ensures IntToDecimal(60000) == "60000" && IntToDecimal(1000) == "1000"
  {
    assert NatToDecimal(1) == "1";
    assert NatToDecimal(10) == NatToDecimal(1) + [DigitChar(0)];
    assert NatToDecimal(100) == NatToDecimal(10) + [DigitChar(0)];
    assert NatToDecimal(1000) == NatToDecimal(100) + [DigitChar(0)];
    assert NatToDecimal(6) == "6";
    assert NatToDecimal(60) == NatToDecimal(6) + [DigitChar(0)];
    assert NatToDecimal(600) == NatToDecimal(60) + [DigitChar(0)];
    assert NatToDecimal(6000) == NatToDecimal(600) + [DigitChar(0)];
    assert NatToDecimal(60000) == NatToDecimal(6000) + [DigitChar(0)];
  }

  // ---------------------------------------------------------------------------
  // setoption name <name> value <value>
  // ---------------------------------------------------------------------------

  function SetoptionLine(name: string, value: string): string
  {
    "setoption name " + name + " value " + value
  }

  /**
   * The line an engine reads: "setoption name", the name's words, "value", the
   * value's words.
   */
  lemma SetoptionWords(name: string, value: string)
    ensures Split(SetoptionLine(name, value)) == ["setoption", "name"] + Split(name) + ["value"] + Split(value)
  {
    SetoptionLineNested(name, value);
    KeywordsSplit("setoption", "name", name, "value", value);
  }

  /** The setoption line as words joined one space at a time. */
  lemma SetoptionLineNested(name: string, value: string)
    ensures SetoptionLine(name, value) == "setoption" + " " + ("name" + " " + (name + " " + ("value" + " " + value)))
  {
  }

  /** Two keywords, some words, a third keyword and more words split back into those pieces. */
  lemma KeywordsSplit(k1: string, k2: string, mid: string, k3: string, last: string)
    requires ' ' !in k1 && ' ' !in k2 && ' ' !in k3
    ensures Split(k1 + " " + (k2 + " " + (mid + " " + (k3 + " " + last)))) == [k1, k2] + Split(mid) + [k3] + Split(last)
  {
    var tail := k3 + " " + last;
    TwoWordsThen(k1, k2, mid + " " + tail);
    SplitAppend(mid, tail);
    WordThen(k3, last);
    Regroup([k1, k2], Split(mid), [k3], Split(last),
            Split(k1 + " " + (k2 + " " + (mid + " " + tail))), Split(mid + " " + tail), Split(tail));
  }

  /** Two space-free words, each followed by a space, split off as two tokens. */
  lemma TwoWordsThen(k1: string, k2: string, rest: string)
    requires ' ' !in k1 && ' ' !in k2
    ensures Split(k1 + " " + (k2 + " " + rest)) == [k1, k2] + Split(rest)
  {
    WordThen(k1, k2 + " " + rest);
    WordThen(k2, rest);
  }

  /** A space-free word followed by a space splits off as one token. */
  lemma WordThen(w: string, rest: string)
    requires ' ' !in w
    ensures Split(w + " " + rest) == [w] + Split(rest)
  {
    SplitAppend(w, rest);
    SplitSpaceFree(w);
  }

  /** For a one-word name other than "value" and a one-word value, the engine finds both after their keywords. */
  lemma SetoptionFields(name: string, value: string)
    requires ' ' !in name && ' ' !in value && name != "value"
    ensures FindElement(Split(SetoptionLine(name, value)), "name") == Some(name)
    ensures FindElement(Split(SetoptionLine(name, value)), "value") == Some(value)
  {
    var toks := Split(SetoptionLine(name, value));
    assert toks == ["setoption", "name", name, "value", value] by {
      SetoptionWords(name, value);
      SplitSpaceFree(name);
      SplitSpaceFree(value);
    }
    assert toks == ["setoption"] + ["name", name] + ["value", value];
    FindElementAt(["setoption"], "name", name, ["value", value]);
    assert toks == ["setoption", "name", name] + ["value", value] + [];
    FindElementAt(["setoption", "name", name], "value", value, []);
  }
}
