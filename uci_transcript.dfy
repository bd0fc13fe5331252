/**
 * Reading a search result out of the engine's last transcript: the move
 * after "bestmove" on the final line, and the score kind and value on the
 * info line just before it.
 */
module UciTranscript {
  import opened Wrappers
  import opened StrUtils
  import opened UciTypes

  /** The move after "bestmove" on the final line; without one the reply is malformed. */
  function BestMove(output: seq<string>): (r: Result<string, UciError>)
    requires |output| >= 1
    ensures r.Ok? ==> ' ' !in r.value
    ensures r.Err? ==> r.error == MalformedResponse
  {
    match FindElement(Split(output[|output| - 1]), "bestmove")
    case Some(m) => Ok(m)
    case None => Err(MalformedResponse)
  }

  /** The tokens of the second-to-last line, the latest search information. */
  function LastInfo(output: seq<string>): (r: seq<string>)
    requires |output| >= 2
    ensures |r| >= 1 && SpaceFree(r)
    ensures Join(r) == output[|output| - 2]
  {
    JoinSplit(output[|output| - 2]);
    Split(output[|output| - 2])
  }

  /** The token after "score" on the info line, "cp" when there is none. */
  function LastScoreType(output: seq<string>): (r: string)
    requires |output| >= 2
    ensures ' ' !in r
  {
    match FindElement(LastInfo(output), "score")
    case Some(kind) => kind
    case None => "cp"
  }

  /**
   * The number after the score kind on the info line: 0 when the kind does not
   * occur with a token after it, a malformed reply when that token is not a
   * 32-bit integer.
   */
  function LastScore(output: seq<string>): (r: Result<int, UciError>)
    requires |output| >= 2
    ensures r.Ok? ==> IntMin <= r.value <= IntMax
    ensures r.Err? ==> r.error == MalformedResponse
  {
    match FindElement(LastInfo(output), LastScoreType(output))
    case None => Ok(0)
    case Some(t) =>
      match StoI(t)
      case Some(v) => Ok(v)
      case None => Err(MalformedResponse)
  }

  /** A final line of single-space separated tokens has exactly those tokens. */
  lemma LineTokens(line: string, ts: seq<string>)
    requires ts != [] && SpaceFree(ts) && line == Join(ts)
    ensures Split(line) == ts
  {
    SplitJoinRoundTrip(ts);
  }

  /** Space-free pieces around a space-free middle stay space-free. */
  lemma SpaceFreeAround(pre: seq<string>, mid: seq<string>, post: seq<string>)
    requires SpaceFree(pre) && SpaceFree(mid) && SpaceFree(post)
    ensures SpaceFree(pre + mid + post)
  {
  }

  /** A final line carrying "bestmove m" yields m, when no earlier token is "bestmove". */
  lemma BestMoveReply(output: seq<string>, pre: seq<string>, m: string, post: seq<string>)
    requires |output| >= 1
    requires SpaceFree(pre) && SpaceFree(post) && ' ' !in m && "bestmove" !in pre
    requires output[|output| - 1] == Join(pre + ["bestmove", m] + post)
    ensures BestMove(output) == Ok(m)
  {
    SpaceFreeAround(pre, ["bestmove", m], post);
    LineTokens(output[|output| - 1], pre + ["bestmove", m] + post);
    FindElementAt(pre, "bestmove", m, post);
  }

  /** A final line with no "bestmove" followed by a move is a malformed reply. */
  lemma BestMoveMissing(output: seq<string>, toks: seq<string>)
    requires |output| >= 1 && toks == Split(output[|output| - 1])
    requires forall i :: 0 <= i < |toks| - 1 ==> toks[i] != "bestmove"
    ensures BestMove(output) == Err(MalformedResponse)
  {
  }

  /** The info line splits back into its tokens. */
  lemma InfoTokens(output: seq<string>, ts: seq<string>)
    requires |output| >= 2 && ts != [] && SpaceFree(ts) && output[|output| - 2] == Join(ts)
    ensures LastInfo(output) == ts
  {
    LineTokens(output[|output| - 2], ts);
  }

  /** The kind and value after "score" in a token list. */
  lemma ScoreLookup(pre: seq<string>, kind: string, val: string, post: seq<string>)
    requires "score" !in pre && kind !in pre && kind != "score"
    ensures FindElement(pre + ["score", kind, val] + post, "score") == Some(kind)
    ensures FindElement(pre + ["score", kind, val] + post, kind) == Some(val)
  {
    assert pre + ["score", kind, val] + post == pre + ["score", kind] + ([val] + post);
    FindElementAt(pre, "score", kind, [val] + post);
    assert pre + ["score", kind, val] + post == (pre + ["score"]) + [kind, val] + post;
    FindElementAt(pre + ["score"], kind, val, post);
  }

  /**
   * An info line carrying "score kind v" reports that kind and the value v,
   * when neither "score" nor the kind occurs earlier on the line.
   */
  lemma InfoScore(output: seq<string>, pre: seq<string>, kind: string, v: int, post: seq<string>)
    requires |output| >= 2
    requires SpaceFree(pre) && SpaceFree(post) && ' ' !in kind
    requires "score" !in pre && kind !in pre && kind != "score"
    requires IntMin <= v <= IntMax
    requires output[|output| - 2] == Join(pre + ["score", kind, IntToDecimal(v)] + post)
    ensures LastScoreType(output) == kind
    ensures LastScore(output) == Ok(v)
  {
    var ts := pre + ["score", kind, IntToDecimal(v)] + post;
    SpaceFreeAround(pre, ["score", kind, IntToDecimal(v)], post);
    InfoTokens(output, ts);
    ScoreLookup(pre, kind, IntToDecimal(v), post);
    StoIRoundTrip(v);
  }

  /** Without "score" on the info line the kind defaults to "cp". */
  lemma NoScoreKind(output: seq<string>)
    requires |output| >= 2 && "score" !in LastInfo(output)
    ensures LastScoreType(output) == "cp"
  {
    var info := LastInfo(output);
    assert forall i :: 0 <= i < |info| - 1 ==> info[i] != "score" by {
      forall i | 0 <= i < |info| - 1
        ensures info[i] != "score"
      {
        assert info[i] in info;
      }
    }
  }

  /** Without "score" and without "cp" on the info line the score is 0, not an error. */
  lemma NoScoreValue(output: seq<string>)
    requires |output| >= 2 && "score" !in LastInfo(output) && "cp" !in LastInfo(output)
    ensures LastScore(output) == Ok(0)
  {
    var info := LastInfo(output);
    NoScoreKind(output);
    assert forall i :: 0 <= i < |info| - 1 ==> info[i] != "cp" by {
      forall i | 0 <= i < |info| - 1
        ensures info[i] != "cp"
      {
        assert info[i] in info;
      }
    }
  }

  /** A score kind followed by a token that is not a 32-bit integer makes the reply malformed. */
  lemma ScoreNotANumber(output: seq<string>, pre: seq<string>, kind: string, t: string, post: seq<string>)
    requires |output| >= 2
    requires SpaceFree(pre) && SpaceFree(post) && ' ' !in kind && ' ' !in t
    requires "score" !in pre && kind !in pre && kind != "score"
    requires StoI(t) == None
    requires output[|output| - 2] == Join(pre + ["score", kind, t] + post)
    ensures LastScore(output) == Err(MalformedResponse)
  {
    SpaceFreeAround(pre, ["score", kind, t], post);
    InfoTokens(output, pre + ["score", kind, t] + post);
    ScoreLookup(pre, kind, t, post);
  }

  /** 34 prints as "34". */
  lemma ExampleScoreDigits()
    ensures IntToDecimal(34) == "34"
  {
    assert NatToDecimal(3) == "3";
    assert NatToDecimal(34) == NatToDecimal(3) + [DigitChar(4)];
  }

  /** The tokens of the example reply's info line. */
  lemma ExampleInfoLine()
    ensures "info depth 10 score cp 34" == Join(["info", "depth", "10"] + ["score", "cp", IntToDecimal(34)] + [])
  {
    ExampleInfoTokens();
    ExampleInfoWords();
    JoinOf("info", ["depth", "10", "score", "cp", "34"], " depth 10 score cp 34", "info depth 10 score cp 34");
  }

  lemma ExampleInfoWords()
    ensures SpacePrefixed(["depth", "10", "score", "cp", "34"]) == " depth 10 score cp 34"
  {
    ExampleScoreWords();
    PrefixedCons("10", ["score", "cp", "34"], " score cp 34", " 10 score cp 34");
    PrefixedCons("depth", ["10", "score", "cp", "34"], " 10 score cp 34", " depth 10 score cp 34");
  }

  lemma ExampleScoreWords()
    ensures SpacePrefixed(["score", "cp", "34"]) == " score cp 34"
  {
    PrefixedCons("34", [], "", " 34");
    PrefixedCons("cp", ["34"], " 34", " cp 34");
    PrefixedCons("score", ["cp", "34"], " cp 34", " score cp 34");
  }

  lemma ExampleInfoTokens()
    ensures ["info", "depth", "10"] + ["score", "cp", IntToDecimal(34)] + [] == ["info"] + ["depth", "10", "score", "cp", "34"]
  {
    ExampleScoreDigits();
  }

  /** A first token in front of a space-prefixed list. */
  lemma JoinOf(t: string, rest: seq<string>, tail: string, whole: string)
    requires SpacePrefixed(rest) == tail && whole == t + tail
    ensures Join([t] + rest) == whole
  {
    assert ([t] + rest)[1..] == rest;
  }

  /** One more token in front of a space-prefixed list. */
  lemma PrefixedCons(t: string, rest: seq<string>, tail: string, whole: string)
    requires SpacePrefixed(rest) == tail && whole == " " + t + tail
    ensures SpacePrefixed([t] + rest) == whole
  {
    assert ([t] + rest)[1..] == rest;
  }

  /** The tokens of the example reply's final line. */
  lemma ExampleMoveLine()
    ensures "bestmove e2e4" == Join([] + ["bestmove", "e2e4"] + [])
  {
    assert [] + ["bestmove", "e2e4"] + [] == ["bestmove", "e2e4"];
    assert SpacePrefixed(["e2e4"]) == " e2e4";
  }

  /**
   * The engine answers "info depth 10 score cp 34" and then "bestmove e2e4":
   * the score kind is "cp", the score 34 and the move e2e4.
   */
  lemma ExampleReply(output: seq<string>)
    requires output == ["info depth 10 score cp 34", "bestmove e2e4"]
    ensures LastScoreType(output) == "cp" && LastScore(output) == Ok(34) && BestMove(output) == Ok("e2e4")
  {
    ExampleScore(output);
    ExampleMove(output);
  }

  lemma ExampleScore(output: seq<string>)
    requires output == ["info depth 10 score cp 34", "bestmove e2e4"]
    ensures LastScoreType(output) == "cp" && LastScore(output) == Ok(34)
  {
    ExampleInfoLine();
    InfoScore(output, ["info", "depth", "10"], "cp", 34, []);
  }

  lemma ExampleMove(output: seq<string>)
    requires output == ["info depth 10 score cp 34", "bestmove e2e4"]
    ensures BestMove(output) == Ok("e2e4")
  {
    ExampleMoveLine();
    BestMoveReply(output, [], "e2e4", []);
  }
}
