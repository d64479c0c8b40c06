/** The channel and pattern grammar, and NATS-style matching. */
module Channel {
  import opened Wrappers
  import opened Strings

  datatype ChannelError =
    | Empty
    | EmptyToken
    | InvalidToken(token: string)
    | WildcardInChannel
    | TailWildcardNotFinal

  const ANY := "*"
  const TAIL := ">"

  predicate IsTokenChar(c: char) {
    'a' <= c <= 'z' || '0' <= c <= '9' || c == '_' || c == '-'
  }

  predicate ValidPlainToken(token: string) {
    token != "" && forall i :: 0 <= i < |token| ==> IsTokenChar(token[i])
  }

  function Tokens(channel: string): (tokens: seq<string>)
  {
    Split(channel, '.')
  }

  // ---------------------------------------------------------------- validation

  function ChannelTokenError(token: string): (r: Option<ChannelError>)
    ensures r.None? <==> ValidPlainToken(token)
  {
    assert !IsTokenChar('*') && !IsTokenChar('>');
    assert token == ANY || token == TAIL ==> !IsTokenChar(token[0]);
    if token == "" then Some(EmptyToken)
    else if token == ANY || token == TAIL then Some(WildcardInChannel)
    else if !ValidPlainToken(token) then Some(InvalidToken(token))
    else None
  }

  function PatternTokenError(token: string, last: bool): (r: Option<ChannelError>)
    ensures r.None? <==> ValidPatternToken(token, last)
  {
    assert token == TAIL ==> !IsTokenChar(token[0]);
    if token == "" then Some(EmptyToken)
    else if token == TAIL then (if last then None else Some(TailWildcardNotFinal))
    else if token == ANY then None
    else if !ValidPlainToken(token) then Some(InvalidToken(token))
    else None
  }

  /** The scan over a channel's tokens stops at the first bad one. */
  function ScanChannel(tokens: seq<string>): (r: Result<(), ChannelError>)
    ensures r.Ok? <==> forall i :: 0 <= i < |tokens| ==> ValidPlainToken(tokens[i])
    ensures r.Err? ==> exists i ::
      && 0 <= i < |tokens|
      && ChannelTokenError(tokens[i]) == Some(r.error)
      && forall j :: 0 <= j < i ==> ValidPlainToken(tokens[j])
  {
    if tokens == [] then Ok(())
    else match ChannelTokenError(tokens[0])
      case Some(error) => Err(error)
      case None =>
        var rest := ScanChannel(tokens[1..]);
        assert rest.Err? ==> exists i ::
          && 0 <= i < |tokens|
          && ChannelTokenError(tokens[i]) == Some(rest.error)
          && forall j :: 0 <= j < i ==> ValidPlainToken(tokens[j]) by {
          if rest.Err? {
            var k :| 0 <= k < |tokens[1..]| && ChannelTokenError(tokens[1..][k]) == Some(rest.error)
              && forall j :: 0 <= j < k ==> ValidPlainToken(tokens[1..][j]);
            assert forall j :: 1 <= j < k + 1 ==> tokens[j] == tokens[1..][j - 1];
            assert tokens[k + 1] == tokens[1..][k];
          }
        }
        rest
  }

  function ValidateChannel(channel: string): (r: Result<(), ChannelError>) {
    if channel == "" then Err(Empty) else ScanChannel(Tokens(channel))
  }

  predicate ValidChannel(channel: string) {
    forall i :: 0 <= i < |Tokens(channel)| ==> ValidPlainToken(Tokens(channel)[i])
  }

  /** A channel is accepted exactly when it is one or more plain tokens joined by dots. */
  lemma ValidateChannelMeaning(channel: string)
    ensures ValidateChannel(channel).Ok? <==> ValidChannel(channel)
  {
    if channel == "" {
      assert Tokens(channel)[0] == "";
    }
  }

  predicate ValidPatternToken(token: string, last: bool) {
    ValidPlainToken(token) || token == ANY || (token == TAIL && last)
  }

  function ScanPattern(tokens: seq<string>): (r: Result<(), ChannelError>)
    ensures r.Ok? <==> forall i :: 0 <= i < |tokens| ==> ValidPatternToken(tokens[i], i + 1 == |tokens|)
  {
    if tokens == [] then Ok(())
    else match PatternTokenError(tokens[0], |tokens| == 1)
      case Some(error) => assert !ValidPatternToken(tokens[0], 0 + 1 == |tokens|); Err(error)
      case None =>
        var rest := ScanPattern(tokens[1..]);
        assert forall i :: 1 <= i < |tokens| ==> tokens[i] == tokens[1..][i - 1];
        rest
  }

  function ValidatePattern(pattern: string): Result<(), ChannelError> {
    if pattern == "" then Err(Empty) else ScanPattern(Tokens(pattern))
  }

  predicate ValidPattern(pattern: string) {
    var tokens := Tokens(pattern);
    forall i :: 0 <= i < |tokens| ==> ValidPatternToken(tokens[i], i + 1 == |tokens|)
  }

  lemma ValidatePatternMeaning(pattern: string)
    ensures ValidatePattern(pattern).Ok? <==> ValidPattern(pattern)
  {
    if pattern == "" {
      assert Tokens(pattern)[0] == "";
    }
  }

  // ------------------------------------------------------------------ matching

  /** The meaning of a pattern, read token by token. */
  predicate TokensMatch(pattern: seq<string>, channel: seq<string>) {
    if pattern == [] then channel == []
    else if pattern[0] == TAIL then channel != []
    else channel != [] && (pattern[0] == ANY || pattern[0] == channel[0]) && TokensMatch(pattern[1..], channel[1..])
  }

  function Matching(channel: string, pattern: string): Result<bool, ChannelError> {
    match ValidateChannel(channel)
    case Err(error) => Err(error)
    case Ok(_) =>
      match ValidatePattern(pattern)
      case Err(error) => Err(error)
      case Ok(_) => Ok(TokensMatch(Tokens(pattern), Tokens(channel)))
  }

  method ChannelMatches(channel: string, pattern: string) returns (r: Result<bool, ChannelError>)
    ensures r == Matching(channel, pattern)
  {
    var channelCheck := ValidateChannel(channel);
    if channelCheck.Err? {
      return Err(channelCheck.error);
    }
    var patternCheck := ValidatePattern(pattern);
    if patternCheck.Err? {
      return Err(patternCheck.error);
    }
    ValidatePatternMeaning(pattern);
    var channelTokens := Tokens(channel);
    var patternTokens := Tokens(pattern);
    var ci := 0;
    for pi := 0 to |patternTokens|
      invariant 0 <= ci <= |channelTokens| && (pi == 0 ==> ci == 0)
      invariant TokensMatch(patternTokens, channelTokens) == TokensMatch(patternTokens[pi..], channelTokens[ci..])
    {
      assert patternTokens[pi..][1..] == patternTokens[pi + 1..];
      assert ci < |channelTokens| ==> channelTokens[ci..][1..] == channelTokens[ci + 1..];
      if patternTokens[pi] == TAIL {
        return Ok(ci < |channelTokens| || pi == 0);
      } else if patternTokens[pi] == ANY {
        if ci >= |channelTokens| {
          return Ok(false);
        }
        ci := ci + 1;
      } else {
        if ci >= |channelTokens| || channelTokens[ci] != patternTokens[pi] {
          return Ok(false);
        }
        ci := ci + 1;
      }
    }
    r := Ok(ci == |channelTokens|);
  }

  /** The same meaning by position: `*` stands for one token, a final `>` for one or more. */
  ghost predicate PositionalMatch(pattern: seq<string>, channel: seq<string>) {
    var tail := pattern != [] && pattern[|pattern| - 1] == TAIL;
    var fixed := if tail then |pattern| - 1 else |pattern|;
    && (if tail then |channel| > fixed else |channel| == fixed)
    && forall i :: 0 <= i < fixed ==> pattern[i] == ANY || pattern[i] == channel[i]
  }

  lemma {:induction false} TokensMatchByPosition(pattern: seq<string>, channel: seq<string>)
    requires forall i :: 0 <= i < |pattern| - 1 ==> pattern[i] != TAIL
    ensures TokensMatch(pattern, channel) <==> PositionalMatch(pattern, channel)
  {
    if pattern != [] && pattern[0] != TAIL && channel != [] {
      TokensMatchByPosition(pattern[1..], channel[1..]);
      assert forall i :: 1 <= i < |pattern| ==> pattern[i] == pattern[1..][i - 1];
      assert forall i :: 1 <= i < |channel| ==> channel[i] == channel[1..][i - 1];
    }
  }

  /** `channel_matches` has the NATS meaning on every pair of valid inputs. */
  lemma MatchingMeaning(channel: string, pattern: string)
    requires ValidChannel(channel) && ValidPattern(pattern)
    ensures Matching(channel, pattern) == Ok(PositionalMatch(Tokens(pattern), Tokens(channel)))
  {
    ValidateChannelMeaning(channel);
    ValidatePatternMeaning(pattern);
    var tokens := Tokens(pattern);
    forall i | 0 <= i < |tokens| - 1
      ensures tokens[i] != TAIL
    {
      assert ValidPatternToken(tokens[i], i + 1 == |tokens|);
      assert !IsTokenChar(TAIL[0]);
    }
    TokensMatchByPosition(tokens, Tokens(channel));
  }

  /** A pattern without wildcards matches exactly the channel it spells. */
  lemma PlainPatternMatchesOnlyItself(channel: string, pattern: string)
    requires ValidChannel(channel) && ValidChannel(pattern)
    ensures Matching(channel, pattern) == Ok(channel == pattern)
  {
    MatchingMeaning(channel, pattern);
    SplitInjective(channel, pattern, '.');
    var tokens := Tokens(pattern);
    assert forall i :: 0 <= i < |tokens| ==> ValidPlainToken(tokens[i]);
    assert !IsTokenChar(ANY[0]) && !IsTokenChar(TAIL[0]);
    assert forall i :: 0 <= i < |tokens| ==> tokens[i] != ANY && tokens[i] != TAIL;
  }

  /** `prefix.*` matches exactly the channels one token longer than the prefix and beginning with it. */
  lemma StarStandsForOneToken(channel: string, prefix: string)
    requires ValidChannel(channel) && ValidChannel(prefix)
    ensures Matching(channel, prefix + ".*")
         == Ok(|Tokens(channel)| == |Tokens(prefix)| + 1 && Tokens(prefix) <= Tokens(channel))
  {
    hide Split, Matching;
    var tokens := Tokens(prefix);
    assert prefix + ".*" == prefix + ['.'] + "*";
    SplitConcat(prefix, "*", '.');
    SplitWithoutSeparator("*", '.');
    assert Tokens(prefix + ".*") == tokens + [ANY];
    assert !IsTokenChar(ANY[0]) && !IsTokenChar(TAIL[0]);
    forall i | 0 <= i < |tokens|
      ensures tokens[i] != ANY && tokens[i] != TAIL
    {
      assert ValidPlainToken(tokens[i]);
    }
    MatchingMeaning(channel, prefix + ".*");
    SameTokens(tokens, Tokens(channel));
  }

  lemma SameTokens(tokens: seq<string>, channel: seq<string>)
    requires forall i :: 0 <= i < |tokens| ==> tokens[i] != ANY && tokens[i] != TAIL
    ensures PositionalMatch(tokens + [ANY], channel) <==> |channel| == |tokens| + 1 && tokens <= channel
  {
    var pattern := tokens + [ANY];
    assert pattern[|tokens|] == ANY && ANY != TAIL;
    assert forall i :: 0 <= i < |tokens| ==> pattern[i] == tokens[i];
  }

  /** The pattern `>` matches every valid channel. */
  lemma TailMatchesEverything(channel: string)
    requires ValidChannel(channel)
    ensures Matching(channel, TAIL) == Ok(true)
  {
    SplitWithoutSeparator(TAIL, '.');
    MatchingMeaning(channel, TAIL);
  }

  /** Whether some pattern of a subscription matches; a failed match counts as no. */
  predicate AnyMatches(patterns: seq<string>, channel: string) {
    exists i :: 0 <= i < |patterns| && Matching(channel, patterns[i]) == Ok(true)
  }
}
