/** The channels the HMAC and GitHub extensions derive from what a sender writes. */
module ExtensionChannels {
  import opened Wrappers
  import opened Strings
  import opened Channel
  import opened ChannelClaims

  // ------------------------------------------------------------------ one token

  function NormalizedChar(c: char): (r: char)
    ensures IsTokenChar(r)
    ensures IsTokenChar(c) ==> r == c
  {
    if IsTokenChar(c) then c
    else if 'A' <= c <= 'Z' then c - 'A' + 'a'
    else '-'
  }

  function Normalized(s: string): (r: string)
    ensures |r| == |s| && forall i :: 0 <= i < |s| ==> r[i] == NormalizedChar(s[i])
  {
    if s == "" then "" else Normalized(s[..|s| - 1]) + [NormalizedChar(s[|s| - 1])]
  }

  function TrimLeft(s: string): string {
    if s != "" && s[0] == '-' then TrimLeft(s[1..]) else s
  }

  function TrimRight(s: string): string {
    if s != "" && s[|s| - 1] == '-' then TrimRight(s[..|s| - 1]) else s
  }

  function Token(input: string): string {
    TrimRight(TrimLeft(Normalized(input)))
  }

  method ChannelToken(input: string) returns (token: string)
    ensures token == Token(input)
  {
    token := "";
    for i := 0 to |input|
      invariant token == Normalized(input[..i])
    {
      token := token + [NormalizedChar(input[i])];
      assert input[..i + 1][..i] == input[..i];
    }
    assert input[..|input|] == input;
    while token != "" && token[0] == '-'
      invariant TrimLeft(token) == TrimLeft(Normalized(input))
      decreases |token|
    {
      token := token[1..];
    }
    while token != "" && token[|token| - 1] == '-'
      invariant TrimRight(token) == Token(input)
      decreases |token|
    {
      token := token[..|token| - 1];
    }
  }

  /** Some character stands for itself in a token: a letter, a digit or an underscore. */
  predicate HasSubstance(input: string) {
    exists i :: 0 <= i < |input| && NormalizedChar(input[i]) != '-'
  }

  lemma {:induction false} TrimLeftMeaning(s: string) returns (k: nat)
    ensures k <= |s| && TrimLeft(s) == s[k..] && forall i :: 0 <= i < k ==> s[i] == '-'
    ensures k < |s| ==> s[k] != '-'
  {
    k := 0;
    if s != "" && s[0] == '-' {
      var n := TrimLeftMeaning(s[1..]);
      k := n + 1;
      assert s[1..][n..] == s[k..];
      assert forall i :: 1 <= i < k ==> s[i] == s[1..][i - 1];
    }
  }

  lemma {:induction false} TrimRightMeaning(s: string) returns (k: nat)
    ensures k <= |s| && TrimRight(s) == s[..k] && forall i :: k <= i < |s| ==> s[i] == '-'
    ensures k > 0 ==> s[k - 1] != '-'
  {
    k := |s|;
    if s != "" && s[|s| - 1] == '-' {
      var front := s[..|s| - 1];
      k := TrimRightMeaning(front);
      assert front[..k] == s[..k];
      assert forall i :: k <= i < |front| ==> s[i] == front[i];
    }
  }

  /** Trimming cuts the normalised text to a slice, with only dashes outside it. */
  lemma TokenIsSlice(input: string) returns (k: nat, m: nat)
    ensures k <= m <= |input| && Token(input) == Normalized(input)[k..m]
    ensures forall i :: 0 <= i < |input| && Normalized(input)[i] != '-' ==> k <= i < m
    ensures k < m ==> Normalized(input)[k] != '-' && Normalized(input)[m - 1] != '-'
  {
    var all := Normalized(input);
    var left := TrimLeft(all);
    k := TrimLeftMeaning(all);
    var n := TrimRightMeaning(left);
    m := k + n;
    assert all[k..][..n] == all[k..m];
    forall i | 0 <= i < |input| && all[i] != '-'
      ensures k <= i < m
    {
      assert k <= i && left[i - k] == all[i];
    }
  }

  /** A normalised name is a plain token unless nothing in it is of substance, and then it is
      empty; it never begins or ends with a dash. */
  lemma TokenMeaning(input: string)
    ensures HasSubstance(input) <==> ValidPlainToken(Token(input))
    ensures !HasSubstance(input) <==> Token(input) == ""
    ensures Token(input) != "" ==> Token(input)[0] != '-' && Token(input)[|Token(input)| - 1] != '-'
  {
    var k, m := TokenIsSlice(input);
    assert k < m ==> NormalizedChar(input[k]) != '-';
    if HasSubstance(input) {
      var i :| 0 <= i < |input| && NormalizedChar(input[i]) != '-';
      assert Normalized(input)[i] != '-';
    }
  }

  /** Normalising a second time changes nothing. */
  lemma TokenIsStable(input: string)
    ensures Token(Token(input)) == Token(input)
  {
    TokenMeaning(input);
    var token := Token(input);
    if HasSubstance(input) {
      assert Normalized(token) == token;
      assert TrimLeft(token) == token && TrimRight(token) == token;
    }
  }

  ghost predicate Trimmed(s: string) {
    s != "" && s[0] != '-' && s[|s| - 1] != '-'
  }

  lemma TrimmedStays(s: string)
    requires Trimmed(s)
    ensures TrimLeft(s) == s && TrimRight(s) == s
  {
  }

  /** Whether two names differ only in the case of letters. */
  ghost predicate SameButForCase(a: string, b: string) {
    |a| == |b| && forall i :: 0 <= i < |a| ==> a[i] == b[i] || Cased(a[i], b[i]) || Cased(b[i], a[i])
  }

  predicate Cased(upper: char, lower: char) {
    'A' <= upper <= 'Z' && lower as int == upper as int + 32
  }

  /** Case does not matter to a token, and any two characters that no token may hold are alike. */
  lemma CaseDoesNotMatter(a: string, b: string)
    requires SameButForCase(a, b)
    ensures Token(a) == Token(b)
  {
    assert Normalized(a) == Normalized(b);
  }

  /** A name that is a plain token without outer dashes is its own token, and so is a name that
      differs from it in case alone. */
  lemma PlainNameIsItsToken(name: string, token: string)
    requires ValidPlainToken(token) && Trimmed(token)
    requires SameButForCase(name, token)
    ensures Token(name) == token && Named(name) == token
  {
    CaseDoesNotMatter(name, token);
    assert Normalized(token) == token;
    TrimmedStays(token);
    TokenMeaning(token);
    TokenMeaning(name);
  }

  /** Anything else between two plain names becomes a dash, and at either end of a name nothing. */
  lemma PunctuationIsADash(left: string, c: char, right: string)
    requires !IsTokenChar(c) && !('A' <= c <= 'Z')
    requires ValidPlainToken(left) && Trimmed(left) && ValidPlainToken(right) && Trimmed(right)
    ensures Token(left + [c] + right) == left + "-" + right
    ensures Token([c] + left) == left && Token(left + [c]) == left
  {
    var joined := left + "-" + right;
    assert Normalized(left + [c] + right) == joined;
    TrimmedStays(joined);
    DashBefore(left, c);
    DashAfter(left, c);
  }

  lemma DashBefore(name: string, c: char)
    requires NormalizedChar(c) == '-' && ValidPlainToken(name) && Trimmed(name)
    ensures Token([c] + name) == name
  {
    TrimmedStays(name);
    var dashed := "-" + name;
    assert Normalized([c] + name) == dashed;
    assert dashed[0] == '-' && dashed[1..] == name;
  }

  lemma DashAfter(name: string, c: char)
    requires NormalizedChar(c) == '-' && ValidPlainToken(name) && Trimmed(name)
    ensures Token(name + [c]) == name
  {
    TrimmedStays(name);
    var dashed := name + "-";
    assert Normalized(name + [c]) == dashed;
    assert dashed[0] == name[0] && TrimLeft(dashed) == dashed;
    assert dashed[|name|] == '-' && dashed[..|name|] == name;
  }

  // ----------------------------------------------------------- HMAC: prefix and path

  /** The tokens a list of path segments adds. */
  function Kept(segments: seq<string>): seq<string> {
    if segments == [] then []
    else
      var before, token := Kept(segments[..|segments| - 1]), Token(segments[|segments| - 1]);
      if token == "" then before else before + [token]
  }

  /** Segments beyond the leading slash and the mount. */
  function Beyond(path: string): seq<string> {
    var segments := Split(path, '/');
    if |segments| < 2 then [] else segments[2..]
  }

  /** A channel with further tokens. */
  function Extended(channel: string, tokens: seq<string>): string {
    if tokens == [] then channel else Extended(channel, tokens[..|tokens| - 1]) + "." + tokens[|tokens| - 1]
  }

  lemma {:induction false} ExtendedTokens(channel: string, tokens: seq<string>)
    requires forall i :: 0 <= i < |tokens| ==> ValidPlainToken(tokens[i])
    ensures Tokens(Extended(channel, tokens)) == Tokens(channel) + tokens
  {
    if tokens == [] {
      assert Tokens(channel) + tokens == Tokens(channel);
    } else {
      var n := |tokens| - 1;
      ExtendedTokens(channel, tokens[..n]);
      AppendToken(Extended(channel, tokens[..n]), tokens[n]);
      assert tokens == tokens[..n] + [tokens[n]];
    }
  }

  lemma AppendToken(channel: string, token: string)
    requires ValidPlainToken(token)
    ensures Tokens(channel + "." + token) == Tokens(channel) + [token]
  {
    assert channel + "." + token == channel + ['.'] + token;
    SplitConcat(channel, token, '.');
    assert '.' !in token;
    SplitWithoutSeparator(token, '.');
  }

  /** The channel of a request: the prefix and what its path adds. */
  function DerivedChannel(prefix: string, path: string): string {
    Extended(prefix, Kept(Beyond(path)))
  }

  method DeriveChannel(prefix: string, path: string) returns (channel: string)
    ensures channel == DerivedChannel(prefix, path)
  {
    hide Token;
    channel := prefix;
    var segments := Beyond(path);
    for i := 0 to |segments|
      invariant channel == Extended(prefix, Kept(segments[..i]))
    {
      assert segments[..i + 1][..i] == segments[..i];
      var token := ChannelToken(segments[i]);
      if token != "" {
        ghost var tokens := Kept(segments[..i]) + [token];
        assert tokens[..|tokens| - 1] == Kept(segments[..i]);
        channel := channel + "." + token;
      }
    }
    assert segments[..|segments|] == segments;
  }

  /** Of a path `/mount/a/b...` it is the segments after the mount that count, each with substance in
      turn adding one token, and a path with no segment after the mount adds nothing. */
  lemma PathTokens(prefix: string, mount: string, rest: seq<string>)
    requires '/' !in mount && forall i :: 0 <= i < |rest| ==> '/' !in rest[i]
    ensures DerivedChannel(prefix, "/" + mount) == prefix
    ensures rest != [] ==>
      DerivedChannel(prefix, "/" + mount + "/" + Join(rest, '/')) == Extended(prefix, Kept(rest))
  {
    SplitWithoutSeparator(mount, '/');
    assert "/" + mount == "" + ['/'] + mount;
    SplitConcat("", mount, '/');
    if rest != [] {
      SplitJoin(rest, '/');
      var whole, tail := "/" + mount + "/" + Join(rest, '/'), Join(rest, '/');
      assert whole == ("/" + mount) + ['/'] + tail;
      SplitConcat("/" + mount, tail, '/');
      assert ((["", mount]) + rest)[2..] == rest;
    }
  }

  /** The kept tokens are those of the segments with substance, in order. */
  lemma {:induction false} KeptMeaning(left: seq<string>, segment: string, right: seq<string>)
    ensures Kept(left + [segment] + right)
         == Kept(left) + (if HasSubstance(segment) then [Token(segment)] else []) + Kept(right)
    decreases |right|
  {
    hide Token, HasSubstance;
    var all := left + [segment] + right;
    TokenMeaning(segment);
    if right == [] {
      assert all[..|all| - 1] == left;
      assert Kept(left) + [] == Kept(left);
    } else {
      var n := |right| - 1;
      KeptMeaning(left, segment, right[..n]);
      assert all[..|all| - 1] == left + [segment] + right[..n];
    }
  }

  lemma {:induction false} KeptAreTokens(segments: seq<string>)
    ensures forall i :: 0 <= i < |Kept(segments)| ==> ValidPlainToken(Kept(segments)[i])
  {
    if segments != [] {
      KeptAreTokens(segments[..|segments| - 1]);
      TokenMeaning(segments[|segments| - 1]);
    }
  }

  /** For every prefix and every request path the derived channel lies under the prefix, with the
      path's tokens after the prefix's; it is a valid channel, and passes the ownership check, exactly
      when the prefix is valid. */
  lemma DerivedChannelIsOwned(prefix: string, path: string, claims: seq<string>)
    ensures var channel := DerivedChannel(prefix, path);
      && Tokens(channel) == Tokens(prefix) + Kept(Beyond(path))
      && InPrefix(channel, prefix)
      && (ValidChannel(channel) <==> ValidChannel(prefix))
      && (MayEmit(channel, claims, [prefix]) <==> ValidChannel(prefix))
  {
    var channel := DerivedChannel(prefix, path);
    KeptAreTokens(Beyond(path));
    ExtendedTokens(prefix, Kept(Beyond(path)));
    InPrefixByTokens(channel, prefix);
    ValidateChannelMeaning(channel);
    assert InPrefix(channel, [prefix][0]);
    forall i | 0 <= i < |Tokens(prefix)|
      ensures Tokens(prefix)[i] == Tokens(channel)[i]
    {
    }
  }

  /** A prefix taken from the environment is normalised to a single token; it is a valid prefix
      exactly when it has substance, which a value of punctuation alone does not. */
  lemma EnvironmentPrefixIsValidIff(raw: string)
    ensures ValidChannel(Token(raw)) <==> HasSubstance(raw)
  {
    TokenMeaning(raw);
    var token := Token(raw);
    if HasSubstance(raw) {
      assert '.' !in token;
      SplitWithoutSeparator(token, '.');
      assert Tokens(token) == [token];
    } else {
      assert Tokens(token)[0] == "";
    }
  }

  // --------------------------------------------------------- GitHub: event and action

  /** A name with nothing of substance is "unknown". */
  method TokenOrUnknown(input: string) returns (token: string)
    ensures ValidPlainToken(token)
    ensures token == Named(input)
  {
    token := ChannelToken(input);
    TokenMeaning(input);
    if token == "" {
      token := "unknown";
    }
  }

  /** The token a name is given. */
  function Named(name: string): string {
    if HasSubstance(name) then Token(name) else "unknown"
  }

  /** A missing event header counts as "unknown"; a missing action adds nothing. */
  function GithubTokens(event: Option<string>, action: Option<string>): seq<string> {
    var first := if event.Some? then Named(event.value) else "unknown";
    if action.Some? then [first, Named(action.value)] else [first]
  }

  function GithubChannel(event: Option<string>, action: Option<string>): string {
    Extended("github", GithubTokens(event, action))
  }

  method BuildGithubChannel(event: Option<string>, action: Option<string>) returns (channel: string)
    ensures channel == GithubChannel(event, action)
  {
    hide Normalized, TrimLeft, TrimRight, Token, HasSubstance, NormalizedChar;
    UnknownStays();
    var eventToken := TokenOrUnknown(if event.Some? then event.value else "unknown");
    channel := "github" + "." + eventToken;
    assert [eventToken][..0] == [];
    assert channel == Extended("github", [eventToken]);
    if action.Some? {
      var actionToken := TokenOrUnknown(action.value);
      if actionToken != "" {
        assert [eventToken, actionToken][..1] == [eventToken];
        channel := channel + "." + actionToken;
      }
    }
  }

  lemma NamedIsPlain(name: string)
    ensures ValidPlainToken(Named(name))
  {
    TokenMeaning(name);
  }

  lemma GithubTokensPlain(event: Option<string>, action: Option<string>)
    ensures forall i :: 0 <= i < |GithubTokens(event, action)| ==> ValidPlainToken(GithubTokens(event, action)[i])
  {
    hide Named, ValidPlainToken;
    NamedIsPlain("unknown");
    UnknownStays();
    if event.Some? {
      NamedIsPlain(event.value);
    }
    if action.Some? {
      NamedIsPlain(action.value);
    }
  }

  /** For every event and every action, or none, the GitHub channel has a token for each, is valid,
      and is owned under the claim `github`. */
  lemma GithubChannelIsOwned(event: Option<string>, action: Option<string>)
    ensures var channel := GithubChannel(event, action);
      && Tokens(channel) == ["github"] + GithubTokens(event, action)
      && ValidChannel(channel)
      && MayEmit(channel, ["github"], [])
  {
    hide Named, Extended, Split, GithubTokens, ValidPlainToken, ValidateChannel;
    var channel, tokens := GithubChannel(event, action), GithubTokens(event, action);
    GithubTokensPlain(event, action);
    ExtendedTokens("github", tokens);
    GithubIsPlain();
    assert forall i :: 1 <= i < |Tokens(channel)| ==> Tokens(channel)[i] == tokens[i - 1];
    ValidateChannelMeaning(channel);
    assert ["github"][0] == FirstSegment(channel);
  }

  /** A plain event and action, in whatever case they are written, give `github.event.action`; a missing
      event is "unknown", a missing action adds nothing, and a name without substance is "unknown". */
  lemma GithubChannelText(event: string, action: string, e: string, a: string)
    requires ValidPlainToken(e) && Trimmed(e) && SameButForCase(event, e)
    requires ValidPlainToken(a) && Trimmed(a) && SameButForCase(action, a)
    ensures GithubChannel(Some(event), Some(action)) == "github." + e + "." + a
    ensures GithubChannel(Some(event), None) == "github." + e
    ensures GithubChannel(None, Some(action)) == "github.unknown." + a
    ensures GithubChannel(Some(""), Some("")) == "github.unknown.unknown"
  {
    hide Named, Extended, ValidPlainToken, SameButForCase;
    PlainNameIsItsToken(event, e);
    PlainNameIsItsToken(action, a);
    NothingIsUnknown();
    TwoTokens(e, a);
    TwoTokens("unknown", a);
    TwoTokens("unknown", "unknown");
  }

  lemma NothingIsUnknown()
    ensures Named("") == "unknown"
  {
    TokenMeaning("");
  }

  lemma TwoTokens(first: string, second: string)
    ensures Extended("github", [first]) == "github." + first
    ensures Extended("github", [first, second]) == "github." + first + "." + second
  {
    assert [first][..0] == [] && [first, second][..1] == [first];
    assert "github" + "." + first == "github." + first;
  }

  lemma GithubIsPlain()
    ensures ValidPlainToken("github") && Tokens("github") == ["github"]
  {
    assert ValidPlainToken("github");
    SplitWithoutSeparator("github", '.');
  }

  lemma UnknownStays()
    ensures Named("unknown") == "unknown"
  {
    var s := "unknown";
    assert NormalizedChar(s[0]) != '-';
    assert Normalized(s) == s;
    assert TrimLeft(s) == s && TrimRight(s) == s;
  }
}
