/** Namespace ownership: what an extension may claim at registration and emit on afterwards. */
module ChannelClaims {
  import opened Wrappers
  import opened Sequences
  import opened Strings
  import opened Channel

  function FirstSegment(channel: string): string {
    Tokens(channel)[0]
  }

  /** The test on the text: equal, or continuing with a dot. */
  predicate InPrefix(channel: string, prefix: string) {
    || channel == prefix
    || (|prefix| < |channel| && channel[..|prefix|] == prefix && channel[|prefix|] == '.')
  }

  predicate PrefixesOverlap(left: string, right: string) {
    InPrefix(left, right) || InPrefix(right, left)
  }

  /** The source also looks for '/', which is no token character. */
  predicate ValidPathClaim(claim: string) {
    claim != "" && '/' !in claim && forall i :: 0 <= i < |claim| ==> IsTokenChar(claim[i])
  }

  // --------------------------------------------------- text tests and token tests

  /** The test on the text is the test on the tokens, for every two strings. */
  lemma InPrefixByTokens(channel: string, prefix: string)
    ensures InPrefix(channel, prefix) <==> Tokens(prefix) <= Tokens(channel)
  {
    if InPrefix(channel, prefix) && channel != prefix {
      var rest := channel[|prefix| + 1..];
      assert channel == prefix + ['.'] + rest;
      SplitConcat(prefix, rest, '.');
    }
    if Tokens(prefix) <= Tokens(channel) && Tokens(prefix) != Tokens(channel) {
      var rest := Tokens(channel)[|Tokens(prefix)|..];
      assert Tokens(channel) == Tokens(prefix) + rest;
      JoinConcat(Tokens(prefix), rest, '.');
      assert channel == prefix + ['.'] + Join(rest, '.');
    } else if Tokens(prefix) == Tokens(channel) {
      SplitInjective(channel, prefix, '.');
    }
  }

  /** Being under a prefix is being the prefix or matching the pattern `prefix.>`. */
  lemma InPrefixAsPattern(channel: string, prefix: string)
    requires ValidChannel(channel) && ValidChannel(prefix)
    ensures InPrefix(channel, prefix) <==> channel == prefix || Matching(channel, prefix + ".>") == Ok(true)
  {
    hide Split, ValidPlainToken, Matching, InPrefix;
    PrefixPattern(prefix);
    MatchingMeaning(channel, prefix + ".>");
    InPrefixByTokens(channel, prefix);
    SplitInjective(channel, prefix, '.');
    TailMeansMore(Tokens(prefix), Tokens(channel));
  }

  /** `prefix.>` has the prefix's tokens and then the tail. */
  lemma PrefixPattern(prefix: string)
    requires ValidChannel(prefix)
    ensures Tokens(prefix + ".>") == Tokens(prefix) + [TAIL] && ValidPattern(prefix + ".>")
    ensures forall i :: 0 <= i < |Tokens(prefix)| ==> Tokens(prefix)[i] != ANY && Tokens(prefix)[i] != TAIL
  {
    assert prefix + ".>" == prefix + ['.'] + ">";
    SplitConcat(prefix, ">", '.');
    SplitWithoutSeparator(">", '.');
    forall i | 0 <= i < |Tokens(prefix)|
      ensures Tokens(prefix)[i] != ANY && Tokens(prefix)[i] != TAIL
    {
      assert ValidPlainToken(Tokens(prefix)[i]);
      assert !IsTokenChar(ANY[0]) && !IsTokenChar(TAIL[0]);
    }
  }

  lemma TailMeansMore(tokens: seq<string>, channel: seq<string>)
    requires forall i :: 0 <= i < |tokens| ==> tokens[i] != ANY && tokens[i] != TAIL
    ensures PositionalMatch(tokens + [TAIL], channel) <==> tokens <= channel && tokens != channel
  {
  }

  /** Two prefixes of one channel always overlap. */
  lemma PrefixesOfOneChannelOverlap(channel: string, left: string, right: string)
    requires InPrefix(channel, left) && InPrefix(channel, right)
    ensures PrefixesOverlap(left, right)
  {
    InPrefixByTokens(channel, left);
    InPrefixByTokens(channel, right);
    InPrefixByTokens(left, right);
    InPrefixByTokens(right, left);
  }

  lemma FirstSegmentOfPrefix(channel: string, prefix: string)
    requires InPrefix(channel, prefix)
    ensures FirstSegment(channel) == FirstSegment(prefix)
  {
    InPrefixByTokens(channel, prefix);
  }

  /** A claim is well formed exactly when it is a valid channel of one token. */
  lemma ClaimIsOneToken(claim: string)
    ensures ValidPathClaim(claim) <==> ValidChannel(claim) && Tokens(claim) == [claim]
  {
    assert !IsTokenChar('.') && !IsTokenChar('/');
    if ValidPathClaim(claim) {
      SplitWithoutSeparator(claim, '.');
      assert ValidPlainToken(claim);
    }
    if ValidChannel(claim) && Tokens(claim) == [claim] {
      assert ValidPlainToken(Tokens(claim)[0]);
    }
  }

  // ---------------------------------------------------------------- emission

  datatype EmitError = InvalidChannel(error: ChannelError) | NotOwned

  predicate Owns(channel: string, claims: seq<string>, prefixes: seq<string>) {
    || (exists i :: 0 <= i < |claims| && claims[i] == FirstSegment(channel))
    || (exists j :: 0 <= j < |prefixes| && InPrefix(channel, prefixes[j]))
  }

  function ValidateEmittedChannel(channel: string, claims: seq<string>, prefixes: seq<string>): Result<(), EmitError> {
    match ValidateChannel(channel)
    case Err(error) => Err(InvalidChannel(error))
    case Ok(_) => if Owns(channel, claims, prefixes) then Ok(()) else Err(NotOwned)
  }

  predicate MayEmit(channel: string, claims: seq<string>, prefixes: seq<string>) {
    ValidateEmittedChannel(channel, claims, prefixes).Ok?
  }

  /** Emission is the right to a namespace: an extension that may emit on a channel may emit on
      every valid channel below it. */
  lemma EmissionIsDownwardClosed(channel: string, below: string, claims: seq<string>, prefixes: seq<string>)
    requires MayEmit(channel, claims, prefixes) && ValidChannel(below) && InPrefix(below, channel)
    ensures MayEmit(below, claims, prefixes)
  {
    ValidateChannelMeaning(below);
    FirstSegmentOfPrefix(below, channel);
    InPrefixByTokens(below, channel);
    if exists j :: 0 <= j < |prefixes| && InPrefix(channel, prefixes[j]) {
      var j :| 0 <= j < |prefixes| && InPrefix(channel, prefixes[j]);
      InPrefixByTokens(channel, prefixes[j]);
      InPrefixByTokens(below, prefixes[j]);
    }
  }

  function OwnedEvents(channels: seq<string>, claims: seq<string>, prefixes: seq<string>): seq<string> {
    if channels == [] then []
    else
      var before, last := OwnedEvents(channels[..|channels| - 1], claims, prefixes), channels[|channels| - 1];
      if MayEmit(last, claims, prefixes) then before + [last] else before
  }

  /** The right to emit, token by token: the channel is valid, and its first token is claimed or a
      declared prefix's tokens begin it. */
  lemma EmissionMeaning(channel: string, claims: seq<string>, prefixes: seq<string>)
    ensures MayEmit(channel, claims, prefixes) <==>
      && ValidChannel(channel)
      && (Tokens(channel)[0] in claims || exists prefix :: prefix in prefixes && Tokens(prefix) <= Tokens(channel))
  {
    ValidateChannelMeaning(channel);
    forall prefix: string
      ensures InPrefix(channel, prefix) <==> Tokens(prefix) <= Tokens(channel)
    {
      InPrefixByTokens(channel, prefix);
    }
  }

  /** The events that pass are all those that may be emitted, each as often as it was offered and in
      the order offered, and no others. */
  lemma {:induction false} OwnedEventsAreAllOwned(channels: seq<string>, claims: seq<string>, prefixes: seq<string>)
    ensures var owned := OwnedEvents(channels, claims, prefixes);
      && Subsequence(owned, channels)
      && forall c ::
           multiset(owned)[c] == if MayEmit(c, claims, prefixes) then multiset(channels)[c] else 0
  {
    hide MayEmit;
    if channels != [] {
      var before, last := channels[..|channels| - 1], channels[|channels| - 1];
      OwnedEventsAreAllOwned(before, claims, prefixes);
      assert channels == before + [last];
      if MayEmit(last, claims, prefixes) {
        SubsequenceTake(OwnedEvents(before, claims, prefixes), before, last);
      } else {
        SubsequenceSkip(OwnedEvents(before, claims, prefixes), before, last);
      }
    }
  }

  /** Unauthorised events are dropped and counted; the others pass in order. An event is
      represented by its channel. */
  method FilterOwnedEvents(channels: seq<string>, claims: seq<string>, prefixes: seq<string>, violations: nat)
    returns (owned: seq<string>, counted: nat)
    ensures owned == OwnedEvents(channels, claims, prefixes)
    ensures |owned| + counted == |channels| + violations
  {
    owned, counted := [], violations;
    for i := 0 to |channels|
      invariant owned == OwnedEvents(channels[..i], claims, prefixes)
      invariant |owned| + counted == i + violations
    {
      assert channels[..i + 1][..i] == channels[..i];
      if MayEmit(channels[i], claims, prefixes) {
        owned := owned + [channels[i]];
      } else {
        counted := counted + 1;
      }
    }
    assert channels[..|channels|] == channels;
  }

  // -------------------------------------------------------------- registration

  datatype ClaimError =
    | InvalidClaim(claim: string)
    | DuplicateClaim(claim: string)
    | PathCollision(claim: string, owner: string)
    | ClaimHitsPrefix(claim: string, prefix: string, owner: string)
    | InvalidPrefix(prefix: string)
    | PrefixesCollide(prefix: string, other: string)
    | PrefixHitsRoute(prefix: string, owner: string)
    | PrefixHitsPrefix(prefix: string, other: string, owner: string)

  ghost predicate ClaimAdmissible(id: string, claims: seq<string>, i: nat, routes: map<string, string>, existing: map<string, string>)
    requires i < |claims|
  {
    && ValidPathClaim(claims[i])
    && claims[i] !in claims[..i]
    && claims[i] !in routes
    && forall prefix :: prefix in existing && existing[prefix] != id ==> FirstSegment(prefix) != claims[i]
  }

  ghost predicate PrefixAdmissible(id: string, prefixes: seq<string>, j: nat, routes: map<string, string>, existing: map<string, string>)
    requires j < |prefixes|
  {
    && ValidChannel(prefixes[j])
    && (forall k :: 0 <= k < j ==> !PrefixesOverlap(prefixes[j], prefixes[k]))
    && (FirstSegment(prefixes[j]) in routes ==> routes[FirstSegment(prefixes[j])] == id)
    && forall prefix :: prefix in existing && existing[prefix] != id ==> !PrefixesOverlap(prefixes[j], prefix)
  }

  ghost predicate Admissible(id: string, claims: seq<string>, prefixes: seq<string>,
                             routes: map<string, string>, existing: map<string, string>)
  {
    && (forall i :: 0 <= i < |claims| ==> ClaimAdmissible(id, claims, i, routes, existing))
    && (forall j :: 0 <= j < |prefixes| ==> PrefixAdmissible(id, prefixes, j, routes, existing))
  }

  ghost predicate TokensOverlap(left: string, right: string) {
    Tokens(left) <= Tokens(right) || Tokens(right) <= Tokens(left)
  }

  ghost predicate ClaimsApart(id: string, claims: seq<string>, existing: map<string, string>) {
    && (forall i, j :: 0 <= i < j < |claims| ==> claims[i] != claims[j])
    && (forall prefix :: prefix in existing && existing[prefix] != id ==> Tokens(prefix)[0] !in claims)
  }

  /** What registration asks of claims, in sets and tokens: each is a single token, none is routed
      already, no two are equal, and none is the first token of a prefix someone else declared. */
  lemma ClaimsAdmittedIff(id: string, claims: seq<string>, routes: map<string, string>, existing: map<string, string>)
    ensures (forall i :: 0 <= i < |claims| ==> ClaimAdmissible(id, claims, i, routes, existing)) <==>
      && (forall i :: 0 <= i < |claims| ==> ValidChannel(claims[i]) && Tokens(claims[i]) == [claims[i]] && claims[i] !in routes)
      && ClaimsApart(id, claims, existing)
  {
    forall i | 0 <= i < |claims|
      ensures ValidPathClaim(claims[i]) <==> ValidChannel(claims[i]) && Tokens(claims[i]) == [claims[i]]
    {
      ClaimIsOneToken(claims[i]);
    }
    hide ValidPathClaim, ValidChannel, Tokens;
    if forall i :: 0 <= i < |claims| ==> ClaimAdmissible(id, claims, i, routes, existing) {
      forall i, j | 0 <= i < j < |claims|
        ensures claims[i] != claims[j]
      {
        assert ClaimAdmissible(id, claims, j, routes, existing) && claims[i] == claims[..j][i];
      }
      forall prefix, i | prefix in existing && existing[prefix] != id && 0 <= i < |claims|
        ensures Tokens(prefix)[0] != claims[i]
      {
        assert ClaimAdmissible(id, claims, i, routes, existing) && FirstSegment(prefix) == Tokens(prefix)[0];
      }
      forall i | 0 <= i < |claims|
        ensures ValidPathClaim(claims[i]) && claims[i] !in routes
      {
        assert ClaimAdmissible(id, claims, i, routes, existing);
      }
    } else {
      var i :| 0 <= i < |claims| && !ClaimAdmissible(id, claims, i, routes, existing);
      assert claims[i] in claims[..i] ==> exists k :: 0 <= k < i && claims[k] == claims[i];
      assert forall prefix :: prefix in existing ==> FirstSegment(prefix) == Tokens(prefix)[0];
    }
  }

  ghost predicate PrefixesApart(id: string, prefixes: seq<string>, existing: map<string, string>) {
    && (forall i, j :: 0 <= i < j < |prefixes| ==> !TokensOverlap(prefixes[j], prefixes[i]))
    && (forall j, q :: 0 <= j < |prefixes| && q in existing && existing[q] != id ==> !TokensOverlap(prefixes[j], q))
  }

  /** And of prefixes: each is a valid channel and does not begin with a token routed to someone else,
      and token by token no two overlap, nor does one with a prefix someone else declared. */
  lemma PrefixesAdmittedIff(id: string, prefixes: seq<string>, routes: map<string, string>, existing: map<string, string>)
    ensures (forall j :: 0 <= j < |prefixes| ==> PrefixAdmissible(id, prefixes, j, routes, existing)) <==>
      && (forall j :: 0 <= j < |prefixes| ==>
            ValidChannel(prefixes[j]) && (Tokens(prefixes[j])[0] in routes ==> routes[Tokens(prefixes[j])[0]] == id))
      && PrefixesApart(id, prefixes, existing)
  {
    forall p: string, q: string
      ensures PrefixesOverlap(p, q) <==> TokensOverlap(p, q)
    {
      InPrefixByTokens(p, q);
      InPrefixByTokens(q, p);
    }
    assert forall p :: FirstSegment(p) == Tokens(p)[0];
    hide ValidChannel, PrefixesOverlap, TokensOverlap, Tokens, FirstSegment;
    if forall j :: 0 <= j < |prefixes| ==> PrefixAdmissible(id, prefixes, j, routes, existing) {
      forall i, j | 0 <= i < j < |prefixes|
        ensures !TokensOverlap(prefixes[j], prefixes[i])
      {
        assert PrefixAdmissible(id, prefixes, j, routes, existing);
      }
      forall j | 0 <= j < |prefixes|
        ensures ValidChannel(prefixes[j])
        ensures FirstSegment(prefixes[j]) in routes ==> routes[FirstSegment(prefixes[j])] == id
        ensures forall q :: q in existing && existing[q] != id ==> !PrefixesOverlap(prefixes[j], q)
      {
        assert PrefixAdmissible(id, prefixes, j, routes, existing);
      }
    } else {
      var j :| 0 <= j < |prefixes| && !PrefixAdmissible(id, prefixes, j, routes, existing);
    }
  }

  /** A refusal names a collision that is really there. */
  ghost predicate Justified(error: ClaimError, id: string, claims: seq<string>, prefixes: seq<string>,
                            routes: map<string, string>, existing: map<string, string>) {
    match error
    case InvalidClaim(claim) => claim in claims && !ValidPathClaim(claim)
    case DuplicateClaim(claim) => exists i, j :: 0 <= i < j < |claims| && claims[i] == claims[j] == claim
    case PathCollision(claim, owner) => claim in claims && claim in routes && routes[claim] == owner
    case ClaimHitsPrefix(claim, prefix, owner) =>
      claim in claims && prefix in existing && existing[prefix] == owner != id && FirstSegment(prefix) == claim
    case InvalidPrefix(prefix) => prefix in prefixes && !ValidChannel(prefix)
    case PrefixesCollide(prefix, other) =>
      exists i, j :: 0 <= i < j < |prefixes| && prefixes[i] == other && prefixes[j] == prefix && PrefixesOverlap(prefix, other)
    case PrefixHitsRoute(prefix, owner) =>
      prefix in prefixes && FirstSegment(prefix) in routes && routes[FirstSegment(prefix)] == owner != id
    case PrefixHitsPrefix(prefix, other, owner) =>
      prefix in prefixes && other in existing && existing[other] == owner != id && PrefixesOverlap(prefix, other)
  }

  method FindClaimedPrefix(id: string, claim: string, existing: map<string, string>) returns (hit: Option<string>)
    ensures hit.None? <==> forall prefix :: prefix in existing && existing[prefix] != id ==> FirstSegment(prefix) != claim
    ensures hit.Some? ==> hit.value in existing && existing[hit.value] != id && FirstSegment(hit.value) == claim
  {
    var rest := existing.Keys;
    while rest != {}
      invariant rest <= existing.Keys
      invariant forall prefix :: prefix in existing && prefix !in rest && existing[prefix] != id ==> FirstSegment(prefix) != claim
      decreases rest
    {
      var prefix :| prefix in rest;
      if existing[prefix] != id && FirstSegment(prefix) == claim {
        return Some(prefix);
      }
      rest := rest - {prefix};
    }
    return None;
  }

  method FindOverlappingPrefix(id: string, wanted: string, existing: map<string, string>) returns (hit: Option<string>)
    ensures hit.None? <==> forall prefix :: prefix in existing && existing[prefix] != id ==> !PrefixesOverlap(wanted, prefix)
    ensures hit.Some? ==> hit.value in existing && existing[hit.value] != id && PrefixesOverlap(wanted, hit.value)
  {
    var rest := existing.Keys;
    while rest != {}
      invariant rest <= existing.Keys
      invariant forall prefix :: prefix in existing && prefix !in rest && existing[prefix] != id ==> !PrefixesOverlap(wanted, prefix)
      decreases rest
    {
      var prefix :| prefix in rest;
      if existing[prefix] != id && PrefixesOverlap(wanted, prefix) {
        return Some(prefix);
      }
      rest := rest - {prefix};
    }
    return None;
  }

  method ValidateClaims(id: string, claims: seq<string>, routes: map<string, string>, existing: map<string, string>)
    returns (r: Result<(), ClaimError>)
    ensures r.Ok? <==> forall i :: 0 <= i < |claims| ==> ClaimAdmissible(id, claims, i, routes, existing)
    ensures r.Err? ==> Justified(r.error, id, claims, [], routes, existing)
  {
    var seen: set<string> := {};
    for i := 0 to |claims|
      invariant seen == set k | 0 <= k < i :: claims[k]
      invariant forall k :: 0 <= k < i ==> ClaimAdmissible(id, claims, k, routes, existing)
    {
      var claim := claims[i];
      assert claim in seen <==> claim in claims[..i];
      if !ValidPathClaim(claim) {
        assert !ClaimAdmissible(id, claims, i, routes, existing);
        return Err(InvalidClaim(claim));
      }
      if claim in seen {
        assert !ClaimAdmissible(id, claims, i, routes, existing);
        return Err(DuplicateClaim(claim));
      }
      seen := seen + {claim};
      if claim in routes {
        assert !ClaimAdmissible(id, claims, i, routes, existing);
        return Err(PathCollision(claim, routes[claim]));
      }
      var hit := FindClaimedPrefix(id, claim, existing);
      if hit.Some? {
        assert !ClaimAdmissible(id, claims, i, routes, existing);
        return Err(ClaimHitsPrefix(claim, hit.value, existing[hit.value]));
      }
    }
    return Ok(());
  }

  method ValidatePrefixes(id: string, prefixes: seq<string>, routes: map<string, string>, existing: map<string, string>)
    returns (r: Result<(), ClaimError>)
    ensures r.Ok? <==> forall j :: 0 <= j < |prefixes| ==> PrefixAdmissible(id, prefixes, j, routes, existing)
    ensures r.Err? ==> Justified(r.error, id, [], prefixes, routes, existing)
  {
    for j := 0 to |prefixes|
      invariant forall k :: 0 <= k < j ==> PrefixAdmissible(id, prefixes, k, routes, existing)
    {
      var prefix := prefixes[j];
      ValidateChannelMeaning(prefix);
      if ValidateChannel(prefix).Err? {
        assert !PrefixAdmissible(id, prefixes, j, routes, existing);
        return Err(InvalidPrefix(prefix));
      }
      for k := 0 to j
        invariant forall m :: 0 <= m < k ==> !PrefixesOverlap(prefix, prefixes[m])
      {
        if PrefixesOverlap(prefix, prefixes[k]) {
          assert !PrefixAdmissible(id, prefixes, j, routes, existing);
          return Err(PrefixesCollide(prefix, prefixes[k]));
        }
      }
      var first := FirstSegment(prefix);
      if first in routes && routes[first] != id {
        assert !PrefixAdmissible(id, prefixes, j, routes, existing);
        return Err(PrefixHitsRoute(prefix, routes[first]));
      }
      var hit := FindOverlappingPrefix(id, prefix, existing);
      if hit.Some? {
        assert !PrefixAdmissible(id, prefixes, j, routes, existing);
        return Err(PrefixHitsPrefix(prefix, hit.value, existing[hit.value]));
      }
    }
    return Ok(());
  }

  method ValidateRegistrationClaims(id: string, claims: seq<string>, prefixes: seq<string>,
                                    routes: map<string, string>, existing: map<string, string>)
    returns (r: Result<(), ClaimError>)
    ensures r.Ok? <==> Admissible(id, claims, prefixes, routes, existing)
    ensures r.Err? ==> Justified(r.error, id, claims, prefixes, routes, existing)
  {
    r := ValidateClaims(id, claims, routes, existing);
    if r.Ok? {
      r := ValidatePrefixes(id, prefixes, routes, existing);
    }
  }
}
