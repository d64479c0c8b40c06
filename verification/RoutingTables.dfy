/** The supervisor's routing tables over registration, draining and cleanup, and the namespace
    separation they keep. */
module RoutingTables {
  import opened Wrappers
  import opened Strings
  import opened Channel
  import opened ChannelClaims

  /** A running extension; `paths` is its id followed by its aliases. */
  datatype Handle = Handle(candidate: string, id: string, generation: nat, paths: seq<string>, channels: seq<string>)

  datatype Tables = Tables(extensions: map<string, Handle>, routes: map<string, string>, prefixes: map<string, string>)

  datatype RegisterError =
    | IdRunning
    | CandidateRunning
    | Rejected(claim: ClaimError)

  predicate CandidateActive(t: Tables, candidate: string) {
    exists id :: id in t.extensions && t.extensions[id].candidate == candidate
  }

  /** What the registration block demands of a newcomer. */
  ghost predicate MayRegister(t: Tables, h: Handle) {
    && h.id !in t.extensions
    && !CandidateActive(t, h.candidate)
    && Admissible(h.id, h.paths, h.channels, t.routes, t.prefixes)
  }

  function Mapped(keys: seq<string>, owner: string): map<string, string> {
    map k | k in keys :: owner
  }

  function Registered(t: Tables, h: Handle): Tables {
    Tables(t.extensions[h.id := h], t.routes + Mapped(h.paths, h.id), t.prefixes + Mapped(h.channels, h.id))
  }

  function Disowned(m: map<string, string>, owner: string): map<string, string> {
    map k | k in m && m[k] != owner :: m[k]
  }

  /** Routes and prefixes are released by owner id. */
  function Unrouted(t: Tables, id: string): Tables {
    t.(routes := Disowned(t.routes, id), prefixes := Disowned(t.prefixes, id))
  }

  predicate IsCurrent(t: Tables, id: string, generation: nat) {
    id in t.extensions && t.extensions[id].generation == generation
  }

  /** Cleanup acts only for the generation that is still registered. */
  function Cleaned(t: Tables, id: string, generation: nat): Tables {
    if IsCurrent(t, id, generation) then Unrouted(t.(extensions := t.extensions - {id}), id) else t
  }

  // ----------------------------------------------------------------- invariant

  ghost predicate IsRouted(t: Tables, draining: set<string>, id: string) {
    id in t.extensions && id !in draining
  }

  /** `draining` names the extensions unrouted but not yet cleaned up. */
  ghost predicate TablesInv(t: Tables, draining: set<string>) {
    && draining <= t.extensions.Keys
    && WellKeyed(t)
    && OneRunEach(t)
    && OwnersClaim(t, draining)
    && ClaimsHeld(t, draining)
    && Separate(t.routes, t.prefixes)
  }

  ghost predicate WellKeyed(t: Tables) {
    forall id :: id in t.extensions ==> t.extensions[id].id == id
  }

  /** No candidate runs twice. */
  ghost predicate OneRunEach(t: Tables) {
    forall a, b ::
      a in t.extensions && b in t.extensions && t.extensions[a].candidate == t.extensions[b].candidate ==> a == b
  }

  /** Every entry's owner is a routed extension that claims it. */
  ghost predicate OwnersClaim(t: Tables, draining: set<string>) {
    && (forall k :: k in t.routes ==> IsRouted(t, draining, t.routes[k]) && k in t.extensions[t.routes[k]].paths)
    && (forall k :: k in t.prefixes ==> IsRouted(t, draining, t.prefixes[k]) && k in t.extensions[t.prefixes[k]].channels)
  }

  /** Every routed extension holds all it claimed. */
  ghost predicate ClaimsHeld(t: Tables, draining: set<string>) {
    forall id :: IsRouted(t, draining, id) ==> HoldsAll(t, t.extensions[id], id)
  }

  ghost predicate HoldsAll(t: Tables, h: Handle, id: string) {
    Owned(h.paths, t.routes, id) && Owned(h.channels, t.prefixes, id)
  }

  ghost predicate Owned(keys: seq<string>, m: map<string, string>, id: string) {
    forall k :: k in keys ==> k in m && m[k] == id
  }

  /** Entries of different owners never reach into each other's namespace. */
  ghost predicate Separate(routes: map<string, string>, prefixes: map<string, string>) {
    && (forall k, p :: k in routes && p in prefixes && routes[k] != prefixes[p] ==> FirstSegment(p) != k)
    && (forall p, q :: p in prefixes && q in prefixes && prefixes[p] != prefixes[q] ==> !PrefixesOverlap(p, q))
  }

  // ------------------------------------------------------- registration keeps it

  lemma AdmittedClaim(h: Handle, routes: map<string, string>, prefixes: map<string, string>, k: string)
    requires Admissible(h.id, h.paths, h.channels, routes, prefixes) && k in h.paths
    ensures k !in routes
    ensures forall p :: p in prefixes && prefixes[p] != h.id ==> FirstSegment(p) != k
  {
    var i :| 0 <= i < |h.paths| && h.paths[i] == k;
    assert ClaimAdmissible(h.id, h.paths, i, routes, prefixes);
  }

  lemma AdmittedPrefix(h: Handle, routes: map<string, string>, prefixes: map<string, string>, p: string)
    requires Admissible(h.id, h.paths, h.channels, routes, prefixes) && p in h.channels
    ensures FirstSegment(p) in routes ==> routes[FirstSegment(p)] == h.id
    ensures forall q :: q in prefixes && prefixes[q] != h.id ==> !PrefixesOverlap(p, q)
  {
    var j :| 0 <= j < |h.channels| && h.channels[j] == p;
    assert PrefixAdmissible(h.id, h.channels, j, routes, prefixes);
  }

  ghost predicate Unused(m: map<string, string>, id: string) {
    forall k :: k in m ==> m[k] != id
  }

  lemma RegisterKeepsSeparate(h: Handle, routes: map<string, string>, prefixes: map<string, string>)
    requires Admissible(h.id, h.paths, h.channels, routes, prefixes)
    requires Separate(routes, prefixes)
    ensures Separate(routes + Mapped(h.paths, h.id), prefixes + Mapped(h.channels, h.id))
  {
    var allRoutes, allPrefixes := routes + Mapped(h.paths, h.id), prefixes + Mapped(h.channels, h.id);
    forall k, p | k in allRoutes && p in allPrefixes && allRoutes[k] != allPrefixes[p]
      ensures FirstSegment(p) != k
    {
      if k in h.paths {
        AdmittedClaim(h, routes, prefixes, k);
      } else if p in h.channels {
        AdmittedPrefix(h, routes, prefixes, p);
      }
    }
    forall p, q | p in allPrefixes && q in allPrefixes && allPrefixes[p] != allPrefixes[q]
      ensures !PrefixesOverlap(p, q)
    {
      if p in h.channels {
        AdmittedPrefix(h, routes, prefixes, p);
      } else if q in h.channels {
        AdmittedPrefix(h, routes, prefixes, q);
      }
    }
  }

  lemma NoEntriesYet(t: Tables, draining: set<string>, h: Handle)
    requires OwnersClaim(t, draining) && h.id !in t.extensions
    requires Admissible(h.id, h.paths, h.channels, t.routes, t.prefixes)
    ensures Unused(t.routes, h.id) && Unused(t.prefixes, h.id)
    ensures forall k :: k in h.paths ==> k !in t.routes
    ensures forall k :: k in h.channels ==> k !in t.prefixes
  {
    forall k | k in h.paths
      ensures k !in t.routes
    {
      AdmittedClaim(h, t.routes, t.prefixes, k);
    }
    forall k | k in h.channels
      ensures k !in t.prefixes
    {
      AdmittedPrefix(h, t.routes, t.prefixes, k);
      assert PrefixesOverlap(k, k);
    }
  }

  lemma RegisterKeepsClaimsHeld(t: Tables, draining: set<string>, h: Handle)
    requires ClaimsHeld(t, draining)
    requires forall k :: k in h.paths ==> k !in t.routes
    requires forall k :: k in h.channels ==> k !in t.prefixes
    ensures ClaimsHeld(Registered(t, h), draining)
  {
    var r := Registered(t, h);
    forall id | IsRouted(r, draining, id)
      ensures HoldsAll(r, r.extensions[id], id)
    {
      if id != h.id {
        assert HoldsAll(t, t.extensions[id], id);
      }
    }
  }

  lemma RegisterKeepsOwnersClaim(t: Tables, draining: set<string>, h: Handle)
    requires OwnersClaim(t, draining) && h.id !in t.extensions && h.id !in draining
    ensures OwnersClaim(Registered(t, h), draining)
  {
  }

  lemma RegisterKeepsOneRunEach(t: Tables, h: Handle)
    requires OneRunEach(t) && !CandidateActive(t, h.candidate)
    ensures OneRunEach(Registered(t, h))
  {
  }

  lemma RegisterKeepsInv(t: Tables, draining: set<string>, h: Handle)
    requires TablesInv(t, draining) && MayRegister(t, h)
    ensures TablesInv(Registered(t, h), draining)
    ensures IsRouted(Registered(t, h), draining, h.id)
  {
    NoEntriesYet(t, draining, h);
    RegisterKeepsSeparate(h, t.routes, t.prefixes);
    RegisterKeepsClaimsHeld(t, draining, h);
    RegisterKeepsOwnersClaim(t, draining, h);
    RegisterKeepsOneRunEach(t, h);
  }

  // ------------------------------------------- unrouting and cleaning up keep it

  lemma DisownedKeepsSeparate(routes: map<string, string>, prefixes: map<string, string>, id: string)
    requires Separate(routes, prefixes)
    ensures Separate(Disowned(routes, id), Disowned(prefixes, id))
  {
  }

  lemma UnroutedKeepsClaims(t: Tables, draining: set<string>, id: string)
    requires OwnersClaim(t, draining) && ClaimsHeld(t, draining)
    ensures OwnersClaim(Unrouted(t, id), draining + {id})
    ensures ClaimsHeld(Unrouted(t, id), draining + {id})
  {
    var r := Unrouted(t, id);
    forall other | IsRouted(r, draining + {id}, other)
      ensures HoldsAll(r, r.extensions[other], other)
    {
      assert HoldsAll(t, t.extensions[other], other);
    }
  }

  lemma UnrouteKeepsInv(t: Tables, draining: set<string>, id: string)
    requires TablesInv(t, draining) && id in t.extensions
    ensures TablesInv(Unrouted(t, id), draining + {id})
  {
    UnroutedKeepsClaims(t, draining, id);
    DisownedKeepsSeparate(t.routes, t.prefixes, id);
  }

  /** An extension nobody is routed to can be forgotten. */
  lemma ForgetKeepsClaims(t: Tables, draining: set<string>, id: string)
    requires OwnersClaim(t, draining) && ClaimsHeld(t, draining) && id in draining
    ensures OwnersClaim(t.(extensions := t.extensions - {id}), draining - {id})
    ensures ClaimsHeld(t.(extensions := t.extensions - {id}), draining - {id})
  {
    var r := t.(extensions := t.extensions - {id});
    forall other | IsRouted(r, draining - {id}, other)
      ensures HoldsAll(r, r.extensions[other], other)
    {
      assert IsRouted(t, draining, other) && HoldsAll(t, t.extensions[other], other);
    }
  }

  lemma CleanupKeepsInv(t: Tables, draining: set<string>, id: string, generation: nat)
    requires TablesInv(t, draining)
    ensures TablesInv(Cleaned(t, id, generation), if IsCurrent(t, id, generation) then draining - {id} else draining)
  {
    if IsCurrent(t, id, generation) {
      UnrouteKeepsInv(t, draining, id);
      ForgetKeepsClaims(Unrouted(t, id), draining + {id}, id);
      assert draining + {id} - {id} == draining - {id};
      assert Cleaned(t, id, generation) == Unrouted(t, id).(extensions := t.extensions - {id});
    }
  }

  // ---------------------------------------------------------------------- runs

  /** Requests that do not pass their check change nothing. */
  datatype Op = Register(handle: Handle) | Drain(id: string) | Cleanup(id: string, generation: nat)

  datatype World = World(tables: Tables, draining: set<string>)

  const EMPTY := World(Tables(map[], map[], map[]), {})

  /** A drain acts on a copy of the handle taken earlier: by now the id may be gone, or another generation's. */
  ghost function Apply(w: World, op: Op): World {
    match op
    case Register(h) => if MayRegister(w.tables, h) then w.(tables := Registered(w.tables, h)) else w
    case Drain(id) =>
      World(Unrouted(w.tables, id), if id in w.tables.extensions then w.draining + {id} else w.draining)
    case Cleanup(id, generation) =>
      World(Cleaned(w.tables, id, generation), if IsCurrent(w.tables, id, generation) then w.draining - {id} else w.draining)
  }

  ghost function RunOps(ops: seq<Op>): World {
    if ops == [] then EMPTY else Apply(RunOps(ops[..|ops| - 1]), ops[|ops| - 1])
  }

  lemma {:induction false} RunKeepsInv(ops: seq<Op>)
    ensures TablesInv(RunOps(ops).tables, RunOps(ops).draining)
  {
    if ops != [] {
      var before, op := ops[..|ops| - 1], ops[|ops| - 1];
      RunKeepsInv(before);
      var w := RunOps(before);
      match op {
        case Register(h) =>
          if MayRegister(w.tables, h) {
            RegisterKeepsInv(w.tables, w.draining, h);
          }
        case Drain(id) =>
          if id in w.tables.extensions {
            UnrouteKeepsInv(w.tables, w.draining, id);
          } else {
            assert Unrouted(w.tables, id) == w.tables;
          }
        case Cleanup(id, generation) => CleanupKeepsInv(w.tables, w.draining, id, generation);
      }
    }
  }

  /** What each operation does for the extension it names, in any state of a run: a registration that
      passes its check routes the newcomer, with all it claims, and one that does not changes nothing;
      after a drain it is routed no more and owns nothing, registered as before. */
  lemma OperationsTakeEffect(ops: seq<Op>, h: Handle)
    ensures var w, r := RunOps(ops), RunOps(ops + [Register(h)]);
      if MayRegister(w.tables, h) then IsRouted(r.tables, r.draining, h.id) && r.tables.extensions[h.id] == h && HoldsAll(r.tables, h, h.id)
      else r == w
    ensures var w, r := RunOps(ops), RunOps(ops + [Drain(h.id)]);
      && !IsRouted(r.tables, r.draining, h.id)
      && Unused(r.tables.routes, h.id) && Unused(r.tables.prefixes, h.id)
      && r.tables.extensions == w.tables.extensions
  {
    var w := RunOps(ops);
    assert (ops + [Register(h)])[..|ops|] == ops && (ops + [Drain(h.id)])[..|ops|] == ops;
    RunKeepsInv(ops);
    hide MayRegister;
    if MayRegister(w.tables, h) {
      RegisterKeepsInv(w.tables, w.draining, h);
      var r := Registered(w.tables, h);
      assert HoldsAll(r, h, h.id);
    }
  }

  /** Whether an extension's emissions on a channel pass. */
  ghost predicate Emits(t: Tables, id: string, channel: string)
    requires id in t.extensions
  {
    MayEmit(channel, t.extensions[id].paths, t.extensions[id].channels)
  }

  /** No two routed extensions can both emit on a channel. */
  lemma RoutedNamespacesAreDisjoint(t: Tables, draining: set<string>, a: string, b: string, channel: string)
    requires ClaimsHeld(t, draining) && Separate(t.routes, t.prefixes) && IsRouted(t, draining, a) && IsRouted(t, draining, b)
    requires Emits(t, a, channel) && Emits(t, b, channel)
    ensures a == b
  {
    var first := FirstSegment(channel);
    var ha, hb := t.extensions[a], t.extensions[b];
    assert HoldsAll(t, ha, a) && HoldsAll(t, hb, b);
    if a != b {
      if first in ha.paths {
        ClaimAgainstPrefix(t, draining, a, b, channel);
      } else if first in hb.paths {
        ClaimAgainstPrefix(t, draining, b, a, channel);
      } else {
        var p :| 0 <= p < |ha.channels| && InPrefix(channel, ha.channels[p]);
        var q :| 0 <= q < |hb.channels| && InPrefix(channel, hb.channels[q]);
        assert ha.channels[p] in ha.channels && hb.channels[q] in hb.channels;
        PrefixesOfOneChannelOverlap(channel, ha.channels[p], hb.channels[q]);
      }
    }
  }

  lemma ClaimAgainstPrefix(t: Tables, draining: set<string>, a: string, b: string, channel: string)
    requires ClaimsHeld(t, draining) && Separate(t.routes, t.prefixes) && IsRouted(t, draining, a) && IsRouted(t, draining, b) && a != b
    requires FirstSegment(channel) in t.extensions[a].paths
    ensures !Emits(t, b, channel)
  {
    var first := FirstSegment(channel);
    var ha, hb := t.extensions[a], t.extensions[b];
    assert HoldsAll(t, ha, a) && HoldsAll(t, hb, b);
    assert t.routes[first] == a;
    forall q | 0 <= q < |hb.channels|
      ensures !InPrefix(channel, hb.channels[q])
    {
      assert hb.channels[q] in hb.channels;
      if InPrefix(channel, hb.channels[q]) {
        FirstSegmentOfPrefix(channel, hb.channels[q]);
      }
    }
  }

  // -------------------------------------------------------------- interleaved runs

  /** The same operations cut where the source lets go of its locks: a drain releases the routes and
      then the prefixes, a cleanup removes the handle before both. */
  datatype FineOp =
    | Admit(handle: Handle)
    | ReleaseRoutes(id: string)
    | ReleasePrefixes(id: string)
    | Forget(id: string, generation: nat)

  /** `released` names the ids some of whose entries have been released since they registered. */
  datatype FineWorld = FineWorld(tables: Tables, released: set<string>)

  const FINE_EMPTY := FineWorld(EMPTY.tables, {})

  function Forgotten(t: Tables, id: string): Tables {
    t.(extensions := t.extensions - {id})
  }

  ghost function ApplyFine(w: FineWorld, op: FineOp): FineWorld {
    match op
    case Admit(h) =>
      if MayRegister(w.tables, h) then FineWorld(Registered(w.tables, h), w.released - {h.id}) else w
    case ReleaseRoutes(id) => FineWorld(w.tables.(routes := Disowned(w.tables.routes, id)), w.released + {id})
    case ReleasePrefixes(id) => FineWorld(w.tables.(prefixes := Disowned(w.tables.prefixes, id)), w.released + {id})
    case Forget(id, generation) => if IsCurrent(w.tables, id, generation) then w.(tables := Forgotten(w.tables, id)) else w
  }

  ghost function RunFine(w: FineWorld, ops: seq<FineOp>): FineWorld
    decreases |ops|
  {
    if ops == [] then w else ApplyFine(RunFine(w, ops[..|ops| - 1]), ops[|ops| - 1])
  }

  ghost predicate FineInv(w: FineWorld) {
    && WellKeyed(w.tables)
    && OneRunEach(w.tables)
    && ClaimsHeld(w.tables, w.released)
    && Separate(w.tables.routes, w.tables.prefixes)
  }

  /** A newcomer's entries replace nobody else's, not even where its own id left some behind. */
  lemma AdmitKeepsClaimsHeld(t: Tables, released: set<string>, h: Handle)
    requires ClaimsHeld(t, released) && MayRegister(t, h)
    ensures ClaimsHeld(Registered(t, h), released - {h.id})
  {
    var r := Registered(t, h);
    forall id | IsRouted(r, released - {h.id}, id)
      ensures HoldsAll(r, r.extensions[id], id)
    {
      if id != h.id {
        assert HoldsAll(t, t.extensions[id], id);
        forall k | k in r.extensions[id].paths
          ensures k in r.routes && r.routes[k] == id
        {
          if k in h.paths {
            AdmittedClaim(h, t.routes, t.prefixes, k);
          }
        }
        forall k | k in r.extensions[id].channels
          ensures k in r.prefixes && r.prefixes[k] == id
        {
          if k in h.channels {
            AdmittedPrefix(h, t.routes, t.prefixes, k);
            assert PrefixesOverlap(k, k);
          }
        }
      }
    }
  }

  lemma ReleaseKeepsFineInv(w: FineWorld, id: string)
    requires FineInv(w)
    ensures FineInv(ApplyFine(w, ReleaseRoutes(id))) && FineInv(ApplyFine(w, ReleasePrefixes(id)))
  {
    forall other | other in w.tables.extensions && other !in w.released + {id}
      ensures HoldsAll(w.tables, w.tables.extensions[other], other)
    {
      assert IsRouted(w.tables, w.released, other);
    }
  }

  lemma ForgetKeepsFineInv(w: FineWorld, id: string, generation: nat)
    requires FineInv(w)
    ensures FineInv(ApplyFine(w, Forget(id, generation)))
  {
    var t := w.tables;
    forall other | other in t.extensions && other !in w.released
      ensures HoldsAll(t, t.extensions[other], other)
    {
      assert IsRouted(t, w.released, other);
    }
  }

  lemma AdmitKeepsFineInv(w: FineWorld, h: Handle)
    requires FineInv(w)
    ensures FineInv(ApplyFine(w, Admit(h)))
  {
    hide ClaimsHeld, Separate;
    if MayRegister(w.tables, h) {
      AdmitKeepsClaimsHeld(w.tables, w.released, h);
      RegisterKeepsSeparate(h, w.tables.routes, w.tables.prefixes);
      RegisterKeepsOneRunEach(w.tables, h);
    }
  }

  lemma {:induction false} FineRunKeepsInv(ops: seq<FineOp>)
    ensures FineInv(RunFine(FINE_EMPTY, ops))
  {
    if ops != [] {
      hide FineInv;
      FineRunKeepsInv(ops[..|ops| - 1]);
      var w := RunFine(FINE_EMPTY, ops[..|ops| - 1]);
      match ops[|ops| - 1] {
        case Admit(h) => AdmitKeepsFineInv(w, h);
        case ReleaseRoutes(id) => ReleaseKeepsFineInv(w, id);
        case ReleasePrefixes(id) => ReleaseKeepsFineInv(w, id);
        case Forget(id, generation) => ForgetKeepsFineInv(w, id, generation);
      }
    } else {
      assert FineInv(FINE_EMPTY);
    }
  }

  /** The uninterrupted operations are runs of the finer ones. */
  lemma OpsAreFineSteps(w: FineWorld, id: string, generation: nat)
    ensures RunFine(w, [ReleaseRoutes(id), ReleasePrefixes(id)]).tables == Unrouted(w.tables, id)
    ensures IsCurrent(w.tables, id, generation) ==>
      RunFine(w, [Forget(id, generation), ReleaseRoutes(id), ReleasePrefixes(id)]).tables == Cleaned(w.tables, id, generation)
  {
    hide Disowned;
    TwoFineSteps(w, ReleaseRoutes(id), ReleasePrefixes(id));
    ThreeFineSteps(w, Forget(id, generation), ReleaseRoutes(id), ReleasePrefixes(id));
  }

  lemma OneFineStep(w: FineWorld, op: FineOp)
    ensures RunFine(w, [op]) == ApplyFine(w, op)
  {
    hide ApplyFine;
    assert [op][..0] == [];
  }

  lemma TwoFineSteps(w: FineWorld, first: FineOp, second: FineOp)
    ensures RunFine(w, [first, second]) == ApplyFine(ApplyFine(w, first), second)
  {
    hide ApplyFine;
    OneFineStep(w, first);
    assert [first, second][..1] == [first];
  }

  lemma ThreeFineSteps(w: FineWorld, first: FineOp, second: FineOp, third: FineOp)
    ensures RunFine(w, [first, second, third]) == ApplyFine(ApplyFine(ApplyFine(w, first), second), third)
  {
    hide ApplyFine;
    TwoFineSteps(w, first, second);
    assert [first, second, third][..2] == [first, second];
  }

  lemma {:induction false} FineRunSplit(w: FineWorld, left: seq<FineOp>, right: seq<FineOp>)
    ensures RunFine(w, left + right) == RunFine(RunFine(w, left), right)
    decreases |right|
  {
    hide ApplyFine;
    if right == [] {
      assert left + right == left;
    } else {
      assert (left + right)[..|left + right| - 1] == left + right[..|right| - 1];
      FineRunSplit(w, left, right[..|right| - 1]);
    }
  }

  /** However registrations, drains and cleanups interleave between their locks, a channel has at
      most one extension that may emit on it among those registered and not released since. */
  lemma {:induction false} AtMostOneOwner(ops: seq<FineOp>, a: string, b: string, channel: string)
    requires var w := RunFine(FINE_EMPTY, ops);
      && IsRouted(w.tables, w.released, a) && IsRouted(w.tables, w.released, b)
      && Emits(w.tables, a, channel) && Emits(w.tables, b, channel)
    ensures a == b
  {
    FineRunKeepsInv(ops);
    var w := RunFine(FINE_EMPTY, ops);
    RoutedNamespacesAreDisjoint(w.tables, w.released, a, b, channel);
  }

  /** The same with every drain and cleanup in one piece. */
  lemma {:induction false} AtMostOneOwnerUninterrupted(ops: seq<Op>, a: string, b: string, channel: string)
    requires var w := RunOps(ops);
      && IsRouted(w.tables, w.draining, a) && IsRouted(w.tables, w.draining, b)
      && Emits(w.tables, a, channel) && Emits(w.tables, b, channel)
    ensures a == b
  {
    RunKeepsInv(ops);
    var w := RunOps(ops);
    RoutedNamespacesAreDisjoint(w.tables, w.draining, a, b, channel);
  }

  /** Between the two halves of a cleanup a successor of the same id is let in if and only if the old
      generation was drained first and the successor would be let in after the whole cleanup:
      otherwise the id itself is still among the routes. */
  lemma SuccessorSlipsInIff(t: Tables, draining: set<string>, id: string, generation: nat, h: Handle)
    requires TablesInv(t, draining) && IsCurrent(t, id, generation) && id in t.extensions[id].paths
    requires h.id == id && id in h.paths
    ensures MayRegister(Forgotten(t, id), h) <==> id in draining && MayRegister(Cleaned(t, id, generation), h)
  {
    if id in draining {
      assert Unrouted(t, id) == t;
      assert Cleaned(t, id, generation) == Forgotten(t, id);
    } else {
      assert HoldsAll(t, t.extensions[id], id);
      if MayRegister(Forgotten(t, id), h) {
        AdmittedClaim(h, t.routes, t.prefixes, id);
      }
    }
  }

  // --------------------------------------------------- a cleanup and its generation

  /** A cleanup for a generation that is not the registered one leaves all three tables alone, in one
      piece or between the locks. */
  lemma StaleCleanupChangesNothing(t: Tables, id: string, generation: nat)
    requires id in t.extensions ==> t.extensions[id].generation != generation
    ensures Cleaned(t, id, generation) == t
    ensures forall released :: ApplyFine(FineWorld(t, released), FineOp.Forget(id, generation)) == FineWorld(t, released)
  {
  }

  /** A cleanup for the registered generation removes that handle and exactly the entries its id owns. */
  lemma CurrentCleanupRemovesItsOwn(t: Tables, id: string)
    requires id in t.extensions
    ensures var r := Cleaned(t, id, t.extensions[id].generation);
      && r.extensions == t.extensions - {id}
      && (forall k :: k in r.routes <==> k in t.routes && t.routes[k] != id)
      && (forall k :: k in r.routes ==> r.routes[k] == t.routes[k])
      && (forall k :: k in r.prefixes <==> k in t.prefixes && t.prefixes[k] != id)
      && (forall k :: k in r.prefixes ==> r.prefixes[k] == t.prefixes[k])
  {
  }

  /** Each registration gets a generation of its own. */
  ghost predicate FreshGenerations(ops: seq<Op>) {
    forall i, j :: 0 <= i < j < |ops| && ops[i].Register? && ops[j].Register? ==> ops[i].handle.generation != ops[j].handle.generation
  }

  /** Whoever is registered was let in by one of the registrations from position n on, or was there
      before. */
  lemma {:induction false} RegisteredByAnOp(ops: seq<Op>, n: nat, id: string) returns (k: nat)
    requires n <= |ops| && id in RunOps(ops).tables.extensions
    requires id in RunOps(ops[..n]).tables.extensions ==> RunOps(ops).tables.extensions[id] != RunOps(ops[..n]).tables.extensions[id]
    ensures n <= k < |ops| && ops[k] == Register(RunOps(ops).tables.extensions[id])
    decreases |ops|
  {
    assert ops[..|ops|] == ops;
    var m := |ops| - 1;
    var before := ops[..m];
    assert before[..n] == ops[..n];
    if id in RunOps(before).tables.extensions && RunOps(before).tables.extensions[id] == RunOps(ops).tables.extensions[id] {
      k := RegisteredByAnOp(before, n, id);
    } else {
      k := m;
      EntersByRegistering(RunOps(before), ops[m], id);
    }
  }

  lemma EntersByRegistering(w: World, op: Op, id: string)
    requires id in Apply(w, op).tables.extensions
    requires id in w.tables.extensions ==> Apply(w, op).tables.extensions[id] != w.tables.extensions[id]
    ensures op == Register(Apply(w, op).tables.extensions[id])
  {
    hide MayRegister, Disowned, Mapped;
  }

  /** A generation is cleaned up at most once: whatever is registered, drained and cleaned up after it
      is gone, a successor of the same id included, a late cleanup of it changes nothing. */
  lemma CleanedUpOnce(ops: seq<Op>, i: nat, id: string, generation: nat)
    requires FreshGenerations(ops) && i < |ops| && ops[i] == Cleanup(id, generation)
    requires var before := RunOps(ops[..i]).tables; id in before.extensions && before.extensions[id].generation == generation
    ensures var t := RunOps(ops).tables; id in t.extensions ==> t.extensions[id].generation != generation
    ensures Apply(RunOps(ops), Cleanup(id, generation)) == RunOps(ops)
  {
    hide Apply, MayRegister;
    assert RunOps(ops[..0]) == EMPTY;
    var before, t := RunOps(ops[..i]).tables, RunOps(ops).tables;
    assert ops[..i][..0] == [];
    var first := RegisteredByAnOp(ops[..i], 0, id);
    assert ops[first] == ops[..i][first];
    assert ops[..i + 1][..i] == ops[..i];
    CleanupRemoves(RunOps(ops[..i]), id, generation);
    if id in t.extensions && t.extensions[id].generation == generation {
      var second := RegisteredByAnOp(ops, i + 1, id);
    }
    StaleApply(RunOps(ops), id, generation);
  }

  lemma CleanupRemoves(w: World, id: string, generation: nat)
    requires id in w.tables.extensions && w.tables.extensions[id].generation == generation
    ensures id !in Apply(w, Cleanup(id, generation)).tables.extensions
  {
  }

  lemma StaleApply(w: World, id: string, generation: nat)
    requires id in w.tables.extensions ==> w.tables.extensions[id].generation != generation
    ensures Apply(w, Cleanup(id, generation)) == w
  {
  }

  // -------------------------------------------------------- what does not hold

  /** Draining releases a path while its extension still runs: before the drain any newcomer
      claiming the path is refused, after it the newcomer is let in and both may emit there. */
  lemma DrainingExtensionCanBeReplaced(t: Tables, draining: set<string>, id: string, h: Handle, claim: string)
    requires TablesInv(t, draining) && IsRouted(t, draining, id)
    requires claim in t.extensions[id].paths && ValidPathClaim(claim)
    requires h.id !in t.extensions && !CandidateActive(t, h.candidate) && h.paths == [claim] && h.channels == []
    ensures !MayRegister(t, h)
    ensures MayRegister(Unrouted(t, id), h)
    ensures var r := Registered(Unrouted(t, id), h);
      IsRouted(r, draining, h.id) && Emits(r, id, claim) && Emits(r, h.id, claim)
  {
    assert HoldsAll(t, t.extensions[id], id);
    var u := Unrouted(t, id);
    assert h.paths[0] == claim && !ClaimAdmissible(h.id, h.paths, 0, t.routes, t.prefixes);
    assert ClaimAdmissible(h.id, h.paths, 0, u.routes, u.prefixes);
    assert '.' !in claim;
    SplitWithoutSeparator(claim, '.');
    assert ValidPlainToken(claim);
    ValidateChannelMeaning(claim);
    var paths := t.extensions[id].paths;
    var i :| 0 <= i < |paths| && paths[i] == claim;
    assert Owns(claim, paths, t.extensions[id].channels);
    assert Owns(claim, h.paths, h.channels);
  }

  /** Routes are released by id, not by generation. A release that comes late, after the id was
      registered again, is harmless exactly when the extension now under that id is being drained
      itself or claimed nothing; otherwise a running extension is left without its routes. */
  lemma LateReleaseIsHarmlessIff(t: Tables, draining: set<string>, id: string)
    requires TablesInv(t, draining)
    ensures TablesInv(Unrouted(t, id), draining)
      <==> IsRouted(t, draining, id) ==> t.extensions[id].paths == [] && t.extensions[id].channels == []
  {
    var u := Unrouted(t, id);
    if !IsRouted(t, draining, id) {
      assert u == t;
    } else {
      var h := t.extensions[id];
      assert HoldsAll(t, h, id);
      if h.paths == [] && h.channels == [] {
        assert u == t;
      } else {
        assert h.paths != [] ==> h.paths[0] in h.paths;
        assert h.channels != [] ==> h.channels[0] in h.channels;
        assert !HoldsAll(u, h, id);
      }
    }
  }

  function Generation(id: string, generation: nat): Handle {
    Handle(id, id, generation, [id], [])
  }

  /** A run, for every id, that ends in that damage: a drained generation is cleaned up, its
      successor registers between the two halves, and the second half takes the successor's route,
      though the successor is current and was never drained. */
  lemma LateReleaseRun(id: string)
    requires ValidPathClaim(id)
    ensures var w := RunFine(FINE_EMPTY,
                             [Admit(Generation(id, 1)), ReleaseRoutes(id), ReleasePrefixes(id),
                              Forget(id, 1), Admit(Generation(id, 2)), ReleaseRoutes(id)]);
      IsCurrent(w.tables, id, 2) && w.tables.extensions[id].paths == [id] && id !in w.tables.routes
  {
    hide ApplyFine, Disowned, Mapped, MayRegister;
    var one, two := Generation(id, 1), Generation(id, 2);
    var r, p := ReleaseRoutes(id), ReleasePrefixes(id);
    LoneRegistration(FINE_EMPTY, one);
    var w1 := ApplyFine(FINE_EMPTY, Admit(one));
    LoneCleanup(w1, one);
    var w4 := ApplyFine(ApplyFine(ApplyFine(w1, r), p), Forget(id, 1));
    LoneRegistration(w4, two);
    var w5 := ApplyFine(w4, Admit(two));
    LoneCleanup(w5, two);
    ThreeFineSteps(FINE_EMPTY, Admit(one), r, p);
    ThreeFineSteps(RunFine(FINE_EMPTY, [Admit(one), r, p]), Forget(id, 1), Admit(two), r);
    FineRunSplit(FINE_EMPTY, [Admit(one), r, p], [Forget(id, 1), Admit(two), r]);
    assert [Admit(one), r, p] + [Forget(id, 1), Admit(two), r] == [Admit(one), r, p, Forget(id, 1), Admit(two), r];
  }

  ghost predicate Bare(t: Tables) {
    t.extensions == map[] && t.routes == map[] && t.prefixes == map[]
  }

  /** Into empty tables any well-formed id is let in. */
  lemma LoneRegistration(w: FineWorld, h: Handle)
    requires Bare(w.tables) && h == Generation(h.id, h.generation) && ValidPathClaim(h.id)
    ensures ApplyFine(w, Admit(h)).tables == Tables(map[h.id := h], map[h.id := h.id], map[])
  {
    var none: map<string, string> := map[];
    assert ClaimAdmissible(h.id, h.paths, 0, none, none);
    assert none + Mapped([h.id], h.id) == map[h.id := h.id] && none + Mapped([], h.id) == none;
  }

  lemma LoneCleanup(w: FineWorld, h: Handle)
    requires w.tables == Tables(map[h.id := h], map[h.id := h.id], map[])
    ensures var r := ApplyFine(w, ReleaseRoutes(h.id));
      && r.tables == Tables(map[h.id := h], map[], map[])
      && Bare(ApplyFine(ApplyFine(r, ReleasePrefixes(h.id)), Forget(h.id, h.generation)).tables)
  {
    var none: map<string, string> := map[];
    assert Disowned(map[h.id := h.id], h.id) == none && Disowned(none, h.id) == none;
    assert map[h.id := h] - {h.id} == map[];
  }

  // ---------------------------------------------------------------- the tables

  method InsertAll(m: map<string, string>, keys: seq<string>, owner: string) returns (r: map<string, string>)
    ensures r == m + Mapped(keys, owner)
  {
    r := m;
    for i := 0 to |keys|
      invariant r == m + Mapped(keys[..i], owner)
    {
      r := r[keys[i] := owner];
      assert keys[..i + 1] == keys[..i] + [keys[i]];
    }
    assert keys[..|keys|] == keys;
  }

  class RoutingState {
    var extensions: map<string, Handle>
    var routes: map<string, string>
    var prefixes: map<string, string>

    ghost function State(): Tables
      reads this
    {
      Tables(extensions, routes, prefixes)
    }

    constructor ()
      ensures State() == EMPTY.tables
    {
      extensions, routes, prefixes := map[], map[], map[];
    }

    method CandidateRunning(candidate: string) returns (found: bool)
      ensures found <==> CandidateActive(State(), candidate)
    {
      var rest := extensions.Keys;
      while rest != {}
        invariant rest <= extensions.Keys
        invariant forall id :: id in extensions && id !in rest ==> extensions[id].candidate != candidate
        decreases rest
      {
        var id :| id in rest;
        if extensions[id].candidate == candidate {
          return true;
        }
        rest := rest - {id};
      }
      return false;
    }

    method Register(handle: Handle) returns (r: Result<(), RegisterError>)
      modifies this
      ensures r.Ok? <==> MayRegister(old(State()), handle)
      ensures State() == if r.Ok? then Registered(old(State()), handle) else old(State())
      ensures r.Err? ==>
        match r.error
        case IdRunning => handle.id in old(extensions)
        case CandidateRunning => CandidateActive(old(State()), handle.candidate)
        case Rejected(e) => Justified(e, handle.id, handle.paths, handle.channels, old(routes), old(prefixes))
    {
      if handle.id in extensions {
        return Err(IdRunning);
      }
      var running := CandidateRunning(handle.candidate);
      if running {
        return Err(RegisterError.CandidateRunning);
      }
      var checked := ValidateRegistrationClaims(handle.id, handle.paths, handle.channels, routes, prefixes);
      if checked.Err? {
        return Err(Rejected(checked.error));
      }
      extensions := extensions[handle.id := handle];
      routes := InsertAll(routes, handle.paths, handle.id);
      prefixes := InsertAll(prefixes, handle.channels, handle.id);
      return Ok(());
    }

    method Unroute(id: string)
      modifies this
      ensures State() == Unrouted(old(State()), id)
    {
      routes := map k | k in routes && routes[k] != id :: routes[k];
      prefixes := map k | k in prefixes && prefixes[k] != id :: prefixes[k];
    }

    /** Returns the handle it removed, once per generation. */
    method Cleanup(id: string, generation: nat) returns (removed: Option<Handle>)
      modifies this
      ensures State() == Cleaned(old(State()), id, generation)
      ensures removed.Some? <==> IsCurrent(old(State()), id, generation)
      ensures removed.Some? ==> removed.value == old(extensions)[id]
    {
      if id in extensions && extensions[id].generation == generation {
        var handle := extensions[id];
        extensions := extensions - {id};
        Unroute(id);
        return Some(handle);
      }
      return None;
    }
  }
}
