/** The candidate list of a route and the attempts it becomes. */
module Attempts {
  import opened Collections
  import opened Snapshot

  datatype Candidate = Candidate(providerId: string, providerType: string, targetModel: string, weight: int)

  datatype Attempt = Attempt(provider: Provider, targetModel: string)

  /** A routing strategy: it may only reorder the candidates. */
  type Order = seq<Candidate> -> seq<Candidate>

  ghost predicate OnlyPermutes(order: Order) {
    forall cs :: multiset(order(cs)) == multiset(cs)
  }

  /** The providers a call may use: any for chat, those with a backend and the capability for speech. */
  type Usable = Provider -> bool

  function AnyProvider(): Usable {
    (p: Provider) => true
  }

  function FallbackCandidate(s: Snapshot, route: Route, f: RouteTarget, usable: Usable): seq<Candidate> {
    if f.providerId !in s.providers || !usable(s.providers[f.providerId]) then []
    else
      [Candidate(f.providerId, s.providers[f.providerId].kind,
                 if f.targetModel == "" then route.targetModel else f.targetModel, f.weight)]
  }

  function FallbackCandidates(s: Snapshot, route: Route, fallbacks: seq<RouteTarget>, usable: Usable): seq<Candidate> {
    if fallbacks == [] then []
    else FallbackCandidates(s, route, fallbacks[..|fallbacks| - 1], usable)
         + FallbackCandidate(s, route, fallbacks[|fallbacks| - 1], usable)
  }

  function PrimaryCandidate(route: Route, primary: Provider, usable: Usable): seq<Candidate> {
    if usable(primary) then [Candidate(primary.id, primary.kind, route.targetModel, route.weight)] else []
  }

  /** Primary first, then the fallbacks whose provider the snapshot knows. */
  function Candidates(s: Snapshot, route: Route, primary: Provider, usable: Usable): seq<Candidate> {
    PrimaryCandidate(route, primary, usable) + FallbackCandidates(s, route, route.fallbacks, usable)
  }

  function Resolve(s: Snapshot, cs: seq<Candidate>): seq<Attempt> {
    if cs == [] then []
    else
      var c := cs[|cs| - 1];
      Resolve(s, cs[..|cs| - 1]) +
      (if c.providerId !in s.providers then [] else [Attempt(s.providers[c.providerId], c.targetModel)])
  }

  function AttemptsFor(s: Snapshot, route: Route, primary: Provider, usable: Usable, order: Order): seq<Attempt> {
    Resolve(s, order(Candidates(s, route, primary, usable)))
  }

  method CollectCandidates(s: Snapshot, route: Route, primary: Provider, usable: Usable) returns (cands: seq<Candidate>)
    ensures cands == Candidates(s, route, primary, usable)
  {
    cands := [];
    if usable(primary) {
      cands := [Candidate(primary.id, primary.kind, route.targetModel, route.weight)];
    }
    var fallbacks := route.fallbacks;
    for i := 0 to |fallbacks|
      invariant cands == PrimaryCandidate(route, primary, usable) + FallbackCandidates(s, route, fallbacks[..i], usable)
    {
      assert fallbacks[..i + 1][..i] == fallbacks[..i];
      var f := fallbacks[i];
      if f.providerId !in s.providers || !usable(s.providers[f.providerId]) {
        continue;
      }
      var target := f.targetModel;
      if target == "" {
        target := route.targetModel;
      }
      cands := cands + [Candidate(f.providerId, s.providers[f.providerId].kind, target, f.weight)];
    }
    assert fallbacks[..|fallbacks|] == fallbacks;
  }

  /** The list for chat, with any provider, and for speech and transcription, with the usable ones. */
  method BuildAttempts(s: Snapshot, route: Route, primary: Provider, usable: Usable, order: Order)
    returns (attempts: seq<Attempt>)
    ensures attempts == AttemptsFor(s, route, primary, usable, order)
  {
    var cands := CollectCandidates(s, route, primary, usable);
    var ordered := order(cands);
    attempts := [];
    for i := 0 to |ordered|
      invariant attempts == Resolve(s, ordered[..i])
    {
      assert ordered[..i + 1][..i] == ordered[..i];
      if ordered[i].providerId in s.providers {
        attempts := attempts + [Attempt(s.providers[ordered[i].providerId], ordered[i].targetModel)];
      }
    }
    assert ordered[..|ordered|] == ordered;
  }

  // ----- what the list holds

  lemma {:induction false} FallbacksAreKnown(s: Snapshot, route: Route, fallbacks: seq<RouteTarget>, usable: Usable,
                                             c: Candidate)
    requires c in FallbackCandidates(s, route, fallbacks, usable)
    ensures c.providerId in s.providers && usable(s.providers[c.providerId])
    ensures exists f :: f in fallbacks && f.providerId == c.providerId
  {
    var n := |fallbacks| - 1;
    assert fallbacks == fallbacks[..n] + [fallbacks[n]];
    if c !in FallbackCandidate(s, route, fallbacks[n], usable) {
      FallbacksAreKnown(s, route, fallbacks[..n], usable, c);
    }
  }

  lemma {:induction false} ResolvesAll(s: Snapshot, cs: seq<Candidate>)
    requires forall c <- cs :: c.providerId in s.providers
    ensures |Resolve(s, cs)| == |cs|
    ensures forall i :: 0 <= i < |cs| ==>
              Resolve(s, cs)[i] == Attempt(s.providers[cs[i].providerId], cs[i].targetModel)
  {
    if cs != [] {
      assert cs == cs[..|cs| - 1] + [cs[|cs| - 1]];
      ResolvesAll(s, cs[..|cs| - 1]);
    }
  }

  /**
   Of a primary the snapshot knows: no candidate is lost on the way, every attempt goes to a usable provider, and a
   usable primary is among them, so the list is not empty.
   */
  lemma AttemptsAreUsable(s: Snapshot, route: Route, primary: Provider, usable: Usable, order: Order)
    requires OnlyPermutes(order) && Get(s.providers, primary.id) == Some(primary)
    ensures var attempts := AttemptsFor(s, route, primary, usable, order);
            |attempts| == |Candidates(s, route, primary, usable)| &&
            (forall a <- attempts :: usable(a.provider)) &&
            (usable(primary) ==> Attempt(primary, route.targetModel) in attempts)
  {
    var cs := Candidates(s, route, primary, usable);
    var ordered := order(cs);
    assert multiset(ordered) == multiset(cs) && |ordered| == |multiset(ordered)|;
    forall c <- ordered ensures c.providerId in s.providers && usable(s.providers[c.providerId]) {
      assert c in multiset(ordered);
      if c in FallbackCandidates(s, route, route.fallbacks, usable) {
        FallbacksAreKnown(s, route, route.fallbacks, usable, c);
      }
    }
    ResolvesAll(s, ordered);
    if usable(primary) {
      assert cs[0] in multiset(ordered);
      var i :| 0 <= i < |ordered| && ordered[i] == cs[0];
      assert Resolve(s, ordered)[i] == Attempt(primary, route.targetModel);
    }
  }

  // ----- the candidates, one by one

  function IsKnown(s: Snapshot, usable: Usable): RouteTarget -> bool {
    (f: RouteTarget) => f.providerId in s.providers && usable(s.providers[f.providerId])
  }

  /** The candidate stands for the target, with the target's own model or, without one, the route's. */
  predicate StandsFor(s: Snapshot, route: Route, f: RouteTarget, c: Candidate) {
    && f.providerId in s.providers && c.providerId == f.providerId
    && c.providerType == s.providers[f.providerId].kind && c.weight == f.weight
    && (f.targetModel != "" ==> c.targetModel == f.targetModel)
    && (f.targetModel == "" ==> c.targetModel == route.targetModel)
  }

  ghost predicate StandForAll(s: Snapshot, route: Route, fs: seq<RouteTarget>, cs: seq<Candidate>) {
    |cs| == |fs| && forall i :: 0 <= i < |fs| ==> StandsFor(s, route, fs[i], cs[i])
  }

  lemma {:induction false} FallbacksStandForKnown(s: Snapshot, route: Route, fallbacks: seq<RouteTarget>,
                                                  usable: Usable)
    ensures StandForAll(s, route, Filter(fallbacks, IsKnown(s, usable)),
                        FallbackCandidates(s, route, fallbacks, usable))
  {
    if fallbacks != [] {
      FallbacksStandForKnown(s, route, fallbacks[..|fallbacks| - 1], usable);
    }
  }

  /** The primary, when usable, under the route's model and weight, and after it the known fallbacks, in order. */
  lemma CandidatesAre(s: Snapshot, route: Route, primary: Provider, usable: Usable)
    ensures var cs, known := Candidates(s, route, primary, usable), Filter(route.fallbacks, IsKnown(s, usable));
            if usable(primary) then
              cs != [] && cs[0] == Candidate(primary.id, primary.kind, route.targetModel, route.weight)
              && StandForAll(s, route, known, cs[1..])
            else StandForAll(s, route, known, cs)
  {
    FallbacksStandForKnown(s, route, route.fallbacks, usable);
    var cs := FallbackCandidates(s, route, route.fallbacks, usable);
    if usable(primary) {
      assert Candidates(s, route, primary, usable)[1..] == cs;
    } else {
      assert Candidates(s, route, primary, usable) == cs;
    }
  }

  lemma KnownIsCandidate(s: Snapshot, route: Route, primary: Provider, usable: Usable, f: RouteTarget)
    returns (c: Candidate)
    requires f in route.fallbacks && IsKnown(s, usable)(f)
    ensures c in Candidates(s, route, primary, usable) && StandsFor(s, route, f, c)
  {
    var known, cs := Filter(route.fallbacks, IsKnown(s, usable)), FallbackCandidates(s, route, route.fallbacks, usable);
    FallbacksStandForKnown(s, route, route.fallbacks, usable);
    var i :| 0 <= i < |known| && known[i] == f;
    c := cs[i];
    assert c in cs;
  }

  /** A known fallback is attempted, with its own model or the route's. */
  lemma FallbackIsAttempted(s: Snapshot, route: Route, primary: Provider, usable: Usable, order: Order, f: RouteTarget)
    requires OnlyPermutes(order) && f in route.fallbacks && IsKnown(s, usable)(f)
    ensures Attempt(s.providers[f.providerId], if f.targetModel == "" then route.targetModel else f.targetModel)
            in AttemptsFor(s, route, primary, usable, order)
  {
    var cs := Candidates(s, route, primary, usable);
    var c := KnownIsCandidate(s, route, primary, usable, f);
    assert multiset(order(cs)) == multiset(cs) && c in multiset(cs);
    ResolveMembers(s, order(cs), Attempt(s.providers[f.providerId], c.targetModel));
  }

  // ----- snapshots that agree

  lemma {:induction false} SameFallbacks(s: Snapshot, t: Snapshot, route: Route,
                                         fallbacks: seq<RouteTarget>, usable: Usable)
    requires forall f :: f in fallbacks ==> Get(s.providers, f.providerId) == Get(t.providers, f.providerId)
    ensures FallbackCandidates(s, route, fallbacks, usable) == FallbackCandidates(t, route, fallbacks, usable)
  {
    if fallbacks != [] {
      var f := fallbacks[|fallbacks| - 1];
      assert Get(s.providers, f.providerId) == Get(t.providers, f.providerId);
      SameFallbacks(s, t, route, fallbacks[..|fallbacks| - 1], usable);
    }
  }

  lemma {:induction false} SameResolution(s: Snapshot, t: Snapshot, cs: seq<Candidate>)
    requires forall c :: c in cs ==> Get(s.providers, c.providerId) == Get(t.providers, c.providerId)
    ensures Resolve(s, cs) == Resolve(t, cs)
  {
    if cs != [] {
      var c := cs[|cs| - 1];
      assert Get(s.providers, c.providerId) == Get(t.providers, c.providerId);
      SameResolution(s, t, cs[..|cs| - 1]);
    }
  }

  /** Snapshots that agree on the providers a route mentions build the same attempts for it. */
  lemma SameProvidersSameAttempts(s: Snapshot, t: Snapshot, route: Route, primary: Provider,
                                  usable: Usable, order: Order)
    requires OnlyPermutes(order)
    requires forall id :: (id == primary.id || exists f :: f in route.fallbacks && f.providerId == id) ==>
               Get(s.providers, id) == Get(t.providers, id)
    ensures AttemptsFor(s, route, primary, usable, order) == AttemptsFor(t, route, primary, usable, order)
  {
    SameFallbacks(s, t, route, route.fallbacks, usable);
    var cs := Candidates(s, route, primary, usable);
    assert multiset(order(cs)) == multiset(cs);
    forall c | c in order(cs)
      ensures Get(s.providers, c.providerId) == Get(t.providers, c.providerId)
    {
      assert c in multiset(order(cs));
      if c in FallbackCandidates(s, route, route.fallbacks, usable) {
        FallbacksAreKnown(s, route, route.fallbacks, usable, c);
      }
    }
    SameResolution(s, t, order(cs));
  }

  // ----- and only such snapshots do

  /** Providers are filed under their own id, as the compiler files them. */
  predicate FiledById(s: Snapshot) {
    forall id <- s.providers :: s.providers[id].id == id
  }

  predicate Mentions(route: Route, primaryId: string, id: string) {
    id == primaryId || exists f :: f in route.fallbacks && f.providerId == id
  }

  lemma {:induction false} ResolveMembers(s: Snapshot, cs: seq<Candidate>, a: Attempt)
    ensures a in Resolve(s, cs) <==>
            exists c :: c in cs && c.providerId in s.providers && a == Attempt(s.providers[c.providerId], c.targetModel)
  {
    if cs != [] {
      var n := |cs| - 1;
      assert cs == cs[..n] + [cs[n]];
      ResolveMembers(s, cs[..n], a);
    }
  }

  lemma {:induction false} FallbackIsCandidate(s: Snapshot, route: Route, fallbacks: seq<RouteTarget>, f: RouteTarget)
    requires f in fallbacks && f.providerId in s.providers
    ensures exists c :: c in FallbackCandidates(s, route, fallbacks, AnyProvider()) && c.providerId == f.providerId
  {
    var n := |fallbacks| - 1;
    assert fallbacks == fallbacks[..n] + [fallbacks[n]];
    if f == fallbacks[n] {
      assert FallbackCandidate(s, route, f, AnyProvider())[0] in FallbackCandidates(s, route, fallbacks, AnyProvider());
    } else {
      FallbackIsCandidate(s, route, fallbacks[..n], f);
      var c :| c in FallbackCandidates(s, route, fallbacks[..n], AnyProvider()) && c.providerId == f.providerId;
      assert c in FallbackCandidates(s, route, fallbacks, AnyProvider());
    }
  }

  lemma MentionedIsCandidate(s: Snapshot, route: Route, primary: Provider, id: string)
    requires Mentions(route, primary.id, id) && id in s.providers
    ensures exists c :: c in Candidates(s, route, primary, AnyProvider()) && c.providerId == id
  {
    var cs := Candidates(s, route, primary, AnyProvider());
    if id == primary.id {
      assert cs[0] in cs && cs[0].providerId == id;
    } else {
      var f :| f in route.fallbacks && f.providerId == id;
      FallbackIsCandidate(s, route, route.fallbacks, f);
      var c :| c in FallbackCandidates(s, route, route.fallbacks, AnyProvider()) && c.providerId == id;
      assert c in cs;
    }
  }

  /** A provider that the route mentions and the snapshot has is among the attempts for chat. */
  lemma MentionedIsAttempted(s: Snapshot, route: Route, primary: Provider, order: Order, id: string)
    requires OnlyPermutes(order) && Mentions(route, primary.id, id) && id in s.providers
    ensures exists a :: a in AttemptsFor(s, route, primary, AnyProvider(), order) && a.provider == s.providers[id]
  {
    var cs := Candidates(s, route, primary, AnyProvider());
    MentionedIsCandidate(s, route, primary, id);
    var c :| c in cs && c.providerId == id;
    assert multiset(order(cs)) == multiset(cs) && c in multiset(cs);
    ResolveMembers(s, order(cs), Attempt(s.providers[id], c.targetModel));
  }

  lemma AttemptedIsShared(s: Snapshot, t: Snapshot, route: Route, p: Provider, q: Provider, order: Order, id: string)
    requires OnlyPermutes(order) && FiledById(s) && FiledById(t) && Mentions(route, p.id, id) && id in s.providers
    requires AttemptsFor(s, route, p, AnyProvider(), order) == AttemptsFor(t, route, q, AnyProvider(), order)
    ensures id in t.providers && t.providers[id] == s.providers[id]
  {
    MentionedIsAttempted(s, route, p, order, id);
    var a :| a in AttemptsFor(s, route, p, AnyProvider(), order) && a.provider == s.providers[id];
    ResolveMembers(t, order(Candidates(t, route, q, AnyProvider())), a);
  }

  /**
   Two snapshots, each with its own primary provider under the route's id, build the same chat attempts exactly when
   they agree on the providers the route mentions.
   */
  lemma SameAttemptsIff(s: Snapshot, t: Snapshot, route: Route, p: Provider, q: Provider, order: Order)
    requires OnlyPermutes(order) && FiledById(s) && FiledById(t)
    requires p.id == q.id && (Get(s.providers, p.id) == Get(t.providers, q.id) ==> p == q)
    ensures AttemptsFor(s, route, p, AnyProvider(), order) == AttemptsFor(t, route, q, AnyProvider(), order)
            <==> forall id :: Mentions(route, p.id, id) ==> Get(s.providers, id) == Get(t.providers, id)
  {
    if AttemptsFor(s, route, p, AnyProvider(), order) == AttemptsFor(t, route, q, AnyProvider(), order) {
      forall id | Mentions(route, p.id, id) ensures Get(s.providers, id) == Get(t.providers, id) {
        if id in s.providers {
          AttemptedIsShared(s, t, route, p, q, order, id);
        } else if id in t.providers {
          AttemptedIsShared(t, s, route, q, p, order, id);
        }
      }
    }
    if forall id :: Mentions(route, p.id, id) ==> Get(s.providers, id) == Get(t.providers, id) {
      assert Mentions(route, p.id, p.id);
      forall id | id == p.id || exists f :: f in route.fallbacks && f.providerId == id
        ensures Get(s.providers, id) == Get(t.providers, id)
      {
        assert Mentions(route, p.id, id);
      }
      SameProvidersSameAttempts(s, t, route, p, AnyProvider(), order);
    }
  }

  /** The attempts for a model of an organization, when it has a route. */
  function ChatAttempts(s: Snapshot, o: string, model: string, order: Order): Option<seq<Attempt>> {
    match LookupRoute(s, o, model)
    case None => None
    case Some((r, p)) => Some(AttemptsFor(s, r, p, AnyProvider(), order))
  }
}
