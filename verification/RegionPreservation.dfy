/**
 Region compilation preserves meaning: an organization that is actively bound and has no overlay gets the same
 answers from the regional snapshot as from the global one. Of an organization that is not bound no key, route,
 credential, quota, policy, backend or agent is in it, but a provider of its overlay may be.
 */
module RegionPreservation {
  import opened Collections
  import opened Strings
  import opened Snapshot
  import opened Regions
  import opened Attempts

  /** The organization runs on its base configuration in the region. */
  ghost predicate Inherits(memberships: seq<Membership>, overlays: seq<Overlay>, o: string) {
    o != "" && o in ActiveOrgs(memberships) && LastMatch(overlays, OfOrg(OverlayOrg(), o)).None?
  }

  function Regional(src: Source, catalog: Catalog, allowed: seq<string>): Snapshot {
    CompiledRegion(src, catalog, allowed)
  }

  // ----- the shape of slices

  predicate RowsAreOwned(s: OrgSlice, q: string) {
    && (forall x :: x in s.apiKeys ==> x.organizationId == q)
    && (forall x :: x in s.signingKeys ==> x.organizationId == q)
    && (forall x :: x in s.routes ==> x.organizationId == q)
    && (forall x :: x in s.quotas ==> x.organizationId == q)
    && (forall x :: x in s.policies ==> x.organizationId == q)
    && (forall x :: x in s.wasmHooks ==> x.organizationId == q)
    && (forall x :: x in s.mcpBackends ==> x.organizationId == q)
    && (forall x :: x in s.a2aAgents ==> x.organizationId == q)
    && (forall x :: x in s.credentials ==> x.organizationId == q)
  }

  lemma BaseRowsAreOwned(base: Source, q: string)
    ensures RowsAreOwned(BaseSlice(base, q), q)
  {
  }

  /** Rows that carry an organization are filed under it. */
  lemma SliceRowsAreOwned(base: Source, overlays: seq<Overlay>, q: string)
    ensures RowsAreOwned(EffectiveSlice(base, overlays, q), q)
  {
    BaseRowsAreOwned(base, q);
  }

  /** At most one organization answers to what p looks for. */
  ghost predicate OneOwner<T(!new)>(xs: seq<T>, org: T -> string, p: T -> bool) {
    forall x, y :: x in xs && y in xs && p(x) && p(y) ==> org(x) == org(y)
  }

  ghost predicate SlicedBy<T(!new)>(xs: seq<T>, orgs: seq<string>, slice: string -> seq<T>,
                                    org: T -> string, o: string) {
    && o in orgs
    && slice(o) == Filter(xs, OfOrg(org, o))
    && (forall q, x :: q in orgs && x in slice(q) ==> org(x) == q)
  }

  /** Searching the slices gives the organization the answer that searching everything gives it. */
  lemma SlicedLookup<T(!new)>(xs: seq<T>, orgs: seq<string>, slice: string -> seq<T>, org: T -> string, o: string,
                              p: T -> bool)
    requires SlicedBy(xs, orgs, slice, org, o)
    requires OneOwner(xs + FlatMap(orgs, slice), org, p)
    ensures var global, regional := LastMatch(xs, p), LastMatch(FlatMap(orgs, slice), p);
            (global.Some? && org(global.value) == o) || (regional.Some? && org(regional.value) == o)
            ==> global == regional
  {
    var all := FlatMap(orgs, slice);
    if x :| x in xs + all && p(x) && org(x) == o {
      LastMatchFlatMap(orgs, slice, o, p);
      LastMatchFilter(xs, OfOrg(org, o), p);
    }
  }

  // ----- routes and providers

  /** The overlays leave the provider of this id as the base has it. */
  ghost predicate OverlaysKeepProvider(base: Source, overlays: seq<Overlay>, catalog: Catalog, id: string) {
    var fromOverlay := ScanProvider(FlatMap(overlays, OverlayProviders()), catalog, id);
    fromOverlay.Some? ==> fromOverlay == ScanProvider(base.providers, catalog, id)
  }

  lemma PoolProvider(base: Source, overlays: seq<Overlay>, catalog: Catalog, id: string)
    ensures ScanProvider(ProviderPool(base, overlays), catalog, id) == ScanProvider(base.providers, catalog, id)
       <==> OverlaysKeepProvider(base, overlays, catalog, id)
  {
    LastMatchConcat(base.providers, FlatMap(overlays, OverlayProviders()), ProviderIs(id));
  }

  lemma SelectedProvider(providers: seq<Provider>, pool: seq<Provider>, needed: set<string>,
                         catalog: Catalog, id: string)
    requires SelectsFromPool(providers, pool, needed)
    ensures ScanProvider(providers, catalog, id) == if id in needed then ScanProvider(pool, catalog, id) else None
  {
    var p := LastMatch(providers, ProviderIs(id));
    if p.Some? {
      assert LastMatch(pool, ProviderIs(p.value.id)) == Some(p.value);
    }
  }

  // every kind of row that carries an organization is cut into slices by it

  lemma RoutesAreSliced(base: Source, memberships: seq<Membership>, overlays: seq<Overlay>, o: string)
    requires Inherits(memberships, overlays, o)
    ensures SlicedBy(base.routes, ActiveOrgs(memberships), RouteSlices(Slices(base, overlays)), RouteOrg(), o)
  {
    forall q, x | q in ActiveOrgs(memberships) && x in RouteSlices(Slices(base, overlays))(q)
      ensures RouteOrg()(x) == q
    {
      SliceRowsAreOwned(base, overlays, q);
    }
  }

  lemma ApiKeysAreSliced(base: Source, memberships: seq<Membership>, overlays: seq<Overlay>, o: string)
    requires Inherits(memberships, overlays, o)
    ensures SlicedBy(base.apiKeys, ActiveOrgs(memberships), ApiKeySlices(Slices(base, overlays)), ApiKeyOrg(), o)
  {
    forall q, x | q in ActiveOrgs(memberships) && x in ApiKeySlices(Slices(base, overlays))(q)
      ensures ApiKeyOrg()(x) == q
    {
      SliceRowsAreOwned(base, overlays, q);
    }
  }

  lemma SigningKeysAreSliced(base: Source, memberships: seq<Membership>, overlays: seq<Overlay>, o: string)
    requires Inherits(memberships, overlays, o)
    ensures SlicedBy(base.signingKeys, ActiveOrgs(memberships),
                     SigningKeySlices(Slices(base, overlays)), SigningKeyOrg(), o)
  {
    forall q, x | q in ActiveOrgs(memberships) && x in SigningKeySlices(Slices(base, overlays))(q)
      ensures SigningKeyOrg()(x) == q
    {
      SliceRowsAreOwned(base, overlays, q);
    }
  }

  lemma McpBackendsAreSliced(base: Source, memberships: seq<Membership>, overlays: seq<Overlay>, o: string)
    requires Inherits(memberships, overlays, o)
    ensures SlicedBy(base.mcpBackends, ActiveOrgs(memberships), McpSlices(Slices(base, overlays)), McpOrg(), o)
  {
    forall q, x | q in ActiveOrgs(memberships) && x in McpSlices(Slices(base, overlays))(q) ensures McpOrg()(x) == q {
      SliceRowsAreOwned(base, overlays, q);
    }
  }

  lemma A2aAgentsAreSliced(base: Source, memberships: seq<Membership>, overlays: seq<Overlay>, o: string)
    requires Inherits(memberships, overlays, o)
    ensures SlicedBy(base.a2aAgents, ActiveOrgs(memberships), A2aSlices(Slices(base, overlays)), A2aOrg(), o)
  {
    forall q, x | q in ActiveOrgs(memberships) && x in A2aSlices(Slices(base, overlays))(q) ensures A2aOrg()(x) == q {
      SliceRowsAreOwned(base, overlays, q);
    }
  }

  lemma CredentialsAreSliced(base: Source, memberships: seq<Membership>, overlays: seq<Overlay>, o: string)
    requires Inherits(memberships, overlays, o)
    ensures SlicedBy(base.credentials, ActiveOrgs(memberships),
                     CredentialSlices(Slices(base, overlays)), CredentialOrg(), o)
  {
    forall q, x | q in ActiveOrgs(memberships) && x in CredentialSlices(Slices(base, overlays))(q)
      ensures CredentialOrg()(x) == q
    {
      SliceRowsAreOwned(base, overlays, q);
    }
  }

  lemma QuotasAreSliced(base: Source, memberships: seq<Membership>, overlays: seq<Overlay>, o: string)
    requires Inherits(memberships, overlays, o)
    ensures SlicedBy(base.quotas, ActiveOrgs(memberships), QuotaSlices(Slices(base, overlays)), QuotaOrg(), o)
  {
    forall q, x | q in ActiveOrgs(memberships) && x in QuotaSlices(Slices(base, overlays))(q)
      ensures QuotaOrg()(x) == q
    {
      SliceRowsAreOwned(base, overlays, q);
    }
  }

  /** The region keeps the organization's effective routes. */
  lemma RouteRowPreserved(base: Source, memberships: seq<Membership>, overlays: seq<Overlay>,
                          src: Source, allowed: seq<string>, o: string, model: string)
    requires IsRegionSource(base, memberships, overlays, src, allowed) && Inherits(memberships, overlays, o)
    ensures LastMatch(src.routes, RouteOf(o, model)) == LastMatch(base.routes, RouteOf(o, model))
  {
    RoutesAreSliced(base, memberships, overlays, o);
    SlicedLookup(base.routes, allowed, RouteSlices(Slices(base, overlays)), RouteOrg(), o, RouteOf(o, model));
  }

  lemma RegionRouteOrgsColonFree(base: Source, memberships: seq<Membership>, overlays: seq<Overlay>,
                                 src: Source, allowed: seq<string>)
    requires IsRegionSource(base, memberships, overlays, src, allowed)
    requires forall q :: q in allowed ==> ColonFree(q)
    ensures RouteOrgsColonFree(src.routes)
  {
    forall r | r in src.routes
      ensures ColonFree(r.organizationId)
    {
      var q :| q in allowed && r in RouteSlices(Slices(base, overlays))(q);
      SliceRowsAreOwned(base, overlays, q);
    }
  }

  /** Providers that the organization's routes mention reach the region, in the pool's version. */
  lemma NeededProviderPreserved(base: Source, memberships: seq<Membership>, overlays: seq<Overlay>,
                                src: Source, allowed: seq<string>, catalog: Catalog, o: string, r: Route, id: string)
    requires IsRegionSource(base, memberships, overlays, src, allowed) && Inherits(memberships, overlays, o)
    requires r in base.routes && r.organizationId == o
    requires id == r.providerId || exists f :: f in r.fallbacks && f.providerId == id
    ensures ScanProvider(src.providers, catalog, id) == ScanProvider(ProviderPool(base, overlays), catalog, id)
  {
    var slice := Slices(base, overlays);
    assert r in slice(o).routes;
    assert id in ReferencedProviders(slice(o));
    NeededProvidersOf(allowed, slice, id);
    SelectedProvider(src.providers, ProviderPool(base, overlays), NeededProviders(allowed, slice), catalog, id);
  }

  ghost predicate NamesColonFree(base: Source, allowed: seq<string>) {
    RouteOrgsColonFree(base.routes) && forall q :: q in allowed ==> ColonFree(q)
  }

  /** The overlays leave the provider that the model's route leads to. */
  ghost predicate OverlaysKeepRoute(base: Source, overlays: seq<Overlay>, catalog: Catalog, o: string, model: string) {
    var r := LastMatch(base.routes, RouteOf(o, model));
    r.Some? ==> OverlaysKeepProvider(base, overlays, catalog, r.value.providerId)
  }

  /** Sources with the same last route for a model resolve it alike exactly when they have the same provider for it. */
  lemma RouteLookupsAgreeIff(src: Source, base: Source, catalog: Catalog, o: string, model: string)
    requires ColonFree(o) && RouteOrgsColonFree(src.routes) && RouteOrgsColonFree(base.routes)
    requires LastMatch(src.routes, RouteOf(o, model)) == LastMatch(base.routes, RouteOf(o, model))
    ensures LookupRoute(Compiled(src, catalog), o, model) == LookupRoute(Compiled(base, catalog), o, model) <==>
            var r := LastMatch(base.routes, RouteOf(o, model));
            r.Some? ==> ScanProvider(src.providers, catalog, r.value.providerId)
                        == ScanProvider(base.providers, catalog, r.value.providerId)
  {
    LookupRouteIsScan(src, catalog, o, model);
    LookupRouteIsScan(base, catalog, o, model);
  }

  lemma RegionalRouteIsCompiled(src: Source, catalog: Catalog, allowed: seq<string>, o: string, model: string)
    ensures LookupRoute(Regional(src, catalog, allowed), o, model) == LookupRoute(Compiled(src, catalog), o, model)
  {
  }

  lemma RoutePreservedFor(base: Source, memberships: seq<Membership>, overlays: seq<Overlay>,
                          src: Source, allowed: seq<string>, catalog: Catalog, o: string, model: string)
    requires IsRegionSource(base, memberships, overlays, src, allowed) && Inherits(memberships, overlays, o)
    requires NamesColonFree(base, allowed)
    ensures LookupRoute(Regional(src, catalog, allowed), o, model) == LookupRoute(Compiled(base, catalog), o, model)
            <==> OverlaysKeepRoute(base, overlays, catalog, o, model)
  {
    RegionRouteOrgsColonFree(base, memberships, overlays, src, allowed);
    RouteRowPreserved(base, memberships, overlays, src, allowed, o, model);
    RegionalRouteIsCompiled(src, catalog, allowed, o, model);
    RouteLookupsAgreeIff(src, base, catalog, o, model);
    var r := LastMatch(base.routes, RouteOf(o, model));
    if r.Some? {
      NeededProviderPreserved(base, memberships, overlays, src, allowed, catalog, o, r.value, r.value.providerId);
      PoolProvider(base, overlays, catalog, r.value.providerId);
    }
  }

  /** Route resolution is preserved for every model exactly when no overlay changes a provider the routes lead to. */
  lemma RoutesPreserved(base: Source, memberships: seq<Membership>, overlays: seq<Overlay>,
                        src: Source, allowed: seq<string>, catalog: Catalog, o: string)
    requires IsRegionSource(base, memberships, overlays, src, allowed) && Inherits(memberships, overlays, o)
    requires NamesColonFree(base, allowed)
    ensures (forall model :: LookupRoute(Regional(src, catalog, allowed), o, model)
                             == LookupRoute(Compiled(base, catalog), o, model))
       <==> (forall model :: OverlaysKeepRoute(base, overlays, catalog, o, model))
  {
    forall model
      ensures LookupRoute(Regional(src, catalog, allowed), o, model) == LookupRoute(Compiled(base, catalog), o, model)
         <==> OverlaysKeepRoute(base, overlays, catalog, o, model)
    {
      RoutePreservedFor(base, memberships, overlays, src, allowed, catalog, o, model);
    }
  }

  function SharedProvider(caps: ProviderCapabilities, url: string): Provider {
    Provider("p1", "openai", url, "KEY", "p1", caps, "")
  }

  function SharedRoute(): Route {
    Route("org_a", "m", "p1", "m", [], None, "", 0)
  }

  function SharedBase(caps: ProviderCapabilities): Source {
    Source([], [], [SharedProvider(caps, "https://a")], [SharedRoute()], [], [], [], [], [], [], [], map[], map[])
  }

  function SharedOverlay(caps: ProviderCapabilities): Overlay {
    Overlay("org_b", "eu",
            OverlayPayload([SharedProvider(caps, "https://b")], [], [], [], [], [], [], [], [], None, None))
  }

  lemma SharedProviderIsReplaced(caps: ProviderCapabilities, catalog: Catalog)
    requires caps.chat
    ensures !OverlaysKeepProvider(SharedBase(caps), [SharedOverlay(caps)], catalog, "p1")
  {
    var p, q := SharedProvider(caps, "https://a"), SharedProvider(caps, "https://b");
    assert FlatMap([SharedOverlay(caps)], OverlayProviders()) == [] + [q] == [q] by {
      assert [SharedOverlay(caps)][..0] == [];
    }
    assert LastMatch([q], ProviderIs("p1")) == Some(q);
    assert LastMatch([p], ProviderIs("p1")) == Some(p);
    assert p.baseUrl[8] != q.baseUrl[8];
  }

  lemma SharedRouteIsInherited(caps: ProviderCapabilities, members: seq<Membership>)
    requires Membership("org_a", "eu", MEMBERSHIP_ACTIVE) in members
    ensures Inherits(members, [SharedOverlay(caps)], "org_a")
    ensures LastMatch(SharedBase(caps).routes, RouteOf("org_a", "m")) == Some(SharedRoute())
    ensures ColonFree("org_a")
  {
    ActiveOrgsMembers(members, "org_a");
    assert "org_b"[4] != "org_a"[4];
    assert !OfOrg(OverlayOrg(), "org_a")(SharedOverlay(caps));
  }

  /** One organization's overlay can redirect another organization's traffic: the provider pool is shared. */
  lemma OverlayProviderReachesOtherOrganizations(catalog: Catalog, caps: ProviderCapabilities, members: seq<Membership>,
                                                 src: Source, allowed: seq<string>)
    requires caps.chat && Membership("org_a", "eu", MEMBERSHIP_ACTIVE) in members
    requires IsRegionSource(SharedBase(caps), members, [SharedOverlay(caps)], src, allowed)
    requires forall q :: q in allowed ==> ColonFree(q)
    ensures Inherits(members, [SharedOverlay(caps)], "org_a")
    ensures LookupRoute(Regional(src, catalog, allowed), "org_a", "m")
         != LookupRoute(Compiled(SharedBase(caps), catalog), "org_a", "m")
  {
    SharedProviderIsReplaced(caps, catalog);
    SharedRouteIsInherited(caps, members);
    RoutePreservedFor(SharedBase(caps), members, [SharedOverlay(caps)], src, allowed, catalog, "org_a", "m");
  }

  /** The attempt list of a route, for chat or speech, is kept when no overlay changes a provider the route mentions. */
  lemma AttemptsPreserved(base: Source, memberships: seq<Membership>, overlays: seq<Overlay>,
                          src: Source, allowed: seq<string>, catalog: Catalog, o: string, model: string,
                          usable: Usable, order: Order)
    requires IsRegionSource(base, memberships, overlays, src, allowed) && Inherits(memberships, overlays, o)
    requires NamesColonFree(base, allowed) && OnlyPermutes(order)
    requires LookupRoute(Compiled(base, catalog), o, model).Some?
    requires var r := LookupRoute(Compiled(base, catalog), o, model).value.0;
             && OverlaysKeepProvider(base, overlays, catalog, r.providerId)
             && forall f :: f in r.fallbacks ==> OverlaysKeepProvider(base, overlays, catalog, f.providerId)
    ensures var (r, p) := LookupRoute(Compiled(base, catalog), o, model).value;
            AttemptsFor(Regional(src, catalog, allowed), r, p, usable, order)
            == AttemptsFor(Compiled(base, catalog), r, p, usable, order)
  {
    var (r, p) := LookupRoute(Compiled(base, catalog), o, model).value;
    var g, s := Compiled(base, catalog), Regional(src, catalog, allowed);
    LookupRouteIsScan(base, catalog, o, model);
    ProviderIndex(base, catalog, r.providerId);
    forall id | id == r.providerId || exists f :: f in r.fallbacks && f.providerId == id
      ensures Get(s.providers, id) == Get(g.providers, id)
    {
      NeededProviderPreserved(base, memberships, overlays, src, allowed, catalog, o, r, id);
      PoolProvider(base, overlays, catalog, id);
      ProviderIndex(src, catalog, id);
      ProviderIndex(base, catalog, id);
    }
    assert p.id == r.providerId;
    SameProvidersSameAttempts(s, g, r, p, usable, order);
  }

  // ----- indexes by id: keys, backends, agents, credentials

  /** The two answers agree whenever either of them belongs to the organization. */
  ghost predicate SameForOrg<T>(global: Option<T>, regional: Option<T>, org: T -> string, o: string) {
    (global.Some? && org(global.value) == o) || (regional.Some? && org(regional.value) == o) ==> global == regional
  }

  lemma IndexedPreserved<T(!new)>(xs: seq<T>, orgs: seq<string>, slice: string -> seq<T>, org: T -> string, o: string,
                                  keep: T -> bool, key: T -> string, k: string)
    requires SlicedBy(xs, orgs, slice, org, o)
    requires OneOwner(xs + FlatMap(orgs, slice), org, Matches(keep, key, k))
    ensures SameForOrg(Get(IndexBy(xs, keep, key, Same()), k), Get(IndexBy(FlatMap(orgs, slice), keep, key, Same()), k),
                       org, o)
  {
    IndexIsLastMatch(xs, keep, key, Same(), k);
    IndexIsLastMatch(FlatMap(orgs, slice), keep, key, Same(), k);
    SlicedLookup(xs, orgs, slice, org, o, Matches(keep, key, k));
  }

  /** Key lookups by hash agree on everything that belongs to the organization. */
  lemma ApiKeysPreserved(base: Source, memberships: seq<Membership>, overlays: seq<Overlay>,
                         src: Source, allowed: seq<string>, catalog: Catalog, o: string, hash: string)
    requires IsRegionSource(base, memberships, overlays, src, allowed) && Inherits(memberships, overlays, o)
    requires OneOwner(base.apiKeys + src.apiKeys, ApiKeyOrg(), Matches(HasHash(), KeyHash(), hash))
    ensures SameForOrg(Get(Compiled(base, catalog).apiKeys, hash), Get(Regional(src, catalog, allowed).apiKeys, hash),
                       ApiKeyOrg(), o)
  {
    ApiKeysAreSliced(base, memberships, overlays, o);
    IndexedPreserved(base.apiKeys, allowed, ApiKeySlices(Slices(base, overlays)), ApiKeyOrg(), o, HasHash(), KeyHash(),
                     hash);
  }

  /** So do signing key lookups by key id. */
  lemma SigningKeysPreserved(base: Source, memberships: seq<Membership>, overlays: seq<Overlay>,
                             src: Source, allowed: seq<string>, catalog: Catalog, o: string, keyId: string)
    requires IsRegionSource(base, memberships, overlays, src, allowed) && Inherits(memberships, overlays, o)
    requires OneOwner(base.signingKeys + src.signingKeys, SigningKeyOrg(),
                      Matches(HasKeyId(), SigningKeyId(), TrimSpace(keyId)))
    ensures SameForOrg(LookupSigningKey(Compiled(base, catalog), keyId),
                       LookupSigningKey(Regional(src, catalog, allowed), keyId), SigningKeyOrg(), o)
  {
    SigningKeysAreSliced(base, memberships, overlays, o);
    IndexedPreserved(base.signingKeys, allowed, SigningKeySlices(Slices(base, overlays)),
                     SigningKeyOrg(), o, HasKeyId(),
                     SigningKeyId(), TrimSpace(keyId));
  }

  /** No id is used by two organizations. */
  ghost predicate IdsOwned<T(!new)>(xs: seq<T>, id: T -> string, org: T -> string) {
    forall x, y :: x in xs && y in xs && id(x) == id(y) ==> org(x) == org(y)
  }

  /** An alias index entry of the organization is preserved, and so is the backend it leads to. */
  lemma AliasPreserved<T(!new)>(xs: seq<T>, orgs: seq<string>, slice: string -> seq<T>, org: T -> string, o: string,
                                usable: T -> bool, id: T -> string, routable: T -> bool, key: T -> string, k: string)
    requires SlicedBy(xs, orgs, slice, org, o)
    requires forall x :: x in xs + FlatMap(orgs, slice) && Matches(routable, key, k)(x) ==> org(x) == o
    requires IdsOwned(xs + FlatMap(orgs, slice), id, org)
    requires forall x :: routable(x) ==> usable(x)
    ensures var g := Get(IndexBy(xs, routable, key, id), k);
            var r := Get(IndexBy(FlatMap(orgs, slice), routable, key, id), k);
            && g == r
            && (g.Some? ==>
                  Get(IndexBy(xs, usable, id, Same()), g.value)
                  == Get(IndexBy(FlatMap(orgs, slice), usable, id, Same()), g.value))
  {
    var all := FlatMap(orgs, slice);
    IndexIsLastMatch(xs, routable, key, id, k);
    IndexIsLastMatch(all, routable, key, id, k);
    SlicedLookup(xs, orgs, slice, org, o, Matches(routable, key, k));
    var row := LastMatch(xs, Matches(routable, key, k));
    if row.Some? {
      IndexedPreserved(xs, orgs, slice, org, o, usable, id, id(row.value));
      IndexIsLastMatch(xs, usable, id, Same(), id(row.value));
      assert Matches(usable, id, id(row.value))(row.value);
    }
  }

  lemma McpPreserved(base: Source, memberships: seq<Membership>, overlays: seq<Overlay>,
                     src: Source, allowed: seq<string>, catalog: Catalog, o: string, alias: string)
    requires IsRegionSource(base, memberships, overlays, src, allowed) && Inherits(memberships, overlays, o)
    requires forall x :: x in base.mcpBackends + src.mcpBackends ==> ColonFree(x.organizationId)
    requires IdsOwned(base.mcpBackends + src.mcpBackends, McpId(), McpOrg())
    requires ColonFree(o)
    ensures LookupMcpBackend(Regional(src, catalog, allowed), o, alias)
         == LookupMcpBackend(Compiled(base, catalog), o, alias)
  {
    McpBackendsAreSliced(base, memberships, overlays, o);
    forall x | x in base.mcpBackends + src.mcpBackends && Matches(McpRoutable(), McpKey(), Key2(o, alias))(x)
      ensures McpOrg()(x) == o
    {
      Key2Injective(x.organizationId, x.alias, o, alias);
    }
    AliasPreserved(base.mcpBackends, allowed, McpSlices(Slices(base, overlays)), McpOrg(), o,
                   McpUsable(), McpId(), McpRoutable(), McpKey(), Key2(o, alias));
  }

  lemma A2aPreserved(base: Source, memberships: seq<Membership>, overlays: seq<Overlay>,
                     src: Source, allowed: seq<string>, catalog: Catalog, o: string, alias: string)
    requires IsRegionSource(base, memberships, overlays, src, allowed) && Inherits(memberships, overlays, o)
    requires forall x :: x in base.a2aAgents + src.a2aAgents ==> ColonFree(x.organizationId)
    requires IdsOwned(base.a2aAgents + src.a2aAgents, A2aId(), A2aOrg())
    requires ColonFree(o)
    ensures LookupA2aAgent(Regional(src, catalog, allowed), o, alias)
         == LookupA2aAgent(Compiled(base, catalog), o, alias)
  {
    A2aAgentsAreSliced(base, memberships, overlays, o);
    forall x | x in base.a2aAgents + src.a2aAgents && Matches(A2aRoutable(), A2aKey(), Key2(o, alias))(x)
      ensures A2aOrg()(x) == o
    {
      Key2Injective(x.organizationId, x.alias, o, alias);
    }
    AliasPreserved(base.a2aAgents, allowed, A2aSlices(Slices(base, overlays)), A2aOrg(), o,
                   A2aUsable(), A2aId(), A2aRoutable(), A2aKey(), Key2(o, alias));
  }

  // ----- credentials

  predicate Addresses(a: Assignment, key: ApiKey) {
    || (a.scopeType == SCOPE_API_KEY && a.scopeId == key.id)
    || (a.scopeType == SCOPE_PROJECT && a.scopeId == key.projectId)
    || (a.scopeType == SCOPE_ORGANIZATION && a.scopeId == key.organizationId)
  }

  /** Assignments to the scopes of the key are made with credentials of its organization only. */
  ghost predicate ScopesOwned(base: Source, slice: string -> OrgSlice, allowed: seq<string>, o: string, key: ApiKey) {
    && (forall a :: a in base.assignments && Complete()(a) && Addresses(a, key) ==>
          AssignmentOrg(base.credentials)(a) == o)
    && (forall q, a :: q in allowed && q != o && a in slice(q).assignments && Complete()(a) ==> !Addresses(a, key))
  }

  lemma CredentialRowPreserved(base: Source, memberships: seq<Membership>, overlays: seq<Overlay>,
                               src: Source, allowed: seq<string>, catalog: Catalog, o: string, id: string)
    requires IsRegionSource(base, memberships, overlays, src, allowed) && Inherits(memberships, overlays, o)
    requires IdsOwned(base.credentials + src.credentials, CredentialId(), CredentialOrg())
    ensures SameForOrg(Get(Compiled(base, catalog).credentials, id),
                       Get(Regional(src, catalog, allowed).credentials, id),
                       CredentialOrg(), o)
  {
    CredentialsAreSliced(base, memberships, overlays, o);
    IndexedPreserved(base.credentials, allowed, CredentialSlices(Slices(base, overlays)), CredentialOrg(), o,
                     HasCredentialId(), CredentialId(), id);
  }

  /** The last assignment to one of the key's scopes is preserved, and its credential belongs to the organization. */
  lemma AssignmentPreserved(base: Source, memberships: seq<Membership>, overlays: seq<Overlay>,
                            src: Source, allowed: seq<string>, o: string, key: ApiKey,
                            p: Assignment -> bool)
    requires IsRegionSource(base, memberships, overlays, src, allowed) && Inherits(memberships, overlays, o)
    requires ScopesOwned(base, Slices(base, overlays), allowed, o, key)
    requires forall a :: p(a) ==> Complete()(a) && Addresses(a, key)
    ensures LastMatch(src.assignments, p) == LastMatch(base.assignments, p)
    ensures var a := LastMatch(base.assignments, p);
            a.Some? ==> a.value.credentialId != "" && AssignmentOrg(base.credentials)(a.value) == o
  {
    LastMatchFlatMap(allowed, AssignmentSlices(Slices(base, overlays)), o, p);
    LastMatchFilter(base.assignments, OfOrg(AssignmentOrg(base.credentials), o), p);
  }

  /** The credential an assignment of the organization names is the organization's, when it exists. */
  lemma OwnCredentialIndex(credentials: seq<Credential>, o: string, a: Assignment)
    requires a.credentialId != "" && AssignmentOrg(credentials)(a) == o
    ensures var c := Get(IndexBy(credentials, HasCredentialId(), CredentialId(), Same()), a.credentialId);
            c.Some? ==> c.value.organizationId == o
    ensures o != "" ==> Get(IndexBy(credentials, HasCredentialId(), CredentialId(), Same()), a.credentialId).Some?
  {
    var id := a.credentialId;
    IndexIsLastMatch(credentials, HasCredentialId(), CredentialId(), Same(), id);
    LastMatchSame(credentials, Matches(HasCredentialId(), CredentialId(), id), CredentialIs(id));
  }

  /** A credential of the organization is found under its id on both sides. */
  lemma OwnCredentialPreserved(base: Source, memberships: seq<Membership>, overlays: seq<Overlay>,
                               src: Source, allowed: seq<string>, catalog: Catalog, o: string, a: Assignment)
    requires IsRegionSource(base, memberships, overlays, src, allowed) && Inherits(memberships, overlays, o)
    requires IdsOwned(base.credentials + src.credentials, CredentialId(), CredentialOrg())
    requires a.credentialId != "" && AssignmentOrg(base.credentials)(a) == o
    ensures Get(Compiled(base, catalog).credentials, a.credentialId)
         == Get(Regional(src, catalog, allowed).credentials, a.credentialId)
  {
    OwnCredentialIndex(base.credentials, o, a);
    CredentialRowPreserved(base, memberships, overlays, src, allowed, catalog, o, a.credentialId);
  }

  lemma SameScopedCredential(s: Snapshot, t: Snapshot, providerType: string, scopeType: string, scopeId: string)
    requires var k := Key3(providerType, scopeType, scopeId);
             && Get(s.assignments, k) == Get(t.assignments, k)
             && (k in s.assignments ==> Get(s.credentials, s.assignments[k]) == Get(t.credentials, s.assignments[k]))
    ensures ScopedCredential(s, providerType, scopeType, scopeId) ==
            ScopedCredential(t, providerType, scopeType, scopeId)
  {
  }

  /** Assignment keys are unambiguous: either no provider type carries a colon, or no scope id does. */
  ghost predicate KeysApart(assignments: seq<Assignment>, providerType: string, scopeId: string) {
    || (AssignmentKindsColonFree(assignments) && ColonFree(providerType))
    || (AssignmentScopesColonFree(assignments) && ColonFree(scopeId))
  }

  lemma ScopedAssignmentIndex(src: Source, catalog: Catalog, providerType: string, scopeType: string, scopeId: string)
    requires ColonFree(scopeType) && KeysApart(src.assignments, providerType, scopeId)
    ensures var last := LastMatch(src.assignments, AssignmentTo(providerType, scopeType, scopeId));
            Get(Compiled(src, catalog).assignments, Key3(providerType, scopeType, scopeId))
            == if last.Some? then Some(last.value.credentialId) else None
  {
    if AssignmentKindsColonFree(src.assignments) && ColonFree(providerType) {
      AssignmentIndex(src, catalog, providerType, scopeType, scopeId);
    } else {
      AssignmentIndexAnyType(src, catalog, providerType, scopeType, scopeId);
    }
  }

  lemma ScopedCredentialPreserved(base: Source, memberships: seq<Membership>, overlays: seq<Overlay>,
                                  src: Source, allowed: seq<string>, catalog: Catalog, o: string, key: ApiKey,
                                  providerType: string, scopeType: string, scopeId: string)
    requires IsRegionSource(base, memberships, overlays, src, allowed) && Inherits(memberships, overlays, o)
    requires IdsOwned(base.credentials + src.credentials, CredentialId(), CredentialOrg())
    requires ScopesOwned(base, Slices(base, overlays), allowed, o, key)
    requires ColonFree(scopeType)
    requires KeysApart(base.assignments, providerType, scopeId) && KeysApart(src.assignments, providerType, scopeId)
    requires Addresses(Assignment("", "", scopeType, scopeId), key)
    ensures ScopedCredential(Regional(src, catalog, allowed), providerType, scopeType, scopeId)
         == ScopedCredential(Compiled(base, catalog), providerType, scopeType, scopeId)
  {
    var p := AssignmentTo(providerType, scopeType, scopeId);
    var last := LastMatch(base.assignments, p);
    assert last == LastMatch(src.assignments, p)
      && (last.Some? ==>
            Get(Compiled(base, catalog).credentials, last.value.credentialId)
            == Get(Regional(src, catalog, allowed).credentials, last.value.credentialId)) by {
      AssignmentPreserved(base, memberships, overlays, src, allowed, o, key, p);
      if last.Some? {
        OwnCredentialPreserved(base, memberships, overlays, src, allowed, catalog, o, last.value);
      }
    }
    ScopedAssignmentIndex(base, catalog, providerType, scopeType, scopeId);
    ScopedAssignmentIndex(src, catalog, providerType, scopeType, scopeId);
    SameScopedCredential(Regional(src, catalog, allowed), Compiled(base, catalog), providerType, scopeType, scopeId);
  }

  /** Maps that agree on the organization's credentials name the same ones. */
  lemma NamedCredentialsAgree(g: map<string, Credential>, r: map<string, Credential>, o: string,
                              providerType: string, name: string)
    requires forall id :: SameForOrg(Get(g, id), Get(r, id), CredentialOrg(), o)
    ensures NamedCredentials(g, o, providerType, name) <= NamedCredentials(r, o, providerType, name)
  {
    forall c | c in NamedCredentials(g, o, providerType, name)
      ensures c in NamedCredentials(r, o, providerType, name)
    {
      var id :| id in g && IsNamed(g[id], o, providerType, name) && g[id] == c;
      assert SameForOrg(Get(g, id), Get(r, id), CredentialOrg(), o);
    }
  }

  lemma NamedCredentialsPreserved(base: Source, memberships: seq<Membership>, overlays: seq<Overlay>,
                                  src: Source, allowed: seq<string>, catalog: Catalog, o: string,
                                  providerType: string, name: string)
    requires IsRegionSource(base, memberships, overlays, src, allowed) && Inherits(memberships, overlays, o)
    requires IdsOwned(base.credentials + src.credentials, CredentialId(), CredentialOrg())
    ensures NamedCredentials(Regional(src, catalog, allowed).credentials, o, providerType, name)
         == NamedCredentials(Compiled(base, catalog).credentials, o, providerType, name)
  {
    var g, r := Compiled(base, catalog).credentials, Regional(src, catalog, allowed).credentials;
    forall id
      ensures SameForOrg(Get(g, id), Get(r, id), CredentialOrg(), o)
      ensures SameForOrg(Get(r, id), Get(g, id), CredentialOrg(), o)
    {
      CredentialRowPreserved(base, memberships, overlays, src, allowed, catalog, o, id);
    }
    NamedCredentialsAgree(g, r, o, providerType, name);
    NamedCredentialsAgree(r, g, o, providerType, name);
  }

  lemma ScopeNamesColonFree()
    ensures ColonFree(SCOPE_API_KEY) && ColonFree(SCOPE_PROJECT) && ColonFree(SCOPE_ORGANIZATION)
  {
  }

  ghost predicate KeysApartFor(assignments: seq<Assignment>, providerType: string, key: ApiKey) {
    KeysApart(assignments, providerType, key.id) && KeysApart(assignments, providerType, key.projectId) &&
    KeysApart(assignments, providerType, key.organizationId)
  }

  lemma AssignedCredentialPreserved(base: Source, memberships: seq<Membership>, overlays: seq<Overlay>,
                                    src: Source, allowed: seq<string>, catalog: Catalog, key: ApiKey,
                                    providerType: string)
    requires IsRegionSource(base, memberships, overlays, src, allowed)
    requires Inherits(memberships, overlays, key.organizationId)
    requires IdsOwned(base.credentials + src.credentials, CredentialId(), CredentialOrg())
    requires ScopesOwned(base, Slices(base, overlays), allowed, key.organizationId, key)
    requires KeysApartFor(base.assignments, providerType, key) && KeysApartFor(src.assignments, providerType, key)
    ensures AssignedFor(Regional(src, catalog, allowed), providerType, key)
         == AssignedFor(Compiled(base, catalog), providerType, key)
  {
    var o := key.organizationId;
    ScopeNamesColonFree();
    ScopedCredentialPreserved(base, memberships, overlays, src, allowed, catalog, o, key, providerType,
                              SCOPE_API_KEY, key.id);
    ScopedCredentialPreserved(base, memberships, overlays, src, allowed, catalog, o, key, providerType,
                              SCOPE_PROJECT, key.projectId);
    ScopedCredentialPreserved(base, memberships, overlays, src, allowed, catalog, o, key, providerType,
                              SCOPE_ORGANIZATION, key.organizationId);
  }

  /** A call gets the same possible credentials, by name or by assignment. */
  lemma CredentialsPreserved(base: Source, memberships: seq<Membership>, overlays: seq<Overlay>,
                             src: Source, allowed: seq<string>, catalog: Catalog, key: ApiKey,
                             providerType: string, overrideName: string, r: CredentialAnswer)
    requires IsRegionSource(base, memberships, overlays, src, allowed)
    requires Inherits(memberships, overlays, key.organizationId)
    requires IdsOwned(base.credentials + src.credentials, CredentialId(), CredentialOrg())
    requires ScopesOwned(base, Slices(base, overlays), allowed, key.organizationId, key)
    requires KeysApartFor(base.assignments, providerType, key) && KeysApartFor(src.assignments, providerType, key)
    requires TrimSpace(key.organizationId) == key.organizationId
    ensures PossibleAnswer(Regional(src, catalog, allowed), providerType, key, overrideName, r)
       <==> PossibleAnswer(Compiled(base, catalog), providerType, key, overrideName, r)
  {
    AssignedCredentialPreserved(base, memberships, overlays, src, allowed, catalog, key, providerType);
    NamedCredentialsPreserved(base, memberships, overlays, src, allowed, catalog, key.organizationId,
                              TrimSpace(providerType), TrimSpace(overrideName));
  }

  // ----- quotas, retries, policies

  /** The quota an organization's key has when only the organization's own quotas are looked at. */
  function OwnQuota(base: Source, key: ApiKey, metric: string, window: string): Option<Quota> {
    BestQuota(Filter(base.quotas, OfOrg(QuotaOrg(), key.organizationId)), key, metric, window)
  }

  /** A quota of another organization addresses the key and is not outranked by the key's organization. */
  ghost predicate ForeignQuotaWins(quotas: seq<Quota>, key: ApiKey, metric: string, window: string) {
    var rank := RankFor(key, metric, DefaultWindow(window));
    exists i ::
      0 <= i < |quotas| && quotas[i].organizationId != key.organizationId && rank(quotas[i]) > 0
      && forall j :: 0 <= j < |quotas| && quotas[j].organizationId == key.organizationId ==>
           rank(quotas[j]) < rank(quotas[i]) || (rank(quotas[j]) == rank(quotas[i]) && i < j)
  }

  lemma ForeignBestWins(quotas: seq<Quota>, key: ApiKey, metric: string, window: string)
    requires var best := BestQuota(quotas, key, metric, window);
             best.Some? && best.value.organizationId != key.organizationId
    ensures ForeignQuotaWins(quotas, key, metric, window)
  {
    var rank, best := RankFor(key, metric, DefaultWindow(window)), BestQuota(quotas, key, metric, window).value;
    FirstMaxIsFirstMax(quotas, rank);
    var b :| 0 <= b < |quotas| && quotas[b] == best
             && (forall j :: 0 <= j < b ==> rank(quotas[j]) < rank(best))
             && (forall j :: b < j < |quotas| ==> rank(quotas[j]) <= rank(best));
    assert forall j :: 0 <= j < |quotas| && quotas[j].organizationId == key.organizationId ==>
             rank(quotas[j]) < rank(quotas[b]) || (rank(quotas[j]) == rank(quotas[b]) && b < j);
  }

  lemma WinnerIsForeign(quotas: seq<Quota>, key: ApiKey, metric: string, window: string)
    requires ForeignQuotaWins(quotas, key, metric, window)
    ensures var best := BestQuota(quotas, key, metric, window);
            best.Some? && best.value.organizationId != key.organizationId
  {
    var rank := RankFor(key, metric, DefaultWindow(window));
    FirstMaxIsFirstMax(quotas, rank);
    var i :| 0 <= i < |quotas| && quotas[i].organizationId != key.organizationId && rank(quotas[i]) > 0
             && forall j :: 0 <= j < |quotas| && quotas[j].organizationId == key.organizationId ==>
                  rank(quotas[j]) < rank(quotas[i]) || (rank(quotas[j]) == rank(quotas[i]) && i < j);
    NoneAbove(quotas, rank, FirstMax(quotas, rank), i);
  }

  lemma OwnQuotaDecidesIff(quotas: seq<Quota>, key: ApiKey, metric: string, window: string)
    ensures BestQuota(Filter(quotas, OfOrg(QuotaOrg(), key.organizationId)), key, metric, window)
            == BestQuota(quotas, key, metric, window)
            <==> !ForeignQuotaWins(quotas, key, metric, window)
  {
    var best := BestQuota(quotas, key, metric, window);
    FirstMaxFilterIff(quotas, OfOrg(QuotaOrg(), key.organizationId), RankFor(key, metric, DefaultWindow(window)));
    if ForeignQuotaWins(quotas, key, metric, window) {
      WinnerIsForeign(quotas, key, metric, window);
    }
    if best.Some? && best.value.organizationId != key.organizationId {
      ForeignBestWins(quotas, key, metric, window);
    }
  }

  /** Region and hub both charge a key to its organization's own quota exactly when no other organization's wins. */
  lemma OwnQuotasPreservedIff(base: Source, memberships: seq<Membership>, overlays: seq<Overlay>,
                              src: Source, allowed: seq<string>, catalog: Catalog,
                              key: ApiKey, metric: string, window: string)
    requires IsRegionSource(base, memberships, overlays, src, allowed)
    requires Inherits(memberships, overlays, key.organizationId)
    ensures BestQuota(Regional(src, catalog, allowed).quotas, key, metric, window)
            == OwnQuota(base, key, metric, window)
            <==> !ForeignQuotaWins(src.quotas, key, metric, window)
    ensures BestQuota(Compiled(base, catalog).quotas, key, metric, window)
            == OwnQuota(base, key, metric, window)
            <==> !ForeignQuotaWins(base.quotas, key, metric, window)
  {
    var o, slice := key.organizationId, QuotaSlices(Slices(base, overlays));
    QuotasAreSliced(base, memberships, overlays, o);
    ActiveOrgsMembers(memberships, o);
    FilterOfSlices(allowed, slice, QuotaOrg(), o);
    FilterTwice(base.quotas, OfOrg(QuotaOrg(), o));
    OwnQuotaDecidesIff(src.quotas, key, metric, window);
    OwnQuotaDecidesIff(base.quotas, key, metric, window);
  }

  /** So quota resolution, which compares scopes only, is preserved when no other organization's quota wins. */
  lemma QuotasPreserved(base: Source, memberships: seq<Membership>, overlays: seq<Overlay>,
                        src: Source, allowed: seq<string>, catalog: Catalog,
                        key: ApiKey, metric: string, window: string)
    requires IsRegionSource(base, memberships, overlays, src, allowed)
    requires Inherits(memberships, overlays, key.organizationId)
    requires !ForeignQuotaWins(base.quotas, key, metric, window) && !ForeignQuotaWins(src.quotas, key, metric, window)
    ensures BestQuota(Regional(src, catalog, allowed).quotas, key, metric, window)
         == BestQuota(Compiled(base, catalog).quotas, key, metric, window)
  {
    OwnQuotasPreservedIff(base, memberships, overlays, src, allowed, catalog, key, metric, window);
  }

  const QUOTA_OF_A := Quota("q1", "org_a", SCOPE_ORGANIZATION, "org_a", METRIC_REQUESTS, 100, WINDOW_TOTAL)
  const QUOTA_OF_B := Quota("q2", "org_b", SCOPE_USER, "u", METRIC_REQUESTS, 1, WINDOW_TOTAL)

  lemma RanksOfBoth(key: ApiKey)
    requires key.organizationId == "org_a" && key.ownerUserId == "u"
    ensures Rank(QUOTA_OF_A, key, METRIC_REQUESTS, WINDOW_TOTAL) == 1
    ensures Rank(QUOTA_OF_B, key, METRIC_REQUESTS, WINDOW_TOTAL) == 4
  {
    assert SCOPE_ORGANIZATION[0] == 'o' && SCOPE_USER[0] == 'u';
  }

  lemma OnlyOrgAIsBound(members: seq<Membership>)
    requires members == [Membership("org_a", "eu", MEMBERSHIP_ACTIVE)]
    ensures ActiveOrgs(members) == ["org_a"]
  {
    assert members[..0] == [];
  }

  lemma QuotasOfOrgA(base: Source, slice: string -> OrgSlice)
    requires base.quotas == [QUOTA_OF_A, QUOTA_OF_B] && slice("org_a") == BaseSlice(base, "org_a")
    ensures FlatMap(["org_a"], QuotaSlices(slice)) == [QUOTA_OF_A]
  {
    assert "org_b"[4] != "org_a"[4];
    assert base.quotas[..1] == [QUOTA_OF_A] && base.quotas[..1][..0] == [] && ["org_a"][..0] == [];
    assert Filter(base.quotas[..1], OfOrg(QuotaOrg(), "org_a")) == [QUOTA_OF_A];
    assert Filter(base.quotas, OfOrg(QuotaOrg(), "org_a")) == [QUOTA_OF_A];
  }

  lemma QuotaOfBWins(key: ApiKey)
    requires key.organizationId == "org_a" && key.ownerUserId == "u"
    ensures BestQuota([QUOTA_OF_A], key, METRIC_REQUESTS, WINDOW_TOTAL) == Some(QUOTA_OF_A)
    ensures BestQuota([QUOTA_OF_A, QUOTA_OF_B], key, METRIC_REQUESTS, WINDOW_TOTAL) == Some(QUOTA_OF_B)
  {
    var rank := RankFor(key, METRIC_REQUESTS, WINDOW_TOTAL);
    RanksOfBoth(key);
    assert rank(QUOTA_OF_A) == 1 && rank(QUOTA_OF_B) == 4;
    assert [QUOTA_OF_A, QUOTA_OF_B][..1] == [QUOTA_OF_A] && [QUOTA_OF_A][..0] == [];
    assert FirstMax([QUOTA_OF_A], rank) == Some(QUOTA_OF_A);
  }

  /**
   A user belongs to two organizations, and one of them limits the user: the hub charges the user's key of the other
   organization to that limit, a region that only the other organization is bound to does not.
   */
  lemma SharedUsersQuotaDecides(catalog: Catalog, base: Source, members: seq<Membership>, src: Source,
                                allowed: seq<string>, key: ApiKey)
    requires members == [Membership("org_a", "eu", MEMBERSHIP_ACTIVE)] && base.quotas == [QUOTA_OF_A, QUOTA_OF_B]
    requires IsRegionSource(base, members, [], src, allowed)
    requires key.organizationId == "org_a" && key.ownerUserId == "u"
    ensures BestQuota(Compiled(base, catalog).quotas, key, METRIC_REQUESTS, WINDOW_TOTAL) == Some(QUOTA_OF_B)
    ensures BestQuota(Regional(src, catalog, allowed).quotas, key, METRIC_REQUESTS, WINDOW_TOTAL) == Some(QUOTA_OF_A)
  {
    QuotaOfBWins(key);
    OnlyOrgAIsBound(members);
    QuotasOfOrgA(base, Slices(base, []));
  }

  lemma RetriesPreserved(base: Source, memberships: seq<Membership>, overlays: seq<Overlay>,
                         src: Source, allowed: seq<string>, catalog: Catalog, route: Route)
    requires IsRegionSource(base, memberships, overlays, src, allowed)
    requires Inherits(memberships, overlays, route.organizationId)
    ensures ResolveRetry(Regional(src, catalog, allowed), route) == ResolveRetry(Compiled(base, catalog), route)
  {
    assert Slices(base, overlays)(route.organizationId) == BaseSlice(base, route.organizationId);
  }

  lemma ObjectStorePreserved(base: Source, memberships: seq<Membership>, overlays: seq<Overlay>,
                             src: Source, allowed: seq<string>, catalog: Catalog, o: string)
    requires IsRegionSource(base, memberships, overlays, src, allowed) && Inherits(memberships, overlays, o)
    ensures ResolveObjectStore(Regional(src, catalog, allowed), o) == ResolveObjectStore(Compiled(base, catalog), o)
  {
    assert Slices(base, overlays)(o) == BaseSlice(base, o);
  }

  /** The region holds the organization's policies in their base order. */
  lemma PoliciesPreserved(base: Source, memberships: seq<Membership>, overlays: seq<Overlay>,
                          src: Source, allowed: seq<string>, catalog: Catalog, o: string)
    requires IsRegionSource(base, memberships, overlays, src, allowed) && Inherits(memberships, overlays, o)
    ensures Filter(Regional(src, catalog, allowed).policies, OfOrg(PolicyOrg(), o))
         == Filter(Compiled(base, catalog).policies, OfOrg(PolicyOrg(), o))
  {
    forall q | q in allowed { SliceRowsAreOwned(base, overlays, q); }
    ActiveOrgsMembers(memberships, o);
    FilterOfSlices(allowed, PolicySlices(Slices(base, overlays)), PolicyOrg(), o);
    FilterTwice(base.policies, OfOrg(PolicyOrg(), o));
  }

  /** The region holds the organization's hooks in their base order. */
  lemma HooksPreserved(base: Source, memberships: seq<Membership>, overlays: seq<Overlay>,
                       src: Source, allowed: seq<string>, catalog: Catalog, o: string)
    requires IsRegionSource(base, memberships, overlays, src, allowed) && Inherits(memberships, overlays, o)
    ensures Filter(Regional(src, catalog, allowed).wasmHooks, OfOrg(WasmOrg(), o))
         == Filter(Compiled(base, catalog).wasmHooks, OfOrg(WasmOrg(), o))
  {
    forall q | q in allowed { SliceRowsAreOwned(base, overlays, q); }
    ActiveOrgsMembers(memberships, o);
    FilterOfSlices(allowed, WasmSlices(Slices(base, overlays)), WasmOrg(), o);
    FilterTwice(base.wasmHooks, OfOrg(WasmOrg(), o));
  }

  lemma {:induction false} FilterTwice<T(!new)>(xs: seq<T>, keep: T -> bool)
    ensures Filter(Filter(xs, keep), keep) == Filter(xs, keep)
  {
    if xs != [] {
      var n := |xs| - 1;
      FilterTwice(xs[..n], keep);
      FilterConcat(Filter(xs[..n], keep), if keep(xs[n]) then [xs[n]] else [], keep);
      assert keep(xs[n]) ==> [xs[n]][..0] == [];
    }
  }

  lemma {:induction false} FilterNone<T(!new)>(xs: seq<T>, keep: T -> bool)
    requires forall x :: x in xs ==> !keep(x)
    ensures Filter(xs, keep) == []
  {
    if xs != [] {
      FilterNone(xs[..|xs| - 1], keep);
      assert !keep(xs[|xs| - 1]);
    }
  }

  /** Of all slices, only the organization's own survives the filter. */
  lemma {:induction false} FilterOfSlices<T(!new)>(orgs: seq<string>, slice: string -> seq<T>,
                                                   org: T -> string, o: string)
    requires forall q, x :: q in orgs && x in slice(q) ==> org(x) == q
    requires forall i, j :: 0 <= i < j < |orgs| ==> orgs[i] != orgs[j]
    ensures Filter(FlatMap(orgs, slice), OfOrg(org, o)) == if o in orgs then Filter(slice(o), OfOrg(org, o)) else []
  {
    if orgs != [] {
      var n := |orgs| - 1;
      assert orgs == orgs[..n] + [orgs[n]];
      FilterConcat(FlatMap(orgs[..n], slice), slice(orgs[n]), OfOrg(org, o));
      FilterOfSlices(orgs[..n], slice, org, o);
      if orgs[n] != o {
        FilterNone(slice(orgs[n]), OfOrg(org, o));
      }
    }
  }

  // ----- isolation

  /** Every row of the regional source belongs to a bound organization. */
  lemma RegionRowsAreBound(base: Source, memberships: seq<Membership>, overlays: seq<Overlay>,
                           src: Source, allowed: seq<string>)
    requires IsRegionSource(base, memberships, overlays, src, allowed)
    ensures (forall x <- src.apiKeys :: x.organizationId in allowed)
         && (forall x <- src.signingKeys :: x.organizationId in allowed)
         && (forall x <- src.routes :: x.organizationId in allowed)
         && (forall x <- src.quotas :: x.organizationId in allowed)
         && (forall x <- src.policies :: x.organizationId in allowed)
         && (forall x <- src.wasmHooks :: x.organizationId in allowed)
         && (forall x <- src.mcpBackends :: x.organizationId in allowed)
         && (forall x <- src.a2aAgents :: x.organizationId in allowed)
         && (forall x <- src.credentials :: x.organizationId in allowed)
  {
    forall q | q in allowed { SliceRowsAreOwned(base, overlays, q); }
  }

  /** No row that carries an organization which is not actively bound is in the regional snapshot. */
  lemma RegionIsIsolated(base: Source, memberships: seq<Membership>, overlays: seq<Overlay>,
                         src: Source, allowed: seq<string>, catalog: Catalog, o: string)
    requires IsRegionSource(base, memberships, overlays, src, allowed) && o !in allowed
    ensures var s := Regional(src, catalog, allowed);
            && !(TrimSpace(o) == o && Allows(s, o))
            && (forall h :: h in s.apiKeys ==> s.apiKeys[h].organizationId != o)
            && (forall k :: k in s.routes ==> s.routes[k].organizationId != o)
            && (forall h :: h in s.signingKeys ==> s.signingKeys[h].organizationId != o)
            && (forall id :: id in s.credentials ==> s.credentials[id].organizationId != o)
            && (forall id :: id in s.mcpBackends ==> s.mcpBackends[id].organizationId != o)
            && (forall id :: id in s.a2aAgents ==> s.a2aAgents[id].organizationId != o)
            && (forall q :: q in s.quotas ==> q.organizationId != o)
            && (forall p :: p in s.policies ==> p.organizationId != o)
            && (forall h :: h in s.wasmHooks ==> h.organizationId != o)
            && o !in s.defaultRetries && o !in s.objectStores
  {
    RegionRowsAreBound(base, memberships, overlays, src, allowed);
    IndexValues(src.apiKeys, HasHash(), KeyHash());
    IndexValues(src.routes, Everything(), RouteKey());
    IndexValues(src.signingKeys, HasKeyId(), SigningKeyId());
    IndexValues(src.credentials, HasCredentialId(), CredentialId());
    IndexValues(src.mcpBackends, McpUsable(), McpId());
    IndexValues(src.a2aAgents, A2aUsable(), A2aId());
  }

  /** Nor is any model routed for it. */
  lemma UnboundHasNoRoute(base: Source, memberships: seq<Membership>, overlays: seq<Overlay>,
                          src: Source, allowed: seq<string>, catalog: Catalog, o: string, model: string)
    requires IsRegionSource(base, memberships, overlays, src, allowed)
    requires o !in allowed && ColonFree(o) && forall q :: q in allowed ==> ColonFree(q)
    ensures LookupRoute(Regional(src, catalog, allowed), o, model).None?
  {
    RegionRowsAreBound(base, memberships, overlays, src, allowed);
    RegionRouteOrgsColonFree(base, memberships, overlays, src, allowed);
    LookupRouteIsScan(src, catalog, o, model);
  }

  lemma IndexValues<T(!new)>(xs: seq<T>, keep: T -> bool, key: T -> string)
    ensures forall k :: k in IndexBy(xs, keep, key, Same()) ==> IndexBy(xs, keep, key, Same())[k] in xs
  {
    forall k | k in IndexBy(xs, keep, key, Same())
      ensures IndexBy(xs, keep, key, Same())[k] in xs
    {
      IndexIsLastMatch(xs, keep, key, Same(), k);
    }
  }
}
