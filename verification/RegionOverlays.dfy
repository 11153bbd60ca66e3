/**
 What an overlay does: an actively bound organization with an overlay has the overlay's rows, stamped with its name, and
 nothing of its base configuration but the keys. The results speak of payloads and base rows alone.
 */
module RegionOverlays {
  import opened Collections
  import opened Strings
  import opened Backoff
  import opened Snapshot
  import opened Regions
  import opened RegionPreservation

  /** The overlay of the organization that comes last. */
  ghost predicate IsLastOverlay(overlays: seq<Overlay>, o: string, ov: Overlay) {
    exists i :: 0 <= i < |overlays| && overlays[i] == ov && ov.organizationId == o
                && forall j :: i < j < |overlays| ==> overlays[j].organizationId != o
  }

  /** The region's source for a bound organization with this overlay. */
  ghost predicate Overlaid(base: Source, memberships: seq<Membership>, overlays: seq<Overlay>,
                           src: Source, allowed: seq<string>, o: string, ov: Overlay) {
    && IsRegionSource(base, memberships, overlays, src, allowed)
    && o != "" && o in allowed && IsLastOverlay(overlays, o, ov)
  }

  lemma OverlaidSlice(base: Source, memberships: seq<Membership>, overlays: seq<Overlay>,
                      src: Source, allowed: seq<string>, o: string, ov: Overlay)
    requires Overlaid(base, memberships, overlays, src, allowed, o, ov)
    ensures Slices(base, overlays)(o) == OverlaySlice(o, BaseSlice(base, o), ov.payload)
  {
    var i :| 0 <= i < |overlays| && overlays[i] == ov && ov.organizationId == o
             && forall j :: i < j < |overlays| ==> overlays[j].organizationId != o;
    LastMatchAt(overlays, OfOrg(OverlayOrg(), o), i);
  }

  /** The rows of a region, slice after slice: those of one organization are the stamped rows of its payload. */
  ghost predicate ComesFrom<T(!new)>(all: seq<T>, allowed: seq<string>, slice: string -> seq<T>, org: T -> string,
                                     o: string, rows: seq<T>, stamp: T -> T) {
    && all == FlatMap(allowed, slice) && o in allowed && slice(o) == Map(rows, stamp)
    && (forall q, x :: q in allowed && x in slice(q) ==> org(x) == q)
  }

  /** A scan that only the organization's rows can answer is a scan of its payload. */
  lemma ScanIsOfPayload<T(!new)>(all: seq<T>, allowed: seq<string>, slice: string -> seq<T>, org: T -> string,
                                 o: string, rows: seq<T>, stamp: T -> T, p: T -> bool, q: T -> bool)
    requires ComesFrom(all, allowed, slice, org, o, rows, stamp)
    requires forall x :: x in all && p(x) ==> org(x) == o
    requires forall x <- rows :: p(stamp(x)) <==> q(x)
    ensures var last := LastMatch(rows, q);
            LastMatch(all, p) == if last.Some? then Some(stamp(last.value)) else None
  {
    forall k, x | k in allowed && k != o && x in slice(k) ensures !p(x) {
      assert x in all;
    }
    LastMatchFlatMap(allowed, slice, o, p);
    LastMatchMap(rows, stamp, p, q);
  }

  // ----- routes and providers

  function ModelIs(model: string): Route -> bool {
    (r: Route) => r.model == model
  }

  lemma OverlayRouteRow(base: Source, memberships: seq<Membership>, overlays: seq<Overlay>,
                        src: Source, allowed: seq<string>, o: string, ov: Overlay, model: string)
    requires Overlaid(base, memberships, overlays, src, allowed, o, ov)
    ensures var last := LastMatch(ov.payload.routes, ModelIs(model));
            LastMatch(src.routes, RouteOf(o, model))
            == if last.Some? then Some(last.value.(organizationId := o)) else None
  {
    var slice := RouteSlices(Slices(base, overlays));
    RoutesComeFrom(base, memberships, overlays, src, allowed, o, ov);
    ScanIsOfPayload(src.routes, allowed, slice, RouteOrg(), o, ov.payload.routes, StampRoute(o), RouteOf(o, model),
                    ModelIs(model));
  }

  lemma RoutesComeFrom(base: Source, memberships: seq<Membership>, overlays: seq<Overlay>,
                       src: Source, allowed: seq<string>, o: string, ov: Overlay)
    requires Overlaid(base, memberships, overlays, src, allowed, o, ov)
    ensures ComesFrom(src.routes, allowed, RouteSlices(Slices(base, overlays)), RouteOrg(), o, ov.payload.routes,
                      StampRoute(o))
  {
    OverlaidSlice(base, memberships, overlays, src, allowed, o, ov);
    forall q | q in allowed { SliceRowsAreOwned(base, overlays, q); }
  }

  /** Providers of the payload, and those its routes mention, reach the region in the pool's version. */
  lemma OverlayProvider(base: Source, memberships: seq<Membership>, overlays: seq<Overlay>,
                        src: Source, allowed: seq<string>, catalog: Catalog, o: string, ov: Overlay, id: string)
    requires Overlaid(base, memberships, overlays, src, allowed, o, ov)
    requires (exists p :: p in ov.payload.providers && p.id == id) ||
             (exists r :: r in ov.payload.routes &&
                (r.providerId == id || exists f :: f in r.fallbacks && f.providerId == id))
    ensures Get(Regional(src, catalog, allowed).providers, id) ==
            ScanProvider(base.providers + FlatMap(overlays, OverlayProviders()), catalog, id)
  {
    OverlaidSlice(base, memberships, overlays, src, allowed, o, ov);
    PayloadIsReferenced(o, BaseSlice(base, o), ov.payload, id);
    ReferencedProvider(base, memberships, overlays, src, allowed, catalog, o, id);
  }

  lemma PayloadIsReferenced(o: string, baseSlice: OrgSlice, payload: OverlayPayload, id: string)
    requires (exists p :: p in payload.providers && p.id == id) ||
             (exists r :: r in payload.routes &&
                (r.providerId == id || exists f :: f in r.fallbacks && f.providerId == id))
    ensures id in ReferencedProviders(OverlaySlice(o, baseSlice, payload))
  {
    var slice := OverlaySlice(o, baseSlice, payload);
    if r :| r in payload.routes && (r.providerId == id || exists f :: f in r.fallbacks && f.providerId == id) {
      var i :| 0 <= i < |payload.routes| && payload.routes[i] == r;
      assert slice.routes[i] == r.(organizationId := o);
      assert r.(organizationId := o) in slice.routes;
    }
  }

  lemma ReferencedProvider(base: Source, memberships: seq<Membership>, overlays: seq<Overlay>,
                           src: Source, allowed: seq<string>, catalog: Catalog, o: string, id: string)
    requires IsRegionSource(base, memberships, overlays, src, allowed)
    requires o in allowed && id in ReferencedProviders(Slices(base, overlays)(o))
    ensures Get(Regional(src, catalog, allowed).providers, id) ==
            ScanProvider(base.providers + FlatMap(overlays, OverlayProviders()), catalog, id)
  {
    var slice := Slices(base, overlays);
    NeededProvidersOf(allowed, slice, id);
    SelectedProvider(src.providers, ProviderPool(base, overlays), NeededProviders(allowed, slice), catalog, id);
    ProviderIndex(src, catalog, id);
  }

  /** What a payload answers for a model: its last route for it, with the last provider of that id anybody has. */
  function RouteOfPayload(base: Source, overlays: seq<Overlay>, catalog: Catalog, o: string, rows: seq<Route>,
                          model: string): Option<(Route, Provider)> {
    match LastMatch(rows, ModelIs(model))
    case None => None
    case Some(r) =>
      var p := ScanProvider(base.providers + FlatMap(overlays, OverlayProviders()), catalog, r.providerId);
      if p.Some? then Some((r.(organizationId := o), p.value)) else None
  }

  /** A model is routed by the payload's last route for it, whatever routes the base has. */
  lemma OverlayReplacesRoutes(base: Source, memberships: seq<Membership>, overlays: seq<Overlay>,
                              src: Source, allowed: seq<string>, catalog: Catalog, o: string, ov: Overlay,
                              model: string)
    requires Overlaid(base, memberships, overlays, src, allowed, o, ov)
    requires forall q :: q in allowed ==> ColonFree(q)
    ensures LookupRoute(Regional(src, catalog, allowed), o, model)
         == RouteOfPayload(base, overlays, catalog, o, ov.payload.routes, model)
  {
    OverlayRouteRow(base, memberships, overlays, src, allowed, o, ov, model);
    RegionRouteOrgsColonFree(base, memberships, overlays, src, allowed);
    RegionalRouteIsCompiled(src, catalog, allowed, o, model);
    LookupRouteIsScan(src, catalog, o, model);
    var r := LastMatch(ov.payload.routes, ModelIs(model));
    if r.Some? {
      OverlayProvider(base, memberships, overlays, src, allowed, catalog, o, ov, r.value.providerId);
      ProviderIndex(src, catalog, r.value.providerId);
    }
  }

  // ----- quotas, policies and hooks

  lemma OwnRowsArePayload<T(!new)>(allowed: seq<string>, slice: string -> seq<T>, org: T -> string, o: string,
                                   rows: seq<T>, stamp: T -> T)
    requires o in allowed && slice(o) == Map(rows, stamp) && forall x :: org(stamp(x)) == o
    requires forall q, x :: q in allowed && x in slice(q) ==> org(x) == q
    requires forall i, j :: 0 <= i < j < |allowed| ==> allowed[i] != allowed[j]
    ensures Filter(FlatMap(allowed, slice), OfOrg(org, o)) == Map(rows, stamp)
  {
    FilterOfSlices(allowed, slice, org, o);
    FilterAll(slice(o), OfOrg(org, o));
  }

  lemma {:induction false} FilterAll<T(!new)>(xs: seq<T>, keep: T -> bool)
    requires forall x <- xs :: keep(x)
    ensures Filter(xs, keep) == xs
  {
    if xs != [] {
      var n := |xs| - 1;
      assert xs == xs[..n] + [xs[n]] && keep(xs[n]);
      FilterAll(xs[..n], keep);
    }
  }

  lemma OverlayReplacesQuotas(base: Source, memberships: seq<Membership>, overlays: seq<Overlay>,
                              src: Source, allowed: seq<string>, catalog: Catalog, o: string, ov: Overlay)
    requires Overlaid(base, memberships, overlays, src, allowed, o, ov)
    ensures var own := Filter(Regional(src, catalog, allowed).quotas, OfOrg(QuotaOrg(), o));
            |own| == |ov.payload.quotas|
            && forall i :: 0 <= i < |own| ==> own[i] == ov.payload.quotas[i].(organizationId := o)
  {
    OverlaidSlice(base, memberships, overlays, src, allowed, o, ov);
    forall q | q in allowed { SliceRowsAreOwned(base, overlays, q); }
    ActiveOrgsMembers(memberships, o);
    OwnRowsArePayload(allowed, QuotaSlices(Slices(base, overlays)), QuotaOrg(), o, ov.payload.quotas, StampQuota(o));
  }

  lemma OverlayReplacesPolicies(base: Source, memberships: seq<Membership>, overlays: seq<Overlay>,
                                src: Source, allowed: seq<string>, catalog: Catalog, o: string, ov: Overlay)
    requires Overlaid(base, memberships, overlays, src, allowed, o, ov)
    ensures var own := Filter(Regional(src, catalog, allowed).policies, OfOrg(PolicyOrg(), o));
            |own| == |ov.payload.policies|
            && forall i :: 0 <= i < |own| ==> own[i] == ov.payload.policies[i].(organizationId := o)
  {
    OverlaidSlice(base, memberships, overlays, src, allowed, o, ov);
    forall q | q in allowed { SliceRowsAreOwned(base, overlays, q); }
    ActiveOrgsMembers(memberships, o);
    OwnRowsArePayload(allowed, PolicySlices(Slices(base, overlays)), PolicyOrg(), o, ov.payload.policies,
                      StampPolicy(o));
  }

  lemma OverlayReplacesHooks(base: Source, memberships: seq<Membership>, overlays: seq<Overlay>,
                             src: Source, allowed: seq<string>, catalog: Catalog, o: string, ov: Overlay)
    requires Overlaid(base, memberships, overlays, src, allowed, o, ov)
    ensures var own := Filter(Regional(src, catalog, allowed).wasmHooks, OfOrg(WasmOrg(), o));
            |own| == |ov.payload.wasmHooks|
            && forall i :: 0 <= i < |own| ==> own[i] == ov.payload.wasmHooks[i].(organizationId := o)
  {
    OverlaidSlice(base, memberships, overlays, src, allowed, o, ov);
    forall q | q in allowed { SliceRowsAreOwned(base, overlays, q); }
    ActiveOrgsMembers(memberships, o);
    OwnRowsArePayload(allowed, WasmSlices(Slices(base, overlays)), WasmOrg(), o, ov.payload.wasmHooks, StampHook(o));
  }

  // ----- backends and agents

  function McpAliasIs(alias: string): McpBackend -> bool {
    (b: McpBackend) => b.id != "" && b.alias != "" && b.enabled && b.alias == alias
  }

  function McpIdIs(id: string): McpBackend -> bool {
    (b: McpBackend) => b.id != "" && b.alias != "" && b.id == id
  }

  lemma McpComesFrom(base: Source, memberships: seq<Membership>, overlays: seq<Overlay>,
                     src: Source, allowed: seq<string>, o: string, ov: Overlay)
    requires Overlaid(base, memberships, overlays, src, allowed, o, ov)
    ensures ComesFrom(src.mcpBackends, allowed, McpSlices(Slices(base, overlays)), McpOrg(), o, ov.payload.mcpBackends,
                      StampMcp(o))
  {
    OverlaidSlice(base, memberships, overlays, src, allowed, o, ov);
    forall q | q in allowed { SliceRowsAreOwned(base, overlays, q); }
  }

  lemma McpAliasRow(all: seq<McpBackend>, allowed: seq<string>, slice: string -> seq<McpBackend>, o: string,
                    rows: seq<McpBackend>, alias: string)
    requires ComesFrom(all, allowed, slice, McpOrg(), o, rows, StampMcp(o)) && o != ""
    requires forall q :: q in allowed ==> ColonFree(q)
    ensures var last := LastMatch(rows, McpAliasIs(alias));
            LastMatch(all, Matches(McpRoutable(), McpKey(), Key2(o, alias)))
            == if last.Some? then Some(last.value.(organizationId := o)) else None
  {
    var p := Matches(McpRoutable(), McpKey(), Key2(o, alias));
    forall x | x in all && p(x) ensures McpOrg()(x) == o {
      var q :| q in allowed && x in slice(q);
      assert x.organizationId == McpOrg()(x) == q && McpKey()(x) == Key2(x.organizationId, x.alias);
      Key2Injective(x.organizationId, x.alias, o, alias);
    }
    forall x <- rows ensures p(StampMcp(o)(x)) <==> McpAliasIs(alias)(x) {
      var y := StampMcp(o)(x);
      assert y == x.(organizationId := o) && McpKey()(y) == Key2(o, x.alias);
      Key2Injective(o, x.alias, o, alias);
      assert McpUsable()(y) <==> x.id != "" && x.alias != "";
    }
    ScanIsOfPayload(all, allowed, slice, McpOrg(), o, rows, StampMcp(o), p, McpAliasIs(alias));
  }

  lemma McpIdRow(all: seq<McpBackend>, allowed: seq<string>, slice: string -> seq<McpBackend>, o: string,
                 rows: seq<McpBackend>, own: McpBackend)
    requires ComesFrom(all, allowed, slice, McpOrg(), o, rows, StampMcp(o)) && o != ""
    requires IdsOwned(all, McpId(), McpOrg()) && own in all && own.organizationId == o
    ensures var last := LastMatch(rows, McpIdIs(own.id));
            LastMatch(all, Matches(McpUsable(), McpId(), own.id))
            == if last.Some? then Some(last.value.(organizationId := o)) else None
  {
    var p := Matches(McpUsable(), McpId(), own.id);
    forall x | x in all && p(x) ensures McpOrg()(x) == o {
      assert McpId()(x) == McpId()(own);
    }
    ScanIsOfPayload(all, allowed, slice, McpOrg(), o, rows, StampMcp(o), p, McpIdIs(own.id));
  }

  /** What a payload answers for an alias: its last enabled backend under it, in the last version of its id. */
  function McpOfPayload(o: string, rows: seq<McpBackend>, alias: string): Option<McpBackend> {
    match LastMatch(rows, McpAliasIs(alias))
    case None => None
    case Some(row) =>
      var b := LastMatch(rows, McpIdIs(row.id));
      if b.Some? && b.value.enabled then Some(b.value.(organizationId := o)) else None
  }

  lemma OverlayReplacesMcp(base: Source, memberships: seq<Membership>, overlays: seq<Overlay>,
                           src: Source, allowed: seq<string>, catalog: Catalog, o: string, ov: Overlay, alias: string)
    requires Overlaid(base, memberships, overlays, src, allowed, o, ov)
    requires forall q :: q in allowed ==> ColonFree(q)
    requires IdsOwned(src.mcpBackends, McpId(), McpOrg())
    ensures LookupMcpBackend(Regional(src, catalog, allowed), o, alias)
         == McpOfPayload(o, ov.payload.mcpBackends, alias)
  {
    McpComesFrom(base, memberships, overlays, src, allowed, o, ov);
    McpAnswer(src.mcpBackends, allowed, McpSlices(Slices(base, overlays)), o, ov.payload.mcpBackends, alias);
    McpIsVia(src, catalog, allowed, o, alias);
  }

  lemma McpIsVia(src: Source, catalog: Catalog, allowed: seq<string>, o: string, alias: string)
    ensures LookupMcpBackend(Regional(src, catalog, allowed), o, alias) == McpVia(src.mcpBackends, Key2(o, alias))
  {
  }

  /** The two indexes, one after the other. */
  function McpVia(all: seq<McpBackend>, k: string): Option<McpBackend> {
    match Get(IndexBy(all, McpRoutable(), McpKey(), McpId()), k)
    case None => None
    case Some(id) =>
      var b := Get(IndexBy(all, McpUsable(), McpId(), Same()), id);
      if b.Some? && b.value.enabled then b else None
  }

  lemma McpAnswer(all: seq<McpBackend>, allowed: seq<string>, slice: string -> seq<McpBackend>, o: string,
                  rows: seq<McpBackend>, alias: string)
    requires ComesFrom(all, allowed, slice, McpOrg(), o, rows, StampMcp(o)) && o != ""
    requires forall q :: q in allowed ==> ColonFree(q)
    requires IdsOwned(all, McpId(), McpOrg())
    ensures McpVia(all, Key2(o, alias)) == McpOfPayload(o, rows, alias)
  {
    McpAliasRow(all, allowed, slice, o, rows, alias);
    IndexIsLastMatch(all, McpRoutable(), McpKey(), McpId(), Key2(o, alias));
    var row := LastMatch(all, Matches(McpRoutable(), McpKey(), Key2(o, alias)));
    if row.Some? {
      McpIdRow(all, allowed, slice, o, rows, row.value);
      IndexIsLastMatch(all, McpUsable(), McpId(), Same(), row.value.id);
    }
  }

  function A2aAliasIs(alias: string): A2aAgent -> bool {
    (a: A2aAgent) => a.id != "" && a.alias != "" && a.enabled && a.alias == alias
  }

  function A2aIdIs(id: string): A2aAgent -> bool {
    (a: A2aAgent) => a.id != "" && a.alias != "" && a.id == id
  }

  lemma A2aComesFrom(base: Source, memberships: seq<Membership>, overlays: seq<Overlay>,
                     src: Source, allowed: seq<string>, o: string, ov: Overlay)
    requires Overlaid(base, memberships, overlays, src, allowed, o, ov)
    ensures ComesFrom(src.a2aAgents, allowed, A2aSlices(Slices(base, overlays)), A2aOrg(), o, ov.payload.a2aAgents,
                      StampA2a(o))
  {
    OverlaidSlice(base, memberships, overlays, src, allowed, o, ov);
    forall q | q in allowed { SliceRowsAreOwned(base, overlays, q); }
  }

  lemma A2aAliasRow(all: seq<A2aAgent>, allowed: seq<string>, slice: string -> seq<A2aAgent>, o: string,
                    rows: seq<A2aAgent>, alias: string)
    requires ComesFrom(all, allowed, slice, A2aOrg(), o, rows, StampA2a(o)) && o != ""
    requires forall q :: q in allowed ==> ColonFree(q)
    ensures var last := LastMatch(rows, A2aAliasIs(alias));
            LastMatch(all, Matches(A2aRoutable(), A2aKey(), Key2(o, alias)))
            == if last.Some? then Some(last.value.(organizationId := o)) else None
  {
    var p := Matches(A2aRoutable(), A2aKey(), Key2(o, alias));
    forall x | x in all && p(x) ensures A2aOrg()(x) == o {
      var q :| q in allowed && x in slice(q);
      assert x.organizationId == A2aOrg()(x) == q && A2aKey()(x) == Key2(x.organizationId, x.alias);
      Key2Injective(x.organizationId, x.alias, o, alias);
    }
    forall x <- rows ensures p(StampA2a(o)(x)) <==> A2aAliasIs(alias)(x) {
      var y := StampA2a(o)(x);
      assert y == x.(organizationId := o) && A2aKey()(y) == Key2(o, x.alias);
      Key2Injective(o, x.alias, o, alias);
      assert A2aUsable()(y) <==> x.id != "" && x.alias != "";
    }
    ScanIsOfPayload(all, allowed, slice, A2aOrg(), o, rows, StampA2a(o), p, A2aAliasIs(alias));
  }

  lemma A2aIdRow(all: seq<A2aAgent>, allowed: seq<string>, slice: string -> seq<A2aAgent>, o: string,
                 rows: seq<A2aAgent>, own: A2aAgent)
    requires ComesFrom(all, allowed, slice, A2aOrg(), o, rows, StampA2a(o)) && o != ""
    requires IdsOwned(all, A2aId(), A2aOrg()) && own in all && own.organizationId == o
    ensures var last := LastMatch(rows, A2aIdIs(own.id));
            LastMatch(all, Matches(A2aUsable(), A2aId(), own.id))
            == if last.Some? then Some(last.value.(organizationId := o)) else None
  {
    var p := Matches(A2aUsable(), A2aId(), own.id);
    forall x | x in all && p(x) ensures A2aOrg()(x) == o {
      assert A2aId()(x) == A2aId()(own);
    }
    ScanIsOfPayload(all, allowed, slice, A2aOrg(), o, rows, StampA2a(o), p, A2aIdIs(own.id));
  }

  function A2aOfPayload(o: string, rows: seq<A2aAgent>, alias: string): Option<A2aAgent> {
    match LastMatch(rows, A2aAliasIs(alias))
    case None => None
    case Some(row) =>
      var b := LastMatch(rows, A2aIdIs(row.id));
      if b.Some? && b.value.enabled then Some(b.value.(organizationId := o)) else None
  }

  lemma OverlayReplacesA2a(base: Source, memberships: seq<Membership>, overlays: seq<Overlay>,
                           src: Source, allowed: seq<string>, catalog: Catalog, o: string, ov: Overlay, alias: string)
    requires Overlaid(base, memberships, overlays, src, allowed, o, ov)
    requires forall q :: q in allowed ==> ColonFree(q)
    requires IdsOwned(src.a2aAgents, A2aId(), A2aOrg())
    ensures LookupA2aAgent(Regional(src, catalog, allowed), o, alias)
         == A2aOfPayload(o, ov.payload.a2aAgents, alias)
  {
    A2aComesFrom(base, memberships, overlays, src, allowed, o, ov);
    A2aAnswer(src.a2aAgents, allowed, A2aSlices(Slices(base, overlays)), o, ov.payload.a2aAgents, alias);
    A2aIsVia(src, catalog, allowed, o, alias);
  }

  lemma A2aIsVia(src: Source, catalog: Catalog, allowed: seq<string>, o: string, alias: string)
    ensures LookupA2aAgent(Regional(src, catalog, allowed), o, alias) == A2aVia(src.a2aAgents, Key2(o, alias))
  {
  }

  function A2aVia(all: seq<A2aAgent>, k: string): Option<A2aAgent> {
    match Get(IndexBy(all, A2aRoutable(), A2aKey(), A2aId()), k)
    case None => None
    case Some(id) =>
      var b := Get(IndexBy(all, A2aUsable(), A2aId(), Same()), id);
      if b.Some? && b.value.enabled then b else None
  }

  lemma A2aAnswer(all: seq<A2aAgent>, allowed: seq<string>, slice: string -> seq<A2aAgent>, o: string,
                  rows: seq<A2aAgent>, alias: string)
    requires ComesFrom(all, allowed, slice, A2aOrg(), o, rows, StampA2a(o)) && o != ""
    requires forall q :: q in allowed ==> ColonFree(q)
    requires IdsOwned(all, A2aId(), A2aOrg())
    ensures A2aVia(all, Key2(o, alias)) == A2aOfPayload(o, rows, alias)
  {
    A2aAliasRow(all, allowed, slice, o, rows, alias);
    IndexIsLastMatch(all, A2aRoutable(), A2aKey(), A2aId(), Key2(o, alias));
    var row := LastMatch(all, Matches(A2aRoutable(), A2aKey(), Key2(o, alias)));
    if row.Some? {
      A2aIdRow(all, allowed, slice, o, rows, row.value);
      IndexIsLastMatch(all, A2aUsable(), A2aId(), Same(), row.value.id);
    }
  }

  // ----- credentials and assignments

  lemma CredentialsComeFrom(base: Source, memberships: seq<Membership>, overlays: seq<Overlay>,
                            src: Source, allowed: seq<string>, o: string, ov: Overlay)
    requires Overlaid(base, memberships, overlays, src, allowed, o, ov)
    ensures ComesFrom(src.credentials, allowed, CredentialSlices(Slices(base, overlays)), CredentialOrg(), o,
                      ov.payload.credentials, StampCredential(o))
  {
    OverlaidSlice(base, memberships, overlays, src, allowed, o, ov);
    forall q | q in allowed { SliceRowsAreOwned(base, overlays, q); }
  }

  lemma CredentialAnswer(all: seq<Credential>, allowed: seq<string>, slice: string -> seq<Credential>, o: string,
                         rows: seq<Credential>, id: string)
    requires ComesFrom(all, allowed, slice, CredentialOrg(), o, rows, StampCredential(o)) && id != ""
    requires IdsOwned(all, CredentialId(), CredentialOrg())
    ensures var last, found := LastMatch(rows, CredentialIs(id)), LastMatch(all, CredentialIs(id));
            if last.Some? then found == Some(last.value.(organizationId := o))
            else found.Some? ==> found.value.organizationId != o
  {
    var last, found := LastMatch(rows, CredentialIs(id)), LastMatch(all, CredentialIs(id));
    if last.Some? {
      var i :| 0 <= i < |rows| && rows[i] == last.value;
      assert slice(o)[i] == last.value.(organizationId := o);
      assert last.value.(organizationId := o) in all;
    }
    if own :| own in all && own.id == id && own.organizationId == o {
      forall x | x in all && CredentialIs(id)(x) ensures CredentialOrg()(x) == o {
        assert CredentialId()(x) == CredentialId()(own);
      }
      ScanIsOfPayload(all, allowed, slice, CredentialOrg(), o, rows, StampCredential(o), CredentialIs(id),
                      CredentialIs(id));
    }
  }

  /** A credential of the payload is found by its id; no other one of the organization is. */
  lemma OverlayReplacesCredentials(base: Source, memberships: seq<Membership>, overlays: seq<Overlay>,
                                   src: Source, allowed: seq<string>, catalog: Catalog, o: string, ov: Overlay,
                                   id: string)
    requires Overlaid(base, memberships, overlays, src, allowed, o, ov) && id != ""
    requires IdsOwned(src.credentials, CredentialId(), CredentialOrg())
    ensures var last, found := LastMatch(ov.payload.credentials, CredentialIs(id)),
                               Get(Regional(src, catalog, allowed).credentials, id);
            if last.Some? then found == Some(last.value.(organizationId := o))
            else found.Some? ==> found.value.organizationId != o
  {
    CredentialsComeFrom(base, memberships, overlays, src, allowed, o, ov);
    CredentialAnswer(src.credentials, allowed, CredentialSlices(Slices(base, overlays)), o, ov.payload.credentials, id);
    CredentialById(src, catalog, allowed, id);
  }

  lemma CredentialById(src: Source, catalog: Catalog, allowed: seq<string>, id: string)
    requires id != ""
    ensures Get(Regional(src, catalog, allowed).credentials, id) == LastMatch(src.credentials, CredentialIs(id))
  {
    IndexIsLastMatch(src.credentials, HasCredentialId(), CredentialId(), Same(), id);
    LastMatchSame(src.credentials, Matches(HasCredentialId(), CredentialId(), id), CredentialIs(id));
  }

  /** No other organization assigns a credential to this scope. */
  ghost predicate ScopeIsOwn(base: Source, overlays: seq<Overlay>, o: string, p: Assignment -> bool) {
    && (forall a :: a in base.assignments && p(a) ==> AssignmentOrg(base.credentials)(a) == o)
    && (forall v, a :: v in overlays && v.organizationId != o && a in v.payload.assignments ==> !p(a))
  }

  lemma OverlayReplacesAssignments(base: Source, memberships: seq<Membership>, overlays: seq<Overlay>,
                                   src: Source, allowed: seq<string>, catalog: Catalog, o: string, ov: Overlay,
                                   providerType: string, scopeType: string, scopeId: string)
    requires Overlaid(base, memberships, overlays, src, allowed, o, ov)
    requires ColonFree(scopeType) && KeysApart(src.assignments, providerType, scopeId)
    requires ScopeIsOwn(base, overlays, o, AssignmentTo(providerType, scopeType, scopeId))
    ensures var last := LastMatch(ov.payload.assignments, AssignmentTo(providerType, scopeType, scopeId));
            Get(Regional(src, catalog, allowed).assignments, Key3(providerType, scopeType, scopeId))
            == if last.Some? then Some(last.value.credentialId) else None
  {
    ScopedAssignmentIndex(src, catalog, providerType, scopeType, scopeId);
    OnlyOwnAssign(base, memberships, overlays, src, allowed, o, ov, AssignmentTo(providerType, scopeType, scopeId));
  }

  lemma OnlyOwnAssign(base: Source, memberships: seq<Membership>, overlays: seq<Overlay>,
                      src: Source, allowed: seq<string>, o: string, ov: Overlay, p: Assignment -> bool)
    requires Overlaid(base, memberships, overlays, src, allowed, o, ov) && ScopeIsOwn(base, overlays, o, p)
    ensures LastMatch(src.assignments, p) == LastMatch(ov.payload.assignments, p)
  {
    var slice := AssignmentSlices(Slices(base, overlays));
    OverlaidSlice(base, memberships, overlays, src, allowed, o, ov);
    forall q, x | q in allowed && q != o && x in slice(q) ensures !p(x) {
      OthersDoNotAssign(base, overlays, o, p, q, x);
    }
    LastMatchFlatMap(allowed, slice, o, p);
  }

  lemma OthersDoNotAssign(base: Source, overlays: seq<Overlay>, o: string, p: Assignment -> bool, q: string,
                          x: Assignment)
    requires ScopeIsOwn(base, overlays, o, p) && q != o && x in EffectiveSlice(base, overlays, q).assignments
    ensures !p(x)
  {
    var other := LastMatch(overlays, OfOrg(OverlayOrg(), q));
    if other.Some? {
      assert other.value in overlays && other.value.organizationId == q;
    }
  }

  // ----- settings and keys

  lemma OverlayReplacesSettings(base: Source, memberships: seq<Membership>, overlays: seq<Overlay>,
                                src: Source, allowed: seq<string>, catalog: Catalog, o: string, ov: Overlay,
                                route: Route)
    requires Overlaid(base, memberships, overlays, src, allowed, o, ov)
    requires route.organizationId == o && route.retry.None?
    ensures ResolveRetry(Regional(src, catalog, allowed), route) == ov.payload.defaultRetry
    ensures ResolveObjectStore(Regional(src, catalog, allowed), o) == ov.payload.objectStore
  {
    MergedSettings(base, memberships, overlays, src, allowed, o, ov);
    SettingsAre(src, catalog, route, o);
  }

  lemma MergedSettings(base: Source, memberships: seq<Membership>, overlays: seq<Overlay>,
                       src: Source, allowed: seq<string>, o: string, ov: Overlay)
    requires Overlaid(base, memberships, overlays, src, allowed, o, ov)
    ensures Get(src.defaultRetries, o) == ov.payload.defaultRetry
    ensures Get(src.objectStores, o) == ov.payload.objectStore
  {
    OverlaidSlice(base, memberships, overlays, src, allowed, o, ov);
    SettingsOf(allowed, Slices(base, overlays), o);
  }

  lemma SettingsOf(orgs: seq<string>, slice: string -> OrgSlice, o: string)
    requires o in orgs
    ensures Get(MergedRetries(orgs, slice), o) == slice(o).defaultRetry
    ensures Get(MergedStores(orgs, slice), o) == slice(o).objectStore
  {
  }

  function OwnKeyHashIs(o: string, hash: string): ApiKey -> bool {
    (k: ApiKey) => k.organizationId == o && k.keyHash == hash
  }

  /** Keys stay those of the base. */
  lemma OverlayKeepsApiKeys(base: Source, memberships: seq<Membership>, overlays: seq<Overlay>,
                            src: Source, allowed: seq<string>, catalog: Catalog, o: string, ov: Overlay, hash: string)
    requires Overlaid(base, memberships, overlays, src, allowed, o, ov) && hash != ""
    requires OneOwner(src.apiKeys, ApiKeyOrg(), Matches(HasHash(), KeyHash(), hash))
    ensures var own, found := LastMatch(base.apiKeys, OwnKeyHashIs(o, hash)),
                              Get(Regional(src, catalog, allowed).apiKeys, hash);
            if own.Some? then found == own else found.Some? ==> found.value.organizationId != o
  {
    KeysStay(base, memberships, overlays, src, allowed, o, ov);
    ApiKeyAnswer(base.apiKeys, src.apiKeys, allowed, ApiKeySlices(Slices(base, overlays)), o, hash);
    ApiKeyByIndex(src, catalog, allowed);
  }

  lemma ApiKeyAnswer(xs: seq<ApiKey>, all: seq<ApiKey>, allowed: seq<string>, slice: string -> seq<ApiKey>, o: string,
                     hash: string)
    requires BaseRowsStay(xs, all, allowed, slice, ApiKeyOrg(), o) && hash != ""
    requires OneOwner(all, ApiKeyOrg(), Matches(HasHash(), KeyHash(), hash))
    ensures var own, found := LastMatch(xs, OwnKeyHashIs(o, hash)),
                              Get(IndexBy(all, HasHash(), KeyHash(), Same()), hash);
            if own.Some? then found == own else found.Some? ==> found.value.organizationId != o
  {
    IndexIsLastMatch(all, HasHash(), KeyHash(), Same(), hash);
    OwnScan(xs, all, allowed, slice, ApiKeyOrg(), o, Matches(HasHash(), KeyHash(), hash), OwnKeyHashIs(o, hash));
  }

  lemma ApiKeyByIndex(src: Source, catalog: Catalog, allowed: seq<string>)
    ensures Regional(src, catalog, allowed).apiKeys == IndexBy(src.apiKeys, HasHash(), KeyHash(), Same())
  {
  }

  lemma SigningKeyByIndex(src: Source, catalog: Catalog, allowed: seq<string>, keyId: string)
    requires TrimSpace(keyId) == keyId
    ensures var k := Get(IndexBy(src.signingKeys, HasKeyId(), SigningKeyId(), Same()), keyId);
            LookupSigningKey(Regional(src, catalog, allowed), keyId)
            == if k.Some? && k.value.status == STATUS_ACTIVE then k else None
  {
  }

  lemma KeysStay(base: Source, memberships: seq<Membership>, overlays: seq<Overlay>,
                 src: Source, allowed: seq<string>, o: string, ov: Overlay)
    requires Overlaid(base, memberships, overlays, src, allowed, o, ov)
    ensures BaseRowsStay(base.apiKeys, src.apiKeys, allowed, ApiKeySlices(Slices(base, overlays)), ApiKeyOrg(), o)
    ensures BaseRowsStay(base.signingKeys, src.signingKeys, allowed, SigningKeySlices(Slices(base, overlays)),
                         SigningKeyOrg(), o)
  {
    OverlaidSlice(base, memberships, overlays, src, allowed, o, ov);
    forall q | q in allowed { SliceRowsAreOwned(base, overlays, q); }
  }

  /** The rows of a region, of which those of one organization are its base rows. */
  ghost predicate BaseRowsStay<T(!new)>(xs: seq<T>, all: seq<T>, allowed: seq<string>, slice: string -> seq<T>,
                                        org: T -> string, o: string) {
    && all == FlatMap(allowed, slice) && o in allowed && slice(o) == Filter(xs, OfOrg(org, o))
    && (forall q, x :: q in allowed && x in slice(q) ==> org(x) == q)
  }

  function OwnKeyIdIs(o: string, keyId: string): SigningKey -> bool {
    (k: SigningKey) => k.organizationId == o && k.keyId == keyId
  }

  lemma OverlayKeepsSigningKeys(base: Source, memberships: seq<Membership>, overlays: seq<Overlay>,
                                src: Source, allowed: seq<string>, catalog: Catalog, o: string, ov: Overlay,
                                keyId: string)
    requires Overlaid(base, memberships, overlays, src, allowed, o, ov)
    requires keyId != "" && TrimSpace(keyId) == keyId
    requires OneOwner(src.signingKeys, SigningKeyOrg(), Matches(HasKeyId(), SigningKeyId(), keyId))
    ensures var own, found := LastMatch(base.signingKeys, OwnKeyIdIs(o, keyId)),
                              LookupSigningKey(Regional(src, catalog, allowed), keyId);
            if own.Some? then found == (if own.value.status == "active" then own else None)
            else found.Some? ==> found.value.organizationId != o
  {
    KeysStay(base, memberships, overlays, src, allowed, o, ov);
    SigningKeyAnswer(base.signingKeys, src.signingKeys, allowed, SigningKeySlices(Slices(base, overlays)), o, keyId);
    SigningKeyByIndex(src, catalog, allowed, keyId);
  }

  lemma SigningKeyAnswer(xs: seq<SigningKey>, all: seq<SigningKey>, allowed: seq<string>,
                         slice: string -> seq<SigningKey>, o: string, keyId: string)
    requires BaseRowsStay(xs, all, allowed, slice, SigningKeyOrg(), o) && keyId != ""
    requires OneOwner(all, SigningKeyOrg(), Matches(HasKeyId(), SigningKeyId(), keyId))
    ensures var own, found := LastMatch(xs, OwnKeyIdIs(o, keyId)),
                              Get(IndexBy(all, HasKeyId(), SigningKeyId(), Same()), keyId);
            if own.Some? then found == own else found.Some? ==> found.value.organizationId != o
  {
    IndexIsLastMatch(all, HasKeyId(), SigningKeyId(), Same(), keyId);
    OwnScan(xs, all, allowed, slice, SigningKeyOrg(), o, Matches(HasKeyId(), SigningKeyId(), keyId),
            OwnKeyIdIs(o, keyId));
  }

  /** Of all slices, only the organization's base rows answer a scan with one owner. */
  lemma OwnScan<T(!new)>(xs: seq<T>, all: seq<T>, allowed: seq<string>, slice: string -> seq<T>, org: T -> string,
                         o: string, p: T -> bool, own: T -> bool)
    requires BaseRowsStay(xs, all, allowed, slice, org, o) && OneOwner(all, org, p)
    requires forall x :: own(x) <==> p(x) && org(x) == o
    ensures var mine, found := LastMatch(xs, own), LastMatch(all, p);
            if mine.Some? then found == mine else found.Some? ==> org(found.value) != o
  {
    var mine, found := LastMatch(xs, own), LastMatch(all, p);
    LastMatchFilter(xs, OfOrg(org, o), own);
    LastMatchSame(slice(o), p, own);
    if mine.Some? {
      assert mine.value in slice(o) && mine.value in all;
    }
    if x :| x in all && p(x) && org(x) == o {
      LastMatchFlatMap(allowed, slice, o, p);
    }
  }

  // ----- the pipeline, end to end

  /** Everything the theorems on routes ask of names. */
  ghost predicate NamesAllow(base: Source, memberships: seq<Membership>, o: string) {
    NamesColonFree(base, ActiveOrgs(memberships)) && ColonFree(o)
  }

  /**
   Builds the source of a region and compiles it. Whatever the inputs: an inheriting organization resolves a model as
   from the global snapshot exactly when the overlays keep the provider it leads to, a bound organization with an
   overlay as the overlay's payload says, and an organization that is not bound is neither admitted nor routed.
   */
  method BuildRegionalSnapshot(base: Source, memberships: seq<Membership>, overlays: seq<Overlay>, catalog: Catalog)
    returns (s: Snapshot)
    ensures forall o, model :: Inherits(memberships, overlays, o) && NamesAllow(base, memberships, o) ==>
              (LookupRoute(s, o, model) == LookupRoute(Compiled(base, catalog), o, model) <==>
               OverlaysKeepRoute(base, overlays, catalog, o, model))
    ensures forall o, model :: o !in ActiveOrgs(memberships) && NamesAllow(base, memberships, o) ==>
              LookupRoute(s, o, model).None?
    ensures forall o, ov, model ::
              o != "" && o in ActiveOrgs(memberships) && IsLastOverlay(overlays, o, ov)
              && NamesAllow(base, memberships, o) ==>
                LookupRoute(s, o, model) == RouteOfPayload(base, overlays, catalog, o, ov.payload.routes, model)
    ensures s.allowed == Some(ActiveOrgs(memberships))
  {
    var src, allowed := BuildRegionSource(base, memberships, overlays);
    s := CompileRegion(src, catalog, allowed);
    forall o, model | Inherits(memberships, overlays, o) && NamesAllow(base, memberships, o)
      ensures LookupRoute(s, o, model) == LookupRoute(Compiled(base, catalog), o, model) <==>
              OverlaysKeepRoute(base, overlays, catalog, o, model)
    {
      RoutePreservedFor(base, memberships, overlays, src, allowed, catalog, o, model);
    }
    forall o, ov, model | o != "" && o in ActiveOrgs(memberships) && IsLastOverlay(overlays, o, ov)
                          && NamesAllow(base, memberships, o)
      ensures LookupRoute(s, o, model) == RouteOfPayload(base, overlays, catalog, o, ov.payload.routes, model)
    {
      OverlayReplacesRoutes(base, memberships, overlays, src, allowed, catalog, o, ov, model);
    }
    forall o, model | o !in ActiveOrgs(memberships) && NamesAllow(base, memberships, o)
      ensures LookupRoute(s, o, model).None?
    {
      UnboundHasNoRoute(base, memberships, overlays, src, allowed, catalog, o, model);
    }
  }
}
