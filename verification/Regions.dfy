/**
 Region sources: the base configuration sliced by organization, full-replacement overlays applied, and the slices
 of the actively bound organizations merged again.
 */
module Regions {
  import opened Collections
  import opened Backoff
  import opened Snapshot

  const MEMBERSHIP_ACTIVE := "active"

  datatype Membership = Membership(organizationId: string, regionId: string, status: string)

  datatype OverlayPayload = OverlayPayload(providers: seq<Provider>, routes: seq<Route>, quotas: seq<Quota>,
                                           policies: seq<Policy>, wasmHooks: seq<WasmHook>,
                                           mcpBackends: seq<McpBackend>, a2aAgents: seq<A2aAgent>,
                                           credentials: seq<Credential>, assignments: seq<Assignment>,
                                           defaultRetry: Option<RetryConfig>, objectStore: Option<ObjectStore>)

  datatype Overlay = Overlay(organizationId: string, regionId: string, payload: OverlayPayload)

  /** One organization's contribution to a source. */
  datatype OrgSlice = OrgSlice(apiKeys: seq<ApiKey>, signingKeys: seq<SigningKey>, providers: seq<Provider>,
                               routes: seq<Route>, quotas: seq<Quota>, policies: seq<Policy>, wasmHooks: seq<WasmHook>,
                               mcpBackends: seq<McpBackend>, a2aAgents: seq<A2aAgent>, credentials: seq<Credential>,
                               assignments: seq<Assignment>, defaultRetry: Option<RetryConfig>,
                               objectStore: Option<ObjectStore>)

  // ----- who owns what

  function ApiKeyOrg(): ApiKey -> string { (x: ApiKey) => x.organizationId }

  function SigningKeyOrg(): SigningKey -> string { (x: SigningKey) => x.organizationId }

  function RouteOrg(): Route -> string { (x: Route) => x.organizationId }

  function QuotaOrg(): Quota -> string { (x: Quota) => x.organizationId }

  function PolicyOrg(): Policy -> string { (x: Policy) => x.organizationId }

  function WasmOrg(): WasmHook -> string { (x: WasmHook) => x.organizationId }

  function McpOrg(): McpBackend -> string { (x: McpBackend) => x.organizationId }

  function A2aOrg(): A2aAgent -> string { (x: A2aAgent) => x.organizationId }

  function CredentialOrg(): Credential -> string { (x: Credential) => x.organizationId }

  function CredentialIs(id: string): Credential -> bool { (c: Credential) => c.id == id }

  /** An assignment belongs to the organization of the last credential with its id; to none when that is missing. */
  function AssignmentOrg(credentials: seq<Credential>): Assignment -> string {
    (a: Assignment) =>
      match LastMatch(credentials, CredentialIs(a.credentialId))
      case None => ""
      case Some(c) => c.organizationId
  }

  /** An assignment follows the last credential of its id. */
  lemma AssignmentFollows(credentials: seq<Credential>, a: Assignment, i: nat)
    requires i < |credentials| && credentials[i].id == a.credentialId
    requires forall j :: i < j < |credentials| ==> credentials[j].id != a.credentialId
    ensures AssignmentOrg(credentials)(a) == credentials[i].organizationId
  {
    LastMatchAt(credentials, CredentialIs(a.credentialId), i);
  }

  function OfOrg<T>(org: T -> string, o: string): T -> bool {
    (x: T) => org(x) == o
  }

  function OrgRows<T(!new)>(xs: seq<T>, org: T -> string, o: string): seq<T> {
    if o == "" then [] else Filter(xs, OfOrg(org, o))
  }

  /** The slice of one organization in the base configuration; providers stay global. */
  function BaseSlice(base: Source, o: string): OrgSlice {
    OrgSlice(OrgRows(base.apiKeys, ApiKeyOrg(), o), OrgRows(base.signingKeys, SigningKeyOrg(), o), [],
             OrgRows(base.routes, RouteOrg(), o), OrgRows(base.quotas, QuotaOrg(), o),
             OrgRows(base.policies, PolicyOrg(), o), OrgRows(base.wasmHooks, WasmOrg(), o),
             OrgRows(base.mcpBackends, McpOrg(), o),
             OrgRows(base.a2aAgents, A2aOrg(), o), OrgRows(base.credentials, CredentialOrg(), o),
             OrgRows(base.assignments, AssignmentOrg(base.credentials), o),
             if o == "" then None else Get(base.defaultRetries, o),
             if o == "" then None else Get(base.objectStores, o))
  }

  function RowsAt<T>(groups: map<string, seq<T>>, o: string): seq<T> {
    if o in groups then groups[o] else []
  }

  /** The base rows of every organization, one map per kind of row. */
  datatype BaseIndex = BaseIndex(apiKeys: map<string, seq<ApiKey>>, signingKeys: map<string, seq<SigningKey>>,
                                 routes: map<string, seq<Route>>, quotas: map<string, seq<Quota>>,
                                 policies: map<string, seq<Policy>>, wasmHooks: map<string, seq<WasmHook>>,
                                 mcpBackends: map<string, seq<McpBackend>>,
                                 a2aAgents: map<string, seq<A2aAgent>>, credentials: map<string, seq<Credential>>,
                                 assignments: map<string, seq<Assignment>>, retries: map<string, RetryConfig>,
                                 objectStores: map<string, ObjectStore>)

  function SliceAt(ix: BaseIndex, o: string): OrgSlice {
    OrgSlice(RowsAt(ix.apiKeys, o), RowsAt(ix.signingKeys, o), [], RowsAt(ix.routes, o), RowsAt(ix.quotas, o),
             RowsAt(ix.policies, o), RowsAt(ix.wasmHooks, o), RowsAt(ix.mcpBackends, o), RowsAt(ix.a2aAgents, o),
             RowsAt(ix.credentials, o), RowsAt(ix.assignments, o), Get(ix.retries, o), Get(ix.objectStores, o))
  }

  /** The loop that appends every row to the slice of its organization, skipping rows of no organization. */
  method GroupByOrg<T(!new)>(xs: seq<T>, org: T -> string) returns (groups: map<string, seq<T>>)
    ensures "" !in groups
    ensures forall o :: RowsAt(groups, o) == OrgRows(xs, org, o)
  {
    groups := map[];
    for i := 0 to |xs|
      invariant "" !in groups
      invariant forall o :: RowsAt(groups, o) == OrgRows(xs[..i], org, o)
    {
      assert xs[..i + 1][..i] == xs[..i];
      var o := org(xs[i]);
      if o != "" {
        groups := groups[o := RowsAt(groups, o) + [xs[i]]];
      }
      forall q
        ensures RowsAt(groups, q) == OrgRows(xs[..i + 1], org, q)
      {
        assert OrgRows(xs[..i + 1], org, q) == OrgRows(xs[..i], org, q) + (if q == o && q != "" then [xs[i]] else []);
      }
    }
    assert xs[..|xs|] == xs;
  }

  method IndexBaseByOrg(base: Source) returns (byOrg: BaseIndex)
    ensures forall o :: SliceAt(byOrg, o) == BaseSlice(base, o)
  {
    var apiKeys := GroupByOrg(base.apiKeys, ApiKeyOrg());
    var signingKeys := GroupByOrg(base.signingKeys, SigningKeyOrg());
    var routes := GroupByOrg(base.routes, RouteOrg());
    var quotas := GroupByOrg(base.quotas, QuotaOrg());
    var policies := GroupByOrg(base.policies, PolicyOrg());
    var wasmHooks := GroupByOrg(base.wasmHooks, WasmOrg());
    var mcpBackends := GroupByOrg(base.mcpBackends, McpOrg());
    var a2aAgents := GroupByOrg(base.a2aAgents, A2aOrg());
    var credentials := GroupByOrg(base.credentials, CredentialOrg());
    var assignments := GroupByOrg(base.assignments, AssignmentOrg(base.credentials));
    byOrg := BaseIndex(apiKeys, signingKeys, routes, quotas, policies, wasmHooks, mcpBackends, a2aAgents, credentials,
                       assignments, base.defaultRetries - {""}, base.objectStores - {""});
  }

  // ----- overlays

  function OverlayOrg(): Overlay -> string { (o: Overlay) => o.organizationId }

  function OverlayProviders(): Overlay -> seq<Provider> { (o: Overlay) => o.payload.providers }

  function StampRoute(o: string): Route -> Route { (x: Route) => x.(organizationId := o) }

  function StampQuota(o: string): Quota -> Quota { (x: Quota) => x.(organizationId := o) }

  function StampPolicy(o: string): Policy -> Policy { (x: Policy) => x.(organizationId := o) }

  function StampHook(o: string): WasmHook -> WasmHook { (x: WasmHook) => x.(organizationId := o) }

  function StampMcp(o: string): McpBackend -> McpBackend { (x: McpBackend) => x.(organizationId := o) }

  function StampA2a(o: string): A2aAgent -> A2aAgent { (x: A2aAgent) => x.(organizationId := o) }

  function StampCredential(o: string): Credential -> Credential { (x: Credential) => x.(organizationId := o) }

  /** An overlay replaces everything but the keys; its rows are stamped with the organization. */
  function OverlaySlice(o: string, baseSlice: OrgSlice, payload: OverlayPayload): OrgSlice {
    OrgSlice(baseSlice.apiKeys, baseSlice.signingKeys, payload.providers,
             Map(payload.routes, StampRoute(o)), Map(payload.quotas, StampQuota(o)),
             Map(payload.policies, StampPolicy(o)), Map(payload.wasmHooks, StampHook(o)),
             Map(payload.mcpBackends, StampMcp(o)), Map(payload.a2aAgents, StampA2a(o)),
             Map(payload.credentials, StampCredential(o)), payload.assignments, payload.defaultRetry,
             payload.objectStore)
  }

  /** The slice that counts for an organization: its last overlay, or its base configuration. */
  function EffectiveSlice(base: Source, overlays: seq<Overlay>, o: string): OrgSlice {
    match LastMatch(overlays, OfOrg(OverlayOrg(), o))
    case None => BaseSlice(base, o)
    case Some(ov) => OverlaySlice(o, BaseSlice(base, o), ov.payload)
  }

  function Slices(base: Source, overlays: seq<Overlay>): string -> OrgSlice {
    (o: string) => EffectiveSlice(base, overlays, o)
  }

  function ApiKeySlices(slice: string -> OrgSlice): string -> seq<ApiKey> { (o: string) => slice(o).apiKeys }

  function SigningKeySlices(slice: string -> OrgSlice): string -> seq<SigningKey> {
    (o: string) => slice(o).signingKeys
  }

  function RouteSlices(slice: string -> OrgSlice): string -> seq<Route> { (o: string) => slice(o).routes }

  function QuotaSlices(slice: string -> OrgSlice): string -> seq<Quota> { (o: string) => slice(o).quotas }

  function PolicySlices(slice: string -> OrgSlice): string -> seq<Policy> { (o: string) => slice(o).policies }

  function WasmSlices(slice: string -> OrgSlice): string -> seq<WasmHook> { (o: string) => slice(o).wasmHooks }

  function McpSlices(slice: string -> OrgSlice): string -> seq<McpBackend> { (o: string) => slice(o).mcpBackends }

  function A2aSlices(slice: string -> OrgSlice): string -> seq<A2aAgent> { (o: string) => slice(o).a2aAgents }

  function CredentialSlices(slice: string -> OrgSlice): string -> seq<Credential> {
    (o: string) => slice(o).credentials
  }

  function AssignmentSlices(slice: string -> OrgSlice): string -> seq<Assignment> {
    (o: string) => slice(o).assignments
  }

  // ----- the region source

  /** Organizations with an active membership, first occurrence first, each once. */
  function ActiveOrgs(memberships: seq<Membership>): seq<string> {
    if memberships == [] then []
    else
      var n := |memberships| - 1;
      var m, rest := memberships[n], ActiveOrgs(memberships[..n]);
      if m.status != MEMBERSHIP_ACTIVE || m.organizationId in rest then rest else rest + [m.organizationId]
  }

  lemma {:induction false} ActiveOrgsMembers(memberships: seq<Membership>, o: string)
    ensures o in ActiveOrgs(memberships)
        <==> exists m :: m in memberships && m.status == MEMBERSHIP_ACTIVE && m.organizationId == o
    ensures forall i, j :: 0 <= i < j < |ActiveOrgs(memberships)| ==>
              ActiveOrgs(memberships)[i] != ActiveOrgs(memberships)[j]
  {
    if memberships != [] {
      var n := |memberships| - 1;
      ActiveOrgsMembers(memberships[..n], o);
      assert memberships == memberships[..n] + [memberships[n]];
    }
  }

  /** Further memberships only add at the end: organizations are in the order of their first active one. */
  lemma {:induction false} ActiveOrgsGrow(memberships: seq<Membership>, n: nat)
    requires n <= |memberships|
    ensures ActiveOrgs(memberships[..n]) <= ActiveOrgs(memberships)
  {
    if n < |memberships| {
      var before := memberships[..|memberships| - 1];
      ActiveOrgsGrow(before, n);
      assert before[..n] == memberships[..n];
    } else {
      assert memberships[..n] == memberships;
    }
  }

  function ReferencedProviders(slice: OrgSlice): set<string> {
    (set r | r in slice.routes :: r.providerId)
    + (set r, f | r in slice.routes && f in r.fallbacks :: f.providerId)
    + (set p | p in slice.providers :: p.id)
  }

  function NeededProviders(orgs: seq<string>, slice: string -> OrgSlice): set<string> {
    if orgs == [] then {}
    else NeededProviders(orgs[..|orgs| - 1], slice) + ReferencedProviders(slice(orgs[|orgs| - 1]))
  }

  lemma {:induction false} NeededProvidersOf(orgs: seq<string>, slice: string -> OrgSlice, id: string)
    ensures id in NeededProviders(orgs, slice) <==> exists o :: o in orgs && id in ReferencedProviders(slice(o))
  {
    if orgs != [] {
      var n := |orgs| - 1;
      assert orgs == orgs[..n] + [orgs[n]];
      NeededProvidersOf(orgs[..n], slice, id);
    }
  }

  /** Base providers first, then those of every overlay, allowed organization or not. */
  function ProviderPool(base: Source, overlays: seq<Overlay>): seq<Provider> {
    base.providers + FlatMap(overlays, OverlayProviders())
  }

  /** One pool provider for every needed id the pool knows, in any order. */
  ghost predicate SelectsFromPool(providers: seq<Provider>, pool: seq<Provider>, needed: set<string>) {
    && (forall p :: p in providers ==> p.id in needed && LastMatch(pool, ProviderIs(p.id)) == Some(p))
    && (forall id :: id in needed && LastMatch(pool, ProviderIs(id)).Some? ==>
          LastMatch(pool, ProviderIs(id)).value in providers)
  }

  function MergedRetries(orgs: seq<string>, slice: string -> OrgSlice): map<string, RetryConfig> {
    map o | o in orgs && slice(o).defaultRetry.Some? :: slice(o).defaultRetry.value
  }

  function MergedStores(orgs: seq<string>, slice: string -> OrgSlice): map<string, ObjectStore> {
    map o | o in orgs && slice(o).objectStore.Some? :: slice(o).objectStore.value
  }

  /** The slices of the given organizations side by side, still without providers. */
  function Merged(orgs: seq<string>, slice: string -> OrgSlice): Source {
    Source(FlatMap(orgs, ApiKeySlices(slice)), FlatMap(orgs, SigningKeySlices(slice)), [],
           FlatMap(orgs, RouteSlices(slice)), FlatMap(orgs, CredentialSlices(slice)),
           FlatMap(orgs, AssignmentSlices(slice)), FlatMap(orgs, QuotaSlices(slice)),
           FlatMap(orgs, PolicySlices(slice)), FlatMap(orgs, WasmSlices(slice)), FlatMap(orgs, McpSlices(slice)),
           FlatMap(orgs, A2aSlices(slice)), MergedRetries(orgs, slice), MergedStores(orgs, slice))
  }

  /** One turn of the merging loop. */
  function Append(src: Source, o: string, slice: OrgSlice): Source {
    Source(src.apiKeys + slice.apiKeys, src.signingKeys + slice.signingKeys, src.providers, src.routes + slice.routes,
           src.credentials + slice.credentials, src.assignments + slice.assignments, src.quotas + slice.quotas,
           src.policies + slice.policies, src.wasmHooks + slice.wasmHooks, src.mcpBackends + slice.mcpBackends,
           src.a2aAgents + slice.a2aAgents,
           if slice.defaultRetry.Some? then src.defaultRetries[o := slice.defaultRetry.value] else src.defaultRetries,
           if slice.objectStore.Some? then src.objectStores[o := slice.objectStore.value] else src.objectStores)
  }

  lemma MergedStep(orgs: seq<string>, slice: string -> OrgSlice, i: nat)
    requires i < |orgs|
    ensures Merged(orgs[..i + 1], slice) == Append(Merged(orgs[..i], slice), orgs[i], slice(orgs[i]))
  {
    assert orgs[..i + 1][..i] == orgs[..i];
    assert MergedRetries(orgs[..i + 1], slice)
        == Append(Merged(orgs[..i], slice), orgs[i], slice(orgs[i])).defaultRetries by {
      assert forall o :: o in orgs[..i + 1] <==> o in orgs[..i] || o == orgs[i];
    }
    assert MergedStores(orgs[..i + 1], slice)
        == Append(Merged(orgs[..i], slice), orgs[i], slice(orgs[i])).objectStores by {
      assert forall o :: o in orgs[..i + 1] <==> o in orgs[..i] || o == orgs[i];
    }
  }

  lemma NeededStep(orgs: seq<string>, slice: string -> OrgSlice, i: nat)
    requires i < |orgs|
    ensures NeededProviders(orgs[..i + 1], slice) ==
            NeededProviders(orgs[..i], slice) + ReferencedProviders(slice(orgs[i]))
  {
    assert orgs[..i + 1][..i] == orgs[..i];
  }

  /** What BuildRegionSource returns, up to the order in which it emits providers. */
  ghost predicate IsRegionSource(base: Source, memberships: seq<Membership>, overlays: seq<Overlay>,
                                 src: Source, allowed: seq<string>) {
    var slice := Slices(base, overlays);
    && allowed == ActiveOrgs(memberships)
    && src == Merged(allowed, slice).(providers := src.providers)
    && SelectsFromPool(src.providers, ProviderPool(base, overlays), NeededProviders(allowed, slice))
  }

  method CollectActiveOrgs(memberships: seq<Membership>) returns (allowed: seq<string>)
    ensures allowed == ActiveOrgs(memberships)
  {
    allowed := [];
    for i := 0 to |memberships|
      invariant allowed == ActiveOrgs(memberships[..i])
    {
      assert memberships[..i + 1][..i] == memberships[..i];
      var m := memberships[i];
      if m.status == MEMBERSHIP_ACTIVE && m.organizationId !in allowed {
        allowed := allowed + [m.organizationId];
      }
    }
    assert memberships[..|memberships|] == memberships;
  }

  /** Map iteration visits the needed ids in no particular order. */
  method SelectProviders(pool: seq<Provider>, needed: set<string>) returns (providers: seq<Provider>)
    ensures SelectsFromPool(providers, pool, needed)
  {
    var byId := BuildIndex(pool, Everything(), ProviderId(), Same());
    var todo := needed;
    providers := [];
    while todo != {}
      invariant todo <= needed
      invariant SelectsFromPool(providers, pool, needed - todo)
    {
      var id :| id in todo;
      LastMatchSame(pool, Matches(Everything(), ProviderId(), id), ProviderIs(id));
      if id in byId {
        providers := providers + [byId[id]];
      }
      todo := todo - {id};
    }
    assert needed - todo == needed;
  }

  method IndexOverlays(overlays: seq<Overlay>) returns (overlayByOrg: map<string, Overlay>)
    ensures forall o :: Get(overlayByOrg, o) == LastMatch(overlays, OfOrg(OverlayOrg(), o))
  {
    overlayByOrg := BuildIndex(overlays, Everything(), OverlayOrg(), Same());
    forall o
      ensures Get(overlayByOrg, o) == LastMatch(overlays, OfOrg(OverlayOrg(), o))
    {
      LastMatchSame(overlays, Matches(Everything(), OverlayOrg(), o), OfOrg(OverlayOrg(), o));
    }
  }

  /** The slice of one organization, out of the two indexes. */
  method PickSlice(ghost base: Source, ghost overlays: seq<Overlay>, byOrg: BaseIndex,
                   overlayByOrg: map<string, Overlay>, o: string)
    returns (slice: OrgSlice)
    requires SliceAt(byOrg, o) == BaseSlice(base, o)
    requires Get(overlayByOrg, o) == LastMatch(overlays, OfOrg(OverlayOrg(), o))
    ensures slice == EffectiveSlice(base, overlays, o)
  {
    slice := SliceAt(byOrg, o);
    if o in overlayByOrg {
      slice := OverlaySlice(o, slice, overlayByOrg[o].payload);
    }
  }

  method MergeSlices(base: Source, overlays: seq<Overlay>, allowed: seq<string>)
    returns (src: Source, needed: set<string>)
    ensures src == Merged(allowed, Slices(base, overlays))
    ensures needed == NeededProviders(allowed, Slices(base, overlays))
  {
    ghost var slices := Slices(base, overlays);
    var byOrg := IndexBaseByOrg(base);
    var overlayByOrg := IndexOverlays(overlays);
    src := Source([], [], [], [], [], [], [], [], [], [], [], map[], map[]);
    needed := {};
    for i := 0 to |allowed|
      invariant src == Merged(allowed[..i], slices)
      invariant needed == NeededProviders(allowed[..i], slices)
    {
      var slice := PickSlice(base, overlays, byOrg, overlayByOrg, allowed[i]);
      MergedStep(allowed, slices, i);
      NeededStep(allowed, slices, i);
      src := Append(src, allowed[i], slice);
      needed := needed + ReferencedProviders(slice);
    }
    assert allowed[..|allowed|] == allowed;
  }

  method BuildRegionSource(base: Source, memberships: seq<Membership>, overlays: seq<Overlay>)
    returns (src: Source, allowed: seq<string>)
    ensures IsRegionSource(base, memberships, overlays, src, allowed)
  {
    allowed := CollectActiveOrgs(memberships);
    var needed;
    src, needed := MergeSlices(base, overlays, allowed);
    var providers := SelectProviders(base.providers + FlatMap(overlays, OverlayProviders()), needed);
    src := src.(providers := providers);
  }
}
