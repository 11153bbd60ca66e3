/**
 The compiled gateway snapshot: the source it is compiled from, the compiler that indexes it by composite
 string keys, and the lookups the data plane makes. Nil and empty maps are one value here; time stamps are left out.
 */
module Snapshot {
  import opened Collections
  import opened Strings
  import opened Backoff

  const SCOPE_ORGANIZATION := "organization"
  const SCOPE_TEAM := "team"
  const SCOPE_PROJECT := "project"
  const SCOPE_USER := "user"
  const SCOPE_API_KEY := "api_key"
  const METRIC_REQUESTS := "requests"
  const METRIC_TOKENS := "tokens"
  const WINDOW_TOTAL := "total"
  const STATUS_ACTIVE := "active"

  /** Checked on every request, in this order. */
  const REQUEST_WINDOWS := ["minute", "hour", "day", "total"]

  datatype ProviderCapabilities =
    ProviderCapabilities(chat: bool, stream: bool, tts: bool, stt: bool, embedding: bool, image: bool)

  datatype Provider = Provider(id: string, kind: string, baseUrl: string, apiKeyEnv: string, name: string,
                               capabilities: ProviderCapabilities, config: string)

  datatype RouteTarget = RouteTarget(providerId: string, targetModel: string, weight: int)

  datatype Route = Route(organizationId: string, model: string, providerId: string, targetModel: string,
                         fallbacks: seq<RouteTarget>, retry: Option<RetryConfig>, routingStrategy: string, weight: int)

  datatype ApiKey = ApiKey(keyHash: string, id: string, organizationId: string, projectId: string, teamId: string,
                           environmentId: string, name: string, kind: string, ownerUserId: string)

  datatype SigningKey = SigningKey(keyId: string, id: string, organizationId: string, projectId: string,
                                   teamId: string, environmentId: string, name: string, publicKeyPem: string,
                                   status: string)

  datatype Credential = Credential(id: string, organizationId: string, name: string, providerType: string,
                                   storageKind: string, secretRef: string, status: string)

  datatype Assignment = Assignment(credentialId: string, providerType: string, scopeType: string, scopeId: string)

  datatype Quota = Quota(id: string, organizationId: string, scopeType: string, scopeId: string, metric: string,
                         limitValue: int, window: string)

  datatype PolicyAction = PolicyAction(kind: string, config: string)

  datatype Policy = Policy(id: string, organizationId: string, name: string, expression: string,
                           actions: seq<PolicyAction>, enabled: bool, priority: int)

  datatype WasmHook = WasmHook(id: string, organizationId: string, name: string, phase: string, moduleUri: string,
                               digest: string, enabled: bool, priority: int, config: string)

  datatype ObjectStore = ObjectStore(enabled: bool, endpoint: string, region: string, bucket: string, useSsl: bool,
                                     pathStyle: bool, credentialId: string, accessKeyEnv: string, secretKeyEnv: string,
                                     presignTtlSeconds: int)

  datatype McpBackend = McpBackend(id: string, organizationId: string, alias: string, name: string, baseUrl: string,
                                   apiKeyEnv: string, enabled: bool)

  datatype A2aAgent = A2aAgent(id: string, organizationId: string, alias: string, name: string, upstreamUrl: string,
                               apiKeyEnv: string, enabled: bool)

  datatype Source = Source(apiKeys: seq<ApiKey>, signingKeys: seq<SigningKey>, providers: seq<Provider>,
                           routes: seq<Route>, credentials: seq<Credential>, assignments: seq<Assignment>,
                           quotas: seq<Quota>, policies: seq<Policy>, wasmHooks: seq<WasmHook>,
                           mcpBackends: seq<McpBackend>, a2aAgents: seq<A2aAgent>,
                           defaultRetries: map<string, RetryConfig>, objectStores: map<string, ObjectStore>)

  datatype Snapshot = Snapshot(version: int, apiKeys: map<string, ApiKey>, signingKeys: map<string, SigningKey>,
                               providers: map<string, Provider>, routes: map<string, Route>,
                               credentials: map<string, Credential>, assignments: map<string, string>,
                               quotas: seq<Quota>, policies: seq<Policy>, wasmHooks: seq<WasmHook>,
                               mcpBackends: map<string, McpBackend>, mcpRoutes: map<string, string>,
                               a2aAgents: map<string, A2aAgent>, a2aRoutes: map<string, string>,
                               defaultRetries: map<string, RetryConfig>, objectStores: map<string, ObjectStore>,
                               allowed: Option<seq<string>>)

  // ----- what the compiler keeps, and the keys it files things under

  /** Capability defaults per provider type; the catalogue itself is a parameter. */
  type Catalog = string -> ProviderCapabilities

  function NormalizeCapabilities(catalog: Catalog, kind: string, c: ProviderCapabilities): ProviderCapabilities {
    var def := catalog(kind);
    if !c.chat && !c.stream && !c.tts && !c.stt && !c.embedding && !c.image then def
    else
      var c := if !c.tts && !c.stt && (def.tts || def.stt) then c.(tts := def.tts, stt := def.stt) else c;
      c.(embedding := c.embedding || def.embedding, image := c.image || def.image)
  }

  /**
   A provider that declares nothing has what the catalogue says of its type; otherwise embedding and images are added to
   what it declares, and speech where it declares none of it.
   */
  lemma CapabilitiesAre(catalog: Catalog, kind: string, c: ProviderCapabilities)
    ensures var def, r := catalog(kind), NormalizeCapabilities(catalog, kind, c);
            if c == ProviderCapabilities(false, false, false, false, false, false) then r == def
            else
              && r.chat == c.chat && r.stream == c.stream
              && (r.embedding <==> c.embedding || def.embedding) && (r.image <==> c.image || def.image)
              && (c.tts || c.stt ==> r.tts == c.tts && r.stt == c.stt)
              && (!c.tts && !c.stt ==> r.tts == def.tts && r.stt == def.stt)
  {
  }

  function Normalized(catalog: Catalog): Provider -> Provider {
    (p: Provider) => p.(capabilities := NormalizeCapabilities(catalog, p.kind, p.capabilities))
  }

  function Same<T>(): T -> T { (x: T) => x }

  function Everything<T>(): T -> bool { (x: T) => true }

  function RouteKey(): Route -> string { (r: Route) => Key2(r.organizationId, r.model) }

  function ProviderId(): Provider -> string { (p: Provider) => p.id }

  function HasHash(): ApiKey -> bool { (k: ApiKey) => k.keyHash != "" }

  function KeyHash(): ApiKey -> string { (k: ApiKey) => k.keyHash }

  function HasKeyId(): SigningKey -> bool { (k: SigningKey) => k.keyId != "" }

  function SigningKeyId(): SigningKey -> string { (k: SigningKey) => k.keyId }

  function HasCredentialId(): Credential -> bool { (c: Credential) => c.id != "" }

  function CredentialId(): Credential -> string { (c: Credential) => c.id }

  function Complete(): Assignment -> bool {
    (a: Assignment) => a.credentialId != "" && a.providerType != "" && a.scopeType != "" && a.scopeId != ""
  }

  function AssignmentKey(): Assignment -> string { (a: Assignment) => Key3(a.providerType, a.scopeType, a.scopeId) }

  function AssignedCredential(): Assignment -> string { (a: Assignment) => a.credentialId }

  function McpUsable(): McpBackend -> bool { (b: McpBackend) => b.id != "" && b.organizationId != "" && b.alias != "" }

  function McpRoutable(): McpBackend -> bool { (b: McpBackend) => McpUsable()(b) && b.enabled }

  function McpId(): McpBackend -> string { (b: McpBackend) => b.id }

  function McpKey(): McpBackend -> string { (b: McpBackend) => Key2(b.organizationId, b.alias) }

  function A2aUsable(): A2aAgent -> bool { (a: A2aAgent) => a.id != "" && a.organizationId != "" && a.alias != "" }

  function A2aRoutable(): A2aAgent -> bool { (a: A2aAgent) => A2aUsable()(a) && a.enabled }

  function A2aId(): A2aAgent -> string { (a: A2aAgent) => a.id }

  function A2aKey(): A2aAgent -> string { (a: A2aAgent) => Key2(a.organizationId, a.alias) }

  // ----- the compiler

  /** What Compile returns. */
  function Compiled(src: Source, catalog: Catalog): Snapshot {
    Snapshot(
      0,
      IndexBy(src.apiKeys, HasHash(), KeyHash(), Same()),
      IndexBy(src.signingKeys, HasKeyId(), SigningKeyId(), Same()),
      IndexBy(src.providers, Everything(), ProviderId(), Normalized(catalog)),
      IndexBy(src.routes, Everything(), RouteKey(), Same()),
      IndexBy(src.credentials, HasCredentialId(), CredentialId(), Same()),
      IndexBy(src.assignments, Complete(), AssignmentKey(), AssignedCredential()),
      src.quotas,
      src.policies,
      src.wasmHooks,
      IndexBy(src.mcpBackends, McpUsable(), McpId(), Same()),
      IndexBy(src.mcpBackends, McpRoutable(), McpKey(), McpId()),
      IndexBy(src.a2aAgents, A2aUsable(), A2aId(), Same()),
      IndexBy(src.a2aAgents, A2aRoutable(), A2aKey(), A2aId()),
      map o | o in src.defaultRetries && o != "" :: src.defaultRetries[o],
      map o | o in src.objectStores && o != "" :: src.objectStores[o],
      None)
  }

  method Compile(src: Source, catalog: Catalog) returns (s: Snapshot)
    ensures s == Compiled(src, catalog)
  {
    var apiKeys := BuildIndex(src.apiKeys, HasHash(), KeyHash(), Same());
    var signingKeys := BuildIndex(src.signingKeys, HasKeyId(), SigningKeyId(), Same());
    var providers := BuildIndex(src.providers, Everything(), ProviderId(), Normalized(catalog));
    var routes := BuildIndex(src.routes, Everything(), RouteKey(), Same());
    var credentials := BuildIndex(src.credentials, HasCredentialId(), CredentialId(), Same());
    var assignments := BuildIndex(src.assignments, Complete(), AssignmentKey(), AssignedCredential());
    var mcpBackends := BuildIndex(src.mcpBackends, McpUsable(), McpId(), Same());
    var mcpRoutes := BuildIndex(src.mcpBackends, McpRoutable(), McpKey(), McpId());
    var a2aAgents := BuildIndex(src.a2aAgents, A2aUsable(), A2aId(), Same());
    var a2aRoutes := BuildIndex(src.a2aAgents, A2aRoutable(), A2aKey(), A2aId());
    var retries := map o | o in src.defaultRetries && o != "" :: src.defaultRetries[o];
    var stores := map o | o in src.objectStores && o != "" :: src.objectStores[o];
    s := Snapshot(0, apiKeys, signingKeys, providers, routes, credentials, assignments, src.quotas, src.policies,
                  src.wasmHooks, mcpBackends, mcpRoutes, a2aAgents, a2aRoutes, retries, stores, None);
  }

  function CompiledRegion(src: Source, catalog: Catalog, allowed: seq<string>): Snapshot {
    Compiled(src, catalog).(allowed := Some(allowed))
  }

  method CompileRegion(src: Source, catalog: Catalog, allowed: seq<string>) returns (s: Snapshot)
    ensures s == CompiledRegion(src, catalog, allowed)
  {
    s := Compile(src, catalog);
    s := s.(allowed := Some(allowed));
  }

  // ----- lookups

  /** No allowlist admits everyone; an allowlist admits exactly its trimmed, non-empty members. */
  predicate Allows(s: Snapshot, orgId: string) {
    s.allowed.None? || (TrimSpace(orgId) != "" && TrimSpace(orgId) in s.allowed.value)
  }

  method AllowsOrganization(s: Snapshot, orgId: string) returns (ok: bool)
    ensures ok <==> Allows(s, orgId)
    ensures s.allowed.None? ==> ok
    ensures s.allowed.Some? ==> (ok <==> TrimSpace(orgId) != "" && TrimSpace(orgId) in s.allowed.value)
  {
    if s.allowed.None? {
      return true;
    }
    var org, ids := TrimSpace(orgId), s.allowed.value;
    if org == "" {
      return false;
    }
    for i := 0 to |ids|
      invariant org !in ids[..i]
    {
      if ids[i] == org {
        return true;
      }
    }
    return false;
  }

  function Get<K, V>(m: map<K, V>, k: K): Option<V> {
    if k in m then Some(m[k]) else None
  }

  function LookupRoute(s: Snapshot, orgId: string, model: string): Option<(Route, Provider)> {
    match Get(s.routes, Key2(orgId, model))
    case None => None
    case Some(r) => if r.providerId in s.providers then Some((r, s.providers[r.providerId])) else None
  }

  function LookupSigningKey(s: Snapshot, keyId: string): Option<SigningKey> {
    match Get(s.signingKeys, TrimSpace(keyId))
    case None => None
    case Some(k) => if k.status == STATUS_ACTIVE then Some(k) else None
  }

  function LookupMcpBackend(s: Snapshot, orgId: string, alias: string): Option<McpBackend> {
    match Get(s.mcpRoutes, Key2(orgId, alias))
    case None => None
    case Some(id) => if id in s.mcpBackends && s.mcpBackends[id].enabled then Some(s.mcpBackends[id]) else None
  }

  function LookupA2aAgent(s: Snapshot, orgId: string, alias: string): Option<A2aAgent> {
    match Get(s.a2aRoutes, Key2(orgId, alias))
    case None => None
    case Some(id) => if id in s.a2aAgents && s.a2aAgents[id].enabled then Some(s.a2aAgents[id]) else None
  }

  function ResolveRetry(s: Snapshot, route: Route): Option<RetryConfig> {
    if route.retry.Some? then route.retry else Get(s.defaultRetries, route.organizationId)
  }

  function ResolveObjectStore(s: Snapshot, orgId: string): Option<ObjectStore> {
    if orgId == "" then None else Get(s.objectStores, orgId)
  }

  // ----- quota resolution

  /** How specifically a quota addresses a key; 0 is not at all. The organization of the quota plays no part. */
  function Rank(q: Quota, key: ApiKey, metric: string, window: string): nat {
    if q.metric != metric || q.window != window then 0
    else if q.scopeType == SCOPE_API_KEY then if q.scopeId == key.id then 5 else 0
    else if q.scopeType == SCOPE_USER then if key.ownerUserId != "" && q.scopeId == key.ownerUserId then 4 else 0
    else if q.scopeType == SCOPE_PROJECT then if key.projectId != "" && q.scopeId == key.projectId then 3 else 0
    else if q.scopeType == SCOPE_TEAM then if key.teamId != "" && q.scopeId == key.teamId then 2 else 0
    else if q.scopeType == SCOPE_ORGANIZATION then if q.scopeId == key.organizationId then 1 else 0
    else 0
  }

  /** The scopes a key is in, the most general first. */
  function ScopesOf(key: ApiKey): seq<(string, string)> {
    [("organization", key.organizationId), ("team", key.teamId), ("project", key.projectId), ("user", key.ownerUserId),
     ("api_key", key.id)]
  }

  /** A quota ranks by the scope of the key it is made for; team, project and user may be missing. */
  lemma RankIsPlace(q: Quota, key: ApiKey, metric: string, window: string, n: nat)
    requires n < 5
    ensures Rank(q, key, metric, window) == n + 1 <==>
            q.metric == metric && q.window == window && (q.scopeType, q.scopeId) == ScopesOf(key)[n] &&
            (1 <= n <= 3 ==> q.scopeId != "")
    ensures Rank(q, key, metric, window) <= 5
  {
    assert "organization"[0] == 'o' && "team"[0] == 't' && "project"[0] == 'p' && "user"[0] == 'u'
        && "api_key"[0] == 'a';
  }

  function RankFor(key: ApiKey, metric: string, window: string): Quota -> nat {
    (q: Quota) => Rank(q, key, metric, window)
  }

  function DefaultWindow(window: string): string {
    if window == "" then WINDOW_TOTAL else window
  }

  /** The most specific quota; among equally specific ones, the first. */
  function BestQuota(quotas: seq<Quota>, key: ApiKey, metric: string, window: string): Option<Quota> {
    FirstMax(quotas, RankFor(key, metric, DefaultWindow(window)))
  }

  /** The loop over all quotas. */
  method ResolveQuota(s: Snapshot, key: ApiKey, metric: string, window: string) returns (r: Option<Quota>)
    ensures r == BestQuota(s.quotas, key, metric, window)
    ensures IsFirstMax(s.quotas, RankFor(key, metric, DefaultWindow(window)), r)
  {
    var rankOf, quotas := RankFor(key, metric, DefaultWindow(window)), s.quotas;
    var best := 0;
    r := None;
    for i := 0 to |quotas|
      invariant r == FirstMax(quotas[..i], rankOf)
      invariant best == RankOf(r, rankOf)
    {
      assert quotas[..i + 1][..i] == quotas[..i];
      if rankOf(quotas[i]) > best {
        best := rankOf(quotas[i]);
        r := Some(quotas[i]);
      }
    }
    assert quotas[..|quotas|] == quotas;
    FirstMaxIsFirstMax(quotas, rankOf);
  }

  // ----- credential resolution

  datatype CredentialAnswer = Found(credential: Credential) | NoCredential | MissingOverride

  function ScopedCredential(s: Snapshot, providerType: string, scopeType: string, scopeId: string): Option<Credential> {
    if scopeId == "" then None
    else
      match Get(s.assignments, Key3(providerType, scopeType, scopeId))
      case None => None
      case Some(id) =>
        if id in s.credentials && s.credentials[id].status == STATUS_ACTIVE then Some(s.credentials[id]) else None
  }

  /** Assignment scopes: api_key, then project, then organization. */
  function AssignedFor(s: Snapshot, providerType: string, key: ApiKey): CredentialAnswer {
    var byKey := ScopedCredential(s, providerType, SCOPE_API_KEY, key.id);
    var byProject := ScopedCredential(s, providerType, SCOPE_PROJECT, key.projectId);
    var byOrg := ScopedCredential(s, providerType, SCOPE_ORGANIZATION, key.organizationId);
    if byKey.Some? then Found(byKey.value)
    else if byProject.Some? then Found(byProject.value)
    else if byOrg.Some? then Found(byOrg.value)
    else NoCredential
  }

  predicate IsNamed(c: Credential, orgId: string, providerType: string, name: string) {
    && c.status == STATUS_ACTIVE && c.organizationId == orgId && c.providerType == providerType && c.name == name
    && orgId != "" && providerType != "" && name != ""
  }

  function NamedCredentials(credentials: map<string, Credential>, orgId: string, providerType: string, name: string)
    : set<Credential>
  {
    set id | id in credentials && IsNamed(credentials[id], orgId, providerType, name) :: credentials[id]
  }

  /** The answers resolution may give; the named search visits the credentials in no particular order. */
  predicate PossibleAnswer(s: Snapshot, providerType: string, key: ApiKey, overrideName: string, r: CredentialAnswer) {
    if TrimSpace(overrideName) == "" then r == AssignedFor(s, providerType, key)
    else
      var named := NamedCredentials(s.credentials, TrimSpace(key.organizationId), TrimSpace(providerType),
                                    TrimSpace(overrideName));
      if named == {} then r == MissingOverride else r.Found? && r.credential in named
  }

  method LookupCredentialByName(s: Snapshot, orgId: string, providerType: string, name: string)
    returns (r: Option<Credential>)
    ensures var named := NamedCredentials(s.credentials, TrimSpace(orgId), TrimSpace(providerType), TrimSpace(name));
            if named == {} then r.None? else r.Some? && r.value in named
    ensures r.Some? ==>
              && r.value in s.credentials.Values && r.value.status == "active"
              && r.value.organizationId == TrimSpace(orgId) != ""
              && r.value.providerType == TrimSpace(providerType) != "" && r.value.name == TrimSpace(name) != ""
    ensures r.None? && TrimSpace(orgId) != "" && TrimSpace(providerType) != "" && TrimSpace(name) != "" ==>
              forall c <- s.credentials.Values ::
                !(c.status == "active" && c.organizationId == TrimSpace(orgId)
                  && c.providerType == TrimSpace(providerType) && c.name == TrimSpace(name))
  {
    var orgId, providerType, name := TrimSpace(orgId), TrimSpace(providerType), TrimSpace(name);
    if orgId == "" || providerType == "" || name == "" {
      return None;
    }
    var pool := s.credentials.Keys;
    while pool != {}
      invariant pool <= s.credentials.Keys
      invariant forall id ::
                  id in s.credentials && id !in pool ==> !IsNamed(s.credentials[id], orgId, providerType, name)
    {
      var id :| id in pool;
      if IsNamed(s.credentials[id], orgId, providerType, name) {
        assert s.credentials[id] in NamedCredentials(s.credentials, orgId, providerType, name);
        return Some(s.credentials[id]);
      }
      pool := pool - {id};
    }
    return None;
  }

  method ResolveCredentialForCall(s: Snapshot, providerType: string, key: ApiKey, overrideName: string)
    returns (r: CredentialAnswer)
    ensures PossibleAnswer(s, providerType, key, overrideName, r)
    ensures TrimSpace(overrideName) == "" ==> r == AssignedFor(s, providerType, key)
    ensures TrimSpace(overrideName) != "" && r.Found? ==>
              && r.credential in s.credentials.Values && r.credential.status == "active"
              && r.credential.organizationId == TrimSpace(key.organizationId)
              && r.credential.providerType == TrimSpace(providerType) && r.credential.name == TrimSpace(overrideName)
    ensures TrimSpace(overrideName) != "" ==> r.Found? || r.MissingOverride?
  {
    var name := TrimSpace(overrideName);
    if name != "" {
      var found := LookupCredentialByName(s, key.organizationId, providerType, name);
      assert TrimSpace(name) == name;
      return if found.Some? then Found(found.value) else MissingOverride;
    }
    r := AssignedFor(s, providerType, key);
  }

  // ----- the index agrees with a scan of the source

  function RouteOf(orgId: string, model: string): Route -> bool {
    (r: Route) => r.organizationId == orgId && r.model == model
  }

  function ProviderIs(id: string): Provider -> bool { (p: Provider) => p.id == id }

  function ScanProvider(providers: seq<Provider>, catalog: Catalog, id: string): Option<Provider> {
    match LastMatch(providers, ProviderIs(id))
    case None => None
    case Some(p) => Some(Normalized(catalog)(p))
  }

  /** The last route for the pair, when its provider exists. */
  function ScanRoute(src: Source, catalog: Catalog, orgId: string, model: string): Option<(Route, Provider)> {
    match LastMatch(src.routes, RouteOf(orgId, model))
    case None => None
    case Some(r) =>
      var p := ScanProvider(src.providers, catalog, r.providerId);
      if p.Some? then Some((r, p.value)) else None
  }

  lemma ProviderIndex(src: Source, catalog: Catalog, id: string)
    ensures Get(Compiled(src, catalog).providers, id) == ScanProvider(src.providers, catalog, id)
  {
    IndexIsLastMatch(src.providers, Everything(), ProviderId(), Normalized(catalog), id);
    LastMatchSame(src.providers, Matches(Everything(), ProviderId(), id), ProviderIs(id));
  }

  ghost predicate RouteOrgsColonFree(routes: seq<Route>) {
    forall r :: r in routes ==> ColonFree(r.organizationId)
  }

  lemma RouteIndex(src: Source, catalog: Catalog, orgId: string, model: string)
    requires ColonFree(orgId) && RouteOrgsColonFree(src.routes)
    ensures Get(Compiled(src, catalog).routes, Key2(orgId, model)) == LastMatch(src.routes, RouteOf(orgId, model))
  {
    IndexIsLastMatch(src.routes, Everything(), RouteKey(), Same(), Key2(orgId, model));
    forall r | r in src.routes
      ensures Matches(Everything(), RouteKey(), Key2(orgId, model))(r) == RouteOf(orgId, model)(r)
    {
      Key2Injective(r.organizationId, r.model, orgId, model);
    }
    LastMatchSame(src.routes, Matches(Everything(), RouteKey(), Key2(orgId, model)), RouteOf(orgId, model));
  }

  lemma LookupRouteIsScan(src: Source, catalog: Catalog, orgId: string, model: string)
    requires ColonFree(orgId) && RouteOrgsColonFree(src.routes)
    ensures LookupRoute(Compiled(src, catalog), orgId, model) == ScanRoute(src, catalog, orgId, model)
  {
    RouteIndex(src, catalog, orgId, model);
    var r := LastMatch(src.routes, RouteOf(orgId, model));
    if r.Some? {
      ProviderIndex(src, catalog, r.value.providerId);
    }
  }

  function AssignmentTo(providerType: string, scopeType: string, scopeId: string): Assignment -> bool {
    (a: Assignment) =>
      && a.providerType == providerType && a.scopeType == scopeType && a.scopeId == scopeId
      && a.credentialId != "" && providerType != "" && scopeType != "" && scopeId != ""
  }

  ghost predicate AssignmentKindsColonFree(assignments: seq<Assignment>) {
    forall a :: a in assignments ==> ColonFree(a.providerType) && ColonFree(a.scopeType)
  }

  /** Assignment lookup returns the last assignment made for the type and scope. */
  lemma AssignmentIndex(src: Source, catalog: Catalog, providerType: string, scopeType: string, scopeId: string)
    requires ColonFree(providerType) && ColonFree(scopeType) && AssignmentKindsColonFree(src.assignments)
    ensures var last := LastMatch(src.assignments, AssignmentTo(providerType, scopeType, scopeId));
            Get(Compiled(src, catalog).assignments, Key3(providerType, scopeType, scopeId))
            == if last.Some? then Some(last.value.credentialId) else None
  {
    var k := Key3(providerType, scopeType, scopeId);
    IndexIsLastMatch(src.assignments, Complete(), AssignmentKey(), AssignedCredential(), k);
    forall a | a in src.assignments
      ensures Matches(Complete(), AssignmentKey(), k)(a) == AssignmentTo(providerType, scopeType, scopeId)(a)
    {
      Key3Injective(a.providerType, a.scopeType, a.scopeId, providerType, scopeType, scopeId);
    }
    LastMatchSame(src.assignments, Matches(Complete(), AssignmentKey(), k),
                  AssignmentTo(providerType, scopeType, scopeId));
  }

  ghost predicate AssignmentScopesColonFree(assignments: seq<Assignment>) {
    forall a :: a in assignments ==> ColonFree(a.scopeType) && ColonFree(a.scopeId)
  }

  /** The same for any provider types, when scopes carry no colon. */
  lemma AssignmentIndexAnyType(src: Source, catalog: Catalog, providerType: string, scopeType: string, scopeId: string)
    requires ColonFree(scopeType) && ColonFree(scopeId) && AssignmentScopesColonFree(src.assignments)
    ensures var last := LastMatch(src.assignments, AssignmentTo(providerType, scopeType, scopeId));
            Get(Compiled(src, catalog).assignments, Key3(providerType, scopeType, scopeId))
            == if last.Some? then Some(last.value.credentialId) else None
  {
    var k := Key3(providerType, scopeType, scopeId);
    IndexIsLastMatch(src.assignments, Complete(), AssignmentKey(), AssignedCredential(), k);
    forall a | a in src.assignments
      ensures Matches(Complete(), AssignmentKey(), k)(a) == AssignmentTo(providerType, scopeType, scopeId)(a)
    {
      Key3InjectiveAnyType(a.providerType, a.scopeType, a.scopeId, providerType, scopeType, scopeId);
    }
    LastMatchSame(src.assignments, Matches(Complete(), AssignmentKey(), k),
                  AssignmentTo(providerType, scopeType, scopeId));
  }

  // ----- the other lookups, as scans of the source

  function HashIs(hash: string): ApiKey -> bool { (k: ApiKey) => k.keyHash == hash }

  /** A key is found by its hash, the last one under it; an empty hash finds nothing. */
  lemma ApiKeyIsScan(src: Source, catalog: Catalog, hash: string)
    ensures Get(Compiled(src, catalog).apiKeys, hash) ==
            if hash == "" then None else LastMatch(src.apiKeys, HashIs(hash))
  {
    IndexIsLastMatch(src.apiKeys, HasHash(), KeyHash(), Same(), hash);
    if hash != "" {
      LastMatchSame(src.apiKeys, Matches(HasHash(), KeyHash(), hash), HashIs(hash));
    }
  }

  function KeyIdIs(keyId: string): SigningKey -> bool { (k: SigningKey) => k.keyId == keyId }

  /** A signing key is found by its trimmed id, the last one under it, while it is active. */
  lemma SigningKeyIsScan(src: Source, catalog: Catalog, keyId: string)
    ensures var id, found := TrimSpace(keyId), LookupSigningKey(Compiled(src, catalog), keyId);
            var last := LastMatch(src.signingKeys, KeyIdIs(id));
            found == if id != "" && last.Some? && last.value.status == "active" then last else None
  {
    var id := TrimSpace(keyId);
    IndexIsLastMatch(src.signingKeys, HasKeyId(), SigningKeyId(), Same(), id);
    if id != "" {
      LastMatchSame(src.signingKeys, Matches(HasKeyId(), SigningKeyId(), id), KeyIdIs(id));
    }
  }

  function CredentialIdIs(id: string): Credential -> bool { (c: Credential) => c.id == id }

  /** The active credential that the last assignment for the scope names. */
  function ScanScoped(src: Source, providerType: string, scopeType: string, scopeId: string): Option<Credential> {
    match LastMatch(src.assignments, AssignmentTo(providerType, scopeType, scopeId))
    case None => None
    case Some(a) =>
      var c := LastMatch(src.credentials, CredentialIdIs(a.credentialId));
      if c.Some? && c.value.status == "active" then c else None
  }

  lemma ScopedIsScan(src: Source, catalog: Catalog, providerType: string, scopeType: string, scopeId: string)
    requires ColonFree(providerType) && ColonFree(scopeType) && AssignmentKindsColonFree(src.assignments)
    ensures ScopedCredential(Compiled(src, catalog), providerType, scopeType, scopeId)
         == ScanScoped(src, providerType, scopeType, scopeId)
  {
    AssignmentIndex(src, catalog, providerType, scopeType, scopeId);
    var a := LastMatch(src.assignments, AssignmentTo(providerType, scopeType, scopeId));
    if a.Some? {
      var id := a.value.credentialId;
      IndexIsLastMatch(src.credentials, HasCredentialId(), CredentialId(), Same(), id);
      LastMatchSame(src.credentials, Matches(HasCredentialId(), CredentialId(), id), CredentialIdIs(id));
    }
  }

  /** The key's own assignment comes before its project's, and that before its organization's. */
  lemma AssignedIsScan(src: Source, catalog: Catalog, providerType: string, key: ApiKey)
    requires ColonFree(providerType) && AssignmentKindsColonFree(src.assignments)
    ensures var own, project, org, r := ScanScoped(src, providerType, "api_key", key.id),
                                        ScanScoped(src, providerType, "project", key.projectId),
                                        ScanScoped(src, providerType, "organization", key.organizationId),
                                        AssignedFor(Compiled(src, catalog), providerType, key);
            && (own.Some? ==> r == Found(own.value))
            && (own.None? && project.Some? ==> r == Found(project.value))
            && (own.None? && project.None? && org.Some? ==> r == Found(org.value))
            && (own.None? && project.None? && org.None? ==> r == NoCredential)
  {
    assert ColonFree("api_key") && ColonFree("project") && ColonFree("organization");
    ScopedIsScan(src, catalog, providerType, "api_key", key.id);
    ScopedIsScan(src, catalog, providerType, "project", key.projectId);
    ScopedIsScan(src, catalog, providerType, "organization", key.organizationId);
  }

  function EnabledMcp(o: string, alias: string): McpBackend -> bool {
    (b: McpBackend) => b.id != "" && b.organizationId == o != "" && b.alias == alias != "" && b.enabled
  }

  function NamedMcp(id: string): McpBackend -> bool {
    (b: McpBackend) => b.id == id != "" && b.organizationId != "" && b.alias != ""
  }

  /** An alias leads to the last enabled backend of the organization under it, in the last version of its id. */
  lemma McpIsScan(src: Source, catalog: Catalog, o: string, alias: string)
    requires ColonFree(o) && forall b <- src.mcpBackends :: ColonFree(b.organizationId)
    ensures LookupMcpBackend(Compiled(src, catalog), o, alias) ==
            match LastMatch(src.mcpBackends, EnabledMcp(o, alias))
            case None => None
            case Some(row) =>
              var b := LastMatch(src.mcpBackends, NamedMcp(row.id));
              if b.Some? && b.value.enabled then b else None
  {
    var p := Matches(McpRoutable(), McpKey(), Key2(o, alias));
    IndexIsLastMatch(src.mcpBackends, McpRoutable(), McpKey(), McpId(), Key2(o, alias));
    forall b <- src.mcpBackends ensures p(b) == EnabledMcp(o, alias)(b) {
      Key2Injective(b.organizationId, b.alias, o, alias);
      assert McpUsable()(b) <==> b.id != "" && b.organizationId != "" && b.alias != "";
    }
    LastMatchSame(src.mcpBackends, p, EnabledMcp(o, alias));
    var row := LastMatch(src.mcpBackends, EnabledMcp(o, alias));
    if row.Some? {
      var id := row.value.id;
      IndexIsLastMatch(src.mcpBackends, McpUsable(), McpId(), Same(), id);
      LastMatchSame(src.mcpBackends, Matches(McpUsable(), McpId(), id), NamedMcp(id));
    }
  }

  function EnabledA2a(o: string, alias: string): A2aAgent -> bool {
    (a: A2aAgent) => a.id != "" && a.organizationId == o != "" && a.alias == alias != "" && a.enabled
  }

  function NamedA2a(id: string): A2aAgent -> bool {
    (a: A2aAgent) => a.id == id != "" && a.organizationId != "" && a.alias != ""
  }

  lemma A2aIsScan(src: Source, catalog: Catalog, o: string, alias: string)
    requires ColonFree(o) && forall a <- src.a2aAgents :: ColonFree(a.organizationId)
    ensures LookupA2aAgent(Compiled(src, catalog), o, alias) ==
            match LastMatch(src.a2aAgents, EnabledA2a(o, alias))
            case None => None
            case Some(row) =>
              var a := LastMatch(src.a2aAgents, NamedA2a(row.id));
              if a.Some? && a.value.enabled then a else None
  {
    var p := Matches(A2aRoutable(), A2aKey(), Key2(o, alias));
    IndexIsLastMatch(src.a2aAgents, A2aRoutable(), A2aKey(), A2aId(), Key2(o, alias));
    forall a <- src.a2aAgents ensures p(a) == EnabledA2a(o, alias)(a) {
      Key2Injective(a.organizationId, a.alias, o, alias);
      assert A2aUsable()(a) <==> a.id != "" && a.organizationId != "" && a.alias != "";
    }
    LastMatchSame(src.a2aAgents, p, EnabledA2a(o, alias));
    var row := LastMatch(src.a2aAgents, EnabledA2a(o, alias));
    if row.Some? {
      var id := row.value.id;
      IndexIsLastMatch(src.a2aAgents, A2aUsable(), A2aId(), Same(), id);
      LastMatchSame(src.a2aAgents, Matches(A2aUsable(), A2aId(), id), NamedA2a(id));
    }
  }

  /** A route's own retries, or those of its organization; stores by organization; the lists as they are. */
  lemma SettingsAre(src: Source, catalog: Catalog, route: Route, o: string)
    requires o != "" && route.organizationId == o
    ensures ResolveRetry(Compiled(src, catalog), route) ==
            if route.retry.Some? then route.retry
            else if o in src.defaultRetries then Some(src.defaultRetries[o]) else None
    ensures ResolveObjectStore(Compiled(src, catalog), o) ==
            if o in src.objectStores then Some(src.objectStores[o]) else None
    ensures var s := Compiled(src, catalog);
            s.quotas == src.quotas && s.policies == src.policies && s.wasmHooks == src.wasmHooks
  {
  }
}
