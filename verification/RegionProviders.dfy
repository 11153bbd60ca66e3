/**
 Where a region's providers come from, and what that means for the attempts of a route.
 */
module RegionProviders {
  import opened Collections
  import opened Strings
  import opened Snapshot
  import opened Regions
  import opened Attempts
  import opened RegionPreservation

  // ----- where the region's providers come from

  /** A provider with the organization whose overlay contributes it, None for the base. */
  datatype Sourced = Sourced(owner: Option<string>, provider: Provider)

  function FromBase(): Provider -> Sourced {
    (p: Provider) => Sourced(None, p)
  }

  function FromOverlay(org: string): Provider -> Sourced {
    (p: Provider) => Sourced(Some(org), p)
  }

  function OverlaySourced(): Overlay -> seq<Sourced> {
    (ov: Overlay) => Map(ov.payload.providers, FromOverlay(ov.organizationId))
  }

  function SourcedIs(id: string): Sourced -> bool {
    (x: Sourced) => x.provider.id == id
  }

  /** The provider pool with everybody's contribution marked. */
  function SourcedPool(base: Source, overlays: seq<Overlay>): seq<Sourced> {
    Map(base.providers, FromBase()) + FlatMap(overlays, OverlaySourced())
  }

  function Defines(id: string): Overlay -> bool {
    (ov: Overlay) => LastMatch(ov.payload.providers, ProviderIs(id)).Some?
  }

  /** Marking a list of providers does not change which one is last. */
  lemma {:induction false} LastMarked(ps: seq<Provider>, mark: Provider -> Sourced, xs: seq<Sourced>, id: string)
    requires |xs| == |ps| && forall i :: 0 <= i < |ps| ==> xs[i] == mark(ps[i]) && mark(ps[i]).provider == ps[i]
    ensures var p, x := LastMatch(ps, ProviderIs(id)), LastMatch(xs, SourcedIs(id));
            (p.Some? <==> x.Some?) && (x.Some? ==> x.value == mark(p.value) && x.value.provider == p.value)
  {
    if ps != [] {
      LastMarked(ps[..|ps| - 1], mark, xs[..|xs| - 1], id);
    }
  }

  /** The last overlay to define the provider decides what the overlays contribute. */
  lemma {:induction false} LastOverlayDecides(overlays: seq<Overlay>, id: string)
    ensures var p, x := LastMatch(FlatMap(overlays, OverlayProviders()), ProviderIs(id)),
                        LastMatch(FlatMap(overlays, OverlaySourced()), SourcedIs(id));
            var ov := LastMatch(overlays, Defines(id));
            (p.Some? <==> x.Some?) && (x.Some? <==> ov.Some?) &&
            (x.Some? ==> x.value.provider == p.value && x.value.owner == Some(ov.value.organizationId))
  {
    if overlays != [] {
      var rest, ov := overlays[..|overlays| - 1], overlays[|overlays| - 1];
      LastOverlayDecides(rest, id);
      LastMatchConcat(FlatMap(rest, OverlayProviders()), ov.payload.providers, ProviderIs(id));
      LastMatchConcat(FlatMap(rest, OverlaySourced()), OverlaySourced()(ov), SourcedIs(id));
      LastMarked(ov.payload.providers, FromOverlay(ov.organizationId), OverlaySourced()(ov), id);
    }
  }

  lemma PoolIsMarked(base: Source, overlays: seq<Overlay>, id: string)
    ensures var p, x := LastMatch(ProviderPool(base, overlays), ProviderIs(id)),
                        LastMatch(SourcedPool(base, overlays), SourcedIs(id));
            var ov := LastMatch(overlays, Defines(id));
            (p.Some? <==> x.Some?) && (x.Some? ==> x.value.provider == p.value) &&
            (x.Some? ==> x.value.owner == if ov.Some? then Some(ov.value.organizationId) else None)
  {
    LastMarked(base.providers, FromBase(), Map(base.providers, FromBase()), id);
    LastOverlayDecides(overlays, id);
    LastMatchConcat(base.providers, FlatMap(overlays, OverlayProviders()), ProviderIs(id));
    LastMatchConcat(Map(base.providers, FromBase()), FlatMap(overlays, OverlaySourced()), SourcedIs(id));
  }

  predicate IsOwn(owner: Option<string>, allowed: seq<string>) {
    owner.None? || owner.value in allowed
  }

  /** No overlay of an unbound organization is the last to define the provider. */
  predicate LastDefinedByOwn(overlays: seq<Overlay>, allowed: seq<string>, id: string) {
    var ov := LastMatch(overlays, Defines(id));
    ov.None? || ov.value.organizationId in allowed
  }

  /**
   A provider that bound organizations refer to is in the region in the pool's last version. That comes from the base
   or from a bound organization exactly when no unbound organization's overlay is the last to define it.
   */
  lemma ProviderOriginIff(base: Source, memberships: seq<Membership>, overlays: seq<Overlay>,
                          src: Source, allowed: seq<string>, catalog: Catalog, id: string)
    requires IsRegionSource(base, memberships, overlays, src, allowed)
    requires id in NeededProviders(allowed, Slices(base, overlays))
    ensures var x := LastMatch(SourcedPool(base, overlays), SourcedIs(id));
            Get(Regional(src, catalog, allowed).providers, id)
            == (if x.Some? then Some(Normalized(catalog)(x.value.provider)) else None) &&
            (x.Some? ==> (IsOwn(x.value.owner, allowed) <==> LastDefinedByOwn(overlays, allowed, id)))
  {
    RegionHasPoolProvider(base, memberships, overlays, src, allowed, catalog, id);
    PoolIsMarked(base, overlays, id);
  }

  lemma RegionHasPoolProvider(base: Source, memberships: seq<Membership>, overlays: seq<Overlay>,
                              src: Source, allowed: seq<string>, catalog: Catalog, id: string)
    requires IsRegionSource(base, memberships, overlays, src, allowed)
    requires id in NeededProviders(allowed, Slices(base, overlays))
    ensures Get(Regional(src, catalog, allowed).providers, id) ==
            ScanProvider(ProviderPool(base, overlays), catalog, id)
  {
    ProviderIndex(src, catalog, id);
    SelectedProvider(src.providers, ProviderPool(base, overlays), NeededProviders(allowed, Slices(base, overlays)),
                     catalog, id);
  }

  lemma SharedOverlayDecides(caps: ProviderCapabilities)
    ensures LastMatch(ProviderPool(SharedBase(caps), [SharedOverlay(caps)]), ProviderIs("p1"))
            == Some(SharedProvider(caps, "https://b"))
  {
    var q := SharedProvider(caps, "https://b");
    assert FlatMap([SharedOverlay(caps)], OverlayProviders()) == [] + [q] == [q] by {
      assert [SharedOverlay(caps)][..0] == [];
    }
    LastMatchConcat(SharedBase(caps).providers, [q], ProviderIs("p1"));
    assert LastMatch([q], ProviderIs("p1")) == Some(q);
  }

  lemma OrgBIsUnbound(members: seq<Membership>)
    requires members == [Membership("org_a", "eu", MEMBERSHIP_ACTIVE)]
    ensures "org_b" !in ActiveOrgs(members)
  {
    OnlyOrgAIsBound(members);
    assert "org_b"[4] != "org_a"[4];
  }

  /** It happens: organization b is not bound, and its overlay's provider serves organization a. */
  lemma UnboundOverlayProviderIsPresent(catalog: Catalog, caps: ProviderCapabilities, members: seq<Membership>,
                                        src: Source, allowed: seq<string>)
    requires members == [Membership("org_a", "eu", MEMBERSHIP_ACTIVE)]
    requires IsRegionSource(SharedBase(caps), members, [SharedOverlay(caps)], src, allowed)
    ensures "org_b" !in allowed
    ensures Get(Regional(src, catalog, allowed).providers, "p1")
            == Some(Normalized(catalog)(SharedProvider(caps, "https://b")))
  {
    OrgBIsUnbound(members);
    SharedRouteIsInherited(caps, members);
    NeededProviderPreserved(SharedBase(caps), members, [SharedOverlay(caps)], src, allowed, catalog, "org_a",
                            SharedRoute(), "p1");
    ProviderIndex(src, catalog, "p1");
    SharedOverlayDecides(caps);
  }

  /** The region holds no provider that nobody bound there mentions or defines. */
  lemma NoStrayProviders(base: Source, memberships: seq<Membership>, overlays: seq<Overlay>, src: Source,
                         allowed: seq<string>, catalog: Catalog, id: string)
    requires IsRegionSource(base, memberships, overlays, src, allowed)
    requires id in Regional(src, catalog, allowed).providers
    ensures (exists r :: r in src.routes && Mentions(r, r.providerId, id)) ||
            (exists ov, p :: ov in overlays && ov.organizationId in allowed && p in ov.payload.providers && p.id == id)
  {
    var slice := Slices(base, overlays);
    ProviderIndex(src, catalog, id);
    NeededProvidersOf(allowed, slice, id);
    var o :| o in allowed && id in ReferencedProviders(slice(o));
    StrayOfSlice(base, overlays, o, id);
    if r :| r in slice(o).routes && Mentions(r, r.providerId, id) {
      assert r in RouteSlices(slice)(o);
    }
  }

  lemma StrayOfSlice(base: Source, overlays: seq<Overlay>, o: string, id: string)
    requires id in ReferencedProviders(EffectiveSlice(base, overlays, o))
    ensures (exists r :: r in EffectiveSlice(base, overlays, o).routes && Mentions(r, r.providerId, id)) ||
            (exists ov, p :: ov in overlays && ov.organizationId == o && p in ov.payload.providers && p.id == id)
  {
    var slice, last := EffectiveSlice(base, overlays, o), LastMatch(overlays, OfOrg(OverlayOrg(), o));
    if p :| p in slice.providers && p.id == id {
      assert last.Some? && last.value in overlays && last.value.organizationId == o;
      assert p in last.value.payload.providers;
    } else if r :| r in slice.routes && r.providerId == id {
      assert Mentions(r, r.providerId, id);
    } else {
      var r, f :| r in slice.routes && f in r.fallbacks && f.providerId == id;
      assert Mentions(r, r.providerId, id);
    }
  }

  // ----- attempts

  lemma CompiledIsFiled(src: Source, catalog: Catalog, s: Snapshot)
    requires s.providers == Compiled(src, catalog).providers
    ensures FiledById(s)
  {
    forall id <- s.providers ensures s.providers[id].id == id {
      ProviderIndex(src, catalog, id);
    }
  }

  lemma MentionedProviderPreservedIff(base: Source, memberships: seq<Membership>, overlays: seq<Overlay>, src: Source,
                                      allowed: seq<string>, catalog: Catalog, o: string, r: Route, id: string)
    requires IsRegionSource(base, memberships, overlays, src, allowed) && Inherits(memberships, overlays, o)
    requires r in base.routes && r.organizationId == o && Mentions(r, r.providerId, id)
    ensures Get(Regional(src, catalog, allowed).providers, id) == Get(Compiled(base, catalog).providers, id)
            <==> OverlaysKeepProvider(base, overlays, catalog, id)
  {
    NeededProviderPreserved(base, memberships, overlays, src, allowed, catalog, o, r, id);
    PoolProvider(base, overlays, catalog, id);
    ProviderIndex(src, catalog, id);
    ProviderIndex(base, catalog, id);
  }

  /** The overlays leave the provider a model's route leads to, and, if there is one, those of its fallbacks. */
  ghost predicate OverlaysKeepAttempts(base: Source, overlays: seq<Overlay>, catalog: Catalog, o: string,
                                       model: string) {
    var row := LastMatch(base.routes, RouteOf(o, model));
    row.Some? ==>
      var r := row.value;
      OverlaysKeepProvider(base, overlays, catalog, r.providerId) &&
      (ScanProvider(base.providers, catalog, r.providerId).Some? ==>
         forall id :: Mentions(r, r.providerId, id) ==> OverlaysKeepProvider(base, overlays, catalog, id))
  }

  /** With a row for the model: each side's attempts start from the provider it has itself. */
  lemma RowAttemptsPreservedIff(base: Source, memberships: seq<Membership>, overlays: seq<Overlay>, src: Source,
                                allowed: seq<string>, catalog: Catalog, o: string, r: Route, p: Provider, q: Provider,
                                order: Order)
    requires IsRegionSource(base, memberships, overlays, src, allowed) && Inherits(memberships, overlays, o)
    requires OnlyPermutes(order) && r in base.routes && r.organizationId == o
    requires Get(Regional(src, catalog, allowed).providers, r.providerId) == Some(p)
    requires Get(Compiled(base, catalog).providers, r.providerId) == Some(q)
    ensures AttemptsFor(Regional(src, catalog, allowed), r, p, AnyProvider(), order)
            == AttemptsFor(Compiled(base, catalog), r, q, AnyProvider(), order)
            <==> forall id :: Mentions(r, r.providerId, id) ==> OverlaysKeepProvider(base, overlays, catalog, id)
  {
    var s, g := Regional(src, catalog, allowed), Compiled(base, catalog);
    CompiledIsFiled(src, catalog, s);
    CompiledIsFiled(base, catalog, g);
    assert p.id == q.id == r.providerId;
    SameAttemptsIff(s, g, r, p, q, order);
    forall id | Mentions(r, r.providerId, id)
      ensures Get(s.providers, id) == Get(g.providers, id) <==> OverlaysKeepProvider(base, overlays, catalog, id)
    {
      MentionedProviderPreservedIff(base, memberships, overlays, src, allowed, catalog, o, r, id);
    }
  }

  /** Both sides look up the same row, each with its own provider. */
  lemma LookupsOfRow(base: Source, memberships: seq<Membership>, overlays: seq<Overlay>, src: Source,
                     allowed: seq<string>, catalog: Catalog, o: string, model: string)
    requires IsRegionSource(base, memberships, overlays, src, allowed) && Inherits(memberships, overlays, o)
    requires NamesColonFree(base, allowed)
    ensures LookupRoute(Regional(src, catalog, allowed), o, model) == ScanRoute(src, catalog, o, model)
    ensures LookupRoute(Compiled(base, catalog), o, model) == ScanRoute(base, catalog, o, model)
    ensures LastMatch(src.routes, RouteOf(o, model)) == LastMatch(base.routes, RouteOf(o, model))
  {
    RegionRouteOrgsColonFree(base, memberships, overlays, src, allowed);
    RouteRowPreserved(base, memberships, overlays, src, allowed, o, model);
    RegionalRouteIsCompiled(src, catalog, allowed, o, model);
    LookupRouteIsScan(src, catalog, o, model);
    LookupRouteIsScan(base, catalog, o, model);
  }

  lemma PrimaryPreservedIff(base: Source, memberships: seq<Membership>, overlays: seq<Overlay>, src: Source,
                            allowed: seq<string>, catalog: Catalog, o: string, r: Route)
    requires IsRegionSource(base, memberships, overlays, src, allowed) && Inherits(memberships, overlays, o)
    requires r in base.routes && r.organizationId == o
    ensures Get(Regional(src, catalog, allowed).providers, r.providerId)
            == ScanProvider(src.providers, catalog, r.providerId)
    ensures Get(Compiled(base, catalog).providers, r.providerId) == ScanProvider(base.providers, catalog, r.providerId)
    ensures ScanProvider(src.providers, catalog, r.providerId) == ScanProvider(base.providers, catalog, r.providerId)
            <==> OverlaysKeepProvider(base, overlays, catalog, r.providerId)
  {
    MentionedProviderPreservedIff(base, memberships, overlays, src, allowed, catalog, o, r, r.providerId);
    ProviderIndex(src, catalog, r.providerId);
    ProviderIndex(base, catalog, r.providerId);
  }

  /**
   The chat attempts for a model, each side with the route and the provider of its own lookup, are preserved exactly
   when the overlays keep the provider the route leads to and those of its fallbacks.
   */
  lemma ChatAttemptsPreservedIff(base: Source, memberships: seq<Membership>, overlays: seq<Overlay>, src: Source,
                                 allowed: seq<string>, catalog: Catalog, o: string, model: string, order: Order)
    requires IsRegionSource(base, memberships, overlays, src, allowed) && Inherits(memberships, overlays, o)
    requires NamesColonFree(base, allowed) && OnlyPermutes(order)
    ensures ChatAttempts(Regional(src, catalog, allowed), o, model, order)
            == ChatAttempts(Compiled(base, catalog), o, model, order)
            <==> OverlaysKeepAttempts(base, overlays, catalog, o, model)
  {
    LookupsOfRow(base, memberships, overlays, src, allowed, catalog, o, model);
    var row := LastMatch(base.routes, RouteOf(o, model));
    if row.Some? {
      var r := row.value;
      PrimaryPreservedIff(base, memberships, overlays, src, allowed, catalog, o, r);
      var p := ScanProvider(src.providers, catalog, r.providerId);
      var q := ScanProvider(base.providers, catalog, r.providerId);
      if p.Some? && q.Some? {
        RowAttemptsPreservedIff(base, memberships, overlays, src, allowed, catalog, o, r, p.value, q.value, order);
        assert Mentions(r, r.providerId, r.providerId);
      }
    }
  }
}
