/**
 Federation pull-sync as a transition system. A regional control plane copies the hub's tables with a revision
 cursor: an export reads the revision and then each table on its own, an apply writes each table and then the cursor,
 and anything may fail or crash in between while the hub keeps changing.
 */
module Federation {
  import opened Collections
  import opened Snapshot
  import opened Regions
  import opened Runs

  /** The hub as one region's export sees it; pending counts mutations whose revision bump is still to come. */
  datatype Hub = Hub(memberships: seq<Membership>, overlays: seq<Overlay>, snapshot: Option<Snapshot>,
                     revision: nat, pending: nat)

  datatype SyncState = SyncState(cursor: int, failed: bool)

  /** The regional control plane: replaced tables, the latest local snapshot, and the sync row of this region. */
  datatype Regional = Regional(memberships: seq<Membership>, overlays: seq<Overlay>, snapshot: Option<Snapshot>,
                               versions: nat, sync: Option<SyncState>)

  /** None means unchanged; Some, the empty list included, means replace. */
  datatype RegionExport = RegionExport(revision: nat, memberships: Option<seq<Membership>>,
                                       overlays: Option<seq<Overlay>>, snapshot: Option<Snapshot>)

  datatype Puller =
    | Idle
    | Requested(since: int)
    | RevisionRead(since: int, revision: nat)
    | MembershipsRead(since: int, revision: nat, memberships: seq<Membership>)
    | OverlaysRead(since: int, revision: nat, memberships: seq<Membership>, overlays: seq<Overlay>)
    | Applying(since: int, exp: RegionExport, stage: nat)
    | Failed(since: int)

  datatype State = State(hub: Hub, regional: Regional, puller: Puller)

  /** A missing sync row counts as cursor 0. */
  function Cursor(r: Regional): int {
    if r.sync.None? then 0 else r.sync.value.cursor
  }

  predicate SkipsSince(since: int, revision: nat) {
    since > 0 && since >= revision
  }

  // ----- steps of the hub

  ghost predicate HubMutates(h: Hub, h': Hub) {
    h'.revision == h.revision && h'.pending == h.pending + 1
  }

  ghost predicate HubBumps(h: Hub, h': Hub) {
    && h' == h.(revision := h'.revision, pending := h'.pending)
    && h'.revision == h.revision + 1
    && (h'.pending == h.pending || h'.pending + 1 == h.pending)
  }

  // ----- steps of the puller

  /** The local store numbers snapshots itself. */
  function PutSnapshot(r: Regional, snap: Snapshot): Regional {
    r.(snapshot := Some(snap.(version := r.versions)), versions := r.versions + 1)
  }

  function ReplaceMemberships(r: Regional, rows: Option<seq<Membership>>): Regional {
    if rows.Some? then r.(memberships := rows.value) else r
  }

  function ReplaceOverlays(r: Regional, rows: Option<seq<Overlay>>): Regional {
    if rows.Some? then r.(overlays := rows.value) else r
  }

  function ReplaceSnapshot(r: Regional, snap: Option<Snapshot>): Regional {
    if snap.Some? then PutSnapshot(r, snap.value) else r
  }

  const ENSURE_REGION := 0
  const MEMBERSHIPS := 1
  const OVERLAYS := 2
  const SNAPSHOT := 3
  const CURSOR := 4

  /** The write of one apply stage. */
  function ApplyStage(r: Regional, exp: RegionExport, stage: nat): Regional {
    if stage == MEMBERSHIPS then ReplaceMemberships(r, exp.memberships)
    else if stage == OVERLAYS then ReplaceOverlays(r, exp.overlays)
    else if stage == SNAPSHOT then ReplaceSnapshot(r, exp.snapshot)
    else if stage == CURSOR then r.(sync := Some(SyncState(exp.revision, false)))
    else r
  }

  /**
   A failed stage may leave any rows behind in the table it was replacing, but only there. Unacknowledged writes of the
   cursor take effect and report an error all the same.
   */
  ghost predicate StageBreaks(unacknowledged: bool, r: Regional, r': Regional, exp: RegionExport, stage: nat) {
    || r' == r
    || (unacknowledged && stage == CURSOR && r' == ApplyStage(r, exp, CURSOR))
    || (stage == MEMBERSHIPS && exp.memberships.Some? && r' == r.(memberships := r'.memberships))
    || (stage == OVERLAYS && exp.overlays.Some? && r' == r.(overlays := r'.overlays))
    || (stage == SNAPSHOT && exp.snapshot.Some? && r' == r.(snapshot := r'.snapshot, versions := r'.versions))
  }

  ghost predicate ExportSteps(s: State, t: State) {
    && t.hub == s.hub && t.regional == s.regional
    && match s.puller
       case Idle => t.puller == Requested(Cursor(s.regional))
       case Requested(since) => t.puller == RevisionRead(since, s.hub.revision)
       case RevisionRead(since, rev) =>
         if SkipsSince(since, rev) then t.puller == Applying(since, RegionExport(rev, None, None, None), ENSURE_REGION)
         else t.puller == MembershipsRead(since, rev, s.hub.memberships)
       case MembershipsRead(since, rev, mems) => t.puller == OverlaysRead(since, rev, mems, s.hub.overlays)
       case OverlaysRead(since, rev, mems, ovs) =>
         t.puller == Applying(since, RegionExport(rev, Some(mems), Some(ovs), s.hub.snapshot), ENSURE_REGION)
       case _ => false
  }

  ghost predicate ApplySteps(unacknowledged: bool, s: State, t: State) {
    && t.hub == s.hub
    && s.puller.Applying?
    && var Applying(since, exp, stage) := s.puller;
       || (stage <= CURSOR && t.regional == ApplyStage(s.regional, exp, stage)
           && t.puller == if stage == CURSOR then Idle else Applying(since, exp, stage + 1))
       || (t.puller == Failed(since) && StageBreaks(unacknowledged, s.regional, t.regional, exp, stage))
  }

  ghost predicate FailureRecorded(s: State, t: State) {
    && t.hub == s.hub && s.puller.Failed? && t.puller == Idle
    && t.regional == s.regional.(sync := Some(SyncState(s.puller.since, true)))
  }

  /** An export that fails, a failure that cannot be recorded, a process that dies: the round is forgotten. */
  ghost predicate RoundAbandoned(s: State, t: State) {
    t == s.(puller := Idle)
  }

  ghost predicate Next(unacknowledged: bool, s: State, t: State) {
    || (t == s.(hub := t.hub) && (HubMutates(s.hub, t.hub) || HubBumps(s.hub, t.hub)))
    || ExportSteps(s, t)
    || ApplySteps(unacknowledged, s, t)
    || FailureRecorded(s, t)
    || RoundAbandoned(s, t)
  }

  ghost predicate Init(s: State) {
    s.regional.sync.None? && s.puller == Idle
  }

  /** The step relation, with or without unacknowledged cursor writes. */
  ghost function Step(unacknowledged: bool): (State, State) -> bool {
    (s, t) => Next(unacknowledged, s, t)
  }

  // ----- the invariant

  /** Grows with every mutation and never shrinks: a bump only moves one from pending to the revision. */
  function Epoch(h: Hub): nat {
    h.revision + h.pending
  }

  ghost predicate SameContent(a: Snapshot, b: Snapshot) {
    a.(version := 0) == b.(version := 0)
  }

  /** The hub's snapshot, when it has one, is the regional one up to the local version. */
  ghost predicate SnapshotCarried(hub: Option<Snapshot>, regional: Option<Snapshot>) {
    hub.Some? ==> regional.Some? && SameContent(hub.value, regional.value)
  }

  ghost predicate InSync(h: Hub, r: Regional) {
    r.memberships == h.memberships && r.overlays == h.overlays && SnapshotCarried(h.snapshot, r.snapshot)
  }

  /** What was read at this revision is still what the hub has, or the hub has moved past it. */
  ghost predicate Current<T>(h: Hub, revision: nat, read: T, now: T) {
    read == now || Epoch(h) > revision
  }

  ghost predicate ReadsInv(h: Hub, since: int, revision: nat) {
    && 0 <= since <= revision <= h.revision
  }

  ghost predicate PullerInv(s: State) {
    var h, r := s.hub, s.regional;
    match s.puller
    case Idle => true
    case Requested(since) => since == Cursor(r)
    case RevisionRead(since, rev) => since == Cursor(r) && ReadsInv(h, since, rev)
    case MembershipsRead(since, rev, mems) =>
      && since == Cursor(r) && ReadsInv(h, since, rev) && !SkipsSince(since, rev)
      && Current(h, rev, mems, h.memberships)
    case OverlaysRead(since, rev, mems, ovs) =>
      && since == Cursor(r) && ReadsInv(h, since, rev) && !SkipsSince(since, rev)
      && Current(h, rev, mems, h.memberships) && Current(h, rev, ovs, h.overlays)
    case Applying(since, exp, stage) =>
      && since == Cursor(r) && ReadsInv(h, since, exp.revision) && stage <= CURSOR
      && (if SkipsSince(since, exp.revision) then exp == RegionExport(exp.revision, None, None, None)
          else ApplyingInv(h, r, exp, stage))
    case Failed(since) => 0 <= since <= Cursor(r) && (since > 0 && Epoch(h) <= since ==> InSync(h, r))
  }

  ghost predicate ApplyingInv(h: Hub, r: Regional, exp: RegionExport, stage: nat) {
    && exp.memberships.Some? && exp.overlays.Some?
    && Current(h, exp.revision, exp.memberships.value, h.memberships)
    && Current(h, exp.revision, exp.overlays.value, h.overlays)
    && Current(h, exp.revision, exp.snapshot, h.snapshot)
    && (stage > MEMBERSHIPS ==> r.memberships == exp.memberships.value)
    && (stage > OVERLAYS ==> r.overlays == exp.overlays.value)
    && (stage > SNAPSHOT ==> SnapshotCarried(exp.snapshot, r.snapshot))
  }

  ghost predicate Inv(s: State) {
    && 0 <= Cursor(s.regional) <= s.hub.revision
    && (Cursor(s.regional) > 0 && Epoch(s.hub) <= Cursor(s.regional) ==> InSync(s.hub, s.regional))
    && PullerInv(s)
  }

  lemma HubStepKeepsInv(s: State, t: State)
    requires Inv(s) && t == s.(hub := t.hub) && (HubMutates(s.hub, t.hub) || HubBumps(s.hub, t.hub))
    ensures Inv(t)
  {
  }

  lemma ExportStepKeepsInv(s: State, t: State)
    requires Inv(s) && ExportSteps(s, t)
    ensures Inv(t)
  {
  }

  lemma ApplyStepKeepsInv(u: bool, s: State, t: State)
    requires Inv(s) && ApplySteps(u, s, t)
    ensures Inv(t)
    ensures Cursor(s.regional) <= Cursor(t.regional)
  {
    var Applying(since, exp, stage) := s.puller;
    if stage == SNAPSHOT && exp.snapshot.Some? {
      assert SameContent(exp.snapshot.value, exp.snapshot.value.(version := s.regional.versions));
    }
  }

  /** Where the cursor cannot fall below: a failed round may write back what it started from. */
  function Floor(s: State): int {
    if s.puller.Failed? then s.puller.since else Cursor(s.regional)
  }

  /** One step keeps the invariant; only recording a failure can move the cursor back, and never below the floor. */
  lemma StepKeepsInv(u: bool, s: State, t: State)
    requires Inv(s) && Next(u, s, t)
    ensures Inv(t)
    ensures Floor(s) <= Floor(t)
    ensures Cursor(t.regional) < Cursor(s.regional) ==> FailureRecorded(s, t)
  {
    if t == s.(hub := t.hub) && (HubMutates(s.hub, t.hub) || HubBumps(s.hub, t.hub)) {
      HubStepKeepsInv(s, t);
    } else if ExportSteps(s, t) {
      ExportStepKeepsInv(s, t);
    } else if ApplySteps(u, s, t) {
      ApplyStepKeepsInv(u, s, t);
    }
  }

  lemma {:induction false} RunKeepsInv(u: bool, run: seq<State>, i: nat)
    requires IsRun(Step(u), run) && Init(run[0]) && i < |run|
    ensures Inv(run[i])
  {
    if i > 0 {
      RunKeepsInv(u, run, i - 1);
      StepKeepsInv(u, run[i - 1], run[i]);
    }
  }

  /**
   Safety over every run: when the cursor is the hub's revision and no mutation awaits its bump, the region has
   exactly the hub's memberships and overlays, and the hub's snapshot.
   */
  lemma CaughtUpMeansInSync(u: bool, run: seq<State>, i: nat)
    requires IsRun(Step(u), run) && Init(run[0]) && i < |run|
    requires Cursor(run[i].regional) > 0 && Cursor(run[i].regional) == run[i].hub.revision && run[i].hub.pending == 0
    ensures InSync(run[i].hub, run[i].regional)
  {
    RunKeepsInv(u, run, i);
  }

  // ----- the cursor over a run

  lemma {:induction false} FloorNeverDecreases(u: bool, run: seq<State>, i: nat, j: nat)
    requires IsRun(Step(u), run) && Init(run[0]) && i <= j < |run|
    ensures 0 <= Floor(run[i]) <= Floor(run[j]) <= run[j].hub.revision
  {
    RunKeepsInv(u, run, j);
    if i < j {
      FloorNeverDecreases(u, run, i, j - 1);
      RunKeepsInv(u, run, j - 1);
      StepKeepsInv(u, run[j - 1], run[j]);
    } else {
      RunKeepsInv(u, run, i);
    }
  }

  /** Between rounds the cursor never goes back and never passes the hub's revision, whatever fails. */
  lemma RestingCursorNeverDecreases(u: bool, run: seq<State>, i: nat, j: nat)
    requires IsRun(Step(u), run) && Init(run[0]) && i <= j < |run| && run[i].puller == Idle && run[j].puller == Idle
    ensures 0 <= Cursor(run[i].regional) <= Cursor(run[j].regional) <= run[j].hub.revision
  {
    FloorNeverDecreases(u, run, i, j);
  }

  /** While every cursor write that takes effect is acknowledged, a failed round has the cursor it started from. */
  lemma {:induction false} FailedRoundKeepsCursor(run: seq<State>, i: nat)
    requires IsRun(Step(false), run) && Init(run[0]) && i < |run|
    ensures Floor(run[i]) == Cursor(run[i].regional)
  {
    if i > 0 {
      FailedRoundKeepsCursor(run, i - 1);
      RunKeepsInv(false, run, i - 1);
      assert Next(false, run[i - 1], run[i]);
    }
  }

  ghost predicate CursorMonotone(run: seq<State>) {
    forall i, j :: 0 <= i <= j < |run| ==> Cursor(run[i].regional) <= Cursor(run[j].regional)
  }

  lemma AcknowledgedCursorNeverDecreases(run: seq<State>)
    requires IsRun(Step(false), run) && Init(run[0])
    ensures CursorMonotone(run)
  {
    forall i, j | 0 <= i <= j < |run| ensures Cursor(run[i].regional) <= Cursor(run[j].regional) {
      FloorNeverDecreases(false, run, i, j);
      FailedRoundKeepsCursor(run, i);
      FailedRoundKeepsCursor(run, j);
    }
  }

  const SMALL_HUB := Hub([], [], None, 1, 0)

  function Synced(cursor: int, failed: bool): Regional {
    Regional([], [], None, 0, Some(SyncState(cursor, failed)))
  }

  /** A first round whose cursor write takes effect unacknowledged, and whose failure is then recorded. */
  const UNACKNOWLEDGED_RUN :=
    var r, exp := Regional([], [], None, 0, None), RegionExport(1, Some([]), Some([]), None);
    [State(SMALL_HUB, r, Idle), State(SMALL_HUB, r, Requested(0)), State(SMALL_HUB, r, RevisionRead(0, 1)),
     State(SMALL_HUB, r, MembershipsRead(0, 1, [])), State(SMALL_HUB, r, OverlaysRead(0, 1, [], [])),
     State(SMALL_HUB, r, Applying(0, exp, ENSURE_REGION)), State(SMALL_HUB, r, Applying(0, exp, MEMBERSHIPS)),
     State(SMALL_HUB, r, Applying(0, exp, OVERLAYS)), State(SMALL_HUB, r, Applying(0, exp, SNAPSHOT)),
     State(SMALL_HUB, r, Applying(0, exp, CURSOR)), State(SMALL_HUB, Synced(1, false), Failed(0)),
     State(SMALL_HUB, Synced(0, true), Idle)]

  lemma UnacknowledgedWriteMovesBack()
    ensures IsRun(Step(true), UNACKNOWLEDGED_RUN) && Init(UNACKNOWLEDGED_RUN[0])
    ensures Cursor(UNACKNOWLEDGED_RUN[10].regional) == 1 && Cursor(UNACKNOWLEDGED_RUN[11].regional) == 0
  {
  }

  /** The cursor never goes back within a round exactly when cursor writes are acknowledged. */
  lemma CursorNeverDecreasesIff(u: bool)
    ensures (forall run :: IsRun(Step(u), run) && Init(run[0]) ==> CursorMonotone(run)) <==> !u
  {
    if u {
      UnacknowledgedWriteMovesBack();
      assert !CursorMonotone(UNACKNOWLEDGED_RUN);
    } else {
      forall run | IsRun(Step(u), run) && Init(run[0]) ensures CursorMonotone(run) {
        AcknowledgedCursorNeverDecreases(run);
      }
    }
  }

  // ----- whole rounds

  /** The complete apply, when nothing fails. */
  function Applied(r: Regional, exp: RegionExport): Regional {
    ApplyStage(ReplaceSnapshot(ReplaceOverlays(ReplaceMemberships(r, exp.memberships), exp.overlays), exp.snapshot),
               exp, CURSOR)
  }

  ghost predicate SameTables(r: Regional, t: Regional) {
    && r.memberships == t.memberships && r.overlays == t.overlays && Cursor(r) == Cursor(t)
    && (r.snapshot.Some? <==> t.snapshot.Some?)
    && (r.snapshot.Some? ==> SameContent(r.snapshot.value, t.snapshot.value))
  }

  /** Applying an export again changes nothing but local version numbers. */
  lemma ApplyTwiceIsApplyOnce(r: Regional, exp: RegionExport)
    ensures SameTables(Applied(Applied(r, exp), exp), Applied(r, exp))
  {
    if exp.snapshot.Some? {
      assert SameContent(exp.snapshot.value.(version := r.versions), exp.snapshot.value.(version := r.versions + 1));
    }
  }

  /** The document an undisturbed hub hands out. */
  function ExportOf(h: Hub, since: int): RegionExport {
    if SkipsSince(since, h.revision) then RegionExport(h.revision, None, None, None)
    else RegionExport(h.revision, Some(h.memberships), Some(h.overlays), h.snapshot)
  }

  /** A since-skip export leaves all tables as they are; any other export brings the region in sync. */
  lemma AppliedExport(h: Hub, r: Regional, since: int)
    ensures SkipsSince(since, h.revision) ==>
              Applied(r, ExportOf(h, since)) == r.(sync := Some(SyncState(h.revision, false)))
    ensures !SkipsSince(since, h.revision) ==> InSync(h, Applied(r, ExportOf(h, since)))
    ensures Cursor(Applied(r, ExportOf(h, since))) == h.revision
  {
    if h.snapshot.Some? {
      assert SameContent(h.snapshot.value, h.snapshot.value.(version := r.versions));
    }
  }

  /** What goes wrong in one round; the broken outcomes say what is left in the table. */
  datatype Outcome<T> = Works | Breaks(left: T)

  /** An unacknowledged write takes effect and reports an error. */
  datatype CursorWrite = Written | NotWritten | Unacknowledged

  /** malformed: the export is missing, or lacks the id or the slug of its region. */
  datatype Faults = Faults(cursorRead: bool, hubExport: bool, malformed: bool, ensureRegion: bool,
                           memberships: Outcome<seq<Membership>>, overlays: Outcome<seq<Overlay>>,
                           snapshot: Outcome<Option<Snapshot>>, cursorWrite: CursorWrite, failureWrite: bool)

  /** The regional state after ApplyExport, and whether it succeeded. */
  function ApplyResult(r: Regional, exp: RegionExport, f: Faults): (Regional, bool) {
    if f.malformed || f.ensureRegion then (r, false)
    else if exp.memberships.Some? && f.memberships.Breaks? then (r.(memberships := f.memberships.left), false)
    else
      var r1 := ReplaceMemberships(r, exp.memberships);
      if exp.overlays.Some? && f.overlays.Breaks? then (r1.(overlays := f.overlays.left), false)
      else
        var r2 := ReplaceOverlays(r1, exp.overlays);
        if exp.snapshot.Some? && f.snapshot.Breaks? then (r2.(snapshot := f.snapshot.left), false)
        else
          var r3 := ReplaceSnapshot(r2, exp.snapshot);
          (if f.cursorWrite == NotWritten then r3 else ApplyStage(r3, exp, CURSOR), f.cursorWrite == Written)
  }

  /** The regional state after PullOnce. */
  function PullResult(h: Hub, r: Regional, f: Faults): Regional {
    if f.cursorRead || f.hubExport then r
    else
      var (applied, ok) := ApplyResult(r, ExportOf(h, Cursor(r)), f);
      if ok || f.failureWrite then applied else applied.(sync := Some(SyncState(Cursor(r), true)))
  }

  class RegionalStore {
    var memberships: seq<Membership>
    var overlays: seq<Overlay>
    var snapshot: Option<Snapshot>
    var versions: nat
    var sync: Option<SyncState>

    constructor ()
      ensures View() == Regional([], [], None, 0, None)
    {
      memberships, overlays, snapshot, versions, sync := [], [], None, 0, None;
    }

    function View(): Regional
      reads this
    {
      Regional(memberships, overlays, snapshot, versions, sync)
    }

    /** Writes tables in order and the cursor last; stops at the first error. */
    method ApplyExport(exp: RegionExport, f: Faults) returns (ok: bool)
      modifies this
      ensures (View(), ok) == ApplyResult(old(View()), exp, f)
    {
      if f.malformed {
        return false;
      }
      if f.ensureRegion {
        return false;
      }
      if exp.memberships.Some? {
        if f.memberships.Breaks? {
          memberships := f.memberships.left;
          return false;
        }
        memberships := exp.memberships.value;
      }
      if exp.overlays.Some? {
        if f.overlays.Breaks? {
          overlays := f.overlays.left;
          return false;
        }
        overlays := exp.overlays.value;
      }
      if exp.snapshot.Some? {
        if f.snapshot.Breaks? {
          snapshot := f.snapshot.left;
          return false;
        }
        snapshot := Some(exp.snapshot.value.(version := versions));
        versions := versions + 1;
      }
      if f.cursorWrite != NotWritten {
        sync := Some(SyncState(exp.revision, false));
      }
      return f.cursorWrite == Written;
    }

    /** One pull round against an undisturbed hub: a failed apply writes back the cursor it started from. */
    method PullOnce(hub: Hub, f: Faults) returns (ok: bool)
      modifies this
      ensures View() == PullResult(hub, old(View()), f)
      ensures ok ==> Cursor(View()) == hub.revision
      // a round fails exactly when one of the steps it comes to does
      ensures ok <==>
                var skipped := old(Cursor(View())) > 0 && old(Cursor(View())) >= hub.revision;
                && !f.cursorRead && !f.hubExport && !f.malformed && !f.ensureRegion && f.cursorWrite == Written
                && (!skipped ==>
                      f.memberships.Works? && f.overlays.Works? && (hub.snapshot.Some? ==> f.snapshot.Works?))
      // success and recorded failures are told apart
      ensures ok ==> sync == Some(SyncState(hub.revision, false))
      ensures !ok && !f.cursorRead && !f.hubExport && !f.failureWrite ==>
                sync == Some(SyncState(old(Cursor(View())), true))
      // a failed round keeps the cursor, unless its write was unacknowledged and the failure is not recorded either
      ensures !ok && !(f.cursorWrite == Unacknowledged && f.failureWrite) ==> Cursor(View()) == old(Cursor(View()))
    {
      if f.cursorRead {
        return false;
      }
      var since := if sync.Some? then sync.value.cursor else 0;
      if f.hubExport {
        return false;
      }
      var exp := BuildRegionExport(hub, since);
      ok := ApplyExport(exp, f);
      if !ok && !f.failureWrite {
        sync := Some(SyncState(since, true));
      }
    }
  }

  /** Reads the revision before any table. */
  method BuildRegionExport(hub: Hub, since: int) returns (exp: RegionExport)
    ensures exp == ExportOf(hub, since)
  {
    exp := RegionExport(hub.revision, None, None, None);
    if since > 0 && since >= hub.revision {
      return;
    }
    exp := exp.(memberships := Some(hub.memberships));
    exp := exp.(overlays := Some(hub.overlays));
    if hub.snapshot.Some? {
      exp := exp.(snapshot := hub.snapshot);
    }
  }

  // ----- the methods are runs of the transition system

  /** The export of an undisturbed hub, as export steps. */
  lemma ExportIsRun(u: bool, h: Hub, r: Regional)
    ensures var since := Cursor(r);
            Reaches(Step(u), State(h, r, Idle), State(h, r, Applying(since, ExportOf(h, since), ENSURE_REGION)))
  {
    var s, since, rev := State(h, r, Idle), Cursor(r), h.revision;
    ReachesSelf(Step(u), s);
    ReachesStep(Step(u), s, s, State(h, r, Requested(since)));
    ReachesStep(Step(u), s, State(h, r, Requested(since)), State(h, r, RevisionRead(since, rev)));
    if SkipsSince(since, rev) {
      ReachesStep(Step(u), s, State(h, r, RevisionRead(since, rev)),
                  State(h, r, Applying(since, ExportOf(h, since), ENSURE_REGION)));
    } else {
      ReachesStep(Step(u), s, State(h, r, RevisionRead(since, rev)),
                  State(h, r, MembershipsRead(since, rev, h.memberships)));
      ReachesStep(Step(u), s, State(h, r, MembershipsRead(since, rev, h.memberships)),
                  State(h, r, OverlaysRead(since, rev, h.memberships, h.overlays)));
      ReachesStep(Step(u), s, State(h, r, OverlaysRead(since, rev, h.memberships, h.overlays)),
                  State(h, r, Applying(since, ExportOf(h, since), ENSURE_REGION)));
    }
  }

  function AfterStages(r: Regional, exp: RegionExport, stage: nat): Regional {
    if stage == 0 then r else ApplyStage(AfterStages(r, exp, stage - 1), exp, stage - 1)
  }

  lemma {:induction false} StagesAreRun(u: bool, s: State, h: Hub, r: Regional,
                                        since: int, exp: RegionExport, stage: nat)
    requires stage <= CURSOR && Reaches(Step(u), s, State(h, r, Applying(since, exp, ENSURE_REGION)))
    ensures Reaches(Step(u), s, State(h, AfterStages(r, exp, stage), Applying(since, exp, stage)))
  {
    if stage > 0 {
      StagesAreRun(u, s, h, r, since, exp, stage - 1);
      ReachesStep(Step(u), s, State(h, AfterStages(r, exp, stage - 1), Applying(since, exp, stage - 1)),
                  State(h, AfterStages(r, exp, stage), Applying(since, exp, stage)));
    }
  }

  /** The stage at which the faults stop an apply; past the last one when nothing stops it. */
  function StoppedAt(exp: RegionExport, f: Faults): nat {
    if f.malformed || f.ensureRegion then ENSURE_REGION
    else if exp.memberships.Some? && f.memberships.Breaks? then MEMBERSHIPS
    else if exp.overlays.Some? && f.overlays.Breaks? then OVERLAYS
    else if exp.snapshot.Some? && f.snapshot.Breaks? then SNAPSHOT
    else if f.cursorWrite != Written then CURSOR
    else CURSOR + 1
  }

  lemma StagesUnrolled(r: Regional, exp: RegionExport)
    ensures AfterStages(r, exp, 1) == r
    ensures AfterStages(r, exp, 2) == ReplaceMemberships(r, exp.memberships)
    ensures AfterStages(r, exp, 3) == ReplaceOverlays(AfterStages(r, exp, 2), exp.overlays)
    ensures AfterStages(r, exp, 4) == ReplaceSnapshot(AfterStages(r, exp, 3), exp.snapshot)
  {
    assert AfterStages(r, exp, 1) == ApplyStage(r, exp, 0);
    assert AfterStages(r, exp, 2) == ApplyStage(AfterStages(r, exp, 1), exp, 1);
    assert AfterStages(r, exp, 3) == ApplyStage(AfterStages(r, exp, 2), exp, 2);
    assert AfterStages(r, exp, 4) == ApplyStage(AfterStages(r, exp, 3), exp, 3);
  }

  /** Every pull round, whatever fails in it, is a run of the transition system. */
  lemma PullIsRun(u: bool, h: Hub, r: Regional, f: Faults)
    requires f.cursorWrite == Unacknowledged ==> u
    ensures Reaches(Step(u), State(h, r, Idle), State(h, PullResult(h, r, f), Idle))
  {
    var s, since := State(h, r, Idle), Cursor(r);
    var exp := ExportOf(h, since);
    if f.cursorRead || f.hubExport {
      ReachesSelf(Step(u), s);
    } else {
      ExportIsRun(u, h, r);
      StagesUnrolled(r, exp);
      var stage := StoppedAt(exp, f);
      var (applied, ok) := ApplyResult(r, exp, f);
      if ok {
        StagesAreRun(u, s, h, r, since, exp, CURSOR);
        ReachesStep(Step(u), s, State(h, AfterStages(r, exp, CURSOR), Applying(since, exp, CURSOR)),
                    State(h, applied, Idle));
      } else {
        StagesAreRun(u, s, h, r, since, exp, stage);
        ReachesStep(Step(u), s, State(h, AfterStages(r, exp, stage), Applying(since, exp, stage)),
                    State(h, applied, Failed(since)));
        ReachesStep(Step(u), s, State(h, applied, Failed(since)), State(h, PullResult(h, r, f), Idle));
      }
    }
  }

  /**
   A failed round keeps the cursor exactly when it does not both write it unacknowledged and fail to record the failure,
   or had nothing to catch up with.
   */
  lemma FailedPullKeepsCursorIff(h: Hub, r: Regional, f: Faults)
    requires f.cursorRead || f.hubExport || !ApplyResult(r, ExportOf(h, Cursor(r)), f).1
    ensures Cursor(PullResult(h, r, f)) == Cursor(r) <==>
            !(!f.cursorRead && !f.hubExport && StoppedAt(ExportOf(h, Cursor(r)), f) == CURSOR &&
              f.cursorWrite == Unacknowledged && f.failureWrite) ||
            h.revision == Cursor(r)
  {
  }

  /** From any reachable state at rest, one undisturbed round without faults brings the region in sync. */
  lemma UndisturbedRoundSyncs(u: bool, run: seq<State>, f: Faults)
    requires IsRun(Step(u), run) && Init(run[0])
    requires var last := run[|run| - 1]; last.puller == Idle && last.hub.pending == 0
    requires f == Faults(false, false, false, false, Works, Works, Works, Written, false)
    ensures var last := run[|run| - 1];
            && InSync(last.hub, PullResult(last.hub, last.regional, f))
            && Cursor(PullResult(last.hub, last.regional, f)) == last.hub.revision
  {
    var last := run[|run| - 1];
    RunKeepsInv(u, run, |run| - 1);
    AppliedExport(last.hub, last.regional, Cursor(last.regional));
  }

  // ----- the object prefix

  ghost predicate OnlySlashes(s: string) {
    forall k :: 0 <= k < |s| ==> s[k] == '/'
  }

  /** Strips slashes from both ends; an empty rest becomes "snapshots". */
  method TrimObjectPrefix(prefix: string) returns (r: string)
    ensures OnlySlashes(prefix) ==> r == "snapshots"
    ensures !OnlySlashes(prefix) ==>
              r != "" && r[0] != '/' && r[|r| - 1] != '/'
              && exists i, j :: 0 <= i <= j <= |prefix| && r == prefix[i..j]
                                && OnlySlashes(prefix[..i]) && OnlySlashes(prefix[j..])
  {
    var i, j := 0, |prefix|;
    while i < j && (prefix[i] == '/' || prefix[j - 1] == '/')
      invariant 0 <= i <= j <= |prefix|
      invariant OnlySlashes(prefix[..i]) && OnlySlashes(prefix[j..])
      decreases j - i
    {
      if prefix[i] == '/' {
        i := i + 1;
      }
      if i < j && prefix[j - 1] == '/' {
        j := j - 1;
      }
    }
    assert forall k :: j <= k < |prefix| ==> prefix[k] == prefix[j..][k - j];
    assert forall k :: 0 <= k < i ==> prefix[k] == prefix[..i][k];
    r := prefix[i..j];
    if r == "" {
      r := "snapshots";
    }
  }
}
