/**
 * The project store and plan lifecycle of `ProjectsProvider`.
 *
 * The provider's React effects and callbacks become pure transitions over one immutable
 * `Store` record. The current time, fresh identifiers, the date formatter and the outcome of
 * every remote call are parameters: `fetch` answering with an OK response, a non-OK response,
 * or throwing.
 */
module ProjectsContext {
  import opened Wrappers
  import opened Seqs
  import opened Domain

  /** The session observer's tri-state status. */
  datatype Status = SessionLoading | Authenticated | Unauthenticated

  /** `session.user`, reduced to the fields the store reads. */
  datatype SessionUser = SessionUser(id: string, plan: Option<string>)

  /** The provider's state: `projects`, `userPlan`, `planExpiryDate` (milliseconds), `isLoading`, `isInitialized`. */
  datatype Store = Store(
    projects: seq<Project>,
    plan: Plan,
    expiry: Option<int>,
    isLoading: bool,
    isInitialized: bool)

  /** The state before any effect has run. */
  function Initial(): Store {
    Store([], Starter, None, true, false)
  }

  /** The three tiers `setUserPlan` accepts. */
  datatype Tier = StarterTier | ProTier | EnterpriseTier {
    function Plan(): Plan {
      match this
      case StarterTier => Starter
      case ProTier => Pro
      case EnterpriseTier => Enterprise
    }
  }

  /** Length of a guest's pro upgrade: thirty days. */
  const ProTermMs: int := 30 * MsPerDay

  /** What `addProject` receives: a project without `id` and `createdAt`. */
  datatype Draft = Draft(name: string, description: string, language: Language, code: string)

  /** Outcome of `GET /api/projects`. */
  datatype RemoteList = Listed(items: seq<Project>) | ListRejected | ListThrew

  /** Outcome of `POST /api/projects`: the saved project (with its raw `createdAt`) when OK. */
  datatype RemoteCreate = Created(saved: Project) | CreateRejected | CreateThrew

  /** Outcome of `DELETE /api/projects/{id}`. */
  datatype RemoteDelete = DeleteAccepted | DeleteRejected | DeleteThrew

  /** A non-empty local project record: it either parses as a project list or it does not. */
  datatype StoredList = Parsed(items: seq<Project>) | Unparsable

  /**
   * The guest's local records `design2code_projects`, `design2code_plan` and
   * `design2code_expiry`; `None` is an absent key (or an empty value, which the source
   * treats the same way).
   */
  datatype LocalRecords = LocalRecords(projects: Option<StoredList>, plan: Option<string>, expiry: Option<int>)

  /** Whether a mutation reached the server or only the in-memory list. */
  datatype Applied = RemoteApplied | LocalFallbackApplied

  /** The store after `addProject`/`deleteProject`, with whether a remote call was made. */
  datatype Mutation = Mutation(store: Store, remoteAttempted: bool, applied: Applied)

  /** The two stores agree on everything except the project list. */
  predicate SameSettings(a: Store, b: Store) {
    a.plan == b.plan && a.expiry == b.expiry && a.isLoading == b.isLoading && a.isInitialized == b.isInitialized
  }

  /** Session sync: when the session has a user, the plan follows the session (default `starter`). */
  function SyncSessionPlan(s: Store, user: Option<SessionUser>): (r: Store)
    ensures r.projects == s.projects && r.expiry == s.expiry
    ensures r.isLoading == s.isLoading && r.isInitialized == s.isInitialized
    ensures user.None? ==> r.plan == s.plan
    ensures user.Some? && Truthy(user.value.plan) ==> PlanName(r.plan) == user.value.plan.value
    ensures user.Some? && !Truthy(user.value.plan) ==> r.plan == Starter
  {
    match user
    case None => s
    case Some(u) => s.(plan := EffectivePlan(u.plan, Starter))
  }

  /** Every project with its `createdAt` replaced by its display form. */
  function Formatted(items: seq<Project>, format: string -> string): (r: seq<Project>)
    ensures |r| == |items|
    ensures forall i | 0 <= i < |items| :: r[i] == items[i].(createdAt := format(items[i].createdAt))
  {
    seq(|items|, i requires 0 <= i < |items| => items[i].(createdAt := format(items[i].createdAt)))
  }

  /**
   * The load effect. No load while the session is loading; an authenticated session takes
   * the remote list, a guest the local record; a failed source leaves the list alone.
   */
  function Load(s: Store, status: Status, remote: RemoteList, saved: Option<StoredList>,
                format: string -> string): (r: Store)
    ensures status == SessionLoading ==> r == s
    ensures status != SessionLoading ==> !r.isLoading && r.isInitialized
    ensures r.plan == s.plan && r.expiry == s.expiry
    ensures status == Authenticated && remote.Listed? ==>
              |r.projects| == |remote.items|
              && forall i | 0 <= i < |r.projects| ::
                   r.projects[i] == remote.items[i].(createdAt := format(remote.items[i].createdAt))
    ensures status == Authenticated && !remote.Listed? ==> r.projects == s.projects
    ensures status == Unauthenticated && saved.Some? && saved.value.Parsed? ==> r.projects == saved.value.items
    ensures status == Unauthenticated && !(saved.Some? && saved.value.Parsed?) ==> r.projects == s.projects
  {
    match status
    case SessionLoading => s
    case Authenticated =>
      var projects := if remote.Listed? then Formatted(remote.items, format) else s.projects;
      s.(projects := projects, isLoading := false, isInitialized := true)
    case Unauthenticated =>
      var projects := if saved.Some? && saved.value.Parsed? then saved.value.items else s.projects;
      s.(projects := projects, isLoading := false, isInitialized := true)
  }

  /** The guest-plan read: only for guests, each non-empty record overrides its field. */
  function ReadGuestPlan(s: Store, status: Status, records: LocalRecords): (r: Store)
    ensures status != Unauthenticated ==> r == s
    ensures r.projects == s.projects && r.isLoading == s.isLoading && r.isInitialized == s.isInitialized
    ensures status == Unauthenticated && Truthy(records.plan) ==> PlanName(r.plan) == records.plan.value
    ensures !Truthy(records.plan) ==> r.plan == s.plan
    ensures status == Unauthenticated && records.expiry.Some? ==> r.expiry == records.expiry
    ensures records.expiry.None? ==> r.expiry == s.expiry
  {
    if status != Unauthenticated then s
    else
      var plan := if Truthy(records.plan) then PlanFromName(records.plan.value) else s.plan;
      var expiry := if records.expiry.Some? then records.expiry else s.expiry;
      s.(plan := plan, expiry := expiry)
  }

  /** The guest downgrade condition of the downgrade effect. */
  predicate GuestPlanExpired(s: Store, status: Status, now: int) {
    status == Unauthenticated && s.isInitialized && s.plan != Starter && s.expiry.Some? && now > s.expiry.value
  }

  /** The downgrade effect: an expired guest plan collapses to `starter` with no expiry. */
  function Downgrade(s: Store, status: Status, now: int): (r: Store)
    ensures r.projects == s.projects && r.isLoading == s.isLoading && r.isInitialized == s.isInitialized
    ensures GuestPlanExpired(s, status, now) ==> r.plan == Starter && r.expiry == None
    ensures !GuestPlanExpired(s, status, now) ==> r == s
    ensures !GuestPlanExpired(r, status, now)
  {
    if GuestPlanExpired(s, status, now) then s.(plan := Starter, expiry := None) else s
  }

  /** The persist effect: the guest's records after it runs. */
  function Persist(s: Store, status: Status, records: LocalRecords): (r: LocalRecords)
    ensures !(status == Unauthenticated && s.isInitialized) ==> r == records
    ensures status == Unauthenticated && s.isInitialized ==>
              r.projects == Some(Parsed(s.projects))
              && r.plan == Some(PlanName(s.plan))
              && (s.expiry.None? ==> r.expiry.None?)
              && (s.expiry.Some? ==> r.expiry == s.expiry)
  {
    if status == Unauthenticated && s.isInitialized then
      LocalRecords(Some(Parsed(s.projects)), Some(PlanName(s.plan)), s.expiry)
    else records
  }

  /** The project the local fallback builds. */
  function Build(draft: Draft, id: string, createdAt: string): Project {
    Project(id, draft.name, draft.description, draft.language, draft.code, createdAt)
  }

  /**
   * `addProject`: an authenticated session tries the server and, on an OK answer, prepends
   * the saved project; every other case prepends a locally built project with a fresh id.
   */
  function AddProject(s: Store, status: Status, draft: Draft, remote: RemoteCreate,
                      freshId: string, createdAt: string, format: string -> string): (m: Mutation)
    ensures SameSettings(m.store, s)
    ensures |m.store.projects| == |s.projects| + 1 && m.store.projects[1..] == s.projects
    ensures m.remoteAttempted <==> status == Authenticated
    ensures m.applied == RemoteApplied <==> status == Authenticated && remote.Created?
    ensures m.applied == RemoteApplied ==>
              m.store.projects[0] == remote.saved.(createdAt := format(remote.saved.createdAt))
    ensures m.applied == LocalFallbackApplied ==>
              var p := m.store.projects[0];
              p.id == freshId && p.createdAt == createdAt && p.name == draft.name
              && p.description == draft.description && p.language == draft.language && p.code == draft.code
  {
    if status == Authenticated && remote.Created? then
      var saved := remote.saved.(createdAt := format(remote.saved.createdAt));
      Mutation(s.(projects := [saved] + s.projects), true, RemoteApplied)
    else
      Mutation(s.(projects := [Build(draft, freshId, createdAt)] + s.projects),
               status == Authenticated, LocalFallbackApplied)
  }

  /** The list without the projects whose id is `id`. */
  function RemoveId(projects: seq<Project>, id: string): seq<Project> {
    Filter(projects, (p: Project) => p.id != id)
  }

  /**
   * `deleteProject`: whatever the server says, every project with the id is removed and the
   * others keep their order.
   */
  function DeleteProject(s: Store, status: Status, id: string, remote: RemoteDelete): (m: Mutation)
    ensures SameSettings(m.store, s)
    ensures forall i | 0 <= i < |m.store.projects| :: m.store.projects[i].id != id
    ensures forall i | 0 <= i < |s.projects| :: s.projects[i].id != id ==> s.projects[i] in m.store.projects
    ensures IsSubsequence(m.store.projects, s.projects)
    ensures forall p | p in s.projects :: multiset(m.store.projects)[p] == if p.id != id then multiset(s.projects)[p] else 0
    ensures m.remoteAttempted <==> status == Authenticated
    ensures m.applied == RemoteApplied <==> status == Authenticated && remote.DeleteAccepted?
  {
    FilterCounts(s.projects, (p: Project) => p.id != id);
    var store := s.(projects := RemoveId(s.projects, id));
    if status == Authenticated && remote.DeleteAccepted? then Mutation(store, true, RemoteApplied)
    else Mutation(store, status == Authenticated, LocalFallbackApplied)
  }

  /** Deleting an id no project carries changes nothing. */
  lemma {:induction false} DeleteAbsentIsNoop(s: Store, status: Status, id: string, remote: RemoteDelete)
    requires forall i | 0 <= i < |s.projects| :: s.projects[i].id != id
    ensures DeleteProject(s, status, id, remote).store == s
  {
    FilterKeepsAll(s.projects, (p: Project) => p.id != id);
  }

  /** A second delete of the same id, with any outcome, changes nothing more. */
  lemma {:induction false} DeleteIdempotent(s: Store, status: Status, id: string, r1: RemoteDelete, r2: RemoteDelete)
    ensures var once := DeleteProject(s, status, id, r1).store;
            DeleteProject(once, status, id, r2).store == once
  {
    DeleteAbsentIsNoop(DeleteProject(s, status, id, r1).store, status, id, r2);
  }

  /** `setUserPlan`: `pro` runs thirty days from now, `starter` has no expiry, `enterprise` keeps it. */
  function SetUserPlan(s: Store, tier: Tier, now: int): (r: Store)
    ensures r.plan == tier.Plan() && r.projects == s.projects
    ensures r.isLoading == s.isLoading && r.isInitialized == s.isInitialized
    ensures tier == ProTier ==> r.expiry == Some(now + 30 * MsPerDay)
    ensures tier == StarterTier ==> r.expiry == None
    ensures tier == EnterpriseTier ==> r.expiry == s.expiry
  {
    match tier
    case ProTier => s.(plan := Pro, expiry := Some(now + ProTermMs))
    case StarterTier => s.(plan := Starter, expiry := None)
    case EnterpriseTier => s.(plan := Enterprise)
  }

  /**
   * Expiry collapse: a guest pro plan bought at `bought` survives every check up to thirty
   * days later and collapses to `starter` at the first check after that.
   */
  lemma ExpiryCollapse(s: Store, bought: int, now: int)
    requires s.isInitialized
    ensures var pro := SetUserPlan(s, ProTier, bought);
            var checked := Downgrade(pro, Unauthenticated, now);
            (now > bought + ProTermMs ==> checked.plan == Starter && checked.expiry == None)
            && (now <= bought + ProTermMs ==> checked == pro)
  {
  }

  /** An authenticated plan is never touched by the expiry check. */
  lemma AuthenticatedPlanNeverExpires(s: Store, now: int)
    ensures Downgrade(s, Authenticated, now) == s
  {
  }

  /** The store's events, each applied atomically. */
  datatype Event =
    | SessionSync(user: Option<SessionUser>)
    | LoadProjects(status: Status, remote: RemoteList, saved: Option<StoredList>, format: string -> string)
    | GuestPlanRead(status: Status, records: LocalRecords)
    | ExpiryCheck(status: Status, now: int)
    | Create(status: Status, draft: Draft, created: RemoteCreate, freshId: string, createdAt: string,
             format: string -> string)
    | Delete(status: Status, id: string, deleted: RemoteDelete)
    | ChangePlan(tier: Tier, now: int)

  function Step(s: Store, e: Event): Store {
    match e
    case SessionSync(user) => SyncSessionPlan(s, user)
    case LoadProjects(status, remote, saved, format) => Load(s, status, remote, saved, format)
    case GuestPlanRead(status, records) => ReadGuestPlan(s, status, records)
    case ExpiryCheck(status, now) => Downgrade(s, status, now)
    case Create(status, draft, created, freshId, createdAt, format) =>
      AddProject(s, status, draft, created, freshId, createdAt, format).store
    case Delete(status, id, deleted) => DeleteProject(s, status, id, deleted).store
    case ChangePlan(tier, now) => SetUserPlan(s, tier, now)
  }

  function ProjectId(p: Project): string {
    p.id
  }

  /** The store's invariant: its plan can be named, and no two projects share an id. */
  predicate Invariant(s: Store) {
    ValidPlan(s.plan) && DistinctBy(s.projects, ProjectId)
  }

  predicate FreshId(s: Store, id: string) {
    forall i | 0 <= i < |s.projects| :: s.projects[i].id != id
  }

  /** What the environment must guarantee for ids to stay unique: fresh ids, and lists without repeats. */
  predicate Admissible(s: Store, e: Event) {
    match e
    case LoadProjects(_, remote, saved, _) =>
      (remote.Listed? ==> DistinctBy(remote.items, ProjectId))
      && (saved.Some? && saved.value.Parsed? ==> DistinctBy(saved.value.items, ProjectId))
    case Create(status, _, created, freshId, _, _) =>
      if status == Authenticated && created.Created? then FreshId(s, created.saved.id) else FreshId(s, freshId)
    case _ => true
  }

  /** Every event keeps the invariant. */
  lemma {:induction false} StepKeepsInvariant(s: Store, e: Event)
    requires Invariant(s) && Admissible(s, e)
    ensures Invariant(Step(s, e))
  {
    var r := Step(s, e);
    match e {
      case LoadProjects(status, remote, saved, format) =>
        if status == Authenticated && remote.Listed? {
          assert forall i | 0 <= i < |r.projects| :: r.projects[i].id == remote.items[i].id;
        }
      case Create(status, draft, created, freshId, createdAt, format) =>
        assert r.projects[1..] == s.projects;
        forall i, j | 0 <= i < j < |r.projects|
          ensures ProjectId(r.projects[i]) != ProjectId(r.projects[j])
        {
          assert r.projects[j] == s.projects[j - 1];
          if i > 0 {
            assert r.projects[i] == s.projects[i - 1];
          }
        }
      case Delete(status, id, deleted) =>
        SubsequenceDistinct(r.projects, s.projects, ProjectId);
      case _ =>
    }
  }

  /** Runs events in order. */
  function Run(s: Store, events: seq<Event>): Store
    decreases |events|
  {
    if events == [] then s else Run(Step(s, events[0]), events[1..])
  }

  /** The invariant holds after any admissible run from the initial state. */
  lemma {:induction false} RunKeepsInvariant(s: Store, events: seq<Event>)
    requires Invariant(s)
    requires forall k | 0 <= k < |events| :: Admissible(Run(s, events[..k]), events[k])
    ensures Invariant(Run(s, events))
    decreases |events|
  {
    if events != [] {
      assert events[..0] == [];
      StepKeepsInvariant(s, events[0]);
      var s1 := Step(s, events[0]);
      forall k | 0 <= k < |events[1..]|
        ensures Admissible(Run(s1, events[1..][..k]), events[1..][k])
      {
        assert events[..k + 1] == [events[0]] + events[1..][..k];
        assert events[..k + 1][1..] == events[1..][..k];
      }
      RunKeepsInvariant(s1, events[1..]);
    }
  }

  /** A create made while a guest: what the local fallback consumes. */
  datatype GuestCreate = GuestCreate(draft: Draft, id: string, createdAt: string)

  /** A series of guest creates, in order. */
  function GuestCreates(s: Store, cs: seq<GuestCreate>, format: string -> string): Store
    decreases |cs|
  {
    if cs == [] then s
    else
      var m := AddProject(s, Unauthenticated, cs[0].draft, CreateThrew, cs[0].id, cs[0].createdAt, format);
      GuestCreates(m.store, cs[1..], format)
  }

  /** Newest first: after a series of creates the latest project is at the front, the earlier list at the back. */
  lemma {:induction false} CreatesNewestFirst(s: Store, cs: seq<GuestCreate>, format: string -> string)
    ensures var r := GuestCreates(s, cs, format);
            |r.projects| == |cs| + |s.projects|
            && r.projects[|cs|..] == s.projects
            && forall i | 0 <= i < |cs| ::
                 r.projects[i] == Build(cs[|cs| - 1 - i].draft, cs[|cs| - 1 - i].id, cs[|cs| - 1 - i].createdAt)
    decreases |cs|
  {
    if cs != [] {
      var s1 := AddProject(s, Unauthenticated, cs[0].draft, CreateThrew, cs[0].id, cs[0].createdAt, format).store;
      CreatesNewestFirst(s1, cs[1..], format);
      var r := GuestCreates(s, cs, format);
      assert r == GuestCreates(s1, cs[1..], format);
      assert r.projects[|cs| - 1..] == s1.projects;
      assert r.projects[|cs|..] == s1.projects[1..];
      forall i | 0 <= i < |cs|
        ensures r.projects[i] == Build(cs[|cs| - 1 - i].draft, cs[|cs| - 1 - i].id, cs[|cs| - 1 - i].createdAt)
      {
        if i == |cs| - 1 {
          assert r.projects[i] == s1.projects[0];
        } else {
          assert cs[1..][|cs[1..]| - 1 - i] == cs[|cs| - 1 - i];
        }
      }
    }
  }

  /**
   * Guest round trip: what the persist effect writes, read back by a fresh store, gives the
   * same projects, plan and expiry.
   */
  lemma GuestRoundTrip(s: Store, records: LocalRecords, remote: RemoteList, format: string -> string)
    requires s.isInitialized && ValidPlan(s.plan)
    ensures var saved := Persist(s, Unauthenticated, records);
            var reread := ReadGuestPlan(Load(Initial(), Unauthenticated, remote, saved.projects, format),
                                       Unauthenticated, saved);
            reread.projects == s.projects && reread.plan == s.plan && reread.expiry == s.expiry
            && reread.isInitialized && !reread.isLoading
  {
    PlanNameRoundTrip(s.plan);
  }

  /**
   * Fallback divergence: a failed authenticated create shows the project at once, but a later
   * reload from a server that never stored it drops it.
   */
  lemma FallbackDivergesUntilReload(s: Store, draft: Draft, created: RemoteCreate, freshId: string,
                                    createdAt: string, format: string -> string, server: seq<Project>)
    requires !created.Created?
    requires forall i | 0 <= i < |server| :: server[i].id != freshId
    ensures var m := AddProject(s, Authenticated, draft, created, freshId, createdAt, format);
            m.applied == LocalFallbackApplied && m.store.projects[0].id == freshId
            && forall p | p in Load(m.store, Authenticated, Listed(server), None, format).projects :: p.id != freshId
  {
  }
}
