/**
 * The rows of the three tables (User, ProjectForm, Payment) as the route handlers and pages
 * read and write them, and the one query they share: a project list ordered by `createdAt`,
 * newest first, with each project's payments attached (`include: { payments: true }`).
 */
module Records {
  import opened Wrappers

  datatype Role = USER | ADMIN

  datatype User = User(id: string, clerkId: Option<string>, email: string, role: Role)

  datatype ProjectStatus = DRAFT | SUBMITTED | IN_PROGRESS | COMPLETED | CANCELLED
  {
    /** The status as stored and sent to the pages. */
    function Name(): string
    {
      match this
      case DRAFT => "DRAFT"
      case SUBMITTED => "SUBMITTED"
      case IN_PROGRESS => "IN_PROGRESS"
      case COMPLETED => "COMPLETED"
      case CANCELLED => "CANCELLED"
    }
  }

  datatype PaymentStatus = PENDING | PAID | FAILED | PARTIAL
  {
    function Name(): string
    {
      match this
      case PENDING => "PENDING"
      case PAID => "PAID"
      case FAILED => "FAILED"
      case PARTIAL => "PARTIAL"
    }
  }

  /** The validated submission fields a project row copies (`...validatedData`). */
  datatype ProjectDetails = ProjectDetails(
    businessName: string, industry: Option<string>, websiteType: string,
    features: seq<string>, numberOfPages: int, budget: int)

  datatype Project = Project(
    id: string, userId: string, details: ProjectDetails, estimatedCost: int,
    status: ProjectStatus, createdAt: int)

  datatype Payment = Payment(
    id: string, projectFormId: string, amount: real,
    paymentIntentId: Option<string>, stripeSessionId: Option<string>, status: PaymentStatus)

  /** A project with its payments, as `findMany({ include: { payments: true } })` returns it. */
  datatype ProjectView = ProjectView(project: Project, payments: seq<Payment>)

  /** Clerk's `userId` passes `!userId`: there is a signed-in user and the id is not empty. */
  predicate SignedIn(caller: Option<string>)
  {
    caller.Some? && caller.value != ""
  }

  predicate UniqueUserIds(users: seq<User>)
  {
    forall i, j :: 0 <= i < j < |users| ==> users[i].id != users[j].id
  }

  predicate UniqueEmails(users: seq<User>)
  {
    forall i, j :: 0 <= i < j < |users| ==> users[i].email != users[j].email
  }

  predicate UniqueClerkIds(users: seq<User>)
  {
    forall i, j :: 0 <= i < j < |users| && users[i].clerkId.Some? ==> users[i].clerkId != users[j].clerkId
  }

  predicate UniqueProjectIds(projects: seq<Project>)
  {
    forall i, j :: 0 <= i < j < |projects| ==> projects[i].id != projects[j].id
  }

  predicate UniquePaymentIds(payments: seq<Payment>)
  {
    forall i, j :: 0 <= i < j < |payments| ==> payments[i].id != payments[j].id
  }

  predicate HasUserId(users: seq<User>, id: string)
  {
    exists i :: 0 <= i < |users| && users[i].id == id
  }

  predicate HasProjectId(projects: seq<Project>, id: string)
  {
    exists i :: 0 <= i < |projects| && projects[i].id == id
  }

  predicate HasPaymentId(payments: seq<Payment>, id: string)
  {
    exists i :: 0 <= i < |payments| && payments[i].id == id
  }

  /** Every project's owner exists (the ProjectForm.userId foreign key). */
  predicate ProjectsOwned(users: seq<User>, projects: seq<Project>)
  {
    forall i :: 0 <= i < |projects| ==> HasUserId(users, projects[i].userId)
  }

  /** Every payment's project exists (the Payment.projectFormId foreign key). */
  predicate PaymentsLinked(projects: seq<Project>, payments: seq<Payment>)
  {
    forall i :: 0 <= i < |payments| ==> HasProjectId(projects, payments[i].projectFormId)
  }

  /** The keys and foreign keys the store enforces on its three tables. */
  predicate Consistent(users: seq<User>, projects: seq<Project>, payments: seq<Payment>)
  {
    && UniqueUserIds(users) && UniqueEmails(users) && UniqueClerkIds(users)
    && UniqueProjectIds(projects) && UniquePaymentIds(payments)
    && ProjectsOwned(users, projects) && PaymentsLinked(projects, payments)
  }

  /** An insert of u succeeds: no key of u is taken. */
  predicate CanInsertUser(users: seq<User>, u: User)
  {
    && !HasUserId(users, u.id)
    && (forall i :: 0 <= i < |users| ==> users[i].email != u.email)
    && (u.clerkId.Some? ==> forall i :: 0 <= i < |users| ==> users[i].clerkId != u.clerkId)
  }

  /** An insert of p succeeds: its id is free and its owner exists. */
  predicate CanInsertProject(users: seq<User>, projects: seq<Project>, p: Project)
  {
    !HasProjectId(projects, p.id) && HasUserId(users, p.userId)
  }

  /** An insert of x succeeds: its id is free and its project exists. */
  predicate CanInsertPayment(projects: seq<Project>, payments: seq<Payment>, x: Payment)
  {
    !HasPaymentId(payments, x.id) && HasProjectId(projects, x.projectFormId)
  }

  lemma InsertUserKeepsConsistent(users: seq<User>, projects: seq<Project>, payments: seq<Payment>, u: User)
    requires Consistent(users, projects, payments) && CanInsertUser(users, u)
    ensures Consistent(users + [u], projects, payments)
  {
    var us := users + [u];
    forall i | 0 <= i < |projects| ensures HasUserId(us, projects[i].userId) {
      var k :| 0 <= k < |users| && users[k].id == projects[i].userId;
      assert us[k] == users[k];
    }
  }

  lemma InsertProjectKeepsConsistent(users: seq<User>, projects: seq<Project>, payments: seq<Payment>, p: Project)
    requires Consistent(users, projects, payments) && CanInsertProject(users, projects, p)
    ensures Consistent(users, projects + [p], payments)
  {
    var ps := projects + [p];
    forall i | 0 <= i < |payments| ensures HasProjectId(ps, payments[i].projectFormId) {
      var k :| 0 <= k < |projects| && projects[k].id == payments[i].projectFormId;
      assert ps[k] == projects[k];
    }
    forall i | 0 <= i < |ps| ensures HasUserId(users, ps[i].userId) {
      if i < |projects| { assert ps[i] == projects[i]; }
    }
  }

  lemma InsertPaymentKeepsConsistent(users: seq<User>, projects: seq<Project>, payments: seq<Payment>, x: Payment)
    requires Consistent(users, projects, payments) && CanInsertPayment(projects, payments, x)
    ensures Consistent(users, projects, payments + [x])
  {
    var xs := payments + [x];
    forall i | 0 <= i < |xs| ensures HasProjectId(projects, xs[i].projectFormId) {
      if i < |payments| { assert xs[i] == payments[i]; }
    }
  }

  /** `findUnique({ where: { clerkId } })`. */
  function FindByClerkId(users: seq<User>, clerkId: string): (r: Option<User>)
    ensures r.Some? ==> r.value in users && r.value.clerkId == Some(clerkId)
    ensures r.None? <==> forall i :: 0 <= i < |users| ==> users[i].clerkId != Some(clerkId)
  {
    if users == [] then None
    else if users[0].clerkId == Some(clerkId) then Some(users[0])
    else FindByClerkId(users[1..], clerkId)
  }

  // ---------------------------------------------------------------------------------------
  // Newest first

  predicate NewestFirst(ps: seq<Project>)
  {
    forall i, j :: 0 <= i < j < |ps| ==> ps[i].createdAt >= ps[j].createdAt
  }

  /** Places p among an already ordered list, after every row at least as new. */
  function Insert(p: Project, ps: seq<Project>): (r: seq<Project>)
    requires NewestFirst(ps)
    ensures NewestFirst(r)
    ensures multiset(r) == multiset(ps) + multiset{p}
    ensures forall x :: x in r ==> x in ps || x == p
  {
    if ps == [] then [p]
    else if ps[0].createdAt >= p.createdAt then
      var rest := Insert(p, ps[1..]);
      assert ps == [ps[0]] + ps[1..];
      InsertHeadBound(ps[0], p, ps[1..], rest);
      [ps[0]] + rest
    else [p] + ps
  }

  lemma InsertHeadBound(head: Project, p: Project, tail: seq<Project>, rest: seq<Project>)
    requires NewestFirst([head] + tail) && head.createdAt >= p.createdAt
    requires NewestFirst(rest) && forall x :: x in rest ==> x in tail || x == p
    ensures NewestFirst([head] + rest)
  {
    forall k | 0 <= k < |rest| ensures rest[k].createdAt <= head.createdAt {
      if rest[k] in tail {
        var m :| 0 <= m < |tail| && tail[m] == rest[k];
        assert ([head] + tail)[m + 1] == tail[m];
        assert ([head] + tail)[0] == head;
      }
    }
    var r := [head] + rest;
    forall i, j | 0 <= i < j < |r| ensures r[i].createdAt >= r[j].createdAt {
      if i > 0 {
        assert r[i] == rest[i - 1] && r[j] == rest[j - 1];
      } else {
        assert r[j] == rest[j - 1];
      }
    }
  }

  /**
   * `orderBy: { createdAt: "desc" }`. The query leaves the order of rows with the same timestamp
   * to the database, and so does this contract: only the timestamps are ordered.
   */
  function SortNewestFirst(ps: seq<Project>): (r: seq<Project>)
    ensures NewestFirst(r)
    ensures multiset(r) == multiset(ps)
  {
    if ps == [] then []
    else
      assert ps == [ps[0]] + ps[1..];
      Insert(ps[0], SortNewestFirst(ps[1..]))
  }

  /** `where: { userId }`: the rows owned by one user, in table order. */
  function OwnedBy(ps: seq<Project>, userId: string): (r: seq<Project>)
    ensures forall p :: p in r <==> p in ps && p.userId == userId
    ensures multiset(r) <= multiset(ps)
  {
    if ps == [] then []
    else
      assert ps == [ps[0]] + ps[1..];
      if ps[0].userId == userId then [ps[0]] + OwnedBy(ps[1..], userId) else OwnedBy(ps[1..], userId)
  }

  /** The payments of one project, in table order. */
  function PaymentsOf(payments: seq<Payment>, projectId: string): (r: seq<Payment>)
    ensures forall x :: x in r <==> x in payments && x.projectFormId == projectId
  {
    if payments == [] then []
    else if payments[0].projectFormId == projectId then [payments[0]] + PaymentsOf(payments[1..], projectId)
    else PaymentsOf(payments[1..], projectId)
  }

  function Attach(ps: seq<Project>, payments: seq<Payment>): (r: seq<ProjectView>)
    ensures |r| == |ps|
    ensures forall i :: 0 <= i < |ps| ==> r[i].project == ps[i] && r[i].payments == PaymentsOf(payments, ps[i].id)
  {
    if ps == [] then [] else [ProjectView(ps[0], PaymentsOf(payments, ps[0].id))] + Attach(ps[1..], payments)
  }

  /**
   * `findMany({ where: { userId }, include: { payments: true }, orderBy: { createdAt: "desc" } })`
   * (or, without an owner, every project).
   */
  function ProjectsNewestFirst(projects: seq<Project>, payments: seq<Payment>, owner: Option<string>): (r: seq<ProjectView>)
    ensures NewestFirst(Projects(r))
    ensures owner.Some? ==> multiset(Projects(r)) == multiset(OwnedBy(projects, owner.value))
    ensures owner.None? ==> multiset(Projects(r)) == multiset(projects)
    ensures forall v :: v in r ==> v.payments == PaymentsOf(payments, v.project.id)
  {
    var chosen := if owner.Some? then OwnedBy(projects, owner.value) else projects;
    var r := Attach(SortNewestFirst(chosen), payments);
    assert Projects(r) == SortNewestFirst(chosen);
    r
  }

  function Projects(vs: seq<ProjectView>): (r: seq<Project>)
    ensures |r| == |vs| && forall i :: 0 <= i < |vs| ==> r[i] == vs[i].project
  {
    if vs == [] then [] else [vs[0].project] + Projects(vs[1..])
  }

  /** A caller's list holds exactly the projects that caller owns, each once per table row. */
  lemma OwnedListIsExact(projects: seq<Project>, payments: seq<Payment>, owner: string, p: Project)
    ensures p in Projects(ProjectsNewestFirst(projects, payments, Some(owner))) <==> p in projects && p.userId == owner
  {
    var r := Projects(ProjectsNewestFirst(projects, payments, Some(owner)));
    assert p in r <==> p in multiset(r);
    assert p in OwnedBy(projects, owner) <==> p in multiset(OwnedBy(projects, owner));
  }
}
