/**
 * The project collection endpoint (app/api/projects/route.ts).
 *
 * POST: the signed-in caller's user row is looked up by Clerk id and created when missing (with
 * a placeholder email), then a SUBMITTED project is inserted that copies the validated body and
 * the client-supplied `estimatedCost`. The body schema (`projectFormSchema`) is not part of this
 * model: its verdict is the `parsed` parameter. Any thrown error (a bad body, a taken key)
 * becomes 500 "Failed to create project"; a user row created before the project insert failed
 * stays.
 *
 * GET: the caller's projects with their payments, newest first.
 *
 * Fresh row ids and the clock are parameters; the state change itself is applied in place by
 * `Store.Database.CreateProject`.
 */
module ProjectsRoute {
  import opened Wrappers
  import opened Records

  const PlaceholderEmail := "user@example.com"
  const CreateFailed := "Failed to create project"

  /** The user row POST creates for a Clerk id with no row. */
  function NewUser(id: string, clerkId: string): (u: User)
    ensures u.clerkId == Some(clerkId) && u.role == USER && u.email == PlaceholderEmail
  {
    User(id, Some(clerkId), PlaceholderEmail, USER)
  }

  /** The reply and the two tables after POST (the payment table is not touched). */
  datatype Created = Created(reply: Reply<Project>, users: seq<User>, projects: seq<Project>)

  function CreateProject(users: seq<User>, projects: seq<Project>, caller: Option<string>,
                         parsed: Option<ProjectDetails>, estimatedCost: int,
                         newUserId: string, newProjectId: string, now: int): (r: Created)
    // no caller: 401 before anything is read or written
    ensures !SignedIn(caller) ==> r == Created(Error(401, "Unauthorized"), users, projects)
    // a rejected body: 500 before anything is written
    ensures SignedIn(caller) && parsed.None? ==> r == Created(Error(500, CreateFailed), users, projects)
    ensures r.reply.Error? ==> r.reply.status in {401, 500} && r.projects == projects
    // a user row is created only when no row has the caller's Clerk id, and then exactly one
    ensures r.users == users || (SignedIn(caller) && FindByClerkId(users, caller.value).None?
                                 && r.users == users + [NewUser(newUserId, caller.value)])
    // success: one SUBMITTED project appended, owned by the caller's row, with the body's fields
    ensures r.reply.Json? ==>
      && SignedIn(caller) && parsed.Some?
      && r.projects == projects + [r.reply.body]
      && r.reply.body == Project(newProjectId, r.reply.body.userId, parsed.value, estimatedCost, SUBMITTED, now)
      && FindByClerkId(r.users, caller.value) == Some(Owner(users, caller.value, newUserId))
      && r.reply.body.userId == Owner(users, caller.value, newUserId).id
    // when it succeeds
    ensures r.reply.Json? <==>
      && SignedIn(caller) && parsed.Some? && !HasProjectId(projects, newProjectId)
      && (FindByClerkId(users, caller.value).Some? || CanInsertUser(users, NewUser(newUserId, caller.value)))
  {
    if !SignedIn(caller) then Created(Error(401, "Unauthorized"), users, projects)
    else if parsed.None? then Created(Error(500, CreateFailed), users, projects)
    else
      var found := FindByClerkId(users, caller.value);
      var owner := Owner(users, caller.value, newUserId);
      if found.None? && !CanInsertUser(users, owner) then Created(Error(500, CreateFailed), users, projects)
      else
        var users' := if found.Some? then users else users + [owner];
        assert FindByClerkId(users', caller.value) == Some(owner) by {
          if found.None? {
            FindAfterAppend(users, owner, caller.value);
          }
        }
        var p := Project(newProjectId, owner.id, parsed.value, estimatedCost, SUBMITTED, now);
        assert HasUserId(users', owner.id) by {
          assert owner in users';
        }
        if !CanInsertProject(users', projects, p) then Created(Error(500, CreateFailed), users', projects)
        else Created(Json(p), users', projects + [p])
  }

  /** The caller's user row: the one found by Clerk id, or the one POST would create. */
  function Owner(users: seq<User>, clerkId: string, newUserId: string): (u: User)
    ensures u.clerkId == Some(clerkId)
    ensures FindByClerkId(users, clerkId).Some? ==> u in users
  {
    var found := FindByClerkId(users, clerkId);
    if found.Some? then found.value else NewUser(newUserId, clerkId)
  }

  lemma FindAfterAppend(users: seq<User>, u: User, clerkId: string)
    requires FindByClerkId(users, clerkId).None? && u.clerkId == Some(clerkId)
    ensures FindByClerkId(users + [u], clerkId) == Some(u)
  {
    if users != [] {
      assert (users + [u])[1..] == users[1..] + [u];
      FindAfterAppend(users[1..], u, clerkId);
    }
  }

  /** GET: 401 without a caller, 404 without a user row, else the caller's projects newest first. */
  function ListProjects(users: seq<User>, projects: seq<Project>, payments: seq<Payment>, caller: Option<string>)
    : (r: Reply<seq<ProjectView>>)
    ensures !SignedIn(caller) ==> r == Error(401, "Unauthorized")
    ensures SignedIn(caller) && FindByClerkId(users, caller.value).None? ==> r == Error(404, "User not found")
    ensures r.Json? <==> SignedIn(caller) && FindByClerkId(users, caller.value).Some?
    ensures r.Json? ==>
      var owner := FindByClerkId(users, caller.value).value;
      && NewestFirst(Projects(r.body))
      && (forall p :: p in Projects(r.body) <==> p in projects && p.userId == owner.id)
      && multiset(Projects(r.body)) == multiset(OwnedBy(projects, owner.id))
      && (forall v :: v in r.body ==> v.payments == PaymentsOf(payments, v.project.id))
  {
    if !SignedIn(caller) then Error(401, "Unauthorized")
    else
      var found := FindByClerkId(users, caller.value);
      if found.None? then Error(404, "User not found")
      else
        var vs := ProjectsNewestFirst(projects, payments, Some(found.value.id));
        assert forall p :: p in Projects(vs) <==> p in projects && p.userId == found.value.id by {
          forall p ensures p in Projects(vs) <==> p in projects && p.userId == found.value.id {
            OwnedListIsExact(projects, payments, found.value.id, p);
          }
        }
        Json(vs)
  }

  // ---------------------------------------------------------------------------------------
  // Properties across calls

  /** POST keeps the store's keys and foreign keys. */
  lemma CreateProjectKeepsConsistent(users: seq<User>, projects: seq<Project>, payments: seq<Payment>,
                                     caller: Option<string>, parsed: Option<ProjectDetails>, estimatedCost: int,
                                     newUserId: string, newProjectId: string, now: int)
    requires Consistent(users, projects, payments)
    ensures var r := CreateProject(users, projects, caller, parsed, estimatedCost, newUserId, newProjectId, now);
            Consistent(r.users, r.projects, payments)
  {
    var r := CreateProject(users, projects, caller, parsed, estimatedCost, newUserId, newProjectId, now);
    if r.users != users {
      InsertUserKeepsConsistent(users, projects, payments, NewUser(newUserId, caller.value));
    }
    if r.reply.Json? {
      var owner := Owner(users, caller.value, newUserId);
      assert owner in r.users;
      InsertProjectKeepsConsistent(r.users, projects, payments, r.reply.body);
    }
  }

  /** A project POST created is in the list GET then returns to the same caller. */
  lemma CreatedProjectIsListed(users: seq<User>, projects: seq<Project>, payments: seq<Payment>,
                               caller: Option<string>, parsed: Option<ProjectDetails>, estimatedCost: int,
                               newUserId: string, newProjectId: string, now: int)
    requires var r := CreateProject(users, projects, caller, parsed, estimatedCost, newUserId, newProjectId, now);
             r.reply.Json?
    ensures var r := CreateProject(users, projects, caller, parsed, estimatedCost, newUserId, newProjectId, now);
            var listed := ListProjects(r.users, r.projects, payments, caller);
            listed.Json? && r.reply.body in Projects(listed.body)
  {
  }

  /**
   * Every new caller gets the same placeholder email, so once one such row exists a second
   * caller without a row cannot be given one (the email key is taken) and POST answers 500.
   */
  lemma SecondNewCallerRejected(users: seq<User>, projects: seq<Project>, caller: string,
                                parsed: ProjectDetails, estimatedCost: int,
                                newUserId: string, newProjectId: string, now: int, k: nat)
    requires k < |users| && users[k].email == PlaceholderEmail
    requires FindByClerkId(users, caller).None?
    ensures caller != "" ==>
            CreateProject(users, projects, Some(caller), Some(parsed), estimatedCost, newUserId, newProjectId, now)
            == Created(Error(500, CreateFailed), users, projects)
  {
  }
}
