/**
 * The client dashboard (app/dashboard/page.tsx): a signed-in caller's user row is upserted by
 * email (with the placeholder email every caller gets), then the caller's projects are listed
 * newest first with the figures and per-project controls the page derives from them.
 *
 * The upsert's state change is applied in place by `Store.Database.VisitDashboard`.
 */
module Dashboard {
  import opened Wrappers
  import opened Records
  import opened Aggregates
  import StripeWebhook
  import PaymentIntentRoute
  import ProjectsRoute

  /** The email the page passes for every caller. */
  const PlaceholderEmail := "user@example.com"

  /** The position of the row with that email (the first, and under the email key the only one). */
  function EmailIndex(users: seq<User>, email: string): (r: Option<nat>)
    ensures r.Some? ==> r.value < |users| && users[r.value].email == email
    ensures r.Some? ==> forall j :: 0 <= j < r.value ==> users[j].email != email
    ensures r.None? <==> forall j :: 0 <= j < |users| ==> users[j].email != email
  {
    if users == [] then None
    else if users[0].email == email then Some(0)
    else
      var rest := EmailIndex(users[1..], email);
      if rest.None? then None else Some(rest.value + 1)
  }

  /** Some row other than row i already holds the Clerk id (an update to it would break the key). */
  predicate ClerkIdHeldElsewhere(users: seq<User>, i: nat, clerkId: string)
  {
    exists j :: 0 <= j < |users| && j != i && users[j].clerkId == Some(clerkId)
  }

  function Created(newUserId: string, clerkId: string, email: string): User
  {
    User(newUserId, Some(clerkId), email, USER)
  }

  datatype Upserted = Upserted(user: Option<User>, users: seq<User>)

  /**
   * `getOrCreateUser`: `user.upsert({ where: { email }, update: { clerkId }, create: { email, clerkId } })`.
   * `user` is None when the write breaks a key (the upsert throws).
   */
  function Upsert(users: seq<User>, clerkId: string, email: string, newUserId: string): (r: Upserted)
    ensures r.user.None? ==> r.users == users
    ensures r.user.Some? ==> r.user.value.email == email && r.user.value.clerkId == Some(clerkId)
    // an existing row: only its Clerk id is written, and only if no other row holds it
    ensures EmailIndex(users, email).Some? ==>
      var i := EmailIndex(users, email).value;
      && (r.user.Some? <==> !ClerkIdHeldElsewhere(users, i, clerkId))
      && (r.user.Some? ==> r.user.value == users[i].(clerkId := Some(clerkId)) && r.users == users[i := r.user.value])
    // no row: one is appended, if its keys are free
    ensures EmailIndex(users, email).None? ==>
      && (r.user.Some? <==> CanInsertUser(users, Created(newUserId, clerkId, email)))
      && (r.user.Some? ==> r.user.value == Created(newUserId, clerkId, email) && r.users == users + [r.user.value])
  {
    var found := EmailIndex(users, email);
    if found.Some? then
      var i := found.value;
      if ClerkIdHeldElsewhere(users, i, clerkId) then Upserted(None, users)
      else
        var u := users[i].(clerkId := Some(clerkId));
        Upserted(Some(u), users[i := u])
    else
      var u := Created(newUserId, clerkId, email);
      if CanInsertUser(users, u) then Upserted(Some(u), users + [u]) else Upserted(None, users)
  }

  lemma {:induction false} FindOnly(users: seq<User>, k: nat, clerkId: string)
    requires k < |users| && users[k].clerkId == Some(clerkId)
    requires forall j :: 0 <= j < |users| && j != k ==> users[j].clerkId != Some(clerkId)
    ensures FindByClerkId(users, clerkId) == Some(users[k])
  {
    if k > 0 {
      FindOnly(users[1..], k - 1, clerkId);
    }
  }

  /** After a successful upsert the caller's row is the one found by Clerk id. */
  lemma UpsertFindsCaller(users: seq<User>, clerkId: string, email: string, newUserId: string)
    requires Upsert(users, clerkId, email, newUserId).user.Some?
    ensures var r := Upsert(users, clerkId, email, newUserId);
            FindByClerkId(r.users, clerkId) == r.user
  {
    var r := Upsert(users, clerkId, email, newUserId);
    var found := EmailIndex(users, email);
    if found.Some? {
      FindOnly(r.users, found.value, clerkId);
    } else {
      FindOnly(r.users, |users|, clerkId);
    }
  }

  /** The upsert keeps the store's keys and foreign keys. */
  lemma UpsertKeepsConsistent(users: seq<User>, projects: seq<Project>, payments: seq<Payment>,
                              clerkId: string, email: string, newUserId: string)
    requires Consistent(users, projects, payments)
    ensures Consistent(Upsert(users, clerkId, email, newUserId).users, projects, payments)
  {
    var r := Upsert(users, clerkId, email, newUserId);
    var found := EmailIndex(users, email);
    if r.user.Some? {
      if found.Some? {
        var i := found.value;
        var us := r.users;
        assert |us| == |users| && forall j :: 0 <= j < |us| ==> us[j].id == users[j].id && us[j].email == users[j].email;
        forall j | 0 <= j < |projects| ensures HasUserId(us, projects[j].userId) {
          var k :| 0 <= k < |users| && users[k].id == projects[j].userId;
          assert us[k].id == users[k].id;
        }
      } else {
        InsertUserKeepsConsistent(users, projects, payments, r.user.value);
      }
    }
  }

  /** Running the upsert again with the same caller and email changes nothing more. */
  lemma UpsertIdempotent(users: seq<User>, clerkId: string, email: string, newUserId: string)
    requires UniqueEmails(users)
    ensures var r := Upsert(users, clerkId, email, newUserId);
            r.user.Some? ==> Upsert(r.users, clerkId, email, newUserId) == r
  {
    var r := Upsert(users, clerkId, email, newUserId);
    if r.user.Some? {
      var found := EmailIndex(users, email);
      if found.Some? {
        var i := found.value;
        assert EmailIndex(r.users, email) == Some(i) by {
          EmailIndexOnly(r.users, i, email);
        }
        assert r.users[i := r.user.value] == r.users;
      } else {
        var i := |users|;
        assert EmailIndex(r.users, email) == Some(i) by {
          EmailIndexOnly(r.users, i, email);
        }
        assert !ClerkIdHeldElsewhere(r.users, i, clerkId);
        assert r.users[i := r.user.value] == r.users;
      }
    }
  }

  lemma {:induction false} EmailIndexOnly(users: seq<User>, k: nat, email: string)
    requires k < |users| && users[k].email == email
    requires forall j :: 0 <= j < |users| && j != k ==> users[j].email != email
    ensures EmailIndex(users, email) == Some(k)
  {
    if k > 0 {
      EmailIndexOnly(users[1..], k - 1, email);
    }
  }

  /**
   * Every caller is upserted under the same placeholder email, so a visit by one caller moves
   * the shared row's Clerk id to that caller: the caller who held it before has no row any
   * more, and the project list endpoint answers that caller 404.
   */
  lemma VisitTakesOverSharedRow(users: seq<User>, projects: seq<Project>, payments: seq<Payment>,
                                previous: string, visitor: string, newUserId: string)
    requires Consistent(users, projects, payments)
    requires FindByClerkId(users, previous).Some? && FindByClerkId(users, previous).value.email == PlaceholderEmail
    requires previous != visitor
    ensures var r := Upsert(users, visitor, PlaceholderEmail, newUserId);
            r.user.Some? && previous != "" ==>
            ProjectsRoute.ListProjects(r.users, projects, payments, Some(previous)) == Error(404, "User not found")
  {
    var r := Upsert(users, visitor, PlaceholderEmail, newUserId);
    var owner := FindByClerkId(users, previous).value;
    var k :| 0 <= k < |users| && users[k] == owner;
    EmailIndexOnly(users, k, PlaceholderEmail);
    if r.user.Some? {
      forall j | 0 <= j < |r.users| ensures r.users[j].clerkId != Some(previous) {
        if j != k {
          assert r.users[j] == users[j];
        }
      }
    }
  }

  // ---------------------------------------------------------------------------------------
  // The page

  datatype Page =
    | Redirect
    | Crash
    | Shown(views: seq<ProjectView>, totalSpent: real, inProgress: nat, completed: nat)

  /**
   * The page for a caller: a redirect without one, an error page when the upsert throws, else
   * the caller's listing with `totalSpent` and the two counts. Returns the user table too.
   */
  function DashboardPage(users: seq<User>, projects: seq<Project>, payments: seq<Payment>,
                         caller: Option<string>, newUserId: string): (r: (Page, seq<User>))
    ensures !SignedIn(caller) ==> r == (Redirect, users)
    ensures r.0.Redirect? <==> !SignedIn(caller)
    ensures SignedIn(caller) && Upsert(users, caller.value, PlaceholderEmail, newUserId).user.Some? ==> r.0.Shown?
    ensures SignedIn(caller) ==> r.1 == Upsert(users, caller.value, PlaceholderEmail, newUserId).users
    ensures r.0.Crash? <==> SignedIn(caller) && Upsert(users, caller.value, PlaceholderEmail, newUserId).user.None?
    ensures r.0.Shown? ==>
      var owner := Upsert(users, caller.value, PlaceholderEmail, newUserId).user.value;
      var mine := OwnedBy(projects, owner.id);
      && NewestFirst(Projects(r.0.views))
      && (forall p :: p in Projects(r.0.views) <==> p in projects && p.userId == owner.id)
      && r.0.inProgress == Count(mine, (p: Project) => p.status == IN_PROGRESS)
      && r.0.completed == Count(mine, (p: Project) => p.status == COMPLETED)
      && (UniqueProjectIds(projects) ==> r.0.totalSpent == PaidSum(LinkedTo(payments, mine)))
  {
    if !SignedIn(caller) then (Redirect, users)
    else
      var up := Upsert(users, caller.value, PlaceholderEmail, newUserId);
      if up.user.None? then (Crash, users)
      else
        var owner := up.user.value;
        var views := ProjectsNewestFirst(projects, payments, Some(owner.id));
        ListingFigures(projects, payments, owner.id);
        (Shown(views, TotalPaid(views), CountStatus(views, IN_PROGRESS), CountStatus(views, COMPLETED)), up.users)
  }

  /** What the page's figures over a caller's listing amount to. */
  lemma ListingFigures(projects: seq<Project>, payments: seq<Payment>, owner: string)
    ensures var views := ProjectsNewestFirst(projects, payments, Some(owner));
            var mine := OwnedBy(projects, owner);
      && (forall p :: p in Projects(views) <==> p in projects && p.userId == owner)
      && CountStatus(views, IN_PROGRESS) == Count(mine, (p: Project) => p.status == IN_PROGRESS)
      && CountStatus(views, COMPLETED) == Count(mine, (p: Project) => p.status == COMPLETED)
      && (UniqueProjectIds(projects) ==> TotalPaid(views) == PaidSum(LinkedTo(payments, mine)))
  {
    var views := ProjectsNewestFirst(projects, payments, Some(owner));
    CountOfListing(projects, payments, Some(owner), IN_PROGRESS);
    CountOfListing(projects, payments, Some(owner), COMPLETED);
    if UniqueProjectIds(projects) {
      TotalOfListing(projects, payments, Some(owner));
    }
    forall p ensures p in Projects(views) <==> p in projects && p.userId == owner {
      OwnedListIsExact(projects, payments, owner, p);
    }
  }

  // ---------------------------------------------------------------------------------------
  // A project's card

  /** "Make Payment" is offered for a SUBMITTED project none of whose payments is PAID. */
  function MakePaymentOffered(v: ProjectView): (r: bool)
    ensures r ==> v.project.status == SUBMITTED
    ensures r <==> v.project.status == SUBMITTED && forall i :: 0 <= i < |v.payments| ==> v.payments[i].status != PAID
  {
    v.project.status == SUBMITTED && !exists x :: x in v.payments && x.status == PAID
  }

  /**
   * A completed checkout whose session matches one of the project's payment rows ends the
   * offer, whether or not the project's own status write then succeeds.
   */
  lemma CheckoutEndsOffer(projects: seq<Project>, payments: seq<Payment>, e: StripeWebhook.Event, p: Project, k: nat)
    requires e.CheckoutSessionCompleted? && e.metadata.Some?
    requires k < |payments| && payments[k].projectFormId == p.id && payments[k].stripeSessionId == Some(e.sessionId)
    ensures var r := StripeWebhook.Reconcile(projects, payments, e);
            !MakePaymentOffered(ProjectView(p, PaymentsOf(r.payments, p.id)))
  {
    var r := StripeWebhook.Reconcile(projects, payments, e);
    assert r.payments[k].status == PAID;
    assert r.payments[k] in PaymentsOf(r.payments, p.id);
  }

  /** Starting a payment (a PENDING row) does not end the offer: a second payment can be started. */
  lemma PendingRowKeepsOffer(payments: seq<Payment>, p: Project, row: Payment)
    requires row.status == PENDING
    requires MakePaymentOffered(ProjectView(p, PaymentsOf(payments, p.id)))
    ensures MakePaymentOffered(ProjectView(p, PaymentsOf(payments + [row], p.id)))
  {
    var before := PaymentsOf(payments, p.id);
    var after := PaymentsOf(payments + [row], p.id);
    forall i | 0 <= i < |after| ensures after[i].status != PAID {
      assert after[i] in payments + [row];
      if after[i] != row {
        assert after[i] in payments;
        assert after[i] in before;
      }
    }
  }

  datatype Preview = Preview(shown: seq<string>, more: Option<int>)

  /** The first two features, and a "+n more" badge counting the rest when there are any. */
  function FeaturesPreview(features: seq<string>): (r: Preview)
    ensures |r.shown| == if |features| < 2 then |features| else 2
    ensures r.shown == features[..|r.shown|]
    ensures r.more.Some? <==> |features| > 2
    ensures r.more.Some? ==> |r.shown| + r.more.value == |features|
  {
    var shown := if |features| < 2 then features else features[..2];
    Preview(shown, if |features| > 2 then Some(|features| - 2) else None)
  }

  /** The card's payment status: the first payment's, or "Pending". */
  function PaymentStatusText(payments: seq<Payment>): (r: string)
    ensures payments == [] ==> r == "Pending"
    ensures payments != [] ==> r == payments[0].status.Name()
  {
    FirstPaymentStatus(payments, "Pending")
  }
}
