/**
 * The three tables as one mutable store, and the route handlers and page loads that write them,
 * applied in place: each method does what its handler does, step by step, and ends in the state
 * the handler's transition function describes. Every method keeps the keys and foreign keys
 * (`Valid`).
 */
module Store {
  import opened Wrappers
  import opened Records
  import ProjectsRoute
  import PaymentIntentRoute
  import StripeWebhook
  import Dashboard

  class Database {
    var users: seq<User>
    var projects: seq<Project>
    var payments: seq<Payment>

    ghost predicate Valid()
      reads this
    {
      Consistent(users, projects, payments)
    }

    constructor ()
      ensures users == [] && projects == [] && payments == []
      ensures Valid()
    {
      users := [];
      projects := [];
      payments := [];
    }

    /** POST /api/projects. */
    method CreateProject(caller: Option<string>, parsed: Option<ProjectDetails>, estimatedCost: int,
                         newUserId: string, newProjectId: string, now: int) returns (reply: Reply<Project>)
      requires Valid()
      modifies this`users, this`projects
      ensures Valid()
      ensures var r := ProjectsRoute.CreateProject(old(users), old(projects), caller, parsed, estimatedCost, newUserId, newProjectId, now);
              reply == r.reply && users == r.users && projects == r.projects
    {
      ProjectsRoute.CreateProjectKeepsConsistent(users, projects, payments, caller, parsed, estimatedCost, newUserId, newProjectId, now);
      if !SignedIn(caller) {
        return Error(401, "Unauthorized");
      }
      if parsed.None? {
        return Error(500, ProjectsRoute.CreateFailed);
      }
      var found := FindByClerkId(users, caller.value);
      var owner := ProjectsRoute.Owner(users, caller.value, newUserId);
      if found.None? {
        if !CanInsertUser(users, owner) {
          return Error(500, ProjectsRoute.CreateFailed);
        }
        users := users + [owner];
      }
      var p := Project(newProjectId, owner.id, parsed.value, estimatedCost, SUBMITTED, now);
      if !CanInsertProject(users, projects, p) {
        return Error(500, ProjectsRoute.CreateFailed);
      }
      projects := projects + [p];
      return Json(p);
    }

    /** POST /api/create-payment-intent. */
    method CreatePaymentIntent(caller: Option<string>, projectId: string, amountCents: real,
                               intent: Option<PaymentIntentRoute.Intent>, newPaymentId: string)
      returns (reply: Reply<PaymentIntentRoute.Secret>)
      requires Valid()
      modifies this`payments
      ensures Valid()
      ensures var r := PaymentIntentRoute.CreatePaymentIntent(projects, old(payments), caller, projectId, amountCents, intent, newPaymentId);
              reply == r.reply && payments == r.payments
    {
      PaymentIntentRoute.CreatePaymentIntentKeepsConsistent(users, projects, payments, caller, projectId, amountCents, intent, newPaymentId);
      if !SignedIn(caller) {
        return Error(401, "Unauthorized");
      }
      if intent.None? {
        return Error(500, PaymentIntentRoute.IntentFailed);
      }
      var row := PaymentIntentRoute.PendingRow(newPaymentId, projectId, amountCents, intent.value.id);
      if !CanInsertPayment(projects, payments, row) {
        return Error(500, PaymentIntentRoute.IntentFailed);
      }
      payments := payments + [row];
      return Json(PaymentIntentRoute.Secret(intent.value.clientSecret));
    }

    /** `updateMany` for a completed checkout: the rows with the session id, one at a time. */
    method MarkSessionPaid(sessionId: string, intent: Option<string>)
      modifies this`payments
      ensures payments == StripeWebhook.MarkPaid(old(payments), sessionId, intent)
    {
      ghost var before := payments;
      var i := 0;
      while i < |payments|
        invariant 0 <= i <= |payments| == |before|
        invariant forall j :: 0 <= j < i ==> payments[j] == StripeWebhook.MarkPaid(before, sessionId, intent)[j]
        invariant forall j :: i <= j < |payments| ==> payments[j] == before[j]
      {
        if payments[i].stripeSessionId == Some(sessionId) {
          payments := payments[i := payments[i].(status := PAID, paymentIntentId := intent)];
        }
        i := i + 1;
      }
    }

    /** `updateMany` for a failed intent: the rows with the intent id, one at a time. */
    method MarkIntentFailed(intentId: string)
      modifies this`payments
      ensures payments == StripeWebhook.MarkFailed(old(payments), intentId)
    {
      ghost var before := payments;
      var i := 0;
      while i < |payments|
        invariant 0 <= i <= |payments| == |before|
        invariant forall j :: 0 <= j < i ==> payments[j] == StripeWebhook.MarkFailed(before, intentId)[j]
        invariant forall j :: i <= j < |payments| ==> payments[j] == before[j]
      {
        if payments[i].paymentIntentId == Some(intentId) {
          payments := payments[i := payments[i].(status := FAILED)];
        }
        i := i + 1;
      }
    }

    /** `projectForm.update` by id: false (the update throws) when no row has the id. */
    method SetProjectStatus(id: string, status: ProjectStatus) returns (updated: bool)
      requires UniqueProjectIds(projects)
      modifies this`projects
      ensures updated <==> HasProjectId(old(projects), id)
      ensures updated ==> projects == StripeWebhook.WithStatus(old(projects), id, status)
      ensures !updated ==> projects == old(projects)
    {
      var i := 0;
      while i < |projects|
        invariant 0 <= i <= |projects|
        invariant forall j :: 0 <= j < i ==> projects[j].id != id
      {
        if projects[i].id == id {
          var w := StripeWebhook.WithStatus(projects, id, status);
          projects := projects[i := projects[i].(status := status)];
          assert projects == w;
          return true;
        }
        i := i + 1;
      }
      return false;
    }

    /** POST /api/webhooks/stripe. */
    method HandleWebhook(signature: Option<string>, verified: Option<StripeWebhook.Event>)
      returns (reply: Reply<StripeWebhook.Received>)
      requires Valid()
      modifies this`projects, this`payments
      ensures Valid()
      ensures var r := StripeWebhook.HandleWebhook(old(projects), old(payments), signature, verified);
              reply == r.0 && projects == r.1.projects && payments == r.1.payments
    {
      StripeWebhook.HandleWebhookKeepsConsistent(users, projects, payments, signature, verified);
      if !StripeWebhook.HasSignature(signature) {
        return Error(400, "No signature");
      }
      if verified.None? {
        return Error(400, "Invalid signature");
      }
      var failed := Error(500, "Webhook processing failed");
      match verified.value {
        case CheckoutSessionCompleted(sessionId, intent, metadata) =>
          if metadata.None? {
            return failed;
          }
          MarkSessionPaid(sessionId, intent);
          if metadata.value.projectId.None? {
            return failed;
          }
          var updated := SetProjectStatus(metadata.value.projectId.value, IN_PROGRESS);
          if !updated {
            return failed;
          }
        case PaymentIntentFailed(intentId) =>
          MarkIntentFailed(intentId);
        case Unhandled(_) =>
      }
      return Json(StripeWebhook.Received);
    }

    /** The dashboard's page load: the user upsert, then the caller's listing. */
    method VisitDashboard(caller: Option<string>, newUserId: string) returns (page: Dashboard.Page)
      requires Valid()
      modifies this`users
      ensures Valid()
      ensures (page, users) == Dashboard.DashboardPage(old(users), projects, payments, caller, newUserId)
    {
      if !SignedIn(caller) {
        return Dashboard.Redirect;
      }
      var before := users;
      Dashboard.UpsertKeepsConsistent(users, projects, payments, caller.value, Dashboard.PlaceholderEmail, newUserId);
      var found := Dashboard.EmailIndex(users, Dashboard.PlaceholderEmail);
      if found.Some? {
        var i := found.value;
        if Dashboard.ClerkIdHeldElsewhere(users, i, caller.value) {
          return Dashboard.Crash;
        }
        users := users[i := users[i].(clerkId := Some(caller.value))];
      } else {
        var u := Dashboard.Created(newUserId, caller.value, Dashboard.PlaceholderEmail);
        if !CanInsertUser(users, u) {
          return Dashboard.Crash;
        }
        users := users + [u];
      }
      page := Dashboard.DashboardPage(before, projects, payments, caller, newUserId).0;
    }
  }
}
