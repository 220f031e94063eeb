/**
 * The payment webhook (app/api/webhooks/stripe/route.ts): the signature gate, then a switch on
 * the event type that rewrites matching payment rows (`updateMany`) and, for a completed
 * checkout, one project's status (`update`). The two writes are not in a transaction: when the
 * project write fails the payment rewrite stays, and the handler answers 500.
 *
 * Signature verification is not modelled; its outcome is the `verified` parameter (the event
 * it produced, or None when it threw).
 */
module StripeWebhook {
  import opened Wrappers
  import opened Records

  datatype Metadata = Metadata(projectId: Option<string>, paymentType: Option<string>)

  /** The events the handler distinguishes; any other type is `Unhandled`. */
  datatype Event =
    | CheckoutSessionCompleted(sessionId: string, paymentIntent: Option<string>, metadata: Option<Metadata>)
    | PaymentIntentFailed(intentId: string)
    | Unhandled(eventType: string)

  datatype Received = Received

  /** The tables after a step, with whether the step completed without throwing. */
  datatype Step = Step(ok: bool, projects: seq<Project>, payments: seq<Payment>)

  /**
   * `payment.updateMany({ where: { stripeSessionId }, data: { status: "PAID", paymentIntentId } })`.
   */
  function MarkPaid(payments: seq<Payment>, sessionId: string, intent: Option<string>): (r: seq<Payment>)
    ensures |r| == |payments|
    ensures forall i :: 0 <= i < |r| ==>
      if payments[i].stripeSessionId == Some(sessionId)
      then r[i] == payments[i].(status := PAID, paymentIntentId := intent)
      else r[i] == payments[i]
  {
    if payments == [] then []
    else
      var p := payments[0];
      [if p.stripeSessionId == Some(sessionId) then p.(status := PAID, paymentIntentId := intent) else p]
      + MarkPaid(payments[1..], sessionId, intent)
  }

  /** `payment.updateMany({ where: { paymentIntentId }, data: { status: "FAILED" } })`. */
  function MarkFailed(payments: seq<Payment>, intentId: string): (r: seq<Payment>)
    ensures |r| == |payments|
    ensures forall i :: 0 <= i < |r| ==>
      if payments[i].paymentIntentId == Some(intentId)
      then r[i] == payments[i].(status := FAILED)
      else r[i] == payments[i]
  {
    if payments == [] then []
    else
      var p := payments[0];
      [if p.paymentIntentId == Some(intentId) then p.(status := FAILED) else p]
      + MarkFailed(payments[1..], intentId)
  }

  /**
   * `projectForm.update({ where: { id }, data: { status } })`: None when no row has that id
   * (the update throws).
   */
  function SetStatus(projects: seq<Project>, id: string, status: ProjectStatus): (r: Option<seq<Project>>)
    ensures r.None? <==> !HasProjectId(projects, id)
    ensures r.Some? ==> |r.value| == |projects|
    ensures r.Some? ==> forall i :: 0 <= i < |projects| ==>
      if projects[i].id == id then r.value[i] == projects[i].(status := status) else r.value[i] == projects[i]
  {
    if HasProjectId(projects, id) then Some(WithStatus(projects, id, status)) else None
  }

  function WithStatus(projects: seq<Project>, id: string, status: ProjectStatus): (r: seq<Project>)
    ensures |r| == |projects|
    ensures forall i :: 0 <= i < |projects| ==>
      if projects[i].id == id then r[i] == projects[i].(status := status) else r[i] == projects[i]
  {
    if projects == [] then []
    else
      [if projects[0].id == id then projects[0].(status := status) else projects[0]]
      + WithStatus(projects[1..], id, status)
  }

  /** The switch on the event type, applied to the two tables. */
  function Reconcile(projects: seq<Project>, payments: seq<Payment>, e: Event): (r: Step)
    ensures e.CheckoutSessionCompleted? && e.metadata.None? ==>
      r == Step(false, projects, payments)
    ensures e.CheckoutSessionCompleted? && e.metadata.Some? ==>
      && r.payments == MarkPaid(payments, e.sessionId, e.paymentIntent)
      && (r.ok <==> e.metadata.value.projectId.Some? && HasProjectId(projects, e.metadata.value.projectId.value))
      && (r.ok ==> r.projects == WithStatus(projects, e.metadata.value.projectId.value, IN_PROGRESS))
      && (!r.ok ==> r.projects == projects)
    ensures e.PaymentIntentFailed? ==> r == Step(true, projects, MarkFailed(payments, e.intentId))
    ensures e.Unhandled? ==> r == Step(true, projects, payments)
  {
    match e
    case CheckoutSessionCompleted(sessionId, intent, metadata) =>
      if metadata.None? then Step(false, projects, payments)
      else
        var paid := MarkPaid(payments, sessionId, intent);
        if metadata.value.projectId.None? then Step(false, projects, paid)
        else
          var updated := SetStatus(projects, metadata.value.projectId.value, IN_PROGRESS);
          if updated.None? then Step(false, projects, paid) else Step(true, updated.value, paid)
    case PaymentIntentFailed(intentId) => Step(true, projects, MarkFailed(payments, intentId))
    case Unhandled(_) => Step(true, projects, payments)
  }

  /** The `stripe-signature` header passes `!signature`: it is there and not empty. */
  predicate HasSignature(signature: Option<string>)
  {
    signature.Some? && signature.value != ""
  }

  /** The whole handler: the reply and the tables afterwards. */
  function HandleWebhook(projects: seq<Project>, payments: seq<Payment>, signature: Option<string>, verified: Option<Event>)
    : (r: (Reply<Received>, Step))
    ensures signature.None? || signature.value == "" ==> r == (Error(400, "No signature"), Step(false, projects, payments))
    ensures HasSignature(signature) && verified.None? ==> r == (Error(400, "Invalid signature"), Step(false, projects, payments))
    ensures r.0.Json? <==> HasSignature(signature) && verified.Some? && r.1.ok
    ensures r.0.Error? ==> r.0.status in {400, 500}
    ensures HasSignature(signature) && verified.Some? ==> r.1 == Reconcile(projects, payments, verified.value)
  {
    if !HasSignature(signature) then (Error(400, "No signature"), Step(false, projects, payments))
    else if verified.None? then (Error(400, "Invalid signature"), Step(false, projects, payments))
    else
      var step := Reconcile(projects, payments, verified.value);
      (if step.ok then Json(Received) else Error(500, "Webhook processing failed"), step)
  }

  // ---------------------------------------------------------------------------------------
  // Redelivery is harmless

  lemma {:induction false} MarkPaidIdempotent(payments: seq<Payment>, sessionId: string, intent: Option<string>)
    ensures MarkPaid(MarkPaid(payments, sessionId, intent), sessionId, intent) == MarkPaid(payments, sessionId, intent)
  {
    if payments != [] {
      MarkPaidIdempotent(payments[1..], sessionId, intent);
    }
  }

  lemma {:induction false} MarkFailedIdempotent(payments: seq<Payment>, intentId: string)
    ensures MarkFailed(MarkFailed(payments, intentId), intentId) == MarkFailed(payments, intentId)
  {
    if payments != [] {
      MarkFailedIdempotent(payments[1..], intentId);
    }
  }

  lemma {:induction false} WithStatusIdempotent(projects: seq<Project>, id: string, status: ProjectStatus)
    ensures WithStatus(WithStatus(projects, id, status), id, status) == WithStatus(projects, id, status)
    ensures HasProjectId(WithStatus(projects, id, status), id) <==> HasProjectId(projects, id)
  {
    if projects != [] {
      WithStatusIdempotent(projects[1..], id, status);
    }
    var r := WithStatus(projects, id, status);
    if HasProjectId(projects, id) {
      var i :| 0 <= i < |projects| && projects[i].id == id;
      assert r[i].id == id;
    }
    if HasProjectId(r, id) {
      var i :| 0 <= i < |r| && r[i].id == id;
      assert projects[i].id == id;
    }
  }

  /** Delivering the same event twice leaves the tables, and the outcome, as one delivery does. */
  lemma ReconcileIdempotent(projects: seq<Project>, payments: seq<Payment>, e: Event)
    ensures var once := Reconcile(projects, payments, e);
            Reconcile(once.projects, once.payments, e) == once
  {
    match e
    case CheckoutSessionCompleted(sessionId, intent, metadata) =>
      MarkPaidIdempotent(payments, sessionId, intent);
      if metadata.Some? && metadata.value.projectId.Some? {
        WithStatusIdempotent(projects, metadata.value.projectId.value, IN_PROGRESS);
      }
    case PaymentIntentFailed(intentId) =>
      MarkFailedIdempotent(payments, intentId);
    case Unhandled(_) =>
  }

  /** The same for the whole handler, signature gate included. */
  lemma HandleWebhookIdempotent(projects: seq<Project>, payments: seq<Payment>, signature: Option<string>, verified: Option<Event>)
    ensures var once := HandleWebhook(projects, payments, signature, verified);
            HandleWebhook(once.1.projects, once.1.payments, signature, verified) == once
  {
    if HasSignature(signature) && verified.Some? {
      ReconcileIdempotent(projects, payments, verified.value);
    }
  }

  // ---------------------------------------------------------------------------------------
  // What the updates leave alone

  /** A completed checkout changes only the status and intent of the rows with its session id. */
  lemma MarkPaidFrame(payments: seq<Payment>, sessionId: string, intent: Option<string>, i: nat)
    requires i < |payments|
    ensures var r := MarkPaid(payments, sessionId, intent);
      && r[i].id == payments[i].id && r[i].projectFormId == payments[i].projectFormId
      && r[i].amount == payments[i].amount && r[i].stripeSessionId == payments[i].stripeSessionId
      && (r[i] != payments[i] ==> payments[i].stripeSessionId == Some(sessionId))
      && (payments[i].stripeSessionId == Some(sessionId) ==> r[i].status == PAID && r[i].paymentIntentId == intent)
  {
  }

  /** A failed intent never touches a PAID row's amount and only ever writes FAILED. */
  lemma MarkFailedOnlyFails(payments: seq<Payment>, intentId: string, i: nat)
    requires i < |payments|
    ensures var r := MarkFailed(payments, intentId);
      && r[i].(status := payments[i].status) == payments[i]
      && (r[i].status != payments[i].status ==> r[i].status == FAILED && payments[i].paymentIntentId == Some(intentId))
  {
  }

  /** A completed checkout sets one project's status and no other project changes. */
  lemma CheckoutTouchesOneProject(projects: seq<Project>, payments: seq<Payment>, e: Event, i: nat)
    requires e.CheckoutSessionCompleted? && i < |projects|
    ensures var r := Reconcile(projects, payments, e);
      && |r.projects| == |projects|
      && (r.projects[i] != projects[i] ==>
            r.ok && Some(projects[i].id) == e.metadata.value.projectId && r.projects[i] == projects[i].(status := IN_PROGRESS))
  {
  }

  /** The handler keeps the store's keys and foreign keys: no update writes an id or a link. */
  lemma HandleWebhookKeepsConsistent(users: seq<User>, projects: seq<Project>, payments: seq<Payment>,
                                     signature: Option<string>, verified: Option<Event>)
    requires Consistent(users, projects, payments)
    ensures var r := HandleWebhook(projects, payments, signature, verified).1;
            Consistent(users, r.projects, r.payments)
  {
    var r := HandleWebhook(projects, payments, signature, verified).1;
    assert |r.projects| == |projects| && |r.payments| == |payments|;
    assert forall i :: 0 <= i < |projects| ==> r.projects[i].id == projects[i].id && r.projects[i].userId == projects[i].userId by {
      if HasSignature(signature) && verified.Some? && verified.value.CheckoutSessionCompleted? {
        forall i | 0 <= i < |projects| ensures r.projects[i].id == projects[i].id && r.projects[i].userId == projects[i].userId {
          CheckoutTouchesOneProject(projects, payments, verified.value, i);
        }
      }
    }
    assert forall i :: 0 <= i < |payments| ==>
      r.payments[i].id == payments[i].id && r.payments[i].projectFormId == payments[i].projectFormId;
    forall i | 0 <= i < |r.payments| ensures HasProjectId(r.projects, r.payments[i].projectFormId) {
      var k :| 0 <= k < |projects| && projects[k].id == payments[i].projectFormId;
      assert r.projects[k].id == projects[k].id;
    }
  }

  /**
   * The writes are not atomic: when the project row is missing, the payments are still
   * marked PAID and the reply is 500.
   */
  lemma CheckoutPartialFailure(projects: seq<Project>, payments: seq<Payment>, sig: string, sessionId: string,
                               intent: Option<string>, projectId: string)
    requires sig != "" && !HasProjectId(projects, projectId)
    ensures var e := CheckoutSessionCompleted(sessionId, intent, Some(Metadata(Some(projectId), None)));
      var r := HandleWebhook(projects, payments, Some(sig), Some(e));
      && r.0 == Error(500, "Webhook processing failed")
      && r.1.payments == MarkPaid(payments, sessionId, intent)
      && r.1.projects == projects
  {
  }
}
