/**
 * The payment-intent endpoint (app/api/create-payment-intent/route.ts): for a signed-in caller,
 * an intent is created at the payment provider for `amount` cents, then a PENDING payment row is
 * inserted for `projectId` with the amount converted back to dollars. The caller is not checked
 * against the project's owner.
 *
 * The provider call is not modelled: its outcome is the `intent` parameter (None when it threw).
 * The insert fails, and the reply is 500, when the fresh row id is taken or the project does not
 * exist (the foreign key). The state change is applied in place by
 * `Store.Database.CreatePaymentIntent`.
 */
module PaymentIntentRoute {
  import opened Wrappers
  import opened Records
  import StripeWebhook

  const IntentFailed := "Failed to create payment intent"

  /** What the provider returns for a created intent. */
  datatype Intent = Intent(id: string, clientSecret: Option<string>)

  datatype Secret = Secret(clientSecret: Option<string>)

  datatype Inserted = Inserted(reply: Reply<Secret>, payments: seq<Payment>)

  /** The row the handler inserts. */
  function PendingRow(id: string, projectId: string, amountCents: real, intentId: string): (x: Payment)
    ensures x.status == PENDING && x.amount * 100.0 == amountCents
    ensures x.projectFormId == projectId && x.paymentIntentId == Some(intentId) && x.stripeSessionId.None?
  {
    Payment(id, projectId, amountCents / 100.0, Some(intentId), None, PENDING)
  }

  function CreatePaymentIntent(projects: seq<Project>, payments: seq<Payment>, caller: Option<string>,
                               projectId: string, amountCents: real, intent: Option<Intent>,
                               newPaymentId: string): (r: Inserted)
    ensures !SignedIn(caller) ==> r == Inserted(Error(401, "Unauthorized"), payments)
    // no intent, no row
    ensures SignedIn(caller) && intent.None? ==> r == Inserted(Error(500, IntentFailed), payments)
    ensures r.reply.Error? ==> r.payments == payments && r.reply.status in {401, 500}
    ensures r.reply.Json? <==>
      SignedIn(caller) && intent.Some? && CanInsertPayment(projects, payments, PendingRow(newPaymentId, projectId, amountCents, intent.value.id))
    ensures r.reply.Json? ==>
      && r.payments == payments + [PendingRow(newPaymentId, projectId, amountCents, intent.value.id)]
      && r.reply.body == Secret(intent.value.clientSecret)
  {
    if !SignedIn(caller) then Inserted(Error(401, "Unauthorized"), payments)
    else if intent.None? then Inserted(Error(500, IntentFailed), payments)
    else
      var row := PendingRow(newPaymentId, projectId, amountCents, intent.value.id);
      if CanInsertPayment(projects, payments, row) then Inserted(Json(Secret(intent.value.clientSecret)), payments + [row])
      else Inserted(Error(500, IntentFailed), payments)
  }

  /** The handler keeps the store's keys and foreign keys. */
  lemma CreatePaymentIntentKeepsConsistent(users: seq<User>, projects: seq<Project>, payments: seq<Payment>,
                                           caller: Option<string>, projectId: string, amountCents: real,
                                           intent: Option<Intent>, newPaymentId: string)
    requires Consistent(users, projects, payments)
    ensures Consistent(users, projects, CreatePaymentIntent(projects, payments, caller, projectId, amountCents, intent, newPaymentId).payments)
  {
    var r := CreatePaymentIntent(projects, payments, caller, projectId, amountCents, intent, newPaymentId);
    if r.reply.Json? {
      InsertPaymentKeepsConsistent(users, projects, payments, PendingRow(newPaymentId, projectId, amountCents, intent.value.id));
    }
  }

  /**
   * The inserted row has no session id, so a completed checkout (which matches on session id)
   * never marks it PAID; only a failed-intent event with its intent id can change it.
   */
  lemma PendingRowIgnoredByCheckout(payments: seq<Payment>, id: string, projectId: string, amountCents: real,
                                    intentId: string, sessionId: string, paid: Option<string>)
    ensures var row := PendingRow(id, projectId, amountCents, intentId);
      && StripeWebhook.MarkPaid(payments + [row], sessionId, paid) == StripeWebhook.MarkPaid(payments, sessionId, paid) + [row]
      && StripeWebhook.MarkFailed(payments + [row], intentId) == StripeWebhook.MarkFailed(payments, intentId) + [row.(status := FAILED)]
  {
    var row := PendingRow(id, projectId, amountCents, intentId);
    var a := StripeWebhook.MarkPaid(payments + [row], sessionId, paid);
    var b := StripeWebhook.MarkPaid(payments, sessionId, paid) + [row];
    assert |a| == |b|;
    forall i | 0 <= i < |a| ensures a[i] == b[i] {
      if i < |payments| { assert (payments + [row])[i] == payments[i]; }
    }
    var c := StripeWebhook.MarkFailed(payments + [row], intentId);
    var d := StripeWebhook.MarkFailed(payments, intentId) + [row.(status := FAILED)];
    assert |c| == |d|;
    forall i | 0 <= i < |c| ensures c[i] == d[i] {
      if i < |payments| { assert (payments + [row])[i] == payments[i]; }
    }
  }
}
