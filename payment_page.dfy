/**
 * The payment page (app/payment/page.tsx): the loaded project, the chosen option ("full" or
 * "deposit"), the amounts shown, and the request `handlePayment` sends to the payment-intent
 * endpoint. Money is a real number of dollars; the request carries cents.
 *
 * Fetching, toasts and the redirect are not modelled; the fetch's outcome is a parameter.
 */
module PaymentPage {
  import opened Wrappers
  import PaymentIntentRoute

  /** The fields of the loaded project the page uses. */
  datatype ProjectSummary = ProjectSummary(id: string, estimatedCost: real)

  /** The body posted to the payment-intent endpoint. */
  datatype PaymentRequest = PaymentRequest(projectId: string, amountCents: real, paymentType: string)

  /** The amount charged: the whole cost for "full", half of it for any other option. */
  function Charge(cost: real, option: string): (r: real)
    ensures option == "full" ==> r == cost
    ensures option != "full" ==> 2.0 * r == cost
  {
    if option == "full" then cost else cost * 0.5
  }

  /** Dollars to cents. */
  function Cents(amount: real): (r: real)
    ensures r / 100.0 == amount
  {
    amount * 100.0
  }

  /** `fullAmount` and `halfAmount`. */
  function FullAmount(p: ProjectSummary): real { p.estimatedCost }

  function HalfAmount(p: ProjectSummary): real { p.estimatedCost * 0.5 }

  /** The "Payment Amount" line and the button's amount. */
  function DisplayedAmount(p: ProjectSummary, option: string): real
  {
    if option == "full" then FullAmount(p) else HalfAmount(p)
  }

  /** The "Remaining Balance" line: shown for the deposit option only. */
  function RemainingBalance(p: ProjectSummary, option: string): (r: Option<real>)
    ensures r.Some? <==> option == "deposit"
  {
    if option == "deposit" then Some(HalfAmount(p)) else None
  }

  /** The amount shown is the amount charged. */
  lemma DisplayedIsCharged(p: ProjectSummary, option: string)
    ensures DisplayedAmount(p, option) == Charge(p.estimatedCost, option)
  {
  }

  /** For a deposit, what is paid now and the balance shown add up to the full cost. */
  lemma DepositPlusRemainingIsFull(p: ProjectSummary)
    ensures RemainingBalance(p, "deposit").Some?
    ensures DisplayedAmount(p, "deposit") + RemainingBalance(p, "deposit").value == FullAmount(p)
  {
  }

  /** The cents sent: 100 per dollar of cost for "full", 50 for a deposit. */
  lemma ChargeInCents(cost: real, option: string)
    ensures option == "full" ==> Cents(Charge(cost, option)) == 100.0 * cost
    ensures option != "full" ==> Cents(Charge(cost, option)) == 50.0 * cost
  {
  }

  /**
   * The payment row the endpoint stores for this request holds the amount charged, in dollars:
   * the endpoint's division by 100 undoes the page's multiplication.
   */
  lemma StoredAmountIsCharge(p: ProjectSummary, option: string, rowId: string, intentId: string)
    ensures PaymentIntentRoute.PendingRow(rowId, p.id, Cents(Charge(p.estimatedCost, option)), intentId).amount
            == Charge(p.estimatedCost, option)
  {
  }

  class PaymentForm {
    var project: Option<ProjectSummary>
    var paymentOption: string
    var loading: bool
    var isLoading: bool

    /** The page's initial state: nothing loaded yet, option "full". */
    constructor ()
      ensures project.None? && paymentOption == "full" && !loading && isLoading
    {
      project := None;
      paymentOption := "full";
      loading := false;
      isLoading := true;
    }

    /** `fetchProject`: the project on success; either way loading ends. */
    method FetchProject(fetched: Option<ProjectSummary>)
      modifies this`project, this`isLoading
      ensures fetched.Some? ==> project == fetched
      ensures fetched.None? ==> project == old(project)
      ensures !isLoading
    {
      if fetched.Some? {
        project := fetched;
      }
      isLoading := false;
    }

    method SelectOption(option: string)
      modifies this`paymentOption
      ensures paymentOption == option
    {
      paymentOption := option;
    }

    /**
     * `handlePayment`: nothing without a project; otherwise the request for the charge in
     * cents, after which the button is enabled again.
     */
    method HandlePayment() returns (request: Option<PaymentRequest>)
      modifies this`loading
      ensures old(project).None? ==> request.None? && loading == old(loading)
      ensures old(project).Some? ==>
        && request == Some(PaymentRequest(project.value.id, Cents(Charge(project.value.estimatedCost, paymentOption)), paymentOption))
        && !loading
    {
      if project.None? {
        return None;
      }
      loading := true;
      var amount := if paymentOption == "full" then project.value.estimatedCost else project.value.estimatedCost * 0.5;
      request := Some(PaymentRequest(project.value.id, amount * 100.0, paymentOption));
      loading := false;
    }
  }
}
