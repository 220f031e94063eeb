/**
 * The figures the dashboard (app/dashboard/page.tsx) and the admin page (app/admin/page.tsx)
 * compute from a project listing, which both pages write out identically: the total of PAID
 * payment amounts (a reduce over projects of a filter-and-reduce over their payments), the
 * number of projects in a status, and the status shown for a project's payments.
 *
 * Amounts are reals (the sums are exact; the pages add JavaScript numbers).
 */
module Aggregates {
  import opened Wrappers
  import opened Records
  import StripeWebhook

  // ---------------------------------------------------------------------------------------
  // Sums and counts over sequences, and why their order does not matter

  function Sum<T>(xs: seq<T>, f: T -> real): real
  {
    if xs == [] then 0.0 else f(xs[0]) + Sum(xs[1..], f)
  }

  function Count<T>(xs: seq<T>, p: T -> bool): (n: nat)
    ensures n <= |xs|
  {
    if xs == [] then 0 else (if p(xs[0]) then 1 else 0) + Count(xs[1..], p)
  }

  lemma {:induction false} SumAppend<T>(xs: seq<T>, ys: seq<T>, f: T -> real)
    ensures Sum(xs + ys, f) == Sum(xs, f) + Sum(ys, f)
  {
    if xs == [] {
      assert xs + ys == ys;
    } else {
      assert (xs + ys)[1..] == xs[1..] + ys;
      SumAppend(xs[1..], ys, f);
    }
  }

  lemma {:induction false} CountAppend<T>(xs: seq<T>, ys: seq<T>, p: T -> bool)
    ensures Count(xs + ys, p) == Count(xs, p) + Count(ys, p)
  {
    if xs == [] {
      assert xs + ys == ys;
    } else {
      assert (xs + ys)[1..] == xs[1..] + ys;
      CountAppend(xs[1..], ys, p);
    }
  }

  /** ys with its element at k taken out, and the multiset facts that go with it. */
  lemma Split<T>(ys: seq<T>, k: nat)
    requires k < |ys|
    ensures ys == ys[..k] + [ys[k]] + ys[k + 1..]
    ensures multiset(ys) == multiset(ys[..k] + ys[k + 1..]) + multiset{ys[k]}
  {
    assert ys == ys[..k] + [ys[k]] + ys[k + 1..];
  }

  lemma MultisetCancel<T>(a: multiset<T>, b: multiset<T>, x: T)
    requires a + multiset{x} == b + multiset{x}
    ensures a == b
  {
    forall e ensures a[e] == b[e] {
      assert (a + multiset{x})[e] == (b + multiset{x})[e];
    }
  }

  /** A sum does not depend on the order of its terms. */
  lemma {:induction false} SumPermutation<T>(xs: seq<T>, ys: seq<T>, f: T -> real)
    requires multiset(xs) == multiset(ys)
    ensures Sum(xs, f) == Sum(ys, f)
  {
    if xs == [] {
      assert |multiset(ys)| == 0;
    } else {
      assert xs == [xs[0]] + xs[1..];
      assert xs[0] in multiset(ys);
      var k :| 0 <= k < |ys| && ys[k] == xs[0];
      Split(ys, k);
      var rest := ys[..k] + ys[k + 1..];
      assert multiset(xs[1..]) + multiset{xs[0]} == multiset(rest) + multiset{xs[0]};
      MultisetCancel(multiset(xs[1..]), multiset(rest), xs[0]);
      SumPermutation(xs[1..], rest, f);
      SumAppend(ys[..k] + [ys[k]], ys[k + 1..], f);
      SumAppend(ys[..k], [ys[k]], f);
      SumAppend(ys[..k], ys[k + 1..], f);
    }
  }

  /** Neither does a count. */
  lemma {:induction false} CountPermutation<T>(xs: seq<T>, ys: seq<T>, p: T -> bool)
    requires multiset(xs) == multiset(ys)
    ensures Count(xs, p) == Count(ys, p)
  {
    if xs == [] {
      assert |multiset(ys)| == 0;
    } else {
      assert xs == [xs[0]] + xs[1..];
      assert xs[0] in multiset(ys);
      var k :| 0 <= k < |ys| && ys[k] == xs[0];
      Split(ys, k);
      var rest := ys[..k] + ys[k + 1..];
      assert multiset(xs[1..]) + multiset{xs[0]} == multiset(rest) + multiset{xs[0]};
      MultisetCancel(multiset(xs[1..]), multiset(rest), xs[0]);
      CountPermutation(xs[1..], rest, p);
      CountAppend(ys[..k] + [ys[k]], ys[k + 1..], p);
      CountAppend(ys[..k], [ys[k]], p);
      CountAppend(ys[..k], ys[k + 1..], p);
    }
  }

  lemma {:induction false} SumPointwise<T>(xs: seq<T>, f: T -> real, g: T -> real, h: T -> real)
    requires forall x :: x in xs ==> f(x) == g(x) + h(x)
    ensures Sum(xs, f) == Sum(xs, g) + Sum(xs, h)
  {
    if xs != [] {
      SumPointwise(xs[1..], f, g, h);
    }
  }

  // ---------------------------------------------------------------------------------------
  // Revenue

  /** What one payment adds to a total: its amount when PAID, else nothing. */
  function PaidPart(x: Payment): real
  {
    if x.status == PAID then x.amount else 0.0
  }

  /** `payments.filter(p => p.status === "PAID").reduce((s, p) => s + p.amount, 0)`. */
  function PaidSum(xs: seq<Payment>): real
  {
    Sum(xs, PaidPart)
  }

  function ProjectPaid(v: ProjectView): real
  {
    PaidSum(v.payments)
  }

  /** `totalSpent` / `totalRevenue`: the per-project paid totals added up over the listing. */
  function TotalPaid(views: seq<ProjectView>): real
  {
    Sum(views, ProjectPaid)
  }

  /** The payments whose project is in ps, in table order. */
  function LinkedTo(payments: seq<Payment>, ps: seq<Project>): (r: seq<Payment>)
    ensures forall x :: x in r <==> x in payments && HasProjectId(ps, x.projectFormId)
  {
    if payments == [] then []
    else if HasProjectId(ps, payments[0].projectFormId) then [payments[0]] + LinkedTo(payments[1..], ps)
    else LinkedTo(payments[1..], ps)
  }

  /** A payment that is not PAID adds nothing, whatever else it holds. */
  lemma {:induction false} PaidSumIgnoresUnpaid(xs: seq<Payment>, i: nat, y: Payment)
    requires i < |xs| && xs[i].status != PAID && y.status != PAID
    ensures PaidSum(xs[i := y]) == PaidSum(xs)
  {
    if i > 0 {
      assert xs[i := y][1..] == xs[1..][i - 1 := y];
      PaidSumIgnoresUnpaid(xs[1..], i - 1, y);
    }
  }

  /** One payment x counted for each project in ps whose id is x's project: once, if any. */
  lemma {:induction false} SumSingleMatch(ps: seq<Project>, x: Payment)
    requires UniqueProjectIds(ps)
    ensures Sum(ps, (p: Project) => if x.projectFormId == p.id then PaidPart(x) else 0.0)
            == if HasProjectId(ps, x.projectFormId) then PaidPart(x) else 0.0
  {
    if ps != [] {
      SumSingleMatch(ps[1..], x);
      if ps[0].id == x.projectFormId {
        forall k | 0 <= k < |ps[1..]| ensures ps[1..][k].id != x.projectFormId {
          assert ps[1..][k] == ps[k + 1];
        }
      } else {
        assert HasProjectId(ps, x.projectFormId) <==> HasProjectId(ps[1..], x.projectFormId) by {
          if HasProjectId(ps, x.projectFormId) {
            var k :| 0 <= k < |ps| && ps[k].id == x.projectFormId;
            assert ps[1..][k - 1] == ps[k];
          }
          if HasProjectId(ps[1..], x.projectFormId) {
            var k :| 0 <= k < |ps[1..]| && ps[1..][k].id == x.projectFormId;
            assert ps[k + 1] == ps[1..][k];
          }
        }
      }
    }
  }

  function PaidFor(payments: seq<Payment>): Project -> real
  {
    (p: Project) => PaidSum(PaymentsOf(payments, p.id))
  }

  /**
   * Adding up, project by project, the PAID amounts of each project's payments gives the PAID
   * amounts of the payments that belong to one of those projects, each counted once.
   */
  lemma {:induction false} ExchangeSums(ps: seq<Project>, payments: seq<Payment>)
    requires UniqueProjectIds(ps)
    ensures Sum(ps, PaidFor(payments)) == PaidSum(LinkedTo(payments, ps))
  {
    if payments == [] {
      SumOfZero(ps, PaidFor(payments));
    } else {
      var x := payments[0];
      var rest := payments[1..];
      var one := (p: Project) => if x.projectFormId == p.id then PaidPart(x) else 0.0;
      forall p | p in ps ensures PaidFor(payments)(p) == one(p) + PaidFor(rest)(p) {
        if x.projectFormId == p.id {
          assert PaymentsOf(payments, p.id) == [x] + PaymentsOf(rest, p.id);
        }
      }
      SumPointwise(ps, PaidFor(payments), one, PaidFor(rest));
      SumSingleMatch(ps, x);
      ExchangeSums(ps, rest);
    }
  }

  lemma {:induction false} SumOfZero<T>(xs: seq<T>, f: T -> real)
    requires forall x :: x in xs ==> f(x) == 0.0
    ensures Sum(xs, f) == 0.0
  {
    if xs != [] {
      SumOfZero(xs[1..], f);
    }
  }

  lemma {:induction false} TotalOfAttach(ps: seq<Project>, payments: seq<Payment>)
    ensures TotalPaid(Attach(ps, payments)) == Sum(ps, PaidFor(payments))
  {
    if ps != [] {
      assert Attach(ps, payments)[1..] == Attach(ps[1..], payments);
      TotalOfAttach(ps[1..], payments);
    }
  }

  lemma {:induction false} OwnedByKeepsUnique(ps: seq<Project>, userId: string)
    requires UniqueProjectIds(ps)
    ensures UniqueProjectIds(OwnedBy(ps, userId))
  {
    if ps != [] {
      OwnedByKeepsUnique(ps[1..], userId);
      var tail := OwnedBy(ps[1..], userId);
      if ps[0].userId == userId {
        forall k | 0 <= k < |tail| ensures tail[k].id != ps[0].id {
          assert tail[k] in ps[1..];
          var m :| 0 <= m < |ps[1..]| && ps[1..][m] == tail[k];
          assert ps[m + 1] == tail[k];
        }
        var r := [ps[0]] + tail;
        forall i, j | 0 <= i < j < |r| ensures r[i].id != r[j].id {
          if i > 0 { assert r[i] == tail[i - 1]; }
          assert r[j] == tail[j - 1];
        }
      }
    }
  }

  lemma {:induction false} LinkedToAll(projects: seq<Project>, payments: seq<Payment>)
    requires PaymentsLinked(projects, payments)
    ensures LinkedTo(payments, projects) == payments
  {
    if payments != [] {
      assert PaymentsLinked(projects, payments[1..]) by {
        forall i | 0 <= i < |payments[1..]| ensures HasProjectId(projects, payments[1..][i].projectFormId) {
          assert payments[1..][i] == payments[i + 1];
        }
      }
      LinkedToAll(projects, payments[1..]);
    }
  }

  /** The listing's total is the PAID amounts of the payments of the listed projects. */
  lemma TotalOfListing(projects: seq<Project>, payments: seq<Payment>, owner: Option<string>)
    requires UniqueProjectIds(projects)
    ensures var chosen := if owner.Some? then OwnedBy(projects, owner.value) else projects;
            TotalPaid(ProjectsNewestFirst(projects, payments, owner)) == PaidSum(LinkedTo(payments, chosen))
  {
    var chosen := if owner.Some? then OwnedBy(projects, owner.value) else projects;
    if owner.Some? {
      OwnedByKeepsUnique(projects, owner.value);
    }
    var sorted := SortNewestFirst(chosen);
    assert ProjectsNewestFirst(projects, payments, owner) == Attach(sorted, payments);
    TotalOfAttach(sorted, payments);
    SumPermutation(sorted, chosen, PaidFor(payments));
    ExchangeSums(chosen, payments);
  }

  /** The admin page's revenue is the total of every PAID payment in the table. */
  lemma AdminRevenueIsAllPaid(users: seq<User>, projects: seq<Project>, payments: seq<Payment>)
    requires Consistent(users, projects, payments)
    ensures TotalPaid(ProjectsNewestFirst(projects, payments, None)) == PaidSum(payments)
  {
    TotalOfListing(projects, payments, None);
    LinkedToAll(projects, payments);
  }

  /** What a completed checkout adds: the amount of each not-yet-PAID row with its session id. */
  function DueOnSession(sessionId: string): Payment -> real
  {
    (x: Payment) => if x.stripeSessionId == Some(sessionId) && x.status != PAID then x.amount else 0.0
  }

  /** What a failed intent takes away: the amount of each PAID row with its intent id. */
  function PaidOnIntent(intentId: string): Payment -> real
  {
    (x: Payment) => if x.paymentIntentId == Some(intentId) && x.status == PAID then x.amount else 0.0
  }

  /** A completed checkout raises the PAID total by exactly the amounts it marks PAID. */
  lemma {:induction false} PaidSumAfterCheckout(xs: seq<Payment>, sessionId: string, intent: Option<string>)
    ensures PaidSum(StripeWebhook.MarkPaid(xs, sessionId, intent)) == PaidSum(xs) + Sum(xs, DueOnSession(sessionId))
  {
    if xs != [] {
      assert StripeWebhook.MarkPaid(xs, sessionId, intent)[1..] == StripeWebhook.MarkPaid(xs[1..], sessionId, intent);
      PaidSumAfterCheckout(xs[1..], sessionId, intent);
    }
  }

  /** A failed intent lowers it by exactly the PAID amounts it marks FAILED. */
  lemma {:induction false} PaidSumAfterFailure(xs: seq<Payment>, intentId: string)
    ensures PaidSum(StripeWebhook.MarkFailed(xs, intentId)) == PaidSum(xs) - Sum(xs, PaidOnIntent(intentId))
  {
    if xs != [] {
      assert StripeWebhook.MarkFailed(xs, intentId)[1..] == StripeWebhook.MarkFailed(xs[1..], intentId);
      PaidSumAfterFailure(xs[1..], intentId);
    }
  }

  // ---------------------------------------------------------------------------------------
  // Counts

  function HasStatus(s: ProjectStatus): ProjectView -> bool
  {
    (v: ProjectView) => v.project.status == s
  }

  /** `projects.filter(p => p.status === s).length`. */
  function CountStatus(views: seq<ProjectView>, s: ProjectStatus): nat
  {
    Count(views, HasStatus(s))
  }

  /** The count over a listing is the count over the projects listed, whatever their order. */
  lemma {:induction false} CountOfAttach(ps: seq<Project>, payments: seq<Payment>, s: ProjectStatus)
    ensures CountStatus(Attach(ps, payments), s) == Count(ps, (p: Project) => p.status == s)
  {
    if ps != [] {
      assert Attach(ps, payments)[1..] == Attach(ps[1..], payments);
      CountOfAttach(ps[1..], payments, s);
    }
  }

  lemma CountOfListing(projects: seq<Project>, payments: seq<Payment>, owner: Option<string>, s: ProjectStatus)
    ensures var chosen := if owner.Some? then OwnedBy(projects, owner.value) else projects;
            CountStatus(ProjectsNewestFirst(projects, payments, owner), s) == Count(chosen, (p: Project) => p.status == s)
  {
    var chosen := if owner.Some? then OwnedBy(projects, owner.value) else projects;
    var sorted := SortNewestFirst(chosen);
    assert ProjectsNewestFirst(projects, payments, owner) == Attach(sorted, payments);
    CountOfAttach(sorted, payments, s);
    CountPermutation(sorted, chosen, (p: Project) => p.status == s);
  }

  /** Every project is counted under exactly one of the five statuses. */
  lemma {:induction false} StatusCountsPartition(views: seq<ProjectView>)
    ensures CountStatus(views, DRAFT) + CountStatus(views, SUBMITTED) + CountStatus(views, IN_PROGRESS)
            + CountStatus(views, COMPLETED) + CountStatus(views, CANCELLED) == |views|
  {
    if views != [] {
      StatusCountsPartition(views[1..]);
    }
  }

  // ---------------------------------------------------------------------------------------
  // What a project's card shows

  /**
   * The payment status shown on a card: the first payment's status, or the page's text for a
   * project with none ("Pending" on the dashboard, "No Payment" on the admin page).
   */
  function FirstPaymentStatus(payments: seq<Payment>, none: string): (r: string)
    ensures payments == [] ==> r == none
    ensures payments != [] ==> r == payments[0].status.Name() && r in {"PENDING", "PAID", "FAILED", "PARTIAL"}
  {
    if payments == [] then none else payments[0].status.Name()
  }
}
