/**
 * The admin page (app/admin/page.tsx): the gate in front of it, every project newest first, the
 * revenue and the two counts over them, and the text shown on each project's card.
 */
module Admin {
  import opened Wrappers
  import opened Records
  import opened Aggregates
  import Text

  /**
   * `requireAdmin`: None stands for the redirect to the sign-in page. Any caller with a user row
   * is let in; the row's role is not looked at.
   */
  function RequireAdmin(users: seq<User>, caller: Option<string>): (r: Option<User>)
    ensures r.Some? <==> SignedIn(caller) && FindByClerkId(users, caller.value).Some?
    ensures r.Some? ==> r.value in users && r.value.clerkId == caller
  {
    if !SignedIn(caller) then None else FindByClerkId(users, caller.value)
  }

  /**
   * Every user row, whatever its role, passes the gate under its own Clerk id, unless that id is
   * empty and so fails `!userId`.
   */
  lemma {:induction false} AnyUserAdmitted(users: seq<User>, k: nat)
    requires UniqueClerkIds(users) && k < |users| && users[k].clerkId.Some?
    ensures users[k].clerkId.value != "" ==> RequireAdmin(users, users[k].clerkId) == Some(users[k])
    ensures users[k].clerkId.value == "" ==> RequireAdmin(users, users[k].clerkId) == None
  {
    var c := users[k].clerkId.value;
    if k > 0 {
      assert users[0].clerkId != Some(c);
      assert UniqueClerkIds(users[1..]) by {
        forall i, j | 0 <= i < j < |users[1..]| && users[1..][i].clerkId.Some?
          ensures users[1..][i].clerkId != users[1..][j].clerkId
        {
          assert users[1..][i] == users[i + 1] && users[1..][j] == users[j + 1];
        }
      }
      AnyUserAdmitted(users[1..], k - 1);
    }
  }

  datatype AdminView = AdminView(views: seq<ProjectView>, totalRevenue: real, completed: nat, active: nat)

  /** The page: None for the redirect, else every project newest first with the page's figures. */
  function AdminPage(users: seq<User>, projects: seq<Project>, payments: seq<Payment>, caller: Option<string>)
    : (r: Option<AdminView>)
    ensures r.Some? <==> RequireAdmin(users, caller).Some?
    ensures r.Some? ==>
      && NewestFirst(Projects(r.value.views))
      && multiset(Projects(r.value.views)) == multiset(projects)
      && r.value.completed == Count(projects, (p: Project) => p.status == COMPLETED)
      && r.value.active == Count(projects, (p: Project) => p.status == IN_PROGRESS)
      && (Consistent(users, projects, payments) ==> r.value.totalRevenue == PaidSum(payments))
  {
    if RequireAdmin(users, caller).None? then None
    else
      var views := ProjectsNewestFirst(projects, payments, None);
      CountOfListing(projects, payments, None, COMPLETED);
      CountOfListing(projects, payments, None, IN_PROGRESS);
      assert Consistent(users, projects, payments) ==> TotalPaid(views) == PaidSum(payments) by {
        if Consistent(users, projects, payments) {
          AdminRevenueIsAllPaid(users, projects, payments);
        }
      }
      Some(AdminView(views, TotalPaid(views), CountStatus(views, COMPLETED), CountStatus(views, IN_PROGRESS)))
  }

  /** The id badge: the last eight characters of the id, or "N/A" for an empty (falsy) id. */
  function IdBadge(id: string): (r: string)
    ensures id == "" ==> r == "N/A"
    ensures id != "" ==> 0 < |r| <= 8 && |r| <= |id| && id == id[..|id| - |r|] + r
    ensures 8 <= |id| ==> |r| == 8
  {
    if id == "" then "N/A" else Text.LastEight(id)
  }

  /** `project.status.replace("_", " ")`, as both the admin page and the dashboard show it. */
  function StatusText(s: ProjectStatus): (r: string)
    ensures |r| == |s.Name()|
  {
    Text.ReplaceFirstUnderscore(s.Name())
  }

  /** Only IN_PROGRESS has an underscore; it is shown as "IN PROGRESS", the others as stored. */
  lemma StatusTextValues(s: ProjectStatus)
    ensures s == IN_PROGRESS ==> StatusText(s) == "IN PROGRESS"
    ensures s != IN_PROGRESS ==> StatusText(s) == s.Name()
  {
    if s == IN_PROGRESS {
      Text.ReplaceFirstAt(s.Name(), 2);
      assert s.Name()[..2] + " " + s.Name()[3..] == "IN PROGRESS";
    } else {
      assert '_' !in s.Name();
    }
  }

  /** The card's payment status: the first payment's, or "No Payment". */
  function PaymentStatusText(payments: seq<Payment>): (r: string)
    ensures payments == [] ==> r == "No Payment"
    ensures payments != [] ==> r == payments[0].status.Name()
  {
    FirstPaymentStatus(payments, "No Payment")
  }
}
