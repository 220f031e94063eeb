/**
 * The status badge (components/ui/status-badge.tsx): a status string and a badge type
 * ("project" unless given) select a variant, an icon and a label. The colour class names are
 * not part of this model.
 */
module StatusBadge {
  import opened Wrappers
  import opened Records
  import Text

  datatype Variant = Default | Secondary | Destructive | Outline

  datatype Icon = CheckCircle | Clock | AlertCircle | XCircle | FileText | CreditCard

  datatype Config = Config(variant: Variant, icon: Icon, caption: string)

  const PaymentStatusNames: set<string> := {"PAID", "PENDING", "FAILED", "PARTIAL"}
  const ProjectStatusNames: set<string> := {"DRAFT", "SUBMITTED", "IN_PROGRESS", "COMPLETED", "CANCELLED"}

  /** The `type` prop: "project" when it is omitted. */
  function BadgeType(given: Option<string>): (r: string)
    ensures given.None? ==> r == "project"
    ensures given.Some? ==> r == given.value
  {
    if given.None? then "project" else given.value
  }

  /** `getStatusConfig(status, type)`. */
  function GetStatusConfig(status: string, badgeType: string): (r: Config)
    // the payment table, and a status it does not know keeps its own text
    ensures badgeType == "payment" && status !in PaymentStatusNames ==> r == Config(Outline, CreditCard, status)
    // every other type reads the project table; an unknown status has its first "_" replaced
    ensures badgeType != "payment" && status !in ProjectStatusNames ==>
            r == Config(Outline, FileText, Text.ReplaceFirstUnderscore(status))
    ensures badgeType == "payment" && status in PaymentStatusNames ==> r.caption != status
    ensures badgeType != "payment" && status in ProjectStatusNames ==> r.caption != status
  {
    if badgeType == "payment" then
      match status
      case "PAID" => Config(Default, CheckCircle, "Paid")
      case "PENDING" => Config(Secondary, Clock, "Pending")
      case "FAILED" => Config(Destructive, XCircle, "Failed")
      case "PARTIAL" => Config(Secondary, AlertCircle, "Partial")
      case _ => Config(Outline, CreditCard, status)
    else
      match status
      case "DRAFT" => Config(Outline, FileText, "Draft")
      case "SUBMITTED" => Config(Secondary, Clock, "Submitted")
      case "IN_PROGRESS" => Config(Default, AlertCircle, "In Progress")
      case "COMPLETED" => Config(Default, CheckCircle, "Completed")
      case "CANCELLED" => Config(Destructive, XCircle, "Cancelled")
      case _ => Config(Outline, FileText, Text.ReplaceFirstUnderscore(status))
  }

  /** The badge for the props as given. */
  function Badge(status: string, given: Option<string>): (r: Config)
    ensures given.None? && status !in ProjectStatusNames ==> r.caption == Text.ReplaceFirstUnderscore(status)
  {
    GetStatusConfig(status, BadgeType(given))
  }

  function PaymentLabel(s: PaymentStatus): string
  {
    match s
    case PAID => "Paid"
    case PENDING => "Pending"
    case FAILED => "Failed"
    case PARTIAL => "Partial"
  }

  function ProjectLabel(s: ProjectStatus): string
  {
    match s
    case DRAFT => "Draft"
    case SUBMITTED => "Submitted"
    case IN_PROGRESS => "In Progress"
    case COMPLETED => "Completed"
    case CANCELLED => "Cancelled"
  }

  /** Each stored payment status gets its own label on a payment badge. */
  lemma PaymentBadgeLabels(s: PaymentStatus, t: PaymentStatus)
    ensures GetStatusConfig(s.Name(), "payment").caption == PaymentLabel(s)
    ensures s != t ==> GetStatusConfig(s.Name(), "payment").caption != GetStatusConfig(t.Name(), "payment").caption
  {
  }

  /** Each stored project status gets its own label on a project badge, typed or not. */
  lemma ProjectBadgeLabels(s: ProjectStatus, t: ProjectStatus, given: Option<string>)
    requires given.None? || given.value != "payment"
    ensures Badge(s.Name(), given).caption == ProjectLabel(s)
    ensures s != t ==> Badge(s.Name(), given).caption != Badge(t.Name(), given).caption
  {
  }

  /**
   * A payment status given to a badge without `type="payment"` falls through to the project
   * table's default and is shown unchanged (no payment status has an underscore).
   */
  lemma UntypedPaymentStatusShownVerbatim(s: PaymentStatus)
    ensures Badge(s.Name(), None) == Config(Outline, FileText, s.Name())
  {
    assert '_' !in s.Name();
  }
}
