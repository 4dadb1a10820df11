/**
 * The pages' badge lookup tables. Each is `styles[key] || styles[fallback]`: a known key picks its
 * entry and any other value falls back to one fixed entry.
 */
module Badges {

  const StatusStyles: map<string, string> :=
    map["active" := "status-active", "claimed" := "status-claimed", "resolved" := "status-resolved"]

  const UrgencyStyles: map<string, string> :=
    map["high" := "urgency-high", "medium" := "urgency-medium", "low" := "urgency-low"]

  /** The colour pairs the browse and detail pages use for urgency. */
  const UrgencyTones: map<string, string> :=
    map["high" := "bg-red-100 text-red-800", "medium" := "bg-yellow-100 text-yellow-800",
        "low" := "bg-green-100 text-green-800"]

  /** The colour pairs the browse and detail pages use for condition. */
  const ConditionTones: map<string, string> :=
    map["excellent" := "bg-green-100 text-green-800", "good" := "bg-blue-100 text-blue-800",
        "fair" := "bg-yellow-100 text-yellow-800", "poor" := "bg-red-100 text-red-800"]

  /** The pill classes in front of a tone: the browse cards' small pill and the detail page's large one. */
  const SmallPill: string := "px-2 py-1 rounded-full text-xs font-medium "
  const LargePill: string := "px-3 py-1 rounded-full text-sm font-medium "

  function Lookup(styles: map<string, string>, key: string, fallback: string): (r: string)
    requires fallback in styles
    ensures key in styles ==> r == styles[key]
    ensures key !in styles ==> r == styles[fallback]
    ensures r in styles.Values
  {
    if key in styles then styles[key] else styles[fallback]
  }

  /** The dashboard's status badge: a known status picks its own class, anything else `status-active`. */
  function StatusBadge(status: string): (r: string)
    ensures status in {"active", "claimed", "resolved"} ==> r == "status-" + status
    ensures status !in {"active", "claimed", "resolved"} ==> r == "status-active"
  {
    Lookup(StatusStyles, status, "active")
  }

  /** The badge names the status itself exactly when the status is one the table knows. */
  lemma StatusBadgeNamesKnownStatus(status: string)
    ensures StatusBadge(status) == "status-" + status <==> status in {"active", "claimed", "resolved"}
  {
    if status !in {"active", "claimed", "resolved"} {
      assert StatusBadge(status)[7..] == "active";
      assert ("status-" + status)[7..] == status;
    }
  }

  /** The dashboard's urgency badge: a known urgency picks `urgency-<urgency>`, anything else `urgency-medium`. */
  function DashboardUrgencyBadge(urgency: string): (r: string)
    ensures urgency in {"high", "medium", "low"} ==> r == SmallPill + "urgency-" + urgency
    ensures urgency !in {"high", "medium", "low"} ==> r == SmallPill + "urgency-medium"
  {
    SmallPill + Lookup(UrgencyStyles, urgency, "medium")
  }

  /** The pill prefix followed by the urgency tone; unknown urgencies get the medium tone. */
  function UrgencyBadge(pill: string, urgency: string): (r: string)
    ensures urgency in UrgencyTones ==> r == pill + UrgencyTones[urgency]
    ensures urgency !in UrgencyTones ==> r == pill + UrgencyTones["medium"]
  {
    pill + Lookup(UrgencyTones, urgency, "medium")
  }

  /** The pill prefix followed by the condition tone; unknown conditions get the "good" tone. */
  function ConditionBadge(pill: string, condition: string): (r: string)
    ensures condition in ConditionTones ==> r == pill + ConditionTones[condition]
    ensures condition !in ConditionTones ==> r == pill + ConditionTones["good"]
  {
    pill + Lookup(ConditionTones, condition, "good")
  }
}
