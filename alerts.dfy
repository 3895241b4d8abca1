/** The alerts feed (src/app/components/AlertsScreen.tsx): a fixed list of
    alerts, the four per-type counts of the summary cards, the rule for the
    "Escalate Now" button, the badge text and the card colour. Each alert's
    type is a stored field; nothing derives it from the days pending. */
module Alerts {
  import opened Common

  /** `'critical' | 'warning' | 'escalation' | 'sla-breach'`. */
  datatype AlertType = Critical | Warning | Escalation | SlaBreach

  /** The string the source stores for each type. */
  function TypeName(t: AlertType): string
  {
    match t
    case Critical => "critical"
    case Warning => "warning"
    case Escalation => "escalation"
    case SlaBreach => "sla-breach"
  }

  /** `Alert`, without its free-text `message` and relative `timestamp`. */
  datatype Alert = Alert(
    id: string,
    kind: AlertType,
    fileId: string,
    subject: string,
    department: string,
    officer: string,
    daysPending: nat,
    priority: Priority)

  /** `alertsData`. */
  const AlertsData: seq<Alert> := [
    Alert("ALT-001", Critical, "FN-2024-004", "Legal Opinion Request", "Legal", "A. Lakshmi", 8, High),
    Alert("ALT-002", SlaBreach, "FN-2024-003", "Pension Disbursement", "Welfare", "R. Selvam", 6, High),
    Alert("ALT-003", Warning, "FN-2024-007", "Road Development Clearance", "Planning", "M. Priya", 5, High),
    Alert("ALT-004", Escalation, "FN-2024-012", "Property Tax Dispute", "Revenue", "S. Kumar", 7, Medium),
    Alert("ALT-005", Warning, "FN-2024-015", "Building Permit Extension", "Planning", "V. Ganesh", 4, Medium)
  ]

  /** `alertsData.filter(a => a.type === t).length`. */
  function CountOf(alerts: seq<Alert>, t: AlertType): (n: nat)
    ensures n <= |alerts|
  {
    |Filter(alerts, (a: Alert) => a.kind == t)|
  }

  /** A count is positive exactly when some alert has that type. */
  lemma {:induction false} CountPositive(alerts: seq<Alert>, t: AlertType)
    ensures CountOf(alerts, t) > 0 <==> exists i :: 0 <= i < |alerts| && alerts[i].kind == t
    decreases |alerts|
  {
    if alerts != [] {
      CountPositive(alerts[1..], t);
      if alerts[0].kind != t && CountOf(alerts[1..], t) > 0 {
        var i :| 0 <= i < |alerts[1..]| && alerts[1..][i].kind == t;
        assert alerts[i + 1].kind == t;
      }
      if exists i :: 0 <= i < |alerts| && alerts[i].kind == t {
        var i :| 0 <= i < |alerts| && alerts[i].kind == t;
        if i > 0 {
          assert alerts[1..][i - 1].kind == t;
        }
      }
    }
  }

  /** Every alert has one of the four types, so the four summary cards
      together count every alert exactly once. */
  lemma {:induction false} CountsSum(alerts: seq<Alert>)
    ensures CountOf(alerts, Critical) + CountOf(alerts, SlaBreach) + CountOf(alerts, Warning)
          + CountOf(alerts, Escalation) == |alerts|
    decreases |alerts|
  {
    if alerts != [] {
      CountsSum(alerts[1..]);
    }
  }

  lemma FixtureCriticalCount()
    ensures CountOf(AlertsData, Critical) == 1
  {
  }

  lemma FixtureSlaBreachCount()
    ensures CountOf(AlertsData, SlaBreach) == 1
  {
  }

  lemma FixtureWarningCount()
    ensures CountOf(AlertsData, Warning) == 2
  {
  }

  lemma FixtureEscalationCount()
    ensures CountOf(AlertsData, Escalation) == 1
  {
  }

  /** The cards show one critical delay, one SLA breach, two warnings and
      one escalation, five alerts in all. */
  lemma FixtureCounts()
    ensures |AlertsData| == 5
    ensures CountOf(AlertsData, Critical) == 1 && CountOf(AlertsData, SlaBreach) == 1
    ensures CountOf(AlertsData, Warning) == 2 && CountOf(AlertsData, Escalation) == 1
  {
    FixtureCriticalCount();
    FixtureSlaBreachCount();
    FixtureWarningCount();
    FixtureEscalationCount();
  }

  /** `alert.type !== 'escalation'`: the "Escalate Now" button is shown. */
  predicate EscalateNowOffered(a: Alert)
  {
    TypeName(a.kind) != "escalation"
  }

  /** The button is offered for every type but an escalation; in the sample
      feed only `ALT-004` lacks it. */
  lemma EscalateNowRule(a: Alert)
    ensures EscalateNowOffered(a) <==> a.kind != Escalation
    ensures a in AlertsData ==> (EscalateNowOffered(a) <==> a.id != "ALT-004")
  {
  }

  /** `s.replace(from, to)` with a one-character string pattern: only the
      first occurrence is replaced. */
  function ReplaceFirst(s: string, from: char, to: char): (r: string)
    ensures |r| == |s|
  {
    if s == [] then []
    else if s[0] == from then [to] + s[1..]
    else [s[0]] + ReplaceFirst(s[1..], from, to)
  }

  /** A string without the pattern is returned unchanged. */
  lemma {:induction false} ReplaceFirstAbsent(s: string, from: char, to: char)
    requires from !in s
    ensures ReplaceFirst(s, from, to) == s
    decreases |s|
  {
    if s != [] {
      assert from !in s[1..] by {
        forall i | 0 <= i < |s[1..]| ensures s[1..][i] != from {
          assert s[1..][i] == s[i + 1];
        }
      }
      ReplaceFirstAbsent(s[1..], from, to);
    }
  }

  /** With the first occurrence at `k`, exactly that character changes:
      everything before it, and every later occurrence, is kept. */
  lemma {:induction false} ReplaceFirstAt(s: string, from: char, to: char, k: nat)
    requires k < |s| && s[k] == from
    requires forall i :: 0 <= i < k ==> s[i] != from
    ensures ReplaceFirst(s, from, to) == s[..k] + [to] + s[k + 1..]
    decreases k
  {
    if k > 0 {
      assert s[1..][k - 1] == from;
      ReplaceFirstAt(s[1..], from, to, k - 1);
      assert s[..k] == [s[0]] + s[1..][..k - 1];
      assert s[1..][k - 1 + 1..] == s[k + 1..];
    }
  }

  /** The badge text, `alert.type.replace('-', ' ')` (upper-cased by its
      CSS, which is not modelled). */
  function BadgeLabel(t: AlertType): string
  {
    ReplaceFirst(TypeName(t), '-', ' ')
  }

  /** `sla-breach` reads `sla breach`: its one hyphen becomes a space. */
  lemma BadgeLabelSlaBreach()
    ensures BadgeLabel(SlaBreach) == "sla breach"
  {
    ReplaceFirstAt("sla-breach", '-', ' ', 3);
  }

  /** The hyphen-free types read as stored. */
  lemma BadgeLabelPlain(t: AlertType)
    requires t != SlaBreach
    ensures BadgeLabel(t) == TypeName(t)
  {
    ReplaceFirstAbsent(TypeName(t), '-', ' ');
  }

  /** `getAlertColor(type)`: the card's colour classes for a type string. */
  function AlertColour(name: string): string
  {
    if name == "critical" then "bg-red-50 border-red-300"
    else if name == "sla-breach" then "bg-orange-50 border-orange-300"
    else if name == "warning" then "bg-amber-50 border-amber-300"
    else if name == "escalation" then "bg-blue-50 border-blue-300"
    else "bg-slate-50 border-slate-300"
  }

  /** The default colour of `getAlertColor`. */
  const DefaultColour: string := "bg-slate-50 border-slate-300"

  /** The four types get four different colours, none of them the default,
      which every other string gets. */
  lemma AlertColoursDistinct(t: AlertType, u: AlertType, name: string)
    ensures AlertColour(TypeName(t)) == AlertColour(TypeName(u)) <==> t == u
    ensures AlertColour(TypeName(t)) != DefaultColour
    ensures (forall v: AlertType :: name != TypeName(v)) ==> AlertColour(name) == DefaultColour
  {
    if forall v: AlertType :: name != TypeName(v) {
      assert name != TypeName(Critical) && name != TypeName(SlaBreach);
      assert name != TypeName(Warning) && name != TypeName(Escalation);
    }
  }
}
