/**
 * The severity classifier: a text is CRITICAL exactly when it is one of a
 * fixed list of three emergency labels, and HIGH otherwise.
 */
module EmergencyData {
  import opened Common

  /** The two tiers the classifier can return. */
  datatype Severity = Critical | High

  /** The labels treated as critical, in the order the source lists them. */
  const CriticalCases: seq<string> := ["Road Accident", "Heavy Bleeding", "Unconscious Person"]

  /** The classifier. It is total: every string, the empty one included,
      gets exactly one of the two tiers. */
  function ClassifySeverity(emergency: string): (tier: Severity)
    ensures tier == Critical <==> emergency in CriticalCases
    ensures tier == High <==> emergency !in CriticalCases
  {
    if ListContains(CriticalCases, emergency) then Critical else High
  }

  /** The exact string the source returns for a tier. */
  function SeverityLabel(tier: Severity): (text: string)
    ensures text == "CRITICAL" || text == "HIGH"
    ensures text == "CRITICAL" <==> tier == Critical
  {
    match tier
    case Critical => "CRITICAL"
    case High => "HIGH"
  }

  /** The caller's test `severity == "CRITICAL"` succeeds exactly for the
      three critical labels, named one by one. */
  lemma CriticalExactlyForListedLabels(emergency: string)
    ensures SeverityLabel(ClassifySeverity(emergency)) == "CRITICAL"
        <==> emergency == "Road Accident" || emergency == "Heavy Bleeding" || emergency == "Unconscious Person"
  {
  }

  /** Each listed text is critical. */
  lemma ListedLabelsAreCritical()
    ensures ClassifySeverity("Road Accident") == Critical
    ensures ClassifySeverity("Heavy Bleeding") == Critical
    ensures ClassifySeverity("Unconscious Person") == Critical
  {
  }

  /** Labels outside the list fall through to HIGH: another selectable
      option, labels the maps-link builder treats as serious, the empty
      string, and a differently cased spelling of a critical text. */
  lemma UnlistedLabelsAreHigh()
    ensures ClassifySeverity("Burn Injury") == High
    ensures ClassifySeverity("Chest Pain") == High
    ensures ClassifySeverity("Breathing Problem") == High
    ensures ClassifySeverity("") == High
    ensures ClassifySeverity("road accident") == High
    ensures ClassifySeverity("ROAD ACCIDENT") == High
  {
  }
}
