/**
 * The classifier and the maps-link builder use different lists of serious
 * labels. These lemmas pin down exactly where the two disagree.
 */
module CrossFile {
  import opened EmergencyData
  import opened Hospitals

  /** "Unconscious Person" is critical, yet its link searches for an
      ordinary hospital. */
  lemma UnconsciousPersonCriticalWithoutTraumaSearch()
    ensures ClassifySeverity("Unconscious Person") == Critical
    ensures SearchQuery("Unconscious Person") == DefaultQuery
  {
  }

  /** "Chest Pain" and "Breathing Problem" get a trauma search, yet are
      classified HIGH. */
  lemma TraumaSearchWithoutCriticalTier()
    ensures SearchQuery("Chest Pain") == TraumaQuery && ClassifySeverity("Chest Pain") == High
    ensures SearchQuery("Breathing Problem") == TraumaQuery && ClassifySeverity("Breathing Problem") == High
  {
  }

  /** The two decisions disagree for exactly three labels; for every other
      string, critical and trauma search go together. */
  lemma DisagreementIsExactlyThreeLabels(emergency: string)
    ensures (ClassifySeverity(emergency) == Critical) != (SearchQuery(emergency) == TraumaQuery)
        <==> emergency == "Unconscious Person" || emergency == "Chest Pain" || emergency == "Breathing Problem"
  {
  }
}
