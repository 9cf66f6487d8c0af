# Golden Hour decision core in Dafny

Golden Hour is a small emergency-guidance app. Its two decisions are pure
functions over an emergency label. This project models both and proves
what they decide:

- **Severity classifier** (`classify_severity`, module `EmergencyData`). A
  label is CRITICAL exactly when it is one of "Road Accident", "Heavy
  Bleeding" and "Unconscious Person". Every other string is HIGH. The
  classifier is total and matching is exact and case-sensitive. The tiers
  are the datatype `Severity = Critical | High`. `SeverityLabel` gives
  the exact strings the Python returns, "CRITICAL" and "HIGH".
- **Maps-link builder** (`get_nearby_hospitals`, module `Hospitals`). Four
  labels ("Road Accident", "Heavy Bleeding", "Chest Pain", "Breathing
  Problem") search for "trauma hospital near me". Every other label
  searches for "hospital near me". Each space in the query becomes `+`,
  and the result goes after `https://www.google.com/maps/search/`. The
  returned dictionary is the datatype `HospitalLink(maps)`, whose only
  field is `maps`.
- **Where the two lists disagree** (module `CrossFile`). The two files use
  different "serious" lists. The lemmas show that they disagree on exactly
  three labels: "Unconscious Person", "Chest Pain" and "Breathing Problem".

Module `Common` models Python's `in` test on a list literal as a
front-to-back scan. It is proved equal to sequence membership.

Both functions are deterministic by construction, because Dafny functions
are. Calling one twice with the same label gives the same answer, so no
lemma is needed for that.

## Model

| member | source | states |
|---|---|---|
| Common.ListContains | emergency_data.py:8 | Python's list `in` (a scan with exact string equality) holds exactly when the label is an element of the list |
| EmergencyData.ClassifySeverity | emergency_data.py:1-11 | result is Critical if and only if the label is in the three-item critical list, High otherwise; total, no error case |
| EmergencyData.SeverityLabel | emergency_data.py:9-11 | the returned string is always "CRITICAL" or "HIGH", and "CRITICAL" exactly for the Critical tier |
| EmergencyData.CriticalExactlyForListedLabels | emergency_data.py:2-9 | the caller's `severity == "CRITICAL"` test succeeds if and only if the label is "Road Accident", "Heavy Bleeding" or "Unconscious Person" |
| EmergencyData.ListedLabelsAreCritical | emergency_data.py:2-9 | each of the three listed labels is CRITICAL |
| EmergencyData.UnlistedLabelsAreHigh | emergency_data.py:8-11 | "Burn Injury", "Chest Pain", "Breathing Problem", "", "road accident" and "ROAD ACCIDENT" are HIGH, so matching is exact and case-sensitive |
| Hospitals.SearchQuery | hospitals.py:2-5 | the query is the trauma query if and only if the label is in the four-item list, the plain query otherwise |
| Hospitals.ReplaceSpaces | hospitals.py:7 | `replace(' ', '+')` keeps the length, leaves no space, keeps every non-space character at its position and puts `+` where each space was |
| Hospitals.PlusesToSpaces | hospitals.py:7 | the inverse of the encoding at this line: keeps the length, turns every `+` into a space, keeps every other character in place and leaves no `+` |
| Hospitals.PlusesToSpacesUndoesReplace | hospitals.py:7 | for a string without `+`, decoding the replaced string gives back the original |
| Hospitals.ReplaceSpacesUndoesPluses | hospitals.py:7 | for a string without spaces, encoding the decoded string gives back the original |
| Hospitals.ReplaceSpacesIdempotent | hospitals.py:7 | replacing spaces twice gives the same string as once |
| Hospitals.GetNearbyHospitals | hospitals.py:1-11 | the URL starts with the maps search prefix, has no space after it, and is as long as the prefix plus the chosen query |
| Hospitals.QueryOfLink | hospitals.py:7 | decoder for the URL built at this line: a query comes back exactly when the URL starts with the maps search prefix, and when the rest holds no space, prefix plus the encoded query rebuilds the URL exactly |
| Hospitals.QueryOfNearbyHospitals | hospitals.py:2-7 | the link built for any label decodes to exactly the query chosen for that label |
| Hospitals.TraumaLabelsGetTraumaQuery | hospitals.py:2-3 | each of the four listed labels picks "trauma hospital near me" |
| Hospitals.EncodedTraumaQuery | hospitals.py:3-7 | the trauma query encodes to `trauma+hospital+near+me` |
| Hospitals.EncodedDefaultQuery | hospitals.py:5-7 | the plain query encodes to `hospital+near+me` |
| Hospitals.TraumaLabelsGetTraumaLink | hospitals.py:2-7 | every label in the trauma list gets `https://www.google.com/maps/search/trauma+hospital+near+me` |
| Hospitals.OtherLabelsGetDefaultLink | hospitals.py:4-7 | every other label gets `https://www.google.com/maps/search/hospital+near+me` |
| CrossFile.UnconsciousPersonCriticalWithoutTraumaSearch | emergency_data.py:5 | "Unconscious Person" is CRITICAL, yet the link builder gives it the plain query (hospitals.py:2-5) |
| CrossFile.TraumaSearchWithoutCriticalTier | hospitals.py:2 | "Chest Pain" and "Breathing Problem" get the trauma query, yet classify as HIGH (emergency_data.py:2-6) |
| CrossFile.DisagreementIsExactlyThreeLabels | emergency_data.py:2-8 | CRITICAL and the trauma query go together for every label except exactly "Unconscious Person", "Chest Pain" and "Breathing Problem" |

## Left out

- app.py: the Streamlit page (title, radio widget, dividers, warnings, panic button) is presentation only. It just calls the two functions modelled here.
- app.py wiring defects, not modelled: app.py:3 and app.py:35 import and call `get_nearest_hospital`, but hospitals.py:1 defines `get_nearby_hospitals`. app.py:39-40 read the keys `name` and `distance`, which the returned dictionary never has (`HospitalLink` has only `maps`).
- The URL is only built as a string. Nothing is fetched, so no network behaviour is modelled.
- Python string semantics beyond exact equality on labels and one-character replacement: strings are sequences of characters, with no encoding or normalisation.
- Inputs are strings only. In Python, `classify_severity(None)` returns "HIGH" and `get_nearby_hospitals(42)` returns the plain-query link, because list `in` is false for any non-member. app.py only ever passes a radio-button string, so the model takes `string` labels.
