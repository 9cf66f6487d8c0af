/**
 * The maps-link builder: a label picks one of two search queries, every
 * space in the query becomes `+`, and the result is a maps search URL held
 * in a record whose only field is `maps`.
 */
module Hospitals {
  import opened Common

  /** The labels for which a trauma hospital is searched for. */
  const TraumaCases: seq<string> := ["Road Accident", "Heavy Bleeding", "Chest Pain", "Breathing Problem"]

  const TraumaQuery: string := "trauma hospital near me"
  const DefaultQuery: string := "hospital near me"

  /** The fixed URL every link starts with. */
  const MapsSearchPrefix: string := "https://www.google.com/maps/search/"

  /** The returned dictionary; `maps` is its one and only key. */
  datatype HospitalLink = HospitalLink(maps: string)

  /** The query chosen for a label. */
  function SearchQuery(emergency: string): (query: string)
    ensures query == TraumaQuery <==> emergency in TraumaCases
    ensures query == DefaultQuery <==> emergency !in TraumaCases
  {
    if ListContains(TraumaCases, emergency) then TraumaQuery else DefaultQuery
  }

  /** `s.replace(' ', '+')`: every space becomes a plus sign and every other
      character stays where it is, so the length is kept. */
  function ReplaceSpaces(s: string): (r: string)
    ensures |r| == |s|
    ensures ' ' !in r
    ensures forall i :: 0 <= i < |s| && s[i] != ' ' ==> r[i] == s[i]
    ensures forall i :: 0 <= i < |s| && s[i] == ' ' ==> r[i] == '+'
  {
    seq(|s|, i requires 0 <= i < |s| => if s[i] == ' ' then '+' else s[i])
  }

  /** The reverse reading of a URL-encoded query: every `+` becomes a space. */
  function PlusesToSpaces(s: string): (r: string)
    ensures |r| == |s|
    ensures '+' !in r
    ensures forall i :: 0 <= i < |s| && s[i] != '+' ==> r[i] == s[i]
    ensures forall i :: 0 <= i < |s| && s[i] == '+' ==> r[i] == ' '
  {
    seq(|s|, i requires 0 <= i < |s| => if s[i] == '+' then ' ' else s[i])
  }

  /** For a query without plus signs, replacing spaces loses nothing: the
      reverse reading recovers it. */
  lemma PlusesToSpacesUndoesReplace(s: string)
    requires '+' !in s
    ensures PlusesToSpaces(ReplaceSpaces(s)) == s
  {
  }

  /** For an encoded string without spaces, decoding loses nothing either:
      replacing spaces again gives it back. */
  lemma ReplaceSpacesUndoesPluses(s: string)
    requires ' ' !in s
    ensures ReplaceSpaces(PlusesToSpaces(s)) == s
  {
  }

  /** Replacing spaces a second time changes nothing. */
  lemma ReplaceSpacesIdempotent(s: string)
    ensures ReplaceSpaces(ReplaceSpaces(s)) == ReplaceSpaces(s)
  {
  }

  /** The builder: pick the query, replace its spaces and put it after the
      fixed prefix. */
  function GetNearbyHospitals(emergency: string): (link: HospitalLink)
    ensures |MapsSearchPrefix| <= |link.maps|
    ensures link.maps[..|MapsSearchPrefix|] == MapsSearchPrefix
    ensures ' ' !in link.maps[|MapsSearchPrefix|..]
    ensures |link.maps| == |MapsSearchPrefix| + |SearchQuery(emergency)|
  {
    HospitalLink(MapsSearchPrefix + ReplaceSpaces(SearchQuery(emergency)))
  }

  /** The decoder for the URL the builder writes: a link whose URL starts
      with the prefix yields a query, and when the rest of the URL holds no
      space, encoding that query and putting it after the prefix rebuilds
      the URL exactly. */
  function QueryOfLink(link: HospitalLink): (query: Option<string>)
    ensures query.Some? <==> |MapsSearchPrefix| <= |link.maps| && link.maps[..|MapsSearchPrefix|] == MapsSearchPrefix
    ensures query.Some? && ' ' !in link.maps[|MapsSearchPrefix|..]
        ==> link.maps == MapsSearchPrefix + ReplaceSpaces(query.value)
  {
    if |MapsSearchPrefix| <= |link.maps| && link.maps[..|MapsSearchPrefix|] == MapsSearchPrefix
    then
      var rest := link.maps[|MapsSearchPrefix|..];
      assert ' ' !in rest ==> ReplaceSpaces(PlusesToSpaces(rest)) == rest;
      assert link.maps == link.maps[..|MapsSearchPrefix|] + rest;
      Some(PlusesToSpaces(rest))
    else None
  }

  /** The link built for a label encodes exactly the query chosen for it. */
  lemma QueryOfNearbyHospitals(emergency: string)
    ensures QueryOfLink(GetNearbyHospitals(emergency)) == Some(SearchQuery(emergency))
  {
    var query := SearchQuery(emergency);
    assert '+' !in query;
    var url := GetNearbyHospitals(emergency).maps;
    assert url[|MapsSearchPrefix|..] == ReplaceSpaces(query);
    PlusesToSpacesUndoesReplace(query);
  }

  /** Each of the four trauma labels picks the trauma query. */
  lemma TraumaLabelsGetTraumaQuery()
    ensures SearchQuery("Road Accident") == TraumaQuery
    ensures SearchQuery("Heavy Bleeding") == TraumaQuery
    ensures SearchQuery("Chest Pain") == TraumaQuery
    ensures SearchQuery("Breathing Problem") == TraumaQuery
  {
  }

  /** The trauma query, encoded. */
  lemma EncodedTraumaQuery()
    ensures ReplaceSpaces(TraumaQuery) == "trauma+hospital+near+me"
  {
  }

  /** The default query, encoded. */
  lemma EncodedDefaultQuery()
    ensures ReplaceSpaces(DefaultQuery) == "hospital+near+me"
  {
  }

  /** A trauma label gets the trauma hospital search. */
  lemma TraumaLabelsGetTraumaLink(emergency: string)
    requires emergency in TraumaCases
    ensures GetNearbyHospitals(emergency).maps == MapsSearchPrefix + "trauma+hospital+near+me"
  {
  }

  /** Every other label gets the plain hospital search. */
  lemma OtherLabelsGetDefaultLink(emergency: string)
    requires emergency !in TraumaCases
    ensures GetNearbyHospitals(emergency).maps == MapsSearchPrefix + "hospital+near+me"
  {
  }
}
