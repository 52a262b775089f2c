/** The display-label rule shared by the mock briefing and the traffic and
    weather flows: one comma-separated part of an address, trimmed, or a
    fixed fallback. */
module AddressLabel {

  import opened Wrappers
  import opened JsString

  /** The k-th comma-separated part of `address` with its surrounding
      whitespace removed, or `fallback` when that part is missing (optional
      chaining yields undefined) or blank (the empty string is falsy). */
  function SegmentLabel(address: string, k: nat, fallback: string): (shown: string)
    ensures Segment(address, ',', k).None? ==> shown == fallback
    ensures Segment(address, ',', k).Some? && AllWhitespace(Segment(address, ',', k).value) ==> shown == fallback
    ensures shown == fallback || (shown != "" && IsTrimmed(shown) && ',' !in shown)
    ensures fallback != "" ==> shown != ""
  {
    match Segment(address, ',', k)
    case None => fallback
    case Some(part) =>
      var t := Trim(part);
      TrimKeepsOnlyCharsOf(part);
      if t == "" then fallback else t
  }

  /** Trimming only removes characters. */
  lemma TrimKeepsOnlyCharsOf(s: string)
    ensures forall c :: c in Trim(s) ==> c in s
  {
    var r := Trim(s);
    if r != [] {
      var i := SkipLeading(s, 0);
      forall c | c in r ensures c in s {
        var k :| 0 <= k < |r| && r[k] == c;
        assert s[i + k] == c;
      }
    }
  }

  /** The label read off an address given as comma-free parts joined by
      commas: the k-th part when it exists and is not blank, trimmed, and
      otherwise the fallback. */
  lemma LabelOfParts(parts: seq<string>, k: nat, fallback: string)
    requires |parts| >= 1
    requires forall i :: 0 <= i < |parts| ==> ',' !in parts[i]
    ensures SegmentLabel(Join(parts, ','), k, fallback) ==
      if k < |parts| && !AllWhitespace(parts[k]) then Trim(parts[k]) else fallback
  {
    SplitUnique(Join(parts, ','), ',', parts);
  }

  /** Three comma-free parts, the middle one non-blank and trimmed. */
  predicate StreetCityRegion(street: string, city: string, region: string) {
    ',' !in street && ',' !in city && ',' !in region && city != "" && IsTrimmed(city)
  }

  /** In "street, city,region" the second part, trimmed, is the city. */
  lemma SecondPartLabel(street: string, city: string, region: string, fallback: string)
    requires StreetCityRegion(street, city, region)
    ensures SegmentLabel(street + ", " + city + "," + region, 1, fallback) == city
  {
    var parts := [street, " " + city, region];
    assert parts[1..] == [" " + city, region] && parts[1..][1..] == [region];
    assert Join([" " + city, region], ',') == " " + city + [','] + region;
    assert Join(parts, ',') == street + ", " + city + "," + region;
    LabelOfParts(parts, 1, fallback);
    TrimAfterSpace(city);
  }

  lemma TrimAfterSpace(city: string)
    requires city != "" && IsTrimmed(city)
    ensures Trim(" " + city) == city && !AllWhitespace(" " + city)
  {
    var part := " " + city;
    assert part[1..] == city && part[..1] == " " && part[|part|..] == [];
    TrimUnique(part, 1, |part|);
  }

  /** The label read from the first part of an address: the text before
      the first comma, or all of it when there is no comma, trimmed, or the
      fallback when that text is blank. */
  lemma FirstPartLabel(first: string, rest: string, fallback: string)
    requires ',' !in first
    ensures SegmentLabel(first, 0, fallback) == if AllWhitespace(first) then fallback else Trim(first)
    ensures SegmentLabel(first + "," + rest, 0, fallback) == if AllWhitespace(first) then fallback else Trim(first)
  {
    assert Join([first], ',') == first;
    LabelOfParts([first], 0, fallback);
    var tail := Split(rest, ',');
    var parts := [first] + tail;
    assert parts[1..] == tail;
    assert Join(parts, ',') == first + "," + rest;
    assert forall i :: 1 <= i < |parts| ==> parts[i] == tail[i - 1];
    LabelOfParts(parts, 0, fallback);
  }
}
