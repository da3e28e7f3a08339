/** The pure helpers of the provider (internal/selprovider/helper.go): zone
    matching by longest contained name, exact record-set lookup, endpoint
    normalisation and conversion of an endpoint to a wire record set. */
module Helper {
  import opened Wrappers
  import opened ExternalDns
  import opened DomainsApi

  /** `strings.Contains(s, sub)`: `sub` occurs in `s` at some position. */
  predicate Contains(s: string, sub: string)
    decreases |s|
  {
    sub <= s || (|s| > 0 && Contains(s[1..], sub))
  }

  lemma {:induction false} ContainsAt(s: string, sub: string, i: nat)
    requires i + |sub| <= |s| && s[i..i + |sub|] == sub
    ensures Contains(s, sub)
    decreases i
  {
    if i > 0 {
      assert s[1..][i - 1..i - 1 + |sub|] == s[i..i + |sub|];
      ContainsAt(s[1..], sub, i - 1);
    }
  }

  lemma {:induction false} ContainsShorter(s: string, sub: string)
    requires Contains(s, sub)
    ensures |sub| <= |s|
    decreases |s|
  {
    if !(sub <= s) {
      ContainsShorter(s[1..], sub);
    }
  }

  // ---------------------------------------------------------------- zone matching

  /** The number of bytes of the UTF-8 encoding of `c`. */
  function Utf8Width(c: char): (w: nat)
    ensures 1 <= w <= 4
    ensures (c as int < 0x80) <==> w == 1
  {
    if c as int < 0x80 then 1 else if c as int < 0x800 then 2 else if c as int < 0x10000 then 3 else 4
  }

  /** Go's `len(s)` on a string: the length of its UTF-8 encoding in bytes. It is at
      least the number of characters, and equal to it for an ASCII string. */
  function ByteLen(s: string): (n: nat)
    ensures |s| <= n <= 4 * |s|
  {
    if s == [] then 0 else Utf8Width(s[0]) + ByteLen(s[1..])
  }

  /** A string is as long in bytes as in characters exactly when it is ASCII. */
  lemma {:induction false} ByteLenAscii(s: string)
    ensures ByteLen(s) == |s| <==> forall i :: 0 <= i < |s| ==> s[i] as int < 0x80
  {
    if s != [] {
      ByteLenAscii(s[1..]);
      assert forall i :: 1 <= i < |s| ==> s[1..][i - 1] == s[i];
    }
  }

  /** The state of the scan in findBestMatchingZone after the zones `zones`: the
      byte length of the longest zone name taken so far and the index of that zone
      (-1 while none is taken). A zone is taken only when its name is strictly
      longer than the current length, so an empty name is never taken and a
      later zone of equal length never replaces an earlier one. */
  function Scan(target: string, zones: seq<Zone>): (s: (nat, int))
    ensures -1 <= s.1 < |zones|
    ensures s.1 == -1 <==> s.0 == 0
    ensures s.1 >= 0 ==> s.0 == ByteLen(zones[s.1].name) && Contains(target, zones[s.1].name)
    ensures forall j :: 0 <= j < |zones| && Contains(target, zones[j].name) ==> ByteLen(zones[j].name) <= s.0
    ensures forall j :: 0 <= j < s.1 && Contains(target, zones[j].name) ==> ByteLen(zones[j].name) < s.0
    decreases |zones|
  {
    if zones == [] then (0, -1)
    else
      var init := zones[..|zones| - 1];
      assert forall j :: 0 <= j < |init| ==> init[j] == zones[j];
      var prev := Scan(target, init);
      var n := ByteLen(zones[|zones| - 1].name);
      if n > prev.0 && Contains(target, zones[|zones| - 1].name) then (n, |zones| - 1) else prev
  }

  /** The zone findBestMatchingZone returns for a record-set name, or None. */
  function BestZone(rrSetName: string, zones: seq<Zone>): Option<Zone>
  {
    var s := Scan(EnsureTrailingDot(rrSetName), zones);
    if s.0 == 0 then None else Some(zones[s.1])
  }

  /** Not found exactly when no zone with a non-empty name is contained in the
      dot-terminated record name; when found, the zone is the first, in list
      order, of the contained zones whose name is longest in bytes. */
  lemma {:induction false} BestZoneIsFirstLongest(rrSetName: string, zones: seq<Zone>)
    ensures var target := EnsureTrailingDot(rrSetName);
      BestZone(rrSetName, zones).None? <==>
        forall j :: 0 <= j < |zones| && Contains(target, zones[j].name) ==> zones[j].name == ""
    ensures var target := EnsureTrailingDot(rrSetName);
      BestZone(rrSetName, zones).Some? ==>
        exists k :: 0 <= k < |zones| && zones[k] == BestZone(rrSetName, zones).value
          && zones[k].name != "" && Contains(target, zones[k].name)
          && (forall j :: 0 <= j < |zones| && Contains(target, zones[j].name) ==> ByteLen(zones[j].name) <= ByteLen(zones[k].name))
          && (forall j :: 0 <= j < k && Contains(target, zones[j].name) ==> ByteLen(zones[j].name) < ByteLen(zones[k].name))
  {
    var target := EnsureTrailingDot(rrSetName);
    var s := Scan(target, zones);
    if s.0 != 0 {
      var k := s.1;
      assert zones[k] == BestZone(rrSetName, zones).value;
    } else {
      forall j | 0 <= j < |zones| && Contains(target, zones[j].name)
        ensures zones[j].name == ""
      {
      }
    }
  }

  /** findBestMatchingZone: a scan that keeps the contained zone name longest in bytes. */
  method FindBestMatchingZone(rrSetName: string, zones: seq<Zone>) returns (r: Option<Zone>)
    ensures r == BestZone(rrSetName, zones)
  {
    var target := EnsureTrailingDot(rrSetName);
    var count := 0;
    var domainZone: Option<Zone> := None;
    var i := 0;
    while i < |zones|
      invariant 0 <= i <= |zones|
      invariant count == Scan(target, zones[..i]).0
      invariant count == 0 ==> domainZone == None
      invariant count != 0 ==> domainZone == Some(zones[Scan(target, zones[..i]).1])
    {
      var zone := zones[i];
      assert zones[..i + 1][..i] == zones[..i];
      if ByteLen(zone.name) > count && Contains(target, zone.name) {
        count := ByteLen(zone.name);
        domainZone := Some(zone);
      }
      i := i + 1;
    }
    assert zones[..i] == zones;
    if count == 0 {
      return None;
    }
    return domainZone;
  }

  /** The zones of the zone-matching tests: foo.com, bar.com and baz.com. */
  function TestZones(): seq<Zone>
  {
    [Zone("", "foo.com"), Zone("", "bar.com"), Zone("", "baz.com")]
  }

  /** www.foo.com matches foo.com. */
  lemma BestZoneMatches()
    ensures BestZone("www.foo.com", TestZones()) == Some(Zone("", "foo.com"))
  {
    hide Contains, Scan, ByteLen;
    var zones := TestZones();
    var hit: string := "www.foo.com.";
    assert EnsureTrailingDot("www.foo.com") == hit;
    ContainsAt(hit, "foo.com", 4);
    assert 'b' !in hit;
    FirstCharMissing(hit, "bar.com");
    FirstCharMissing(hit, "baz.com");
    BestZoneIsFirstLongest("www.foo.com", zones);
    assert Contains(hit, zones[0].name) && zones[0].name != "";
    var best := BestZone("www.foo.com", zones);
    var k :| 0 <= k < |zones| && zones[k] == best.value && zones[k].name != "" && Contains(hit, zones[k].name);
    assert k == 0;
  }

  /** www.test.com matches none of foo.com, bar.com and baz.com. */
  lemma BestZoneMisses()
    ensures BestZone("www.test.com", TestZones()) == None
  {
    hide Contains, Scan, ByteLen;
    var zones := TestZones();
    var miss: string := "www.test.com.";
    assert EnsureTrailingDot("www.test.com") == miss;
    assert 'f' !in miss && 'b' !in miss;
    FirstCharMissing(miss, "foo.com");
    FirstCharMissing(miss, "bar.com");
    FirstCharMissing(miss, "baz.com");
    forall j | 0 <= j < |zones|
      ensures !Contains(miss, zones[j].name)
    {
      assert j == 0 || j == 1 || j == 2;
    }
    BestZoneIsFirstLongest("www.test.com", zones);
  }

  /** ab.de. is six bytes long; a\U{00FC}.de. is seven, though also six characters. */
  lemma ExampleByteLens()
    ensures ByteLen("ab.de.") == 6 && ByteLen("a\U{00FC}.de.") == 7
  {
    var tail: string := ".de.";
    assert "ab.de."[1..] == "b" + tail && ("b" + tail)[1..] == tail;
    assert "a\U{00FC}.de."[1..] == "\U{00FC}" + tail && ("\U{00FC}" + tail)[1..] == tail;
    ByteLenAscii(tail);
    assert ByteLen(tail) == 4;
  }

  /** Lengths are compared in bytes: of ab.de. and a\U{00FC}.de., both six characters
      long and both contained, the second wins with seven bytes. */
  lemma BestZoneCountsBytes()
    ensures BestZone("ab.de.a\U{00FC}.de.", [Zone("1", "ab.de."), Zone("2", "a\U{00FC}.de.")])
      == Some(Zone("2", "a\U{00FC}.de."))
  {
    var target: string := "ab.de.a\U{00FC}.de.";
    var zones := [Zone("1", "ab.de."), Zone("2", "a\U{00FC}.de.")];
    assert EnsureTrailingDot(target) == target;
    ContainsAt(target, zones[0].name, 0);
    ContainsAt(target, zones[1].name, 6);
    ExampleByteLens();
    hide Contains, ByteLen, EnsureTrailingDot;
    assert zones[..1] == [zones[0]] && zones[..1][..0] == [];
    assert Scan(target, zones[..1]) == (6, 0);
    assert Scan(target, zones) == (7, 1);
  }

  /** A string whose first character does not occur in `s` is not contained in it. */
  lemma {:induction false} FirstCharMissing(s: string, sub: string)
    requires |sub| > 0 && sub[0] !in s
    ensures !Contains(s, sub)
    decreases |s|
  {
    if |s| > 0 {
      assert s[0] in s;
      assert forall c :: c in s[1..] ==> c in s;
      FirstCharMissing(s[1..], sub);
    }
  }

  // ---------------------------------------------------------- record-set lookup

  predicate Matches(rrSet: RRSet, rrSetName: string, recordType: string)
  {
    rrSet.name == rrSetName && rrSet.recordType == recordType
  }

  /** The index of the first record set with exactly this name and type, or the
      length of the list when there is none. */
  function MatchIndex(rrSetName: string, recordType: string, rrSets: seq<RRSet>): (k: nat)
    ensures k <= |rrSets|
    ensures k < |rrSets| ==> Matches(rrSets[k], rrSetName, recordType)
    ensures forall j :: 0 <= j < k ==> !Matches(rrSets[j], rrSetName, recordType)
    decreases |rrSets|
  {
    if rrSets == [] then 0
    else if Matches(rrSets[0], rrSetName, recordType) then 0
    else 1 + MatchIndex(rrSetName, recordType, rrSets[1..])
  }

  /** The record set findRRSet returns, or None. */
  function FirstRRSet(rrSetName: string, recordType: string, rrSets: seq<RRSet>): Option<RRSet>
  {
    var k := MatchIndex(rrSetName, recordType, rrSets);
    if k < |rrSets| then Some(rrSets[k]) else None
  }

  /** Not found exactly when no record set has this name and type; when found, the
      record set has them. */
  lemma FirstRRSetFinds(rrSetName: string, recordType: string, rrSets: seq<RRSet>)
    ensures FirstRRSet(rrSetName, recordType, rrSets).None? <==>
      forall j :: 0 <= j < |rrSets| ==> !Matches(rrSets[j], rrSetName, recordType)
    ensures FirstRRSet(rrSetName, recordType, rrSets).Some? ==>
      var r := FirstRRSet(rrSetName, recordType, rrSets).value;
      r in rrSets && r.name == rrSetName && r.recordType == recordType
  {
  }

  /** findRRSet: returns the first record set with exactly this name and type. */
  method FindRRSet(rrSetName: string, recordType: string, rrSets: seq<RRSet>) returns (r: Option<RRSet>)
    ensures r == FirstRRSet(rrSetName, recordType, rrSets)
  {
    var i := 0;
    while i < |rrSets|
      invariant 0 <= i <= |rrSets|
      invariant forall j :: 0 <= j < i ==> !Matches(rrSets[j], rrSetName, recordType)
    {
      var rrSet := rrSets[i];
      if rrSet.name == rrSetName && rrSet.recordType == recordType {
        MatchIndexIsFirst(rrSetName, recordType, rrSets, i);
        return Some(rrSet);
      }
      i := i + 1;
    }
    MatchIndexIsFirst(rrSetName, recordType, rrSets, |rrSets|);
    return None;
  }

  /** The record-set lookup examples: www.foo.com/A is the first of www.foo.com,
      www.bar.com and www.baz.com; www.test.com/A is none of them. */
  lemma FindRRSetExamples()
    ensures var rrSets := [RRSet("", "www.foo.com", "A", 0, []), RRSet("", "www.bar.com", "A", 0, []),
                           RRSet("", "www.baz.com", "A", 0, [])];
      && FirstRRSet("www.foo.com", "A", rrSets) == Some(rrSets[0])
      && FirstRRSet("www.test.com", "A", rrSets) == None
  {
    var rrSets := [RRSet("", "www.foo.com", "A", 0, []), RRSet("", "www.bar.com", "A", 0, []),
                   RRSet("", "www.baz.com", "A", 0, [])];
    MatchIndexIsFirst("www.foo.com", "A", rrSets, 0);
    assert forall j :: 0 <= j < 3 ==> rrSets[j].name != "www.test.com";
    MatchIndexIsFirst("www.test.com", "A", rrSets, 3);
  }

  /** An index before which nothing matches, and which matches or ends the list, is MatchIndex. */
  lemma MatchIndexIsFirst(rrSetName: string, recordType: string, rrSets: seq<RRSet>, i: nat)
    requires i <= |rrSets|
    requires forall j :: 0 <= j < i ==> !Matches(rrSets[j], rrSetName, recordType)
    requires i < |rrSets| ==> Matches(rrSets[i], rrSetName, recordType)
    ensures MatchIndex(rrSetName, recordType, rrSets) == i
  {
  }

  // --------------------------------------------------------------- normalisation

  /** Record types whose targets are domain names. */
  predicate IsAliasLike(recordType: string)
  {
    recordType == "CNAME" || recordType == "ALIAS" || recordType == "MX" || recordType == "SRV"
  }

  const DefaultTTL: int := 300

  /** Every target with a trailing dot ensured. */
  function DotTargets(targets: seq<string>): (r: seq<string>)
    ensures |r| == |targets|
    ensures forall i :: 0 <= i < |targets| ==> r[i] == EnsureTrailingDot(targets[i])
  {
    seq(|targets|, i requires 0 <= i < |targets| => EnsureTrailingDot(targets[i]))
  }

  /** The endpoint as modifyChange leaves it. */
  function Normalize(e: EndpointData): EndpointData
  {
    EndpointData(
      EnsureTrailingDot(e.dnsName),
      e.recordType,
      if IsAliasLike(e.recordType) then DotTargets(e.targets) else e.targets,
      if e.ttl == 0 then DefaultTTL else e.ttl)
  }

  /** What modifyChange does, and that it changes nothing else: the name ends with a
      dot and gains at most that dot; a zero TTL becomes 300 and any other TTL stays;
      the type stays; targets of CNAME, ALIAS, MX and SRV records each gain a
      missing trailing dot and keep their order; other targets stay as they are. */
  lemma NormalizeEffect(e: EndpointData)
    ensures var n := Normalize(e);
      && HasTrailingDot(n.dnsName)
      && (n.dnsName == e.dnsName || n.dnsName == e.dnsName + ".")
      && (HasTrailingDot(e.dnsName) ==> n.dnsName == e.dnsName)
      && n.recordType == e.recordType
      && (e.ttl == 0 ==> n.ttl == 300)
      && (e.ttl != 0 ==> n.ttl == e.ttl)
      && |n.targets| == |e.targets|
      && (IsAliasLike(e.recordType) ==> forall i :: 0 <= i < |e.targets| ==>
            HasTrailingDot(n.targets[i]) && (n.targets[i] == e.targets[i] || n.targets[i] == e.targets[i] + "."))
      && (!IsAliasLike(e.recordType) ==> n.targets == e.targets)
  {
  }

  /** modifyChange is idempotent. */
  lemma NormalizeIdempotent(e: EndpointData)
    ensures Normalize(Normalize(e)) == Normalize(e)
  {
    var n := Normalize(e);
    if IsAliasLike(e.recordType) {
      assert DotTargets(n.targets) == n.targets;
    }
  }

  /** The normalisation examples: a missing name dot is added, a missing TTL becomes
      300, and CNAME, ALIAS, MX and SRV targets gain their dot while an A target
      keeps its form. */
  lemma NormalizeExamples()
    ensures Normalize(EndpointData("example.com", "A", ["1.2.3.4"], 300))
      == EndpointData("example.com.", "A", ["1.2.3.4"], 300)
    ensures Normalize(EndpointData("example.com.", "A", ["1.2.3.4"], 0))
      == EndpointData("example.com.", "A", ["1.2.3.4"], 300)
    ensures forall t | t in ["CNAME", "ALIAS", "MX"] ::
      Normalize(EndpointData("example.com.", t, ["sub.example.com"], 300))
        == EndpointData("example.com.", t, ["sub.example.com."], 300)
    ensures Normalize(EndpointData("_xmpp._tcp.example.com.", "SRV", ["sub.example.com"], 300))
      == EndpointData("_xmpp._tcp.example.com.", "SRV", ["sub.example.com."], 300)
  {
    assert !HasTrailingDot("sub.example.com") && !HasTrailingDot("example.com");
    assert EnsureTrailingDot("sub.example.com") == "sub.example.com.";
    assert DotTargets(["sub.example.com"]) == ["sub.example.com."];
  }

  /** modifyChange: rewrites the endpoint in place. */
  method ModifyChange(ep: Endpoint)
    modifies ep
    ensures ep.Data() == Normalize(old(ep.Data()))
  {
    ep.dnsName := EnsureTrailingDot(ep.dnsName);
    if ep.recordTTL == 0 {
      ep.recordTTL := DefaultTTL;
    }
    if IsAliasLike(ep.recordType) {
      var idx := 0;
      while idx < |ep.targets|
        invariant 0 <= idx <= |ep.targets| == |old(ep.targets)|
        invariant ep.dnsName == EnsureTrailingDot(old(ep.dnsName))
        invariant ep.recordType == old(ep.recordType)
        invariant ep.recordTTL == if old(ep.recordTTL) == 0 then DefaultTTL else old(ep.recordTTL)
        invariant forall i :: 0 <= i < idx ==> ep.targets[i] == EnsureTrailingDot(old(ep.targets)[i])
        invariant forall i :: idx <= i < |ep.targets| ==> ep.targets[i] == old(ep.targets)[i]
      {
        ep.targets := ep.targets[idx := EnsureTrailingDot(ep.targets[idx])];
        idx := idx + 1;
      }
    }
  }

  // ---------------------------------------------------------- wire conversion

  /** The record set getRRSetRecord builds from an endpoint (the id is left empty). */
  function ToWire(change: EndpointData): (r: RRSet)
    ensures r.id == "" && r.name == change.dnsName && r.recordType == change.recordType && r.ttl == change.ttl
    ensures |r.records| == |change.targets|
    ensures forall i :: 0 <= i < |change.targets| ==> r.records[i].content == change.targets[i]
  {
    RRSet("", change.dnsName, change.recordType, change.ttl,
      seq(|change.targets|, i requires 0 <= i < |change.targets| => RecordItem(change.targets[i])))
  }

  /** The wire-conversion example: an A record test. with TTL 300 and two targets
      becomes one record set with one record per target, in order. */
  lemma ToWireExample()
    ensures ToWire(EndpointData("test.", "A", ["192.0.2.1", "192.0.2.2"], 300))
      == RRSet("", "test.", "A", 300, [RecordItem("192.0.2.1"), RecordItem("192.0.2.2")])
  {
  }

  /** getRRSetRecord: fills a record array of the targets' length, one record per target. */
  method GetRRSetRecord(change: Endpoint) returns (r: RRSet)
    ensures r == ToWire(change.Data())
  {
    var targets := change.targets;
    var records := new RecordItem[|targets|];
    var i := 0;
    while i < |targets|
      invariant 0 <= i <= |targets| == records.Length
      invariant forall j :: 0 <= j < i ==> records[j] == RecordItem(targets[j])
    {
      records[i] := RecordItem(targets[i]);
      i := i + 1;
    }
    r := RRSet("", change.dnsName, change.recordType, change.recordTTL, records[..]);
  }

  // ------------------------------------------------------------------ log fields

  /** `strings.Join(parts, sep)`: the parts in order, with `sep` between each two. */
  function Join(parts: seq<string>, sep: string): (r: string)
    ensures parts == [] ==> r == ""
    ensures |parts| == 1 ==> r == parts[0]
    ensures parts != [] ==> |parts[0]| <= |r| && r[..|parts[0]|] == parts[0]
  {
    if parts == [] then ""
    else if |parts| == 1 then parts[0]
    else parts[0] + sep + Join(parts[1..], sep)
  }

  /** Joining one more part appends the separator and that part. */
  lemma {:induction false} JoinAppend(parts: seq<string>, last: string, sep: string)
    requires parts != []
    ensures Join(parts + [last], sep) == Join(parts, sep) + sep + last
  {
    if |parts| == 1 {
      assert (parts + [last])[1..] == [last];
    } else {
      assert (parts + [last])[1..] == parts[1..] + [last];
      JoinAppend(parts[1..], last, sep);
      assert Join(parts + [last], sep) == parts[0] + sep + (Join(parts[1..], sep) + sep + last);
    }
  }

  /** The length of a join: every part, plus one separator between each two. */
  lemma {:induction false} JoinLength(parts: seq<string>, sep: string)
    requires parts != []
    ensures |Join(parts, sep)| == TotalLength(parts) + (|parts| - 1) * |sep|
  {
    if |parts| > 1 {
      JoinLength(parts[1..], sep);
    }
  }

  function TotalLength(parts: seq<string>): nat
  {
    if parts == [] then 0 else |parts[0]| + TotalLength(parts[1..])
  }

  /** getLogFields: the key/value pairs logged for one change. */
  function LogFields(change: EndpointData, action: string, id: string): (fields: seq<(string, string)>)
    ensures |fields| == 5
    ensures fields[0] == ("record", change.dnsName)
    ensures fields[1] == ("content", Join(change.targets, ","))
    ensures fields[2] == ("type", change.recordType) && fields[3] == ("action", action) && fields[4] == ("id", id)
  {
    [("record", change.dnsName),
     ("content", Join(change.targets, ",")),
     ("type", change.recordType),
     ("action", action),
     ("id", id)]
  }

  /** The example of helper_test.go: an A record "test." with two targets, logged
      for a creation in zone 123. */
  lemma LogFieldsExample()
    ensures LogFields(EndpointData("test.", "A", ["192.0.2.1", "192.0.2.2"], 300), "create", "123")
      == [("record", "test."), ("content", "192.0.2.1,192.0.2.2"), ("type", "A"),
          ("action", "create"), ("id", "123")]
  {
    JoinAppend(["192.0.2.1"], "192.0.2.2", ",");
    assert ["192.0.2.1"] + ["192.0.2.2"] == ["192.0.2.1", "192.0.2.2"];
    assert Join(["192.0.2.1", "192.0.2.2"], ",") == "192.0.2.1" + "," + "192.0.2.2";
    assert "192.0.2.1" + "," + "192.0.2.2" == "192.0.2.1,192.0.2.2";
  }
}
