/** The parts of the external-dns library that the webhook relies on: its endpoint
    type, `provider.EnsureTrailingDot`, and `endpoint.NewEndpointWithTTL` for a single
    target. The helpers have concrete definitions for host names: the library's
    `EnsureTrailingDot` also returns an IP address unchanged, which is not modelled. */
module ExternalDns {

  /** A snapshot of an `endpoint.Endpoint`: the generic record exchanged with external-dns. */
  datatype EndpointData = EndpointData(dnsName: string, recordType: string, targets: seq<string>, ttl: int)

  /** An `*endpoint.Endpoint`: the change handlers rewrite its fields in place. */
  class Endpoint {
    var dnsName: string
    var recordType: string
    var targets: seq<string>
    var recordTTL: int

    constructor (d: EndpointData)
      ensures Data() == d
    {
      dnsName := d.dnsName;
      recordType := d.recordType;
      targets := d.targets;
      recordTTL := d.ttl;
    }

    function Data(): EndpointData
      reads this
    {
      EndpointData(dnsName, recordType, targets, recordTTL)
    }
  }

  /** The current values of a list of endpoints. */
  function Datas(eps: seq<Endpoint>): (r: seq<EndpointData>)
    reads set e | e in eps
    ensures |r| == |eps|
    ensures forall i :: 0 <= i < |eps| ==> r[i] == eps[i].Data()
  {
    if eps == [] then [] else [eps[0].Data()] + Datas(eps[1..])
  }

  predicate HasTrailingDot(s: string)
  {
    |s| > 0 && s[|s| - 1] == '.'
  }

  /** `provider.EnsureTrailingDot` on a host name: appends a dot when it is missing
      and leaves an existing one alone. */
  function EnsureTrailingDot(s: string): (r: string)
    ensures HasTrailingDot(r)
    ensures r == s || r == s + "."
    ensures HasTrailingDot(s) ==> r == s
  {
    if HasTrailingDot(s) then s else s + "."
  }

  /** `strings.TrimSuffix(s, ".")`: removes one trailing dot, if there is one. */
  function TrimTrailingDot(s: string): (r: string)
    ensures HasTrailingDot(s) ==> r + "." == s
    ensures !HasTrailingDot(s) ==> r == s
  {
    if HasTrailingDot(s) then s[..|s| - 1] else s
  }

  /** `endpoint.NewEndpointWithTTL` with a single target: the name and the target
      each lose one trailing dot. */
  function NewEndpointWithTTL(dnsName: string, recordType: string, ttl: int, target: string): (e: EndpointData)
    ensures e.recordType == recordType && e.ttl == ttl
    ensures e.dnsName + "." == EnsureTrailingDot(dnsName)
    ensures |e.targets| == 1 && e.targets[0] + "." == EnsureTrailingDot(target)
    ensures !HasTrailingDot(target) ==> e.targets == [target]
  {
    EndpointData(TrimTrailingDot(dnsName), recordType, [TrimTrailingDot(target)], ttl)
  }
}
