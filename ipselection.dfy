/** The floating-IP scan that pkg/ionos/ensurer/networks.go and the vendored
    lan.go both run over an IP block: every IP of the block is tested against the
    IPs of the block's consumers, and the last one no consumer holds is kept. */
module IpSelection {

  /** Position of the last IP in `ips` that no consumer holds, or -1 when every IP is held. */
  function LastFreeIndex(ips: seq<string>, consumers: seq<string>): (k: int)
    ensures -1 <= k < |ips|
    ensures k >= 0 ==> ips[k] !in consumers
    ensures forall j :: k < j < |ips| ==> ips[j] in consumers
  {
    if ips == [] then -1
    else if ips[|ips| - 1] !in consumers then |ips| - 1
    else LastFreeIndex(ips[..|ips| - 1], consumers)
  }

  /** The IP the scan keeps: the last free one, or "" when there is none. */
  function LastFreeIp(ips: seq<string>, consumers: seq<string>): string
  {
    var k := LastFreeIndex(ips, consumers);
    if k < 0 then "" else ips[k]
  }

  /** The nested loops of the scan. The inner loop stops at the first consumer
      holding the IP; the outer loop overwrites the kept IP with every free one. */
  method ChooseFloatingIp(ips: seq<string>, consumers: seq<string>) returns (floatingPoolIp: string)
    ensures floatingPoolIp == LastFreeIp(ips, consumers)
  {
    floatingPoolIp := "";
    var i := 0;
    while i < |ips|
      invariant 0 <= i <= |ips|
      invariant floatingPoolIp == LastFreeIp(ips[..i], consumers)
    {
      var ip := ips[i];
      var isIpInUse := false;
      var j := 0;
      while j < |consumers|
        invariant 0 <= j <= |consumers|
        invariant isIpInUse ==> ip in consumers
        invariant !isIpInUse ==> ip !in consumers[..j]
      {
        isIpInUse := ip == consumers[j];
        if isIpInUse {
          break;
        }
        j := j + 1;
      }
      assert !isIpInUse ==> consumers[..j] == consumers;
      assert ips[..i + 1][..i] == ips[..i];
      if !isIpInUse {
        floatingPoolIp := ip;
      }
      i := i + 1;
    }
    assert ips[..i] == ips;
  }

  // ---------------------------------------------------------------- laws

  /** A non-empty choice is an IP of the block that no consumer holds, and every IP
      after it is held. */
  lemma ChosenIsLastFree(ips: seq<string>, consumers: seq<string>)
    requires LastFreeIp(ips, consumers) != ""
    ensures exists k :: 0 <= k < |ips| && ips[k] == LastFreeIp(ips, consumers)
                        && ips[k] !in consumers && (forall j :: k < j < |ips| ==> ips[j] in consumers)
  {
    var k := LastFreeIndex(ips, consumers);
    assert ips[k] == LastFreeIp(ips, consumers);
  }

  /** Appending a free IP makes it the choice; appending a held one changes nothing. */
  lemma AppendIp(ips: seq<string>, consumers: seq<string>, ip: string)
    ensures LastFreeIp(ips + [ip], consumers) == if ip in consumers then LastFreeIp(ips, consumers) else ip
  {
    assert (ips + [ip])[..|ips|] == ips;
  }
}
