/** The vendored lan.go of ionos-api-wrapper: attaching a LAN to a server by creating
    a NIC configured from a `nicConfiguration`, its five fixed-configuration variants,
    and the variant that takes a free IP from a floating IP pool. */
module IonosLan {
  import opened Common
  import opened Polling
  import opened Cloud
  import opened IpSelection

  /** nicConfiguration: the IP to give the NIC ("" for none), DHCP and firewall. */
  datatype NicConfiguration = NicConfiguration(lanIp: string, enableDhcp: bool, enableFirewall: bool)

  /** The NIC properties attachLANToServer sends for LAN number `lan`: the IP list only
      when an IP is configured, DHCP only when it is off, the firewall only when it is on. */
  function NicPropertiesFor(lan: int, c: NicConfiguration): (p: NicProperties)
    ensures p.lan == lan
    ensures p.ips.Some? <==> c.lanIp != ""
    ensures p.ips.Some? ==> p.ips.value == [c.lanIp]
    ensures p.dhcp.Some? <==> !c.enableDhcp
    ensures p.dhcp.Some? ==> !p.dhcp.value
    ensures p.firewallActive.Some? <==> c.enableFirewall
    ensures p.firewallActive.Some? ==> p.firewallActive.value
  {
    NicProperties(
      lan,
      if c.lanIp != "" then Some([c.lanIp]) else None,
      if !c.enableDhcp then Some(c.enableDhcp) else None,
      if c.enableFirewall then Some(c.enableFirewall) else None)
  }

  /** DHCP as the cloud applies it: an unset flag means DHCP on. */
  function DhcpOf(p: NicProperties): bool
  {
    p.dhcp.None? || p.dhcp.value
  }

  /** The firewall as the cloud applies it: an unset flag means no firewall. */
  function FirewallOf(p: NicProperties): bool
  {
    p.firewallActive.Some? && p.firewallActive.value
  }

  /** Leaving out the default values loses nothing: the NIC the cloud builds has
      exactly the configured DHCP and firewall settings. */
  lemma PropertiesKeepConfiguration(lan: int, c: NicConfiguration)
    ensures DhcpOf(NicPropertiesFor(lan, c)) == c.enableDhcp
    ensures FirewallOf(NicPropertiesFor(lan, c)) == c.enableFirewall
    ensures (if NicPropertiesFor(lan, c).ips.Some? then NicPropertiesFor(lan, c).ips.value[0] else "") == c.lanIp
  {
  }

  /** Different configurations give different NIC properties. */
  lemma PropertiesInjective(lan: int, c: NicConfiguration, d: NicConfiguration)
    requires NicPropertiesFor(lan, c) == NicPropertiesFor(lan, d)
    ensures c == d
  {
    PropertiesKeepConfiguration(lan, c);
    PropertiesKeepConfiguration(lan, d);
  }

  /** What an attachment does: the log after it, its error and the NICs it creates. */
  datatype Attachment = Attachment(log: seq<Call>, err: Option<Failure>, nics: seq<Nic>)

  /** attachLANToServer issued after the calls `log`: a LAN id that is not a decimal
      number fails before any call; otherwise one NIC is created on the server and,
      when that succeeds, the vendored wait runs on the new NIC. */
  function Attach(reply: nat -> Reply, settle: nat -> (nat -> Lookup), servers: seq<Server>, log: seq<Call>,
                  dc: string, serverId: string, lanId: string, config: NicConfiguration, retries: nat): Attachment
  {
    match Atoi(lanId)
    case None => Attachment(log, Some(NotANumber(lanId)), [])
    case Some(n) =>
      var properties := NicPropertiesFor(Int32(n), config);
      var log1 := log + [Call(CreateNic, dc, serverId, NicPayload(properties))];
      match AnswerAt(reply, |log|, FindServerIn(servers, dc, serverId).Some?)
      case Some(e) => Attachment(log1, Some(Api(e)), [])
      case None =>
        var nicId := IdAt(reply, |log|);
        var w := Expected(settle(|log1|), retries, NicKind);
        Attachment(log1 + [Call(WaitNic, dc, nicId, NoPayload)],
                   if w.err.Some? then Some(Wait(w.err.value)) else None,
                   [Nic(dc, serverId, nicId, properties)])
  }

  /** attachLANToServer. */
  method AttachConfiguredNic(cloud: Cloud, dc: string, serverId: string, lanId: string,
                             config: NicConfiguration, retries: nat) returns (err: Option<Failure>)
    requires cloud.Responsive()
    modifies cloud
    ensures var a := Attach(cloud.reply, cloud.settle, old(cloud.world.servers), old(cloud.log),
                            dc, serverId, lanId, config, retries);
            cloud.log == a.log && err == a.err
            && cloud.world == old(cloud.world).(nics := old(cloud.world.nics) + a.nics)
  {
    var numericLanId := Atoi(lanId);
    if numericLanId.None? {
      return Some(NotANumber(lanId));
    }
    var apiLanId := Int32(numericLanId.value);
    var nicProperties := NicPropertiesFor(apiLanId, config);
    var nicId, e := cloud.PostNic(dc, serverId, nicProperties);
    if e.Some? {
      return Some(Api(e.value));
    }
    var w := cloud.WaitForNicVendored(dc, nicId, retries);
    if w.Some? {
      return Some(Wait(w.value));
    }
    return None;
  }

  method AttachLANToServer(cloud: Cloud, dc: string, serverId: string, lanId: string, retries: nat)
    returns (err: Option<Failure>)
    requires cloud.Responsive()
    modifies cloud
    ensures var a := Attach(cloud.reply, cloud.settle, old(cloud.world.servers), old(cloud.log),
                            dc, serverId, lanId, NicConfiguration("", true, false), retries);
            cloud.log == a.log && err == a.err
            && cloud.world == old(cloud.world).(nics := old(cloud.world.nics) + a.nics)
  {
    err := AttachConfiguredNic(cloud, dc, serverId, lanId, NicConfiguration("", true, false), retries);
  }

  /** `lanIp` is the text net.IP.String gives for the IP. */
  method AttachLANToServerWithIP(cloud: Cloud, dc: string, serverId: string, lanId: string, lanIp: string, retries: nat)
    returns (err: Option<Failure>)
    requires cloud.Responsive()
    modifies cloud
    ensures var a := Attach(cloud.reply, cloud.settle, old(cloud.world.servers), old(cloud.log),
                            dc, serverId, lanId, NicConfiguration(lanIp, true, false), retries);
            cloud.log == a.log && err == a.err
            && cloud.world == old(cloud.world).(nics := old(cloud.world.nics) + a.nics)
  {
    err := AttachConfiguredNic(cloud, dc, serverId, lanId, NicConfiguration(lanIp, true, false), retries);
  }

  method AttachLANToServerWithoutDHCP(cloud: Cloud, dc: string, serverId: string, lanId: string, retries: nat)
    returns (err: Option<Failure>)
    requires cloud.Responsive()
    modifies cloud
    ensures var a := Attach(cloud.reply, cloud.settle, old(cloud.world.servers), old(cloud.log),
                            dc, serverId, lanId, NicConfiguration("", false, false), retries);
            cloud.log == a.log && err == a.err
            && cloud.world == old(cloud.world).(nics := old(cloud.world.nics) + a.nics)
  {
    err := AttachConfiguredNic(cloud, dc, serverId, lanId, NicConfiguration("", false, false), retries);
  }

  method AttachWANToServer(cloud: Cloud, dc: string, serverId: string, lanId: string, retries: nat)
    returns (err: Option<Failure>)
    requires cloud.Responsive()
    modifies cloud
    ensures var a := Attach(cloud.reply, cloud.settle, old(cloud.world.servers), old(cloud.log),
                            dc, serverId, lanId, NicConfiguration("", true, true), retries);
            cloud.log == a.log && err == a.err
            && cloud.world == old(cloud.world).(nics := old(cloud.world.nics) + a.nics)
  {
    err := AttachConfiguredNic(cloud, dc, serverId, lanId, NicConfiguration("", true, true), retries);
  }

  method AttachWANToServerWithIP(cloud: Cloud, dc: string, serverId: string, lanId: string, lanIp: string, retries: nat)
    returns (err: Option<Failure>)
    requires cloud.Responsive()
    modifies cloud
    ensures var a := Attach(cloud.reply, cloud.settle, old(cloud.world.servers), old(cloud.log),
                            dc, serverId, lanId, NicConfiguration(lanIp, true, true), retries);
            cloud.log == a.log && err == a.err
            && cloud.world == old(cloud.world).(nics := old(cloud.world.nics) + a.nics)
  {
    err := AttachConfiguredNic(cloud, dc, serverId, lanId, NicConfiguration(lanIp, true, true), retries);
  }

  /** AttachWANAndFloatingIPToServer issued after the calls `log`: look the pool up,
      keep its last free IP, give up when there is none, else attach as a WAN with that IP. */
  function FloatingAttach(reply: nat -> Reply, settle: nat -> (nat -> Lookup), ipBlocks: map<string, IpBlock>,
                          servers: seq<Server>, log: seq<Call>, dc: string, serverId: string, lanId: string,
                          floatingPoolId: string, retries: nat): Attachment
  {
    var log1 := log + [Call(FindIpBlock, "", floatingPoolId, NoPayload)];
    match AnswerAt(reply, |log|, floatingPoolId in ipBlocks)
    case Some(e) => Attachment(log1, Some(Api(e)), [])
    case None =>
      var block := ipBlocks[floatingPoolId];
      var ip := LastFreeIp(block.ips, block.consumers);
      if ip == "" then Attachment(log1, Some(ExhaustedPool(floatingPoolId)), [])
      else Attach(reply, settle, servers, log1, dc, serverId, lanId, NicConfiguration(ip, true, true), retries)
  }

  method AttachWANAndFloatingIPToServer(cloud: Cloud, dc: string, serverId: string, lanId: string,
                                        floatingPoolId: string, retries: nat) returns (err: Option<Failure>)
    requires cloud.Responsive()
    modifies cloud
    ensures var a := FloatingAttach(cloud.reply, cloud.settle, cloud.ipBlocks, old(cloud.world.servers),
                                    old(cloud.log), dc, serverId, lanId, floatingPoolId, retries);
            cloud.log == a.log && err == a.err
            && cloud.world == old(cloud.world).(nics := old(cloud.world.nics) + a.nics)
  {
    var block, e := cloud.FindIpBlockById(floatingPoolId);
    if e.Some? {
      return Some(Api(e.value));
    }
    var floatingPoolIp := ChooseFloatingIp(block.ips, block.consumers);
    if floatingPoolIp == "" {
      return Some(ExhaustedPool(floatingPoolId));
    }
    err := AttachConfiguredNic(cloud, dc, serverId, lanId, NicConfiguration(floatingPoolIp, true, true), retries);
  }

  // ---------------------------------------------------------------- laws

  /** A LAN id that is not a decimal number fails before any call. */
  lemma NonNumericLanIdMakesNoCall(reply: nat -> Reply, settle: nat -> (nat -> Lookup), servers: seq<Server>, log: seq<Call>,
                                   dc: string, serverId: string, lanId: string, config: NicConfiguration, retries: nat)
    requires lanId == "" || !AllDigits(if lanId[0] == '-' || lanId[0] == '+' then lanId[1..] else lanId)
    ensures Attach(reply, settle, servers, log, dc, serverId, lanId, config, retries)
            == Attachment(log, Some(NotANumber(lanId)), [])
  {
  }

  /** A numeric LAN id leads to exactly one NIC creation, for the configured properties,
      followed by a wait on the created NIC only when the creation succeeded; the
      wait's error is the attachment's error. */
  lemma AttachShape(reply: nat -> Reply, settle: nat -> (nat -> Lookup), servers: seq<Server>, log: seq<Call>,
                    dc: string, serverId: string, lanId: string, config: NicConfiguration, retries: nat)
    requires Atoi(lanId).Some?
    ensures var a := Attach(reply, settle, servers, log, dc, serverId, lanId, config, retries);
            var properties := NicPropertiesFor(Int32(Atoi(lanId).value), config);
            var create := Call(CreateNic, dc, serverId, NicPayload(properties));
            match AnswerAt(reply, |log|, FindServerIn(servers, dc, serverId).Some?)
            case Some(e) => a == Attachment(log + [create], Some(Api(e)), [])
            case None =>
              var nicId := IdAt(reply, |log|);
              a.log == log + [create, Call(WaitNic, dc, nicId, NoPayload)]
              && a.nics == [Nic(dc, serverId, nicId, properties)]
              && (a.err.None? <==> Expected(settle(|log| + 1), retries, NicKind).err.None?)
  {
    var properties := NicPropertiesFor(Int32(Atoi(lanId).value), config);
    var create := Call(CreateNic, dc, serverId, NicPayload(properties));
    assert |log + [create]| == |log| + 1;
    assert log + [create] + [Call(WaitNic, dc, IdAt(reply, |log|), NoPayload)] == log + [create, Call(WaitNic, dc, IdAt(reply, |log|), NoPayload)];
  }

  /** With every IP of the pool held, the floating attachment reports exhaustion and
      creates no NIC. */
  lemma FullPoolCreatesNoNic(reply: nat -> Reply, settle: nat -> (nat -> Lookup), ipBlocks: map<string, IpBlock>,
                             servers: seq<Server>, log: seq<Call>, dc: string, serverId: string, lanId: string,
                             floatingPoolId: string, retries: nat)
    requires floatingPoolId in ipBlocks && reply(|log|).Accept?
    requires forall j :: 0 <= j < |ipBlocks[floatingPoolId].ips| ==>
               ipBlocks[floatingPoolId].ips[j] in ipBlocks[floatingPoolId].consumers
    ensures FloatingAttach(reply, settle, ipBlocks, servers, log, dc, serverId, lanId, floatingPoolId, retries)
            == Attachment(log + [Call(FindIpBlock, "", floatingPoolId, NoPayload)], Some(ExhaustedPool(floatingPoolId)), [])
  {
    var block := ipBlocks[floatingPoolId];
    assert LastFreeIndex(block.ips, block.consumers) < 0;
  }

  /** A created floating NIC carries one IP of the pool that no consumer holds and
      after which every IP is held, with DHCP and the firewall on. */
  lemma FloatingNicUsesLastFreeIp(reply: nat -> Reply, settle: nat -> (nat -> Lookup), ipBlocks: map<string, IpBlock>,
                                  servers: seq<Server>, log: seq<Call>, dc: string, serverId: string, lanId: string,
                                  floatingPoolId: string, retries: nat)
    requires |FloatingAttach(reply, settle, ipBlocks, servers, log, dc, serverId, lanId, floatingPoolId, retries).log| >= |log| + 2
    ensures floatingPoolId in ipBlocks
    ensures var a := FloatingAttach(reply, settle, ipBlocks, servers, log, dc, serverId, lanId, floatingPoolId, retries);
            var block := ipBlocks[floatingPoolId];
            var call := a.log[|log| + 1];
            call.op == CreateNic && call.payload.NicPayload?
            && var p := call.payload.nic;
            p.ips.Some? && |p.ips.value| == 1 && DhcpOf(p) && FirewallOf(p)
            && exists k :: 0 <= k < |block.ips| && block.ips[k] == p.ips.value[0] && block.ips[k] !in block.consumers
                           && (forall j :: k < j < |block.ips| ==> block.ips[j] in block.consumers)
  {
    var block := ipBlocks[floatingPoolId];
    var ip := LastFreeIp(block.ips, block.consumers);
    var n := Atoi(lanId).value;
    var c := NicConfiguration(ip, true, true);
    PropertiesKeepConfiguration(Int32(n), c);
    ChosenIsLastFree(block.ips, block.consumers);
  }
}
