/** pkg/ionos/ensurer/networks.go: the floating-pool LAN of a machine (created
    from a free IP of an IP block, deleted by name) and the attachment of a LAN
    to a server through a new NIC. */
module Ensurer {
  import opened Common
  import opened Polling
  import opened Cloud
  import opened IpSelection
  import Apis
  import IonosLan

  // ---------------------------------------------------------------- creation

  /** What the creation does: the log after it, the LAN id it returns, its error and the LANs it adds. */
  datatype Creation = Creation(log: seq<Call>, lanId: string, err: Option<Failure>, created: seq<Lan>)

  /** EnsureFloatingPoolIPBlockLANIsCreated issued after the calls `log`. */
  function LanCreation(reply: nat -> Reply, ipBlocks: map<string, IpBlock>, log: seq<Call>,
                       dc: string, floatingPoolId: string, lanName: string): Creation
  {
    if floatingPoolId == "" then Creation(log, "", None, [])
    else
      var log1 := log + [Call(FindIpBlock, "", floatingPoolId, NoPayload)];
      match AnswerAt(reply, |log|, floatingPoolId in ipBlocks)
      case Some(e) => Creation(log1, "", Some(Api(e)), [])
      case None =>
        var block := ipBlocks[floatingPoolId];
        var ip := LastFreeIp(block.ips, block.consumers);
        if ip == "" then Creation(log1, "", Some(ExhaustedBlock(block)), [])
        else
          var properties := LanProperties(lanName, true, [ip]);
          var log2 := log1 + [Call(CreateLan, dc, "", LanPayload(properties))];
          match AnswerAt(reply, |log1|, true)
          case Some(e) => Creation(log2, "", Some(Api(e)), [])
          case None => Creation(log2, IdAt(reply, |log1|), None, [Lan(dc, IdAt(reply, |log1|), properties)])
  }

  method EnsureFloatingPoolIPBlockLANIsCreated(cloud: Cloud, dc: string, floatingPoolId: string, lanName: string)
    returns (lanId: string, err: Option<Failure>)
    modifies cloud
    ensures var r := LanCreation(cloud.reply, cloud.ipBlocks, old(cloud.log), dc, floatingPoolId, lanName);
            cloud.log == r.log && lanId == r.lanId && err == r.err
            && cloud.world == old(cloud.world).(lans := old(cloud.world.lans) + r.created)
  {
    if floatingPoolId != "" {
      var block, e := cloud.FindIpBlockById(floatingPoolId);
      if e.Some? {
        return "", Some(Api(e.value));
      }
      var floatingPoolIp := ChooseFloatingIp(block.ips, block.consumers);
      if floatingPoolIp == "" {
        return "", Some(ExhaustedBlock(block));
      }
      var id, e2 := cloud.PostLan(dc, LanProperties(lanName, true, [floatingPoolIp]));
      if e2.Some? {
        return "", Some(Api(e2.value));
      }
      return id, None;
    }
    return "", None;
  }

  /** Without a pool nothing is called and ("", nil) comes back. */
  lemma NoPoolNoCall(reply: nat -> Reply, ipBlocks: map<string, IpBlock>, log: seq<Call>, dc: string, lanName: string)
    ensures LanCreation(reply, ipBlocks, log, dc, "", lanName) == Creation(log, "", None, [])
  {
  }

  /** The creation only appends, at most two calls; every error comes with the empty id
      and creates no LAN; success returns the non-empty id of the one LAN created. */
  lemma ErrorMeansNoLan(reply: nat -> Reply, ipBlocks: map<string, IpBlock>, log: seq<Call>,
                        dc: string, floatingPoolId: string, lanName: string)
    ensures var r := LanCreation(reply, ipBlocks, log, dc, floatingPoolId, lanName);
            (r.err.Some? ==> r.lanId == "" && r.created == [])
            && (r.err.None? && floatingPoolId != "" ==>
                  r.lanId != "" && |r.created| == 1 && r.created[0].id == r.lanId && r.created[0].dc == dc)
            && |log| <= |r.log| <= |log| + 2 && r.log[..|log|] == log
  {
  }

  /** A pool whose every IP is held is reported exhausted after the one lookup; no LAN
      is requested. */
  lemma FullBlockIsExhausted(reply: nat -> Reply, ipBlocks: map<string, IpBlock>, log: seq<Call>,
                             dc: string, floatingPoolId: string, lanName: string)
    requires floatingPoolId != "" && floatingPoolId in ipBlocks && reply(|log|).Accept?
    requires forall j :: 0 <= j < |ipBlocks[floatingPoolId].ips| ==>
               ipBlocks[floatingPoolId].ips[j] in ipBlocks[floatingPoolId].consumers
    ensures LanCreation(reply, ipBlocks, log, dc, floatingPoolId, lanName)
            == Creation(log + [Call(FindIpBlock, "", floatingPoolId, NoPayload)], "", Some(ExhaustedBlock(ipBlocks[floatingPoolId])), [])
  {
    var block := ipBlocks[floatingPoolId];
    assert LastFreeIndex(block.ips, block.consumers) < 0;
  }

  /** A LAN request asks for a public LAN named `lanName` failing over to one IP of the
      block that no consumer holds and after which every IP is held. */
  lemma RequestedLanUsesLastFreeIp(reply: nat -> Reply, ipBlocks: map<string, IpBlock>, log: seq<Call>,
                                   dc: string, floatingPoolId: string, lanName: string)
    requires |LanCreation(reply, ipBlocks, log, dc, floatingPoolId, lanName).log| == |log| + 2
    ensures floatingPoolId in ipBlocks
    ensures var r := LanCreation(reply, ipBlocks, log, dc, floatingPoolId, lanName);
            var block := ipBlocks[floatingPoolId];
            var call := r.log[|log| + 1];
            call.op == CreateLan && call.dc == dc && call.payload.LanPayload?
            && var p := call.payload.lan;
            p.name == lanName && p.public && |p.ipFailover| == 1
            && exists k :: 0 <= k < |block.ips| && block.ips[k] == p.ipFailover[0] && block.ips[k] !in block.consumers
                           && (forall j :: k < j < |block.ips| ==> block.ips[j] in block.consumers)
  {
    var block := ipBlocks[floatingPoolId];
    ChosenIsLastFree(block.ips, block.consumers);
  }

  // ---------------------------------------------------------------- deletion

  /** The ids of the listed LANs named `lanName`, in list order. */
  function NamedLanIds(items: seq<Lan>, lanName: string): (ids: seq<string>)
    ensures |ids| <= |items|
    ensures forall id :: id in ids <==> exists l :: l in items && l.properties.name == lanName && l.id == id
  {
    if items == [] then []
    else (if items[0].properties.name == lanName then [items[0].id] else []) + NamedLanIds(items[1..], lanName)
  }

  /** What a run of deletions does: the log after it, its error and the LANs left. */
  datatype Deletion = Deletion(log: seq<Call>, err: Option<Failure>, lans: seq<Lan>)

  /** Deleting the LANs `ids` one by one after the calls `log`, stopping at the first error. */
  function DeleteEach(reply: nat -> Reply, log: seq<Call>, dc: string, lans: seq<Lan>, ids: seq<string>): Deletion
    decreases |ids|
  {
    if ids == [] then Deletion(log, None, lans)
    else
      var log1 := log + [Call(DeleteLan, dc, ids[0], NoPayload)];
      match AnswerAt(reply, |log|, HasLan(lans, dc, ids[0]))
      case Some(e) => Deletion(log1, Some(Api(e)), lans)
      case None => DeleteEach(reply, log1, dc, WithoutLans(lans, dc, {ids[0]}), ids[1..])
  }

  /** EnsureFloatingPoolIPBlockLANIsDeleted issued after the calls `log` on the LANs `lans`. */
  function LanCleanup(reply: nat -> Reply, log: seq<Call>, dc: string, lans: seq<Lan>, lanName: string): Deletion
  {
    var log1 := log + [Call(ListLans, dc, "", NoPayload)];
    match AnswerAt(reply, |log|, true)
    case Some(e) => Deletion(log1, Some(Api(e)), lans)
    case None => DeleteEach(reply, log1, dc, lans, NamedLanIds(LansIn(lans, dc), lanName))
  }

  method EnsureFloatingPoolIPBlockLANIsDeleted(cloud: Cloud, dc: string, lanName: string) returns (err: Option<Failure>)
    modifies cloud
    ensures var r := LanCleanup(cloud.reply, old(cloud.log), dc, old(cloud.world.lans), lanName);
            cloud.log == r.log && err == r.err && cloud.world == old(cloud.world).(lans := r.lans)
  {
    ghost var full := LanCleanup(cloud.reply, cloud.log, dc, cloud.world.lans, lanName);
    var items, e := cloud.GetLans(dc);
    if e.Some? {
      return Some(Api(e.value));
    }
    err := DeleteNamedLans(cloud, dc, items, lanName, full);
  }

  /** The loop of EnsureFloatingPoolIPBlockLANIsDeleted over the listed LANs `items`. */
  method DeleteNamedLans(cloud: Cloud, dc: string, items: seq<Lan>, lanName: string, ghost full: Deletion)
    returns (err: Option<Failure>)
    requires DeleteEach(cloud.reply, cloud.log, dc, cloud.world.lans, NamedLanIds(items, lanName)) == full
    modifies cloud
    ensures cloud.log == full.log && err == full.err && cloud.world == old(cloud.world).(lans := full.lans)
  {
    assert items[0..] == items;
    var i := 0;
    while i < |items|
      invariant 0 <= i <= |items|
      invariant cloud.world == old(cloud.world).(lans := cloud.world.lans)
      invariant DeleteEach(cloud.reply, cloud.log, dc, cloud.world.lans, NamedLanIds(items[i..], lanName)) == full
    {
      NamedStep(items, i, lanName);
      var e := DeleteIfNamed(cloud, dc, items[i], lanName, NamedLanIds(items[i + 1..], lanName), full);
      if e.Some? {
        return Some(Api(e.value));
      }
      i := i + 1;
    }
    return None;
  }

  /** One turn of the deletion loop: the LAN is deleted when it carries the name. */
  method DeleteIfNamed(cloud: Cloud, dc: string, item: Lan, lanName: string, ghost ids: seq<string>, ghost full: Deletion)
    returns (err: Option<ApiError>)
    requires DeleteEach(cloud.reply, cloud.log, dc, cloud.world.lans,
                        (if item.properties.name == lanName then [item.id] else []) + ids) == full
    modifies cloud
    ensures cloud.world == old(cloud.world).(lans := cloud.world.lans)
    ensures err.None? ==> DeleteEach(cloud.reply, cloud.log, dc, cloud.world.lans, ids) == full
    ensures err.Some? ==> cloud.log == full.log && full.err == Some(Api(err.value)) && cloud.world.lans == full.lans
  {
    if lanName == item.properties.name {
      assert ([item.id] + ids)[0] == item.id && ([item.id] + ids)[1..] == ids;
      err := cloud.RemoveLan(dc, item.id);
    } else {
      assert [] + ids == ids;
      err := None;
    }
  }

  lemma NamedStep(items: seq<Lan>, i: nat, lanName: string)
    requires i < |items|
    ensures NamedLanIds(items[i..], lanName)
            == (if items[i].properties.name == lanName then [items[i].id] else []) + NamedLanIds(items[i + 1..], lanName)
  {
    assert items[i..][1..] == items[i + 1..];
  }

  /** The deletions only append to the log: one call per id, for the ids in order,
      each addressed to its LAN; all of them unless one fails. */
  lemma {:induction false} DeletesOnlyNamedLans(reply: nat -> Reply, log: seq<Call>, dc: string, lans: seq<Lan>, ids: seq<string>)
    ensures var d := DeleteEach(reply, log, dc, lans, ids);
            |log| <= |d.log| <= |log| + |ids| && d.log[..|log|] == log
            && (forall k :: |log| <= k < |d.log| ==> d.log[k] == Call(DeleteLan, dc, ids[k - |log|], NoPayload))
            && (d.err.None? ==> |d.log| == |log| + |ids|)
            && (d.err.Some? ==> |d.log| > |log| && d.err.value.Api?)
    decreases |ids|
  {
    if ids != [] {
      var log1 := log + [Call(DeleteLan, dc, ids[0], NoPayload)];
      if AnswerAt(reply, |log|, HasLan(lans, dc, ids[0])).None? {
        DeletesOnlyNamedLans(reply, log1, dc, WithoutLans(lans, dc, {ids[0]}), ids[1..]);
        var d := DeleteEach(reply, log1, dc, WithoutLans(lans, dc, {ids[0]}), ids[1..]);
        assert d.log[..|log|] == d.log[..|log1|][..|log|];
        forall k | |log| <= k < |d.log|
          ensures d.log[k] == Call(DeleteLan, dc, ids[k - |log|], NoPayload)
        {
          if k == |log| {
            assert d.log[k] == d.log[..|log1|][k];
          }
        }
      }
    }
  }

  /** After a complete run no LAN of the datacenter carrying one of the ids is left, and
      every other LAN is untouched. */
  lemma {:induction false} CompleteRunRemovesExactly(reply: nat -> Reply, log: seq<Call>, dc: string, lans: seq<Lan>, ids: seq<string>)
    requires DeleteEach(reply, log, dc, lans, ids).err.None?
    ensures DeleteEach(reply, log, dc, lans, ids).lans == WithoutLans(lans, dc, set id | id in ids)
    decreases |ids|
  {
    if ids == [] {
      assert (set id | id in ids) == {};
      WithoutNothing(lans, dc);
    } else {
      var rest := WithoutLans(lans, dc, {ids[0]});
      CompleteRunRemovesExactly(reply, log + [Call(DeleteLan, dc, ids[0], NoPayload)], dc, rest, ids[1..]);
      WithoutLansTwice(lans, dc, {ids[0]}, set id | id in ids[1..]);
      IdSetSplits(ids);
    }
  }

  lemma IdSetSplits(ids: seq<string>)
    requires ids != []
    ensures {ids[0]} + (set id | id in ids[1..]) == set id | id in ids
  {
    assert forall x :: x in ids <==> x == ids[0] || x in ids[1..];
  }

  lemma {:induction false} WithoutNothing(lans: seq<Lan>, dc: string)
    ensures WithoutLans(lans, dc, {}) == lans
  {
    if lans != [] {
      WithoutNothing(lans[1..], dc);
    }
  }

  /** The cleanup lists the datacenter's LANs, then deletes exactly the ones named
      `lanName`, in list order, stopping at the first failure. */
  lemma CleanupDeletesNamedLans(reply: nat -> Reply, log: seq<Call>, dc: string, lans: seq<Lan>, lanName: string)
    ensures var r := LanCleanup(reply, log, dc, lans, lanName);
            var ids := NamedLanIds(LansIn(lans, dc), lanName);
            |log| + 1 <= |r.log| <= |log| + 1 + |ids| && r.log[..|log|] == log
            && r.log[|log|] == Call(ListLans, dc, "", NoPayload)
            && (forall k :: |log| + 1 <= k < |r.log| ==> r.log[k] == Call(DeleteLan, dc, ids[k - |log| - 1], NoPayload))
            && (r.err.None? ==> |r.log| == |log| + 1 + |ids| && r.lans == WithoutLans(lans, dc, set id | id in ids))
  {
    var ids := NamedLanIds(LansIn(lans, dc), lanName);
    var log1 := log + [Call(ListLans, dc, "", NoPayload)];
    assert log1[..|log|] == log && log1[|log|] == Call(ListLans, dc, "", NoPayload);
    if AnswerAt(reply, |log|, true).None? {
      DeletesOnlyNamedLans(reply, log1, dc, lans, ids);
      var d := DeleteEach(reply, log1, dc, lans, ids);
      assert d.log[..|log1|] == log1;
      assert d.log[..|log|] == d.log[..|log1|][..|log|];
      assert d.log[|log|] == d.log[..|log1|][|log|];
      forall k | |log| + 1 <= k < |d.log|
        ensures d.log[k] == Call(DeleteLan, dc, ids[k - |log| - 1], NoPayload)
      {
        assert k - |log1| == k - |log| - 1;
      }
      if d.err.None? {
        CompleteRunRemovesExactly(reply, log1, dc, lans, ids);
      }
    }
  }

  // ---------------------------------------------------------------- attachment

  /** EnsureLANIsAttachedToServer issued after the calls `log`: a NIC whose only
      property is the LAN number, then the utils.go wait on that NIC. */
  function LanAttachment(reply: nat -> Reply, settle: nat -> (nat -> Lookup), servers: seq<Server>, log: seq<Call>,
                         dc: string, serverId: string, lanId: string): IonosLan.Attachment
  {
    match Atoi(lanId)
    case None => IonosLan.Attachment(log, Some(NotANumber(lanId)), [])
    case Some(n) =>
      var properties := NicProperties(Int32(n), None, None, None);
      var log1 := log + [Call(CreateNic, dc, serverId, NicPayload(properties))];
      match AnswerAt(reply, |log|, FindServerIn(servers, dc, serverId).Some?)
      case Some(e) => IonosLan.Attachment(log1, Some(Api(e)), [])
      case None =>
        var nicId := IdAt(reply, |log|);
        var w := Expected(settle(|log1|), Apis.MachineOperationRetries, NicKind);
        IonosLan.Attachment(log1 + [Call(WaitNic, dc, nicId, NoPayload)],
                            if w.err.Some? then Some(Wait(w.err.value)) else None,
                            [Nic(dc, serverId, nicId, properties)])
  }

  method EnsureLANIsAttachedToServer(cloud: Cloud, dc: string, serverId: string, lanId: string)
    returns (err: Option<Failure>)
    requires cloud.Responsive()
    modifies cloud
    ensures var a := LanAttachment(cloud.reply, cloud.settle, old(cloud.world.servers), old(cloud.log), dc, serverId, lanId);
            cloud.log == a.log && err == a.err
            && cloud.world == old(cloud.world).(nics := old(cloud.world.nics) + a.nics)
  {
    var numericLanId := Atoi(lanId);
    if numericLanId.None? {
      return Some(NotANumber(lanId));
    }
    var apiLanId := Int32(numericLanId.value);
    var nicId, e := cloud.PostNic(dc, serverId, NicProperties(apiLanId, None, None, None));
    if e.Some? {
      return Some(Api(e.value));
    }
    var w := cloud.WaitForNic(dc, nicId);
    if w.Some? {
      return Some(Wait(w.value));
    }
    return None;
  }

  /** The ensurer's attachment behaves as the vendored AttachLANToServer (DHCP on,
      firewall off, no IP) run with the controller's retry bound. */
  lemma SameAsVendoredAttach(reply: nat -> Reply, settle: nat -> (nat -> Lookup), servers: seq<Server>, log: seq<Call>,
                             dc: string, serverId: string, lanId: string)
    ensures LanAttachment(reply, settle, servers, log, dc, serverId, lanId)
            == IonosLan.Attach(reply, settle, servers, log, dc, serverId, lanId,
                               IonosLan.NicConfiguration("", true, false), Apis.MachineOperationRetries)
  {
  }
}
