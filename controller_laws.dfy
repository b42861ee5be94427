/** The laws of the driver calls in pkg/ionos/machine_controller.go: which cloud calls a
    request makes and in what order, which status code a failure carries, what a
    request leaves behind, and how CreateMachine, GetMachineStatus and ListMachines
    fit together. */
module ControllerLaws {
  import opened Common
  import opened Polling
  import opened Cloud
  import opened Apis
  import opened Controller
  import Transcoder
  import Ensurer
  import IonosLan
  import IpSelection

  // ---------------------------------------------------------------- plans

  /** The status code CreateMachine answers with when the call `op` is the one that failed. */
  function CreateCode(op: Op): Code
  {
    match op
    case FindImage => InvalidArgument
    case CreateServer => Unavailable
    case StopServer => Aborted
    case StartServer => Aborted
    case _ => Internal
  }

  /** The calls after `log` in `after` follow `plan`: their operations are the first
      ones of it, all of it when nothing failed, and a failure whose code is not Internal
      carries the code of the last call made. Contracts state it as `Follows(...) == true`,
      which keeps the verifier from unfolding it into its conjuncts on every path. */
  ghost predicate Follows(log: seq<Call>, after: seq<Call>, err: Option<Status>, plan: seq<Op>)
  {
    |log| <= |after| && after[..|log|] == log
    && var ops := Ops(after[|log|..]);
       |ops| <= |plan| && ops == plan[..|ops|]
       && (err.None? ==> ops == plan)
       && (err.Some? && err.value.code != Internal ==> ops != [] && err.value.code == CreateCode(ops[|ops| - 1]))
  }

  /** Nothing is removed: every collection of the world only grows at its end. */
  ghost predicate Keeps(w: World, w': World)
  {
    w.volumes <= w'.volumes && w.servers <= w'.servers && w.lans <= w'.lans && w.nics <= w'.nics
  }

  /** A step that ends without error hands on to the next one; a step that fails ends
      the request with its error. */
  lemma Chain(log: seq<Call>, mid: seq<Call>, after: seq<Call>, e1: Option<Status>, e2: Option<Status>,
              p1: seq<Op>, p2: seq<Op>)
    requires Follows(log, mid, e1, p1) == true
    requires e1.None? ==> Follows(mid, after, e2, p2) == true
    requires e1.Some? ==> after == mid && e2 == e1
    ensures Follows(log, after, e2, p1 + p2) == true
  {
    var ops1 := Ops(mid[|log|..]);
    if e1.None? {
      assert after[..|mid|][..|log|] == after[..|log|];
      assert after[|log|..] == mid[|log|..] + after[|mid|..];
      OpsAppend(mid[|log|..], after[|mid|..]);
      var ops2 := Ops(after[|mid|..]);
      var ops := ops1 + ops2;
      assert Ops(after[|log|..]) == ops;
      assert ops == (p1 + p2)[..|ops|];
      assert e2.None? ==> ops == p1 + p2;
      if ops2 != [] {
        assert ops[|ops| - 1] == ops2[|ops2| - 1];
      }
    } else {
      assert ops1 == (p1 + p2)[..|ops1|];
    }
  }

  /** No call made. */
  lemma Made0(log: seq<Call>, err: Option<Status>, plan: seq<Op>)
    requires err.None? ==> plan == []
    requires err.Some? ==> err.value.code == Internal
    ensures Follows(log, log, err, plan) == true
  {
    assert log[|log|..] == [];
  }

  /** One call made. */
  lemma Made1(log: seq<Call>, c1: Call, err: Option<Status>, plan: seq<Op>)
    requires 1 <= |plan| && plan[0] == c1.op
    requires err.None? ==> |plan| == 1
    requires err.Some? ==> err.value.code == CreateCode(c1.op)
    ensures Follows(log, log + [c1], err, plan) == true
  {
    assert (log + [c1])[..|log|] == log;
    assert (log + [c1])[|log|..] == [c1];
    assert Ops([c1]) == [c1.op];
  }

  /** Two calls made. */
  lemma Made2(log: seq<Call>, c1: Call, c2: Call, err: Option<Status>, plan: seq<Op>)
    requires 2 <= |plan| && plan[0] == c1.op && plan[1] == c2.op
    requires err.None? ==> |plan| == 2
    requires err.Some? ==> err.value.code == CreateCode(c2.op)
    ensures Follows(log, log + [c1] + [c2], err, plan) == true
  {
    var after := log + [c1] + [c2];
    assert after[..|log|] == log;
    assert after[|log|..] == [c1, c2];
    assert Ops([c1, c2]) == [c1.op] + Ops([c2]);
  }

  /** Three calls made. */
  lemma Made3(log: seq<Call>, c1: Call, c2: Call, c3: Call, err: Option<Status>, plan: seq<Op>)
    requires 3 <= |plan| && plan[0] == c1.op && plan[1] == c2.op && plan[2] == c3.op
    requires err.None? ==> |plan| == 3
    requires err.Some? ==> err.value.code == CreateCode(c3.op)
    ensures Follows(log, log + [c1] + [c2] + [c3], err, plan) == true
  {
    var after := log + [c1] + [c2] + [c3];
    assert after[..|log|] == log;
    assert after[|log|..] == [c1, c2, c3];
    assert Ops([c3]) == [c3.op];
    assert [c2, c3][1..] == [c3];
    assert Ops([c2, c3]) == [c2.op, c3.op];
    assert [c1, c2, c3][1..] == [c2, c3];
    assert Ops([c1, c2, c3]) == [c1.op, c2.op, c3.op];
  }

  lemma KeepsTrans(w1: World, w2: World, w3: World)
    requires Keeps(w1, w2) && Keeps(w2, w3)
    ensures Keeps(w1, w3)
  {
    assert w3.volumes[..|w2.volumes|][..|w1.volumes|] == w3.volumes[..|w1.volumes|];
    assert w3.servers[..|w2.servers|][..|w1.servers|] == w3.servers[..|w1.servers|];
    assert w3.lans[..|w2.lans|][..|w1.lans|] == w3.lans[..|w1.lans|];
    assert w3.nics[..|w2.nics|][..|w1.nics|] == w3.nics[..|w1.nics|];
  }

  const VolumePlan: seq<Op> := [CreateVolume, WaitVolume, LabelVolume("cluster")]
  const ServerPlan: seq<Op> := [CreateServer, WaitServer, StopServer, WaitServer]
  const StartPlan: seq<Op> := [WaitServer, StartServer, WaitServer]

  function LanPlan(floatingPoolId: string): seq<Op>
  {
    if floatingPoolId == "" then [] else [FindIpBlock, CreateLan]
  }

  function NicPlan(lanId: string): seq<Op>
  {
    if lanId == "" then [] else [CreateNic, WaitNic]
  }

  function LabelPlan(labels: seq<Label>): (p: seq<Op>)
    ensures |p| == |labels|
    ensures forall i :: 0 <= i < |labels| ==> p[i] == LabelServer(labels[i].key)
  {
    if labels == [] then [] else [LabelServer(labels[0].key)] + LabelPlan(labels[1..])
  }

  /** The calls from the creation of the server on. */
  function ConfigurePlan(spec: ProviderSpec, lanId: string): seq<Op>
  {
    ServerPlan + (LabelPlan(ServerLabels(spec)) + (NicPlan(lanId) + (NicPlan(spec.networkId) + StartPlan)))
  }

  /** The calls from the boot volume on. */
  function ProvisionPlan(spec: ProviderSpec): seq<Op>
  {
    VolumePlan + (LanPlan(spec.floatingPoolIpId) + ConfigurePlan(spec, spec.floatingPoolIpId))
  }

  /** Every call CreateMachine makes after its checks, in order: the image lookup, the
      boot volume, the floating-pool LAN, the stopped server, its labels, the two NICs and
      the start. */
  function CreatePlan(spec: ProviderSpec): seq<Op>
  {
    [FindImage] + ProvisionPlan(spec)
  }

  // ---------------------------------------------------------------- the steps

  lemma ClusterLabelFollows(o: Oracle, w: World, log: seq<Call>, dc: string, id: string, cluster: string)
    ensures var r := ClusterLabelStep(o, w, log, dc, id, cluster);
            Follows(log, r.log, r.err, [LabelVolume("cluster")]) == true
  {
    var r := ClusterLabelStep(o, w, log, dc, id, cluster);
    Made1(log, Call(LabelVolume("cluster"), dc, id, LabelPayload(Hex(cluster))), r.err, [LabelVolume("cluster")]);
  }

  lemma VolumeStepsFollow(o: Oracle, w: World, log: seq<Call>, dc: string, properties: VolumeProperties, cluster: string)
    ensures var r := VolumeSteps(o, w, log, dc, properties, cluster);
            Follows(log, r.log, r.err, VolumePlan) == true
  {
    var r := VolumeSteps(o, w, log, dc, properties, cluster);
    var id := IdAt(o.reply, |log|);
    var c1 := Call(CreateVolume, dc, "", VolumePayload(properties));
    var c2 := Call(WaitVolume, dc, id, NoPayload);
    var p1 := [CreateVolume, WaitVolume];
    assert VolumePlan == p1 + [LabelVolume("cluster")];
    if AnswerAt(o.reply, |log|, true).Some? {
      Made1(log, c1, r.err, VolumePlan);
    } else if Expected(o.settle(|log + [c1]|), MachineOperationRetries, VolumeKind).err.Some? {
      Made2(log, c1, c2, r.err, VolumePlan);
    } else {
      var w1 := w.(volumes := w.volumes + [Volume(dc, id, properties)]);
      Made2(log, c1, c2, None, p1);
      ClusterLabelFollows(o, w1, log + [c1] + [c2], dc, id, cluster);
      Chain(log, log + [c1] + [c2], r.log, None, r.err, p1, [LabelVolume("cluster")]);
    }
  }

  /** The boot volume steps add the volume once the cloud accepted it, and remove nothing. */
  lemma VolumeStepsWorld(o: Oracle, w: World, log: seq<Call>, dc: string, properties: VolumeProperties, cluster: string)
    ensures var r := VolumeSteps(o, w, log, dc, properties, cluster);
            Keeps(w, r.world)
            && (AnswerAt(o.reply, |log|, true).None? ==> Volume(dc, IdAt(o.reply, |log|), properties) in r.world.volumes)
  {
    var r := VolumeSteps(o, w, log, dc, properties, cluster);
    var v := Volume(dc, IdAt(o.reply, |log|), properties);
    var w1 := w.(volumes := w.volumes + [v]);
    assert Keeps(w, w1);
    assert v in w1.volumes;
    assert r.world == w || r.world.(volumeLabels := w.volumeLabels) == w1;
  }

  lemma LanCreationFollows(o: Oracle, w: World, log: seq<Call>, dc: string, floatingPoolId: string, lanName: string)
    ensures var r := Ensurer.LanCreation(o.reply, o.ipBlocks, log, dc, floatingPoolId, lanName);
            Follows(log, r.log, if r.err.Some? then Some(Status(Internal, EnsureFailed(r.err.value))) else None,
                    LanPlan(floatingPoolId)) == true
            && (r.err.None? ==> (r.lanId == "" <==> floatingPoolId == ""))
  {
    var r := Ensurer.LanCreation(o.reply, o.ipBlocks, log, dc, floatingPoolId, lanName);
    var err := if r.err.Some? then Some(Status(Internal, EnsureFailed(r.err.value))) else None;
    Ensurer.ErrorMeansNoLan(o.reply, o.ipBlocks, log, dc, floatingPoolId, lanName);
    var c1 := Call(FindIpBlock, "", floatingPoolId, NoPayload);
    if floatingPoolId == "" {
      Made0(log, err, []);
    } else if AnswerAt(o.reply, |log|, floatingPoolId in o.ipBlocks).Some? {
      Made1(log, c1, err, LanPlan(floatingPoolId));
    } else {
      var block := o.ipBlocks[floatingPoolId];
      var ip := IpSelection.LastFreeIp(block.ips, block.consumers);
      if ip == "" {
        Made1(log, c1, err, LanPlan(floatingPoolId));
      } else {
        var c2 := Call(CreateLan, dc, "", LanPayload(LanProperties(lanName, true, [ip])));
        Made2(log, c1, c2, err, LanPlan(floatingPoolId));
      }
    }
  }

  lemma StopStepsFollow(o: Oracle, w: World, log: seq<Call>, dc: string, id: string)
    ensures var r := StopSteps(o, w, log, dc, id);
            Follows(log, r.log, r.err, [StopServer, WaitServer]) == true
  {
    var r := StopSteps(o, w, log, dc, id);
    var c1 := Call(StopServer, dc, id, NoPayload);
    var c2 := Call(WaitServer, dc, id, NoPayload);
    if AnswerAt(o.reply, |log|, true).Some? {
      assert r.log == log + [c1] && r.err.value.code == Aborted;
      Made1(log, c1, r.err, [StopServer, WaitServer]);
    } else {
      assert r.log == log + [c1] + [c2] && (r.err.None? || r.err.value.code == Internal);
      Made2(log, c1, c2, r.err, [StopServer, WaitServer]);
    }
  }

  lemma ServerStepsFollow(o: Oracle, w: World, log: seq<Call>, dc: string, properties: ServerProperties, volumeId: string)
    ensures var r := ServerSteps(o, w, log, dc, properties, volumeId);
            Follows(log, r.log, r.err, ServerPlan) == true
  {
    var r := ServerSteps(o, w, log, dc, properties, volumeId);
    var id := IdAt(o.reply, |log|);
    var c1 := Call(CreateServer, dc, volumeId, ServerPayload(properties));
    var c2 := Call(WaitServer, dc, id, NoPayload);
    var p1 := [CreateServer, WaitServer];
    assert ServerPlan == p1 + [StopServer, WaitServer];
    if AnswerAt(o.reply, |log|, true).Some? {
      Made1(log, c1, r.err, ServerPlan);
    } else if Expected(o.settle(|log + [c1]|), MachineOperationRetries, ServerKind).err.Some? {
      Made2(log, c1, c2, r.err, ServerPlan);
    } else {
      var w1 := w.(servers := w.servers + [Server(dc, id, properties, volumeId, [volumeId], Available)]);
      Made2(log, c1, c2, None, p1);
      StopStepsFollow(o, w1, log + [c1] + [c2], dc, id);
      Chain(log, log + [c1] + [c2], r.log, None, r.err, p1, [StopServer, WaitServer]);
    }
  }

  /** The server steps add the server, stopped, once every call succeeded, and remove nothing. */
  lemma ServerStepsWorld(o: Oracle, w: World, log: seq<Call>, dc: string, properties: ServerProperties, volumeId: string)
    ensures var r := ServerSteps(o, w, log, dc, properties, volumeId);
            var id := IdAt(o.reply, |log|);
            Keeps(w, r.world)
            && (r.err.None? ==>
                  r.world == w.(servers := w.servers + [Server(dc, id, properties, volumeId, [volumeId], Available)],
                                powered := w.powered[id := false]))
  {
    var r := ServerSteps(o, w, log, dc, properties, volumeId);
    var w1 := w.(servers := w.servers + [Server(dc, IdAt(o.reply, |log|), properties, volumeId, [volumeId], Available)]);
    assert Keeps(w, w1);
    assert r.world == w || r.world.(powered := w.powered) == w1;
  }

  lemma {:induction false} LabelStepsFollow(o: Oracle, w: World, log: seq<Call>, dc: string, id: string, labels: seq<Label>)
    ensures var r := LabelSteps(o, w, log, dc, id, labels);
            Follows(log, r.log, r.err, LabelPlan(labels)) == true
    decreases |labels|
  {
    var r := LabelSteps(o, w, log, dc, id, labels);
    if labels == [] {
      Made0(log, r.err, []);
    } else {
      var c1 := Call(LabelServer(labels[0].key), dc, id, LabelPayload(labels[0].value));
      var log1 := log + [c1];
      var p1 := [LabelServer(labels[0].key)];
      assert LabelPlan(labels) == p1 + LabelPlan(labels[1..]);
      if AnswerAt(o.reply, |log|, FindServerIn(w.servers, dc, id).Some?).Some? {
        Made1(log, c1, r.err, p1);
        Chain(log, log1, log1, r.err, r.err, p1, LabelPlan(labels[1..]));
      } else {
        var w1 := w.(serverLabels := w.serverLabels[id := LabelsOf(w.serverLabels, id) + [labels[0]]]);
        Made1(log, c1, None, p1);
        LabelStepsFollow(o, w1, log1, dc, id, labels[1..]);
        Chain(log, log1, r.log, None, r.err, p1, LabelPlan(labels[1..]));
      }
    }
  }

  /** Labelling touches only the labels, and appends the labels to the server's own. */
  lemma {:induction false} LabelStepsAppend(o: Oracle, w: World, log: seq<Call>, dc: string, id: string, labels: seq<Label>)
    ensures var r := LabelSteps(o, w, log, dc, id, labels);
            r.world.(serverLabels := w.serverLabels) == w
            && (r.err.None? ==> LabelsOf(r.world.serverLabels, id) == LabelsOf(w.serverLabels, id) + labels)
    decreases |labels|
  {
    if labels == [] {
      assert LabelsOf(w.serverLabels, id) + labels == LabelsOf(w.serverLabels, id);
    } else if AnswerAt(o.reply, |log|, FindServerIn(w.servers, dc, id).Some?).None? {
      var c1 := Call(LabelServer(labels[0].key), dc, id, LabelPayload(labels[0].value));
      var w1 := w.(serverLabels := w.serverLabels[id := LabelsOf(w.serverLabels, id) + [labels[0]]]);
      LabelStepsAppend(o, w1, log + [c1], dc, id, labels[1..]);
      assert LabelsOf(w1.serverLabels, id) + labels[1..] == LabelsOf(w.serverLabels, id) + labels;
    }
  }

  /** The calls of EnsureLANIsAttachedToServer: none for a LAN id that is not a number,
      otherwise the NIC creation and, once it was accepted, the wait on the NIC. */
  lemma AttachmentFollows(o: Oracle, servers: seq<Server>, log: seq<Call>, dc: string, id: string, lanId: string)
    requires lanId != ""
    ensures var a := Ensurer.LanAttachment(o.reply, o.settle, servers, log, dc, id, lanId);
            Follows(log, a.log, if a.err.Some? then Some(Status(Internal, EnsureFailed(a.err.value))) else None,
                    [CreateNic, WaitNic]) == true
  {
    var a := Ensurer.LanAttachment(o.reply, o.settle, servers, log, dc, id, lanId);
    var err := if a.err.Some? then Some(Status(Internal, EnsureFailed(a.err.value))) else None;
    match Atoi(lanId)
    case None =>
      Made0(log, err, [CreateNic, WaitNic]);
    case Some(n) =>
      var c1 := Call(CreateNic, dc, id, NicPayload(NicProperties(Int32(n), None, None, None)));
      if AnswerAt(o.reply, |log|, FindServerIn(servers, dc, id).Some?).Some? {
        Made1(log, c1, err, [CreateNic, WaitNic]);
      } else {
        Made2(log, c1, Call(WaitNic, dc, IdAt(o.reply, |log|), NoPayload), err, [CreateNic, WaitNic]);
      }
  }

  lemma NicStepsFollow(o: Oracle, w: World, log: seq<Call>, dc: string, id: string, lanId: string)
    ensures var r := NicSteps(o, w, log, dc, id, lanId);
            Follows(log, r.log, r.err, NicPlan(lanId)) == true
  {
    var r := NicSteps(o, w, log, dc, id, lanId);
    if lanId == "" {
      Made0(log, r.err, []);
    } else {
      AttachmentFollows(o, w.servers, log, dc, id, lanId);
    }
  }

  lemma StartStepsFollow(o: Oracle, w: World, log: seq<Call>, dc: string, id: string)
    ensures var r := StartSteps(o, w, log, dc, id);
            Follows(log, r.log, r.err, StartPlan) == true
  {
    var r := StartSteps(o, w, log, dc, id);
    var c1 := Call(WaitServer, dc, id, NoPayload);
    var c2 := Call(StartServer, dc, id, NoPayload);
    if Expected(o.settle(|log|), MachineOperationRetries, ServerKind).err.Some? {
      Made1(log, c1, r.err, StartPlan);
    } else if AnswerAt(o.reply, |log + [c1]|, FindServerIn(w.servers, dc, id).Some?).Some? {
      Made2(log, c1, c2, r.err, StartPlan);
    } else {
      Made3(log, c1, c2, c1, r.err, StartPlan);
    }
  }

  /** Starting changes only the power state, and powers the server on once the start
      call was accepted, even if the wait after it fails. */
  lemma StartStepsWorld(o: Oracle, w: World, log: seq<Call>, dc: string, id: string)
    ensures var r := StartSteps(o, w, log, dc, id);
            r.world == (if |r.log| == |log| + 3 then w.(powered := w.powered[id := true]) else w)
            && (r.err.None? ==> |r.log| == |log| + 3)
  {
  }

  // ---------------------------------------------------------------- CreateMachine

  /** The error a creation ends with, if any. */
  function ErrOf(result: Result<Response, Status>): Option<Status>
  {
    if result.Err? then Some(result.error) else None
  }

  /** The calls from the network NIC on. */
  lemma NetworkTail(o: Oracle, w: World, log: seq<Call>, spec: ProviderSpec, id: string)
    ensures var R := NetworkRun(o, w, log, spec, id);
            Follows(log, R.log, ErrOf(R.result), NicPlan(spec.networkId) + StartPlan) == true
  {
    var dc := spec.datacenterId;
    var N := NicSteps(o, w, log, dc, id, spec.networkId);
    var R := NetworkRun(o, w, log, spec, id);
    NicStepsFollow(o, w, log, dc, id, spec.networkId);
    if N.err.Some? {
      Chain(log, N.log, N.log, N.err, N.err, NicPlan(spec.networkId), StartPlan);
    } else {
      StartStepsFollow(o, N.world, N.log, dc, id);
      Chain(log, N.log, R.log, N.err, ErrOf(R.result), NicPlan(spec.networkId), StartPlan);
    }
  }

  /** The calls from the floating-pool NIC on. */
  lemma FloatingTail(o: Oracle, w: World, log: seq<Call>, spec: ProviderSpec, id: string, lanId: string)
    ensures var R := FloatingRun(o, w, log, spec, id, lanId);
            Follows(log, R.log, ErrOf(R.result), NicPlan(lanId) + (NicPlan(spec.networkId) + StartPlan)) == true
  {
    var dc := spec.datacenterId;
    var F := NicSteps(o, w, log, dc, id, lanId);
    var R := FloatingRun(o, w, log, spec, id, lanId);
    var tail := NicPlan(spec.networkId) + StartPlan;
    NicStepsFollow(o, w, log, dc, id, lanId);
    if F.err.Some? {
      Chain(log, F.log, F.log, F.err, F.err, NicPlan(lanId), tail);
    } else {
      NetworkTail(o, F.world, F.log, spec, id);
      Chain(log, F.log, R.log, F.err, ErrOf(R.result), NicPlan(lanId), tail);
    }
  }

  /** The calls from the server labels on. */
  lemma LabelTail(o: Oracle, w: World, log: seq<Call>, spec: ProviderSpec, id: string, lanId: string)
    ensures var R := LabelRun(o, w, log, spec, id, lanId);
            Follows(log, R.log, ErrOf(R.result),
                    LabelPlan(ServerLabels(spec)) + (NicPlan(lanId) + (NicPlan(spec.networkId) + StartPlan))) == true
  {
    var dc := spec.datacenterId;
    var L := LabelSteps(o, w, log, dc, id, ServerLabels(spec));
    var R := LabelRun(o, w, log, spec, id, lanId);
    var tail := NicPlan(lanId) + (NicPlan(spec.networkId) + StartPlan);
    LabelStepsFollow(o, w, log, dc, id, ServerLabels(spec));
    if L.err.Some? {
      Chain(log, L.log, L.log, L.err, L.err, LabelPlan(ServerLabels(spec)), tail);
    } else {
      FloatingTail(o, L.world, L.log, spec, id, lanId);
      Chain(log, L.log, R.log, L.err, ErrOf(R.result), LabelPlan(ServerLabels(spec)), tail);
    }
  }

  /** From the creation of the server on, CreateMachine makes the calls of its plan in order. */
  lemma ConfigureFollows(o: Oracle, w: World, log: seq<Call>, spec: ProviderSpec, name: string, volumeId: string, lanId: string)
    ensures var C := ConfigureRun(o, w, log, spec, name, volumeId, lanId);
            Follows(log, C.log, ErrOf(C.result), ConfigurePlan(spec, lanId)) == true
  {
    var dc := spec.datacenterId;
    var S := ServerSteps(o, w, log, dc, ServerPropertiesFor(spec, name), volumeId);
    var C := ConfigureRun(o, w, log, spec, name, volumeId, lanId);
    var tail := LabelPlan(ServerLabels(spec)) + (NicPlan(lanId) + (NicPlan(spec.networkId) + StartPlan));
    ServerStepsFollow(o, w, log, dc, ServerPropertiesFor(spec, name), volumeId);
    if S.err.Some? {
      Chain(log, S.log, S.log, S.err, S.err, ServerPlan, tail);
    } else {
      LabelTail(o, S.world, S.log, spec, IdAt(o.reply, |log|), lanId);
      Chain(log, S.log, C.log, S.err, ErrOf(C.result), ServerPlan, tail);
    }
  }

  /** From the creation of the boot volume on, CreateMachine makes the calls of its plan in order. */
  lemma ProvisionFollows(o: Oracle, w: World, log: seq<Call>, spec: ProviderSpec, name: string, image: Image, userData: string)
    ensures var P := ProvisionRun(o, w, log, spec, name, image, userData);
            Follows(log, P.log, ErrOf(P.result), ProvisionPlan(spec)) == true
  {
    var dc := spec.datacenterId;
    var pool := spec.floatingPoolIpId;
    var properties := VolumePropertiesFor(spec, name, VolumeSize(spec.volumeSize, image.size), userData);
    var V := VolumeSteps(o, w, log, dc, properties, spec.cluster);
    var P := ProvisionRun(o, w, log, spec, name, image, userData);
    var tail := LanPlan(pool) + ConfigurePlan(spec, pool);
    VolumeStepsFollow(o, w, log, dc, properties, spec.cluster);
    if V.err.Some? {
      Chain(log, V.log, V.log, V.err, V.err, VolumePlan, tail);
    } else {
      var lan := Ensurer.LanCreation(o.reply, o.ipBlocks, V.log, dc, pool, name + FloatingPoolSuffix);
      var lanErr := if lan.err.Some? then Some(Status(Internal, EnsureFailed(lan.err.value))) else None;
      LanCreationFollows(o, V.world, V.log, dc, pool, name + FloatingPoolSuffix);
      if lan.err.Some? {
        Chain(V.log, lan.log, lan.log, lanErr, lanErr, LanPlan(pool), ConfigurePlan(spec, pool));
      } else {
        var w1 := V.world.(lans := V.world.lans + lan.created);
        ConfigureFollows(o, w1, lan.log, spec, name, IdAt(o.reply, |log|), lan.lanId);
        assert NicPlan(lan.lanId) == NicPlan(pool);
        Chain(V.log, lan.log, P.log, lanErr, ErrOf(P.result), LanPlan(pool), ConfigurePlan(spec, pool));
      }
      Chain(log, V.log, P.log, V.err, ErrOf(P.result), VolumePlan, tail);
    }
  }

  /** CreateMachine makes the calls of its plan in order once its checks pass, and no call
      when they fail. */
  lemma CreateFollows(o: Oracle, w: World, log: seq<Call>, machine: Machine, machineClass: Option<MachineClass>, secret: Secret)
    ensures var C := CreateRun(o, w, log, machine, machineClass, secret);
            match CreatePrecheck(machine, machineClass, secret)
            case Err(s) => C.log == log && C.result == Err(s) && C.world == w
            case Ok(spec) => Follows(log, C.log, ErrOf(C.result), CreatePlan(spec)) == true
  {
    match CreatePrecheck(machine, machineClass, secret)
    case Err(s) =>
    case Ok(spec) =>
      var C := CreateRun(o, w, log, machine, machineClass, secret);
      var c1 := Call(FindImage, "", spec.imageId, NoPayload);
      var p1 := [FindImage];
      if AnswerAt(o.reply, |log|, spec.imageId in o.images).Some? || !CloudInitEnabled(o.images[spec.imageId]) {
        Made1(log, c1, ErrOf(C.result), p1);
        Chain(log, log + [c1], C.log, ErrOf(C.result), ErrOf(C.result), p1, ProvisionPlan(spec));
      } else {
        var image := o.images[spec.imageId];
        Made1(log, c1, None, p1);
        ProvisionFollows(o, w, log + [c1], spec, machine.name, image, Base64(secret["userData"]));
        Chain(log, log + [c1], C.log, None, ErrOf(C.result), p1, ProvisionPlan(spec));
      }
  }

  /** A creation that succeeded answers with the server its last call, a wait on a
      server of data center `dc`, returned: its provider ID and its name. */
  ghost predicate AnswersLastWaited(o: Oracle, dc: string, c: Creation)
  {
    c.result.Ok? ==>
      |c.log| > 0 && c.log[|c.log| - 1].op == WaitServer && c.log[|c.log| - 1].dc == dc
      && c.result.value == Response(Transcoder.EncodeProviderID(dc, LastWaited(o, c.log).id), LastWaited(o, c.log).name)
  }

  /** The start answers with the server the wait after it returned. */
  lemma StartAnswers(o: Oracle, w: World, log: seq<Call>, spec: ProviderSpec, id: string)
    ensures var C := StartRun(o, w, log, spec, id);
            C.result.Ok? ==>
              C.log[|C.log| - 1] == Call(WaitServer, spec.datacenterId, id, NoPayload)
              && C.result.value == Response(Transcoder.EncodeProviderID(spec.datacenterId, LastWaited(o, C.log).id),
                                            LastWaited(o, C.log).name)
  {
  }

  lemma NetworkAnswers(o: Oracle, w: World, log: seq<Call>, spec: ProviderSpec, id: string)
    ensures AnswersLastWaited(o, spec.datacenterId, NetworkRun(o, w, log, spec, id))
  {
    var N := NicSteps(o, w, log, spec.datacenterId, id, spec.networkId);
    if N.err.None? {
      StartAnswers(o, N.world, N.log, spec, id);
    }
  }

  lemma FloatingAnswers(o: Oracle, w: World, log: seq<Call>, spec: ProviderSpec, id: string, lanId: string)
    ensures AnswersLastWaited(o, spec.datacenterId, FloatingRun(o, w, log, spec, id, lanId))
  {
    var F := NicSteps(o, w, log, spec.datacenterId, id, lanId);
    if F.err.None? {
      NetworkAnswers(o, F.world, F.log, spec, id);
    }
  }

  lemma LabelAnswers(o: Oracle, w: World, log: seq<Call>, spec: ProviderSpec, id: string, lanId: string)
    ensures AnswersLastWaited(o, spec.datacenterId, LabelRun(o, w, log, spec, id, lanId))
  {
    var L := LabelSteps(o, w, log, spec.datacenterId, id, ServerLabels(spec));
    if L.err.None? {
      FloatingAnswers(o, L.world, L.log, spec, id, lanId);
    }
  }

  lemma ConfigureAnswers(o: Oracle, w: World, log: seq<Call>, spec: ProviderSpec, name: string, volumeId: string, lanId: string)
    ensures AnswersLastWaited(o, spec.datacenterId, ConfigureRun(o, w, log, spec, name, volumeId, lanId))
  {
    var S := ServerSteps(o, w, log, spec.datacenterId, ServerPropertiesFor(spec, name), volumeId);
    if S.err.None? {
      LabelAnswers(o, S.world, S.log, spec, IdAt(o.reply, |log|), lanId);
    }
  }

  /** CreateMachine answers a success with the provider ID made from the class's data
      center and the id of the server its last wait returned, and with that server's
      name; it succeeds only when its checks passed. */
  lemma CreateAnswers(o: Oracle, w: World, log: seq<Call>, machine: Machine, machineClass: Option<MachineClass>, secret: Secret)
    ensures var C := CreateRun(o, w, log, machine, machineClass, secret);
            C.result.Ok? ==>
              CreatePrecheck(machine, machineClass, secret).Ok?
              && var dc := CreatePrecheck(machine, machineClass, secret).value.datacenterId;
                 |C.log| > 0 && C.log[|C.log| - 1].op == WaitServer && C.log[|C.log| - 1].dc == dc
                 && C.result.value == Response(Transcoder.EncodeProviderID(dc, LastWaited(o, C.log).id),
                                               LastWaited(o, C.log).name)
  {
    match CreatePrecheck(machine, machineClass, secret)
    case Err(_) =>
    case Ok(spec) =>
      if AnswerAt(o.reply, |log|, spec.imageId in o.images).None? && CloudInitEnabled(o.images[spec.imageId]) {
        var image := o.images[spec.imageId];
        var log1 := log + [Call(FindImage, "", spec.imageId, NoPayload)];
        var userData := Base64(secret["userData"]);
        assert CreateRun(o, w, log, machine, machineClass, secret) == ProvisionRun(o, w, log1, spec, machine.name, image, userData);
        ProvisionAnswers(o, w, log1, spec, machine.name, image, userData);
      }
  }

  lemma ProvisionAnswers(o: Oracle, w: World, log: seq<Call>, spec: ProviderSpec, name: string, image: Image, userData: string)
    ensures AnswersLastWaited(o, spec.datacenterId, ProvisionRun(o, w, log, spec, name, image, userData))
  {
    var properties := VolumePropertiesFor(spec, name, VolumeSize(spec.volumeSize, image.size), userData);
    var V := VolumeSteps(o, w, log, spec.datacenterId, properties, spec.cluster);
    if V.err.None? {
      var lan := Ensurer.LanCreation(o.reply, o.ipBlocks, V.log, spec.datacenterId, spec.floatingPoolIpId,
                                     name + FloatingPoolSuffix);
      if lan.err.None? {
        ConfigureAnswers(o, V.world.(lans := V.world.lans + lan.created), lan.log, spec, name, IdAt(o.reply, |log|), lan.lanId);
      }
    }
  }

  /** Attaching a NIC adds NICs and changes nothing else. */
  lemma NicStepsAdd(o: Oracle, w: World, log: seq<Call>, dc: string, id: string, lanId: string)
    ensures var r := NicSteps(o, w, log, dc, id, lanId);
            r.world.(nics := w.nics) == w && w.nics <= r.world.nics
  {
  }

  /** Only NICs and the power state changed, and nothing was removed. */
  ghost predicate Grows(w: World, w': World)
  {
    Keeps(w, w') && w'.servers == w.servers && w'.serverLabels == w.serverLabels
  }

  /** The network NIC and the start add NICs and power the server on when they succeed. */
  lemma NetworkWorldTail(o: Oracle, w: World, log: seq<Call>, spec: ProviderSpec, id: string)
    ensures var R := NetworkRun(o, w, log, spec, id);
            Grows(w, R.world) && (R.result.Ok? ==> id in R.world.powered && R.world.powered[id])
  {
    var dc := spec.datacenterId;
    var N := NicSteps(o, w, log, dc, id, spec.networkId);
    NicStepsAdd(o, w, log, dc, id, spec.networkId);
    assert Keeps(w, N.world);
    if N.err.None? {
      StartStepsWorld(o, N.world, N.log, dc, id);
    }
  }

  /** The floating-pool NIC, the network NIC and the start. */
  lemma FloatingWorldTail(o: Oracle, w: World, log: seq<Call>, spec: ProviderSpec, id: string, lanId: string)
    ensures var R := FloatingRun(o, w, log, spec, id, lanId);
            Grows(w, R.world) && (R.result.Ok? ==> id in R.world.powered && R.world.powered[id])
  {
    var dc := spec.datacenterId;
    var F := NicSteps(o, w, log, dc, id, lanId);
    NicStepsAdd(o, w, log, dc, id, lanId);
    assert Keeps(w, F.world);
    if F.err.None? {
      NetworkWorldTail(o, F.world, F.log, spec, id);
      KeepsTrans(w, F.world, FloatingRun(o, w, log, spec, id, lanId).world);
    }
  }

  /** The labels, the two NICs and the start: the labels are appended to the server's own. */
  lemma LabelWorldTail(o: Oracle, w: World, log: seq<Call>, spec: ProviderSpec, id: string, lanId: string)
    ensures var R := LabelRun(o, w, log, spec, id, lanId);
            Keeps(w, R.world) && R.world.servers == w.servers
            && (R.result.Ok? ==>
                  LabelsOf(R.world.serverLabels, id) == LabelsOf(w.serverLabels, id) + ServerLabels(spec)
                  && id in R.world.powered && R.world.powered[id])
  {
    var dc := spec.datacenterId;
    var L := LabelSteps(o, w, log, dc, id, ServerLabels(spec));
    LabelStepsAppend(o, w, log, dc, id, ServerLabels(spec));
    assert Keeps(w, L.world);
    if L.err.None? {
      FloatingWorldTail(o, L.world, L.log, spec, id, lanId);
      KeepsTrans(w, L.world, LabelRun(o, w, log, spec, id, lanId).world);
    }
  }

  /** Whatever happens from the creation of the server on, nothing made before is
      removed; a success leaves the new server in the world, labelled with the class's
      labels and powered on. */
  lemma ConfigureOutcome(o: Oracle, w: World, log: seq<Call>, spec: ProviderSpec, name: string, volumeId: string, lanId: string)
    ensures var C := ConfigureRun(o, w, log, spec, name, volumeId, lanId);
            var dc := spec.datacenterId;
            var id := IdAt(o.reply, |log|);
            Keeps(w, C.world)
            && (C.result.Ok? ==>
                  Server(dc, id, ServerPropertiesFor(spec, name), volumeId, [volumeId], Available) in C.world.servers
                  && LabelsOf(C.world.serverLabels, id) == LabelsOf(w.serverLabels, id) + ServerLabels(spec)
                  && id in C.world.powered && C.world.powered[id])
  {
    var dc := spec.datacenterId;
    var id := IdAt(o.reply, |log|);
    var S := ServerSteps(o, w, log, dc, ServerPropertiesFor(spec, name), volumeId);
    var C := ConfigureRun(o, w, log, spec, name, volumeId, lanId);
    ServerStepsWorld(o, w, log, dc, ServerPropertiesFor(spec, name), volumeId);
    if S.err.None? {
      LabelWorldTail(o, S.world, S.log, spec, id, lanId);
      KeepsTrans(w, S.world, C.world);
      assert Server(dc, id, ServerPropertiesFor(spec, name), volumeId, [volumeId], Available) in S.world.servers;
    }
  }

  /** However a creation ends after its boot volume was made, the volume stays: a
      failed CreateMachine does not roll back. */
  lemma ProvisionKeepsVolume(o: Oracle, w: World, log: seq<Call>, spec: ProviderSpec, name: string, image: Image, userData: string)
    requires o.reply(|log|).Accept?
    ensures var P := ProvisionRun(o, w, log, spec, name, image, userData);
            var properties := VolumePropertiesFor(spec, name, VolumeSize(spec.volumeSize, image.size), userData);
            Keeps(w, P.world) && Volume(spec.datacenterId, IdAt(o.reply, |log|), properties) in P.world.volumes
  {
    var dc := spec.datacenterId;
    var properties := VolumePropertiesFor(spec, name, VolumeSize(spec.volumeSize, image.size), userData);
    var V := VolumeSteps(o, w, log, dc, properties, spec.cluster);
    VolumeStepsWorld(o, w, log, dc, properties, spec.cluster);
    if V.err.None? {
      var lan := Ensurer.LanCreation(o.reply, o.ipBlocks, V.log, dc, spec.floatingPoolIpId, name + FloatingPoolSuffix);
      var w1 := V.world.(lans := V.world.lans + lan.created);
      assert Keeps(V.world, w1);
      KeepsTrans(w, V.world, w1);
      if lan.err.None? {
        ConfigureOutcome(o, w1, lan.log, spec, name, IdAt(o.reply, |log|), lan.lanId);
        KeepsTrans(w, w1, ProvisionRun(o, w, log, spec, name, image, userData).world);
      }
    }
  }

  // ---------------------------------------------------------------- DeleteMachine

  /** Deleting the server's volumes removes exactly those volumes when every call
      succeeds, removes nothing else in any case, and touches nothing but volumes. */
  lemma {:induction false} DeleteVolumesRemoves(o: Oracle, w: World, log: seq<Call>, dc: string, ids: seq<string>)
    ensures var r := DeleteVolumes(o, w, log, dc, ids);
            r.world.servers == w.servers && r.world.lans == w.lans && r.world.nics == w.nics
            && (forall v :: v in r.world.volumes ==> v in w.volumes)
            && (r.err.None? ==> forall v :: v in r.world.volumes <==> v in w.volumes && !(v.dc == dc && v.id in ids))
            && (r.err.Some? ==> r.err.value.code == Unavailable)
    decreases |ids|
  {
    if ids != [] && AnswerAt(o.reply, |log|, HasVolume(w, dc, ids[0])).None? {
      var w1 := w.(volumes := WithoutVolumes(w.volumes, dc, {ids[0]}), volumeLabels := w.volumeLabels - {ids[0]});
      DeleteVolumesRemoves(o, w1, log + [Call(DeleteVolume, dc, ids[0], NoPayload)], dc, ids[1..]);
      assert forall x :: x in ids <==> x == ids[0] || x in ids[1..];
    }
  }

  /** A teardown that ends without error leaves no server with the id, none of the
      server's volumes, and, when the class names a floating pool, none of the LANs
      named after the machine; no other volume or server is removed. */
  lemma TeardownRemoves(o: Oracle, w: World, log: seq<Call>, spec: ProviderSpec, name: string, id: string)
    ensures var r := TeardownRun(o, w, log, spec, name, id);
            var dc := spec.datacenterId;
            var found := FindServerIn(w.servers, dc, id);
            r.err.None? ==>
              found.Some? && FindServerIn(r.world.servers, dc, id).None?
              && (forall s :: s in r.world.servers ==> s in w.servers)
              && (forall v :: v in r.world.volumes <==> v in w.volumes && !(v.dc == dc && v.id in found.value.volumes))
              && r.world.lans == (if spec.floatingPoolIpId == "" then w.lans
                                  else WithoutLans(w.lans, dc, set l | l in Ensurer.NamedLanIds(LansIn(w.lans, dc), name + FloatingPoolSuffix)))
  {
    var r := TeardownRun(o, w, log, spec, name, id);
    var dc := spec.datacenterId;
    var log1 := log + [Call(WaitServer, dc, id, NoPayload)];
    var log2 := log1 + [Call(FindServer, dc, id, NoPayload)];
    var found := FindServerIn(w.servers, dc, id);
    if r.err.None? {
      assert Expected(o.settle(|log|), MachineOperationRetries, ServerKind).err.None?;
      assert AnswerAt(o.reply, |log1|, found.Some?).None?;
      var lans := if spec.floatingPoolIpId == "" then Ensurer.Deletion(log2, None, w.lans)
                  else Ensurer.LanCleanup(o.reply, log2, dc, w.lans, name + FloatingPoolSuffix);
      if spec.floatingPoolIpId != "" {
        Ensurer.CleanupDeletesNamedLans(o.reply, log2, dc, w.lans, name + FloatingPoolSuffix);
      }
      var w1 := w.(lans := lans.lans);
      DeleteVolumesRemoves(o, w1, lans.log, dc, found.value.volumes);
    }
  }

  /** DeleteMachine on a machine whose server the cloud does not know succeeds after the
      one stop call and changes nothing: a 404 counts as already deleted. */
  lemma DeleteMissingSucceeds(o: Oracle, w: World, log: seq<Call>, machine: Machine, machineClass: Option<MachineClass>,
                              id: string, spec: ProviderSpec)
    requires Transcoder.DecodeServerIDFromProviderID(machine.providerId) == Ok(id)
    requires ProviderSpecOf(machineClass) == Ok(spec)
    requires o.reply(|log|).Accept? && FindServerIn(w.servers, spec.datacenterId, id).None?
    ensures DeleteRun(o, w, log, machine, machineClass)
            == Run(log + [Call(StopServer, spec.datacenterId, id, NoPayload)], None, w)
  {
    assert AnswerAt(o.reply, |log|, false) == Some(NotFoundError);
  }

  /** A DeleteMachine that succeeds after the cloud answered the stop leaves no server
      with the machine's id and none of its volumes. */
  lemma DeleteRemoves(o: Oracle, w: World, log: seq<Call>, machine: Machine, machineClass: Option<MachineClass>,
                      id: string, spec: ProviderSpec)
    requires Transcoder.DecodeServerIDFromProviderID(machine.providerId) == Ok(id)
    requires ProviderSpecOf(machineClass) == Ok(spec)
    requires o.reply(|log|).Accept?
    ensures var r := DeleteRun(o, w, log, machine, machineClass);
            var dc := spec.datacenterId;
            r.err.None? ==>
              FindServerIn(r.world.servers, dc, id).None?
              && (forall s :: s in r.world.servers ==> s in w.servers)
              && (forall v :: v in r.world.volumes ==> v in w.volumes)
              && (FindServerIn(w.servers, dc, id).Some? ==>
                    forall v :: v in r.world.volumes && v.dc == dc ==> v.id !in FindServerIn(w.servers, dc, id).value.volumes)
  {
    var dc := spec.datacenterId;
    if FindServerIn(w.servers, dc, id).Some? {
      TeardownRemoves(o, w.(powered := w.powered[id := false]), log + [Call(StopServer, dc, id, NoPayload)], spec, machine.name, id);
    } else {
      DeleteMissingSucceeds(o, w, log, machine, machineClass, id, spec);
    }
  }

  /** The status code DeleteMachine answers with when the call `op` is the one that
      failed: Internal for the wait, Unavailable for every other call. */
  function DeleteCode(op: Op): Code
  {
    if op == WaitServer then Internal else Unavailable
  }

  function Repeat(op: Op, n: nat): (p: seq<Op>)
    ensures |p| == n && forall i :: 0 <= i < n ==> p[i] == op
  {
    if n == 0 then [] else [op] + Repeat(op, n - 1)
  }

  /** The calls of a removal: with a floating pool list the LANs and delete the `lans`
      named after the machine, then delete the server's `volumes` volumes and the
      server. */
  function RemovalPlan(pool: bool, lans: nat, volumes: nat): seq<Op>
  {
    (if pool then [ListLans] + Repeat(DeleteLan, lans) else []) + (Repeat(DeleteVolume, volumes) + [DeleteServer])
  }

  /** The calls of a teardown: wait for the stopped server, fetch it, remove. */
  function TeardownPlan(pool: bool, lans: nat, volumes: nat): seq<Op>
  {
    [WaitServer] + ([FindServer] + RemovalPlan(pool, lans, volumes))
  }

  /** Follows for DeleteMachine, where every failure carries the code of the call that
      failed. */
  ghost predicate FollowsDeletion(log: seq<Call>, after: seq<Call>, err: Option<Status>, plan: seq<Op>)
  {
    |log| <= |after| && after[..|log|] == log
    && var ops := Ops(after[|log|..]);
       |ops| <= |plan| && ops == plan[..|ops|]
       && (err.None? ==> ops == plan)
       && (err.Some? ==> ops != [] && err.value.code == DeleteCode(ops[|ops| - 1]))
  }

  lemma ChainDeletion(log: seq<Call>, mid: seq<Call>, after: seq<Call>, e1: Option<Status>, e2: Option<Status>,
                      p1: seq<Op>, p2: seq<Op>)
    requires FollowsDeletion(log, mid, e1, p1) == true
    requires e1.None? ==> FollowsDeletion(mid, after, e2, p2) == true
    requires e1.Some? ==> after == mid && e2 == e1
    ensures FollowsDeletion(log, after, e2, p1 + p2) == true
  {
    var ops1 := Ops(mid[|log|..]);
    if e1.None? {
      assert after[..|mid|][..|log|] == after[..|log|];
      assert after[|log|..] == mid[|log|..] + after[|mid|..];
      OpsAppend(mid[|log|..], after[|mid|..]);
      var ops2 := Ops(after[|mid|..]);
      var ops := ops1 + ops2;
      assert Ops(after[|log|..]) == ops;
      assert ops == (p1 + p2)[..|ops|];
      if ops2 != [] {
        assert ops[|ops| - 1] == ops2[|ops2| - 1];
      }
    } else {
      assert ops1 == (p1 + p2)[..|ops1|];
    }
  }

  /** One call made during a deletion. */
  lemma DeletedOne(log: seq<Call>, c: Call, err: Option<Status>, plan: seq<Op>)
    requires 1 <= |plan| && plan[0] == c.op
    requires err.None? ==> |plan| == 1
    requires err.Some? ==> err.value.code == DeleteCode(c.op)
    ensures FollowsDeletion(log, log + [c], err, plan) == true
  {
    assert (log + [c])[..|log|] == log;
    assert (log + [c])[|log|..] == [c];
    assert Ops([c]) == [c.op];
  }

  lemma {:induction false} OpsIndex(cs: seq<Call>)
    ensures forall i :: 0 <= i < |cs| ==> Ops(cs)[i] == cs[i].op
  {
    if cs != [] {
      OpsIndex(cs[1..]);
      assert forall i :: 1 <= i < |cs| ==> cs[1..][i - 1] == cs[i];
    }
  }

  /** The volume loop deletes the volumes in list order and stops at the first failure. */
  lemma {:induction false} DeleteVolumesFollow(o: Oracle, w: World, log: seq<Call>, dc: string, ids: seq<string>)
    ensures var r := DeleteVolumes(o, w, log, dc, ids);
            FollowsDeletion(log, r.log, r.err, Repeat(DeleteVolume, |ids|)) == true
    decreases |ids|
  {
    var r := DeleteVolumes(o, w, log, dc, ids);
    if ids == [] {
      assert log[|log|..] == [];
    } else {
      var c := Call(DeleteVolume, dc, ids[0], NoPayload);
      if AnswerAt(o.reply, |log|, HasVolume(w, dc, ids[0])).Some? {
        DeletedOne(log, c, r.err, Repeat(DeleteVolume, |ids|));
      } else {
        var w1 := w.(volumes := WithoutVolumes(w.volumes, dc, {ids[0]}), volumeLabels := w.volumeLabels - {ids[0]});
        DeletedOne(log, c, None, [DeleteVolume]);
        DeleteVolumesFollow(o, w1, log + [c], dc, ids[1..]);
        ChainDeletion(log, log + [c], r.log, None, r.err, [DeleteVolume], Repeat(DeleteVolume, |ids| - 1));
      }
    }
  }

  /** The floating-pool LAN cleanup lists the LANs, then deletes those named after the
      machine in list order; any failure is reported as Unavailable. */
  /** FollowsDeletion from the calls after `log`, given one by one. */
  lemma DeletionByIndex(log: seq<Call>, after: seq<Call>, err: Option<Status>, plan: seq<Op>)
    requires |log| <= |after| <= |log| + |plan| && after[..|log|] == log
    requires forall k :: |log| <= k < |after| ==> after[k].op == plan[k - |log|]
    requires err.None? ==> |after| == |log| + |plan|
    requires err.Some? ==> |log| < |after| && err.value.code == DeleteCode(after[|after| - 1].op)
    ensures FollowsDeletion(log, after, err, plan) == true
  {
    var tail := after[|log|..];
    OpsIndex(tail);
    var ops := Ops(tail);
    forall k | 0 <= k < |ops| ensures ops[k] == plan[k] {
      assert tail[k] == after[|log| + k];
    }
    assert ops == plan[..|ops|];
    if err.Some? {
      assert ops[|ops| - 1] == after[|after| - 1].op;
    }
  }

  lemma CleanupFollows(reply: nat -> Reply, log: seq<Call>, dc: string, lans: seq<Lan>, lanName: string)
    ensures var r := Ensurer.LanCleanup(reply, log, dc, lans, lanName);
            var err := if r.err.Some? then Some(Status(Unavailable, EnsureFailed(r.err.value))) else None;
            FollowsDeletion(log, r.log, err, [ListLans] + Repeat(DeleteLan, |Ensurer.NamedLanIds(LansIn(lans, dc), lanName)|)) == true
  {
    var r := Ensurer.LanCleanup(reply, log, dc, lans, lanName);
    var err := if r.err.Some? then Some(Status(Unavailable, EnsureFailed(r.err.value))) else None;
    var n := |Ensurer.NamedLanIds(LansIn(lans, dc), lanName)|;
    var plan := [ListLans] + Repeat(DeleteLan, n);
    assert |plan| == n + 1 && plan[0] == ListLans && forall k :: 1 <= k < |plan| ==> plan[k] == DeleteLan;
    Ensurer.CleanupDeletesNamedLans(reply, log, dc, lans, lanName);
    assert forall k :: |log| <= k < |r.log| ==> r.log[k].op == plan[k - |log|];
    DeletionByIndex(log, r.log, err, plan);
  }

  /** The volumes are deleted in list order, then the server. */
  lemma PurgeFollows(o: Oracle, w: World, log: seq<Call>, dc: string, id: string, volumes: seq<string>)
    ensures var r := PurgeRun(o, w, log, dc, id, volumes);
            FollowsDeletion(log, r.log, r.err, Repeat(DeleteVolume, |volumes|) + [DeleteServer]) == true
  {
    var r := PurgeRun(o, w, log, dc, id, volumes);
    var deleted := DeleteVolumes(o, w, log, dc, volumes);
    DeleteVolumesFollow(o, w, log, dc, volumes);
    if deleted.err.None? {
      var c := Call(DeleteServer, dc, id, NoPayload);
      assert r.log == deleted.log + [c] && (r.err.Some? ==> r.err.value.code == Unavailable);
      DeletedOne(deleted.log, c, r.err, [DeleteServer]);
    } else {
      assert r == deleted;
    }
    ChainDeletion(log, deleted.log, r.log, deleted.err, r.err, Repeat(DeleteVolume, |volumes|), [DeleteServer]);
  }

  /** Removal deletes the floating-pool LANs, the volumes and the server, in that
      order, and stops at the first failure. */
  lemma RemovalFollows(o: Oracle, w: World, log: seq<Call>, spec: ProviderSpec, name: string, id: string,
                       volumes: seq<string>)
    ensures var r := RemovalRun(o, w, log, spec, name, id, volumes);
            var ids := Ensurer.NamedLanIds(LansIn(w.lans, spec.datacenterId), name + FloatingPoolSuffix);
            FollowsDeletion(log, r.log, r.err, RemovalPlan(spec.floatingPoolIpId != "", |ids|, |volumes|)) == true
  {
    var r := RemovalRun(o, w, log, spec, name, id, volumes);
    var dc := spec.datacenterId;
    var ids := Ensurer.NamedLanIds(LansIn(w.lans, dc), name + FloatingPoolSuffix);
    var pool := spec.floatingPoolIpId != "";
    var lanPlan := if pool then [ListLans] + Repeat(DeleteLan, |ids|) else [];
    var purgePlan := Repeat(DeleteVolume, |volumes|) + [DeleteServer];
    var lans := if pool then Ensurer.LanCleanup(o.reply, log, dc, w.lans, name + FloatingPoolSuffix)
                else Ensurer.Deletion(log, None, w.lans);
    var lanErr := if lans.err.Some? then Some(Status(Unavailable, EnsureFailed(lans.err.value))) else None;
    if pool {
      CleanupFollows(o.reply, log, dc, w.lans, name + FloatingPoolSuffix);
    } else {
      assert log[|log|..] == [];
    }
    if lans.err.None? {
      PurgeFollows(o, w.(lans := lans.lans), lans.log, dc, id, volumes);
    }
    ChainDeletion(log, lans.log, r.log, lanErr, r.err, lanPlan, purgePlan);
  }

  /** Fetching the server, then removing; a failed fetch is Unavailable. */
  lemma FetchFollows(o: Oracle, w: World, log: seq<Call>, spec: ProviderSpec, name: string, id: string)
    ensures var r := FetchRun(o, w, log, spec, name, id);
            var ids := Ensurer.NamedLanIds(LansIn(w.lans, spec.datacenterId), name + FloatingPoolSuffix);
            var found := FindServerIn(w.servers, spec.datacenterId, id);
            var volumes := if found.Some? then |found.value.volumes| else 0;
            FollowsDeletion(log, r.log, r.err, [FindServer] + RemovalPlan(spec.floatingPoolIpId != "", |ids|, volumes)) == true
  {
    var r := FetchRun(o, w, log, spec, name, id);
    var ids := Ensurer.NamedLanIds(LansIn(w.lans, spec.datacenterId), name + FloatingPoolSuffix);
    var found := FindServerIn(w.servers, spec.datacenterId, id);
    var volumes := if found.Some? then |found.value.volumes| else 0;
    var rest := RemovalPlan(spec.floatingPoolIpId != "", |ids|, volumes);
    var c := Call(FindServer, spec.datacenterId, id, NoPayload);
    if AnswerAt(o.reply, |log|, found.Some?).Some? {
      DeletedOne(log, c, r.err, [FindServer] + rest);
    } else {
      DeletedOne(log, c, None, [FindServer]);
      RemovalFollows(o, w, log + [c], spec, name, id, found.value.volumes);
      ChainDeletion(log, log + [c], r.log, None, r.err, [FindServer], rest);
    }
  }

  /** A teardown waits, fetches the server, removes the floating-pool LANs, the volumes
      and the server, in that order, and stops at the first failure; a failed wait is
      Internal. */
  lemma TeardownFollows(o: Oracle, w: World, log: seq<Call>, spec: ProviderSpec, name: string, id: string)
    ensures var r := TeardownRun(o, w, log, spec, name, id);
            var ids := Ensurer.NamedLanIds(LansIn(w.lans, spec.datacenterId), name + FloatingPoolSuffix);
            var found := FindServerIn(w.servers, spec.datacenterId, id);
            var volumes := if found.Some? then |found.value.volumes| else 0;
            FollowsDeletion(log, r.log, r.err, TeardownPlan(spec.floatingPoolIpId != "", |ids|, volumes)) == true
  {
    var r := TeardownRun(o, w, log, spec, name, id);
    var ids := Ensurer.NamedLanIds(LansIn(w.lans, spec.datacenterId), name + FloatingPoolSuffix);
    var found := FindServerIn(w.servers, spec.datacenterId, id);
    var volumes := if found.Some? then |found.value.volumes| else 0;
    var rest := [FindServer] + RemovalPlan(spec.floatingPoolIpId != "", |ids|, volumes);
    var c := Call(WaitServer, spec.datacenterId, id, NoPayload);
    if Expected(o.settle(|log|), MachineOperationRetries, ServerKind).err.Some? {
      DeletedOne(log, c, r.err, [WaitServer] + rest);
    } else {
      DeletedOne(log, c, None, [WaitServer]);
      FetchFollows(o, w, log + [c], spec, name, id);
      ChainDeletion(log, log + [c], r.log, None, r.err, [WaitServer], rest);
    }
  }

  /** DeleteMachine: a provider ID that does not decode and a class that does not
      decode end the request before any call; a stop the cloud answers with 404 ends it
      successfully; otherwise the calls are the stop followed by the teardown, in
      order, up to the first failure, whose code is that of the failed call. */
  lemma DeleteFollows(o: Oracle, w: World, log: seq<Call>, machine: Machine, machineClass: Option<MachineClass>)
    ensures var r := DeleteRun(o, w, log, machine, machineClass);
            var decoded := Transcoder.DecodeServerIDFromProviderID(machine.providerId);
            var spec := ProviderSpecOf(machineClass);
            (decoded.Err? ==> r == Run(log, Some(Undecodable(decoded.error)), w))
            && (decoded.Ok? && spec.Err? ==> r == Run(log, Some(Status(InvalidArgument, BadClass(spec.error))), w))
            && (decoded.Ok? && spec.Ok? ==>
                  var dc := spec.value.datacenterId;
                  var id := decoded.value;
                  var found := FindServerIn(w.servers, dc, id);
                  var stop := AnswerAt(o.reply, |log|, found.Some?);
                  if stop.Some? && stop.value.status == 404 then r == Run(log + [Call(StopServer, dc, id, NoPayload)], None, w)
                  else
                    var ids := Ensurer.NamedLanIds(LansIn(w.lans, dc), machine.name + FloatingPoolSuffix);
                    var plan := [StopServer] + TeardownPlan(spec.value.floatingPoolIpId != "", |ids|,
                                                            if found.Some? then |found.value.volumes| else 0);
                    FollowsDeletion(log, r.log, r.err, plan) == true)
  {
    var r := DeleteRun(o, w, log, machine, machineClass);
    var decoded := Transcoder.DecodeServerIDFromProviderID(machine.providerId);
    var spec := ProviderSpecOf(machineClass);
    if decoded.Ok? && spec.Ok? {
      var dc := spec.value.datacenterId;
      var id := decoded.value;
      var found := FindServerIn(w.servers, dc, id);
      var stop := AnswerAt(o.reply, |log|, found.Some?);
      var ids := Ensurer.NamedLanIds(LansIn(w.lans, dc), machine.name + FloatingPoolSuffix);
      var rest := TeardownPlan(spec.value.floatingPoolIpId != "", |ids|, if found.Some? then |found.value.volumes| else 0);
      var c := Call(StopServer, dc, id, NoPayload);
      if stop.None? {
        var w1 := w.(powered := w.powered[id := false]);
        DeletedOne(log, c, None, [StopServer]);
        TeardownFollows(o, w1, log + [c], spec.value, machine.name, id);
        ChainDeletion(log, log + [c], r.log, None, r.err, [StopServer], rest);
      } else if stop.value.status != 404 {
        DeletedOne(log, c, r.err, [StopServer] + rest);
      }
    }
  }

  // ---------------------------------------------------------------- GetMachineStatus

  /** GetMachineStatus makes its one call exactly when the provider ID is set and
      decodes; it answers NotFound for a missing ID and InvalidArgument for one that
      does not decode. */
  lemma StatusCalls(o: Oracle, w: World, log: seq<Call>, machine: Machine)
    ensures var r := StatusRun(o, w, log, machine);
            var decoded := Transcoder.DecodeServerDataFromProviderID(machine.providerId);
            (r.log == log <==> machine.providerId == "" || decoded.Err?)
            && (r.log != log ==> r.log == log + [Call(FindServer, decoded.value.datacenterId, decoded.value.id, NoPayload)])
            && (machine.providerId == "" ==> r.result == Err(Status(NotFound, NoProviderId(machine.name))))
            && (r.result.Err? && r.result.error.code == InvalidArgument
                <==> machine.providerId != "" && decoded.Err? && decoded.error != Transcoder.EmptyPathPanic)
            && (r.result.Err? && r.result.error.code == Crashed
                <==> machine.providerId != "" && decoded == Err(Transcoder.EmptyPathPanic))
  {
  }

  /** A provider ID with an authority and no path, e.g. `ionos://host`, makes both
      GetMachineStatus and DeleteMachine crash before they call the cloud. */
  lemma HostOnlyIdCrashes(o: Oracle, w: World, log: seq<Call>, machine: Machine, machineClass: Option<MachineClass>,
                          host: string)
    requires Transcoder.IsPlain(host) && machine.providerId == "ionos://" + host
    ensures StatusRun(o, w, log, machine) == Answer(log, Err(Status(Crashed, BadProviderId(Transcoder.EmptyPathPanic))))
    ensures DeleteRun(o, w, log, machine, machineClass) == Run(log, Some(Status(Crashed, BadProviderId(Transcoder.EmptyPathPanic))), w)
  {
    Transcoder.EmptyPathPanics(host);
  }

  /** For a provider ID made from a server's data center and id, GetMachineStatus
      answers with the server's name exactly when the cloud has a server with that id
      that is not INACTIVE, and NotFound otherwise. */
  lemma StatusOfServer(o: Oracle, w: World, log: seq<Call>, machine: Machine, dc: string, id: string)
    requires Transcoder.IsUuid(dc) && Transcoder.IsUuid(id) && Transcoder.IsPlain(dc) && Transcoder.IsPlain(id)
    requires machine.providerId == Transcoder.EncodeProviderID(dc, id)
    requires o.reply(|log|).Accept?
    ensures var r := StatusRun(o, w, log, machine);
            var found := FindServerIn(w.servers, dc, id);
            r.log == log + [Call(FindServer, dc, id, NoPayload)]
            && (r.result.Ok? <==> found.Some? && found.value.state != Inactive)
            && (r.result.Ok? ==> r.result.value == Response(machine.providerId, found.value.properties.name))
            && (r.result.Err? ==> r.result.error.code == NotFound)
  {
    Transcoder.RoundTrip(dc, id);
  }

  /** For any provider ID that decodes, GetMachineStatus makes the one lookup of the
      decoded server; it answers with the server's name exactly when the lookup was
      accepted and found a server that is not INACTIVE, and NotFound otherwise, with a
      refused lookup's own error as the cause. */
  lemma StatusOfAnyId(o: Oracle, w: World, log: seq<Call>, machine: Machine, data: Transcoder.ServerData)
    requires machine.providerId != ""
    requires Transcoder.DecodeServerDataFromProviderID(machine.providerId) == Ok(data)
    ensures var r := StatusRun(o, w, log, machine);
            var found := FindServerIn(w.servers, data.datacenterId, data.id);
            r.log == log + [Call(FindServer, data.datacenterId, data.id, NoPayload)]
            && (r.result.Ok? <==> o.reply(|log|).Accept? && found.Some? && found.value.state != Inactive)
            && (r.result.Ok? ==> r.result.value == Response(machine.providerId, found.value.properties.name))
            && (r.result.Err? ==> r.result.error.code == NotFound)
            && (o.reply(|log|).Reject? ==>
                  r.result == Err(Status(NotFound, ApiFailed(ApiError(o.reply(|log|).status, o.reply(|log|).message)))))
  {
  }

  // ---------------------------------------------------------------- ListMachines

  /** The labels CreateMachine puts on a server are the three ListMachines looks for. */
  lemma CreatedLabelsMatch(spec: ProviderSpec)
    ensures MatchCount(ServerLabels(spec), Hex(spec.cluster), Hex(spec.zone)) == 3
  {
    var labels := ServerLabels(spec);
    var c, z := Hex(spec.cluster), Hex(spec.zone);
    assert labels[..1][..0] == [];
    assert MatchCount(labels[..1], c, z) == 1;
    assert labels[..2][..1] == labels[..1];
    assert MatchCount(labels[..2], c, z) == 2;
    assert labels[..3][..2] == labels[..2];
    assert MatchCount(labels[..3], c, z) == 2;
    assert labels[..3] == labels[..|labels| - 1];
  }

  /** Server `s` is one ListMachines reports under key `k`. */
  ghost predicate ListedAs(w: World, dc: string, clusterValue: string, zoneValue: string, s: Server, k: string)
  {
    s.state != Inactive && MatchCount(LabelsOf(w.serverLabels, s.id), clusterValue, zoneValue) == 3
    && k == Transcoder.EncodeProviderID(dc, s.id)
  }

  /** Without an error, the walk over the servers adds exactly the provider IDs of the
      servers that are not INACTIVE and carry three matching labels. */
  lemma {:induction false} CollectListsMatching(o: Oracle, w: World, log: seq<Call>, dc: string, clusterValue: string,
                                                zoneValue: string, servers: seq<Server>, found: map<string, string>)
    ensures var r := Collect(o, w, log, dc, clusterValue, zoneValue, servers, found);
            r.result.Ok? ==>
              forall k :: k in r.result.value <==>
                k in found || exists s :: s in servers && ListedAs(w, dc, clusterValue, zoneValue, s, k)
    decreases |servers|
  {
    if servers != [] {
      var s0 := servers[0];
      var rest := servers[1..];
      var r := Collect(o, w, log, dc, clusterValue, zoneValue, servers, found);
      var log1 := if s0.state == Inactive then log else log + [Call(ListServerLabels, dc, s0.id, NoPayload)];
      var listed := if s0.state != Inactive && MatchCount(LabelsOf(w.serverLabels, s0.id), clusterValue, zoneValue) == 3
                    then found[Transcoder.EncodeProviderID(dc, s0.id) := s0.properties.name] else found;
      if s0.state == Inactive || AnswerAt(o.reply, |log|, FindServerIn(w.servers, dc, s0.id).Some?).None? {
        assert r == Collect(o, w, log1, dc, clusterValue, zoneValue, rest, listed);
        CollectListsMatching(o, w, log1, dc, clusterValue, zoneValue, rest, listed);
        if r.result.Ok? {
          forall k
            ensures k in r.result.value <==> k in found || exists s :: s in servers && ListedAs(w, dc, clusterValue, zoneValue, s, k)
          {
            assert k in listed <==> k in found || ListedAs(w, dc, clusterValue, zoneValue, s0, k);
            if exists s :: s in servers && ListedAs(w, dc, clusterValue, zoneValue, s, k) {
              var s :| s in servers && ListedAs(w, dc, clusterValue, zoneValue, s, k);
              assert s == s0 || s in rest;
            }
            if ListedAs(w, dc, clusterValue, zoneValue, s0, k) {
              assert s0 in servers;
            }
            if exists s :: s in rest && ListedAs(w, dc, clusterValue, zoneValue, s, k) {
              var s :| s in rest && ListedAs(w, dc, clusterValue, zoneValue, s, k);
              assert s in servers;
            }
          }
        }
      }
    }
  }

  /** The walk over the servers fails only with Unavailable, and every machine it
      reports maps to the name of a listed server with that provider ID, unless it was
      already in `found` and is kept with its value. */
  lemma {:induction false} CollectValues(o: Oracle, w: World, log: seq<Call>, dc: string, clusterValue: string,
                                         zoneValue: string, servers: seq<Server>, found: map<string, string>)
    ensures var r := Collect(o, w, log, dc, clusterValue, zoneValue, servers, found);
            (r.result.Err? ==> r.result.error.code == Unavailable)
            && (r.result.Ok? ==>
                  forall k :: k in r.result.value ==>
                    (k in found && r.result.value[k] == found[k])
                    || exists s :: s in servers && ListedAs(w, dc, clusterValue, zoneValue, s, k)
                                   && r.result.value[k] == s.properties.name)
    decreases |servers|
  {
    if servers != [] {
      var s0 := servers[0];
      var rest := servers[1..];
      var r := Collect(o, w, log, dc, clusterValue, zoneValue, servers, found);
      var log1 := if s0.state == Inactive then log else log + [Call(ListServerLabels, dc, s0.id, NoPayload)];
      var key := Transcoder.EncodeProviderID(dc, s0.id);
      var listed := if s0.state != Inactive && MatchCount(LabelsOf(w.serverLabels, s0.id), clusterValue, zoneValue) == 3
                    then found[key := s0.properties.name] else found;
      if s0.state == Inactive || AnswerAt(o.reply, |log|, FindServerIn(w.servers, dc, s0.id).Some?).None? {
        assert r == Collect(o, w, log1, dc, clusterValue, zoneValue, rest, listed);
        CollectValues(o, w, log1, dc, clusterValue, zoneValue, rest, listed);
        if r.result.Ok? {
          var m := r.result.value;
          forall k | k in m
            ensures (k in found && m[k] == found[k])
                    || exists s :: s in servers && ListedAs(w, dc, clusterValue, zoneValue, s, k) && m[k] == s.properties.name
          {
            if k in listed && m[k] == listed[k] {
              if listed != found && k == key {
                assert s0 in servers && ListedAs(w, dc, clusterValue, zoneValue, s0, k);
              }
            } else {
              var s :| s in rest && ListedAs(w, dc, clusterValue, zoneValue, s, k) && m[k] == s.properties.name;
              assert s in servers;
            }
          }
        }
      }
    }
  }

  /** ListMachines answers InvalidArgument exactly for a class that does not decode and
      otherwise fails only with Unavailable; a listing maps the provider ID of every
      server of the class's data center that is not INACTIVE and carries the three
      labels, and no other, to the name of such a server. */
  lemma ListAnswers(o: Oracle, w: World, log: seq<Call>, machineClass: Option<MachineClass>)
    ensures var r := ListRun(o, w, log, machineClass);
            (r.result.Err? && r.result.error.code == InvalidArgument <==> ProviderSpecOf(machineClass).Err?)
            && (r.result.Err? && r.result.error.code != InvalidArgument ==> r.result.error.code == Unavailable)
            && (r.result.Ok? ==>
                  var spec := ProviderSpecOf(machineClass).value;
                  var dc := spec.datacenterId;
                  (forall k :: k in r.result.value <==>
                     exists s :: s in ServersIn(w.servers, dc) && ListedAs(w, dc, Hex(spec.cluster), Hex(spec.zone), s, k))
                  && forall k :: k in r.result.value ==>
                       exists s :: s in ServersIn(w.servers, dc) && ListedAs(w, dc, Hex(spec.cluster), Hex(spec.zone), s, k)
                                   && r.result.value[k] == s.properties.name)
  {
    match ProviderSpecOf(machineClass)
    case Err(_) =>
    case Ok(spec) =>
      var dc := spec.datacenterId;
      if AnswerAt(o.reply, |log|, true).None? {
        var log1 := log + [Call(ListServers, dc, "", NoPayload)];
        var servers := ServersIn(w.servers, dc);
        CollectListsMatching(o, w, log1, dc, Hex(spec.cluster), Hex(spec.zone), servers, map[]);
        CollectValues(o, w, log1, dc, Hex(spec.cluster), Hex(spec.zone), servers, map[]);
      }
  }

  /** A server CreateMachine labelled for a class is among the machines ListMachines
      reports for that class, when the listing succeeds. */
  lemma ListFindsCreated(o: Oracle, w: World, log: seq<Call>, machineClass: Option<MachineClass>, spec: ProviderSpec, s: Server)
    requires ProviderSpecOf(machineClass) == Ok(spec)
    requires s in w.servers && s.dc == spec.datacenterId && s.state != Inactive
    requires LabelsOf(w.serverLabels, s.id) == ServerLabels(spec)
    ensures var r := ListRun(o, w, log, machineClass);
            r.result.Ok? ==> Transcoder.EncodeProviderID(spec.datacenterId, s.id) in r.result.value
  {
    var dc := spec.datacenterId;
    CreatedLabelsMatch(spec);
    if AnswerAt(o.reply, |log|, true).None? {
      CollectListsMatching(o, w, log + [Call(ListServers, dc, "", NoPayload)], dc, Hex(spec.cluster), Hex(spec.zone),
                           ServersIn(w.servers, dc), map[]);
    }
  }
}
