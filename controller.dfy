/** pkg/ionos/machine_controller.go: the driver calls of the provider. Every call into
    the cloud goes through the Cloud class. The outcome of a request is a function of
    the cloud's oracle, the world before the request and the log position at which the
    request starts; each driver method is proved to produce exactly that outcome, and
    the laws of the outcome are lemmas below. */
module Controller {
  import opened Common
  import opened Polling
  import opened Cloud
  import opened Apis
  import Validation
  import Transcoder
  import Ensurer

  // ---------------------------------------------------------------- requests and statuses

  /** The status codes the provider answers with. Crashed is not a gRPC code: it marks a
      request that panics instead of answering. */
  datatype Code = InvalidArgument | Internal | Unavailable | Aborted | NotFound | Unimplemented | Crashed

  /** Why DecodeProviderSpecFromMachineClass refused a machine class. */
  datatype ClassError = NilClass | BadJson(text: string) | InvalidSpec(messages: seq<string>)

  /** What a status error carries: one of the controller's own messages, or the error
      it wraps. */
  datatype Cause =
    | Refused(text: string)
    | BadProviderId(decodeError: Transcoder.DecodeError)
    | BadClass(classError: ClassError)
    | ApiFailed(apiError: ApiError)
    | WaitFailed(wait: WaitError)
    | EnsureFailed(failure: Failure)
    | NoProviderId(machineName: string)                   // "Provider ID for machine %q is not defined"
    | Vanished(serverName: string, serverId: string)      // "VM %s (%s) does not exist"

  datatype Status = Status(code: Code, cause: Cause)

  /** A MachineClass as the provider reads it: its raw provider spec, either as
      json.Unmarshal decodes it or the decoder's error text. */
  datatype MachineClass = MachineClass(providerSpec: Result<ProviderSpec, string>)

  datatype Machine = Machine(name: string, providerId: string)

  type Secret = map<string, seq<Byte>>

  datatype Response = Response(providerId: string, nodeName: string)

  const VolumeType: string := "SSD"
  const FloatingPoolSuffix: string := "-floating-pool-ip"
  const ExistingProviderId: string := "Machine creation with existing provider ID is not supported"
  const MissingUserData: string := "userData doesn't exist"
  const NoCloudInit: string := "imageID given doesn't belong to a cloud-init enabled image"

  /** The cloud's fixed parts: its images and IP blocks and the two oracles. */
  datatype Oracle = Oracle(images: map<string, Image>, ipBlocks: map<string, IpBlock>,
                           reply: nat -> Reply, settle: nat -> (nat -> Lookup))

  function OracleOf(cloud: Cloud): Oracle
  {
    Oracle(cloud.images, cloud.ipBlocks, cloud.reply, cloud.settle)
  }

  /** Part of a request: the log after it, the error that ended it and the world after it. */
  datatype Run = Run(log: seq<Call>, err: Option<Status>, world: World)

  /** A whole CreateMachine request. */
  datatype Creation = Creation(log: seq<Call>, result: Result<Response, Status>, world: World)

  /** A request that changes nothing: the log after it and its result. */
  datatype Answer<T> = Answer(log: seq<Call>, result: Result<T, Status>)

  // ---------------------------------------------------------------- the machine class

  /** transcoder.DecodeProviderSpecFromMachineClass: a nil machineClass, a spec the JSON
      decoder refuses and a spec the validator reports on are errors. */
  function ProviderSpecOf(machineClass: Option<MachineClass>): (r: Result<ProviderSpec, ClassError>)
    ensures r.Ok? <==> machineClass.Some? && machineClass.value.providerSpec.Ok? && Validation.IsComplete(machineClass.value.providerSpec.value)
    ensures r.Ok? ==> r.value == machineClass.value.providerSpec.value
  {
    match machineClass
    case None => Err(NilClass)
    case Some(c) =>
      match c.providerSpec
      case Err(text) => Err(BadJson(text))
      case Ok(spec) =>
        var messages := Validation.Messages(Validation.MissingFields(spec));
        Validation.NoErrorsIffComplete(spec);
        if messages != [] then Err(InvalidSpec(messages)) else Ok(spec)
  }

  method DecodeProviderSpecFromMachineClass(machineClass: Option<MachineClass>, secret: Secret)
    returns (r: Result<ProviderSpec, ClassError>)
    ensures r == ProviderSpecOf(machineClass)
  {
    if machineClass.None? {
      return Err(NilClass);
    }
    if machineClass.value.providerSpec.Err? {
      return Err(BadJson(machineClass.value.providerSpec.error));
    }
    var spec := machineClass.value.providerSpec.value;
    var validationErr := Validation.ValidateIonosProviderSpec(spec, secret);
    if validationErr != [] {
      return Err(InvalidSpec(validationErr));
    }
    return Ok(spec);
  }

  // ---------------------------------------------------------------- what CreateMachine sends

  /** The volume size CreateMachine asks for: the image's size when the spec gives none,
      otherwise the spec's size divided by 1048576 and rounded up, but never below the
      image's size. */
  function VolumeSize(requested: nat, imageSize: nat): (size: nat)
    ensures size >= imageSize
    ensures requested == 0 ==> size == imageSize
    ensures requested > 0 ==> size * 1048576 >= requested
    ensures requested > 0 && size > imageSize ==> (size - 1) * 1048576 < requested
  {
    if requested == 0 then imageSize
    else
      var rounded := (requested + 1048575) / 1048576;
      if rounded > imageSize then rounded else imageSize
  }

  function VolumePropertiesFor(spec: ProviderSpec, name: string, size: nat, userData: string): VolumeProperties
  {
    VolumeProperties(VolumeType, name, size, spec.imageId, [spec.sshKey + "\n"], userData)
  }

  /** Cores and memory are converted with int32(...). */
  function ServerPropertiesFor(spec: ProviderSpec, name: string): ServerProperties
  {
    ServerProperties(name, Int32(spec.cores), Int32(spec.memory))
  }

  /** The labels put on a new server, in the order they are added. */
  function ServerLabels(spec: ProviderSpec): seq<Label>
  {
    [Label("cluster", Hex(spec.cluster)), Label("role", "node"),
     Label("region", Hex(GetRegionFromZone(spec.zone))), Label("zone", Hex(spec.zone))]
  }

  /** An image is usable when it declares a cloud-init flavour other than "NONE". */
  predicate CloudInitEnabled(image: Image)
  {
    image.cloudInit.Some? && image.cloudInit.value != "NONE"
  }

  // ---------------------------------------------------------------- CreateMachine, step by step

  /** The checks CreateMachine makes before its first call. */
  function CreatePrecheck(machine: Machine, machineClass: Option<MachineClass>, secret: Secret): Result<ProviderSpec, Status>
  {
    if machine.providerId != "" then Err(Status(InvalidArgument, Refused(ExistingProviderId)))
    else
      match ProviderSpecOf(machineClass)
      case Err(e) => Err(Status(InvalidArgument, BadClass(e)))
      case Ok(spec) =>
        if "userData" !in secret then Err(Status(Internal, Refused(MissingUserData))) else Ok(spec)
  }

  /** Creating the boot volume, waiting for it and labelling it with its cluster. */
  function VolumeSteps(o: Oracle, w: World, log: seq<Call>, dc: string, properties: VolumeProperties, cluster: string): Run
  {
    var log1 := log + [Call(CreateVolume, dc, "", VolumePayload(properties))];
    match AnswerAt(o.reply, |log|, true)
    case Some(e) => Run(log1, Some(Status(Internal, ApiFailed(e))), w)
    case None =>
      var id := IdAt(o.reply, |log|);
      var w1 := w.(volumes := w.volumes + [Volume(dc, id, properties)]);
      var log2 := log1 + [Call(WaitVolume, dc, id, NoPayload)];
      var settled := Expected(o.settle(|log1|), MachineOperationRetries, VolumeKind);
      if settled.err.Some? then Run(log2, Some(Status(Internal, WaitFailed(settled.err.value))), w1)
      else ClusterLabelStep(o, w1, log2, dc, id, cluster)
  }

  /** Labelling volume `id` with its cluster. */
  function ClusterLabelStep(o: Oracle, w: World, log: seq<Call>, dc: string, id: string, cluster: string): Run
  {
    var tag := Label("cluster", Hex(cluster));
    var log1 := log + [Call(LabelVolume(tag.key), dc, id, LabelPayload(tag.value))];
    match AnswerAt(o.reply, |log|, HasVolume(w, dc, id))
    case Some(e) => Run(log1, Some(Status(Internal, ApiFailed(e))), w)
    case None => Run(log1, None, w.(volumeLabels := w.volumeLabels[id := LabelsOf(w.volumeLabels, id) + [tag]]))
  }

  /** Creating the server on the boot volume, waiting, stopping it and waiting again. */
  function ServerSteps(o: Oracle, w: World, log: seq<Call>, dc: string, properties: ServerProperties, volumeId: string): Run
  {
    var log1 := log + [Call(CreateServer, dc, volumeId, ServerPayload(properties))];
    match AnswerAt(o.reply, |log|, true)
    case Some(e) => Run(log1, Some(Status(Unavailable, ApiFailed(e))), w)
    case None =>
      var id := IdAt(o.reply, |log|);
      var w1 := w.(servers := w.servers + [Server(dc, id, properties, volumeId, [volumeId], Available)]);
      var log2 := log1 + [Call(WaitServer, dc, id, NoPayload)];
      var settled := Expected(o.settle(|log1|), MachineOperationRetries, ServerKind);
      if settled.err.Some? then Run(log2, Some(Status(Internal, WaitFailed(settled.err.value))), w1)
      else StopSteps(o, w1, log2, dc, id)
  }

  /** Stopping the server just created and waiting for it. The server is in the world,
      so the stop finds it. */
  function StopSteps(o: Oracle, w: World, log: seq<Call>, dc: string, id: string): Run
  {
    var log1 := log + [Call(StopServer, dc, id, NoPayload)];
    match AnswerAt(o.reply, |log|, true)
    case Some(e) => Run(log1, Some(Status(Aborted, ApiFailed(e))), w)
    case None =>
      var stopped := Expected(o.settle(|log1|), MachineOperationRetries, ServerKind);
      Run(log1 + [Call(WaitServer, dc, id, NoPayload)],
          if stopped.err.Some? then Some(Status(Internal, WaitFailed(stopped.err.value))) else None,
          w.(powered := w.powered[id := false]))
  }

  /** Adding `labels` to server `id` one after the other, stopping at the first error. */
  function LabelSteps(o: Oracle, w: World, log: seq<Call>, dc: string, id: string, labels: seq<Label>): Run
    decreases |labels|
  {
    if labels == [] then Run(log, None, w)
    else
      var log1 := log + [Call(LabelServer(labels[0].key), dc, id, LabelPayload(labels[0].value))];
      match AnswerAt(o.reply, |log|, FindServerIn(w.servers, dc, id).Some?)
      case Some(e) => Run(log1, Some(Status(Internal, ApiFailed(e))), w)
      case None =>
        var w1 := w.(serverLabels := w.serverLabels[id := LabelsOf(w.serverLabels, id) + [labels[0]]]);
        LabelSteps(o, w1, log1, dc, id, labels[1..])
  }

  /** Attaching LAN `lanId` to the server when the id is not empty. */
  function NicSteps(o: Oracle, w: World, log: seq<Call>, dc: string, id: string, lanId: string): Run
  {
    if lanId == "" then Run(log, None, w)
    else
      var a := Ensurer.LanAttachment(o.reply, o.settle, w.servers, log, dc, id, lanId);
      Run(a.log, if a.err.Some? then Some(Status(Internal, EnsureFailed(a.err.value))) else None,
          w.(nics := w.nics + a.nics))
  }

  /** Waiting for the server, starting it and waiting for it once more. */
  function StartSteps(o: Oracle, w: World, log: seq<Call>, dc: string, id: string): Run
  {
    var log1 := log + [Call(WaitServer, dc, id, NoPayload)];
    var settled := Expected(o.settle(|log|), MachineOperationRetries, ServerKind);
    if settled.err.Some? then Run(log1, Some(Status(Internal, WaitFailed(settled.err.value))), w)
    else
      var log2 := log1 + [Call(StartServer, dc, id, NoPayload)];
      match AnswerAt(o.reply, |log1|, FindServerIn(w.servers, dc, id).Some?)
      case Some(e) => Run(log2, Some(Status(Aborted, ApiFailed(e))), w)
      case None =>
        var started := Expected(o.settle(|log2|), MachineOperationRetries, ServerKind);
        Run(log2 + [Call(WaitServer, dc, id, NoPayload)],
            if started.err.Some? then Some(Status(Internal, WaitFailed(started.err.value))) else None,
            w.(powered := w.powered[id := true]))
  }

  /** The server the last wait of a request ending in `log` returned. */
  function LastWaited(o: Oracle, log: seq<Call>): Resource
  {
    if log == [] then Zero else Expected(o.settle(|log| - 1), MachineOperationRetries, ServerKind).resource
  }

  /** The server LastWaited reports after a further wait call is the one that wait returned. */
  lemma LastWaitedAfter(o: Oracle, log: seq<Call>, c: Call)
    ensures LastWaited(o, log + [c]) == Expected(o.settle(|log|), MachineOperationRetries, ServerKind).resource
  {
    assert |log + [c]| - 1 == |log|;
  }

  /** The end of a step: its failure ends the creation, its success hands on to `next`. */
  function Then(step: Run, next: Creation): Creation
  {
    if step.err.Some? then Creation(step.log, Err(step.err.value), step.world) else next
  }

  /** Everything from the creation of the server on. */
  function ConfigureRun(o: Oracle, w: World, log: seq<Call>, spec: ProviderSpec, name: string,
                        volumeId: string, lanId: string): Creation
  {
    var server := ServerSteps(o, w, log, spec.datacenterId, ServerPropertiesFor(spec, name), volumeId);
    Then(server, LabelRun(o, server.world, server.log, spec, IdAt(o.reply, |log|), lanId))
  }

  /** From the server labels on. */
  function LabelRun(o: Oracle, w: World, log: seq<Call>, spec: ProviderSpec, id: string, lanId: string): Creation
  {
    var labels := LabelSteps(o, w, log, spec.datacenterId, id, ServerLabels(spec));
    Then(labels, FloatingRun(o, labels.world, labels.log, spec, id, lanId))
  }

  /** From the floating-pool NIC on. */
  function FloatingRun(o: Oracle, w: World, log: seq<Call>, spec: ProviderSpec, id: string, lanId: string): Creation
  {
    var floating := NicSteps(o, w, log, spec.datacenterId, id, lanId);
    Then(floating, NetworkRun(o, floating.world, floating.log, spec, id))
  }

  /** From the network NIC on. */
  function NetworkRun(o: Oracle, w: World, log: seq<Call>, spec: ProviderSpec, id: string): Creation
  {
    var network := NicSteps(o, w, log, spec.datacenterId, id, spec.networkId);
    Then(network, StartRun(o, network.world, network.log, spec, id))
  }

  /** The start; a started server is answered with its provider ID and name. */
  function StartRun(o: Oracle, w: World, log: seq<Call>, spec: ProviderSpec, id: string): Creation
  {
    var start := StartSteps(o, w, log, spec.datacenterId, id);
    var result := LastWaited(o, start.log);
    Then(start, Creation(start.log, Ok(Response(Transcoder.EncodeProviderID(spec.datacenterId, result.id), result.name)), start.world))
  }

  /** Everything from the creation of the boot volume on. */
  function ProvisionRun(o: Oracle, w: World, log: seq<Call>, spec: ProviderSpec, name: string,
                        image: Image, userData: string): Creation
  {
    var dc := spec.datacenterId;
    var properties := VolumePropertiesFor(spec, name, VolumeSize(spec.volumeSize, image.size), userData);
    var volume := VolumeSteps(o, w, log, dc, properties, spec.cluster);
    if volume.err.Some? then Creation(volume.log, Err(volume.err.value), volume.world)
    else
      var lan := Ensurer.LanCreation(o.reply, o.ipBlocks, volume.log, dc, spec.floatingPoolIpId, name + FloatingPoolSuffix);
      var w1 := volume.world.(lans := volume.world.lans + lan.created);
      if lan.err.Some? then Creation(lan.log, Err(Status(Internal, EnsureFailed(lan.err.value))), w1)
      else ConfigureRun(o, w1, lan.log, spec, name, IdAt(o.reply, |log|), lan.lanId)
  }

  /** A CreateMachine request issued after the calls `log`. */
  function CreateRun(o: Oracle, w: World, log: seq<Call>, machine: Machine, machineClass: Option<MachineClass>, secret: Secret): Creation
  {
    match CreatePrecheck(machine, machineClass, secret)
    case Err(s) => Creation(log, Err(s), w)
    case Ok(spec) =>
      var log1 := log + [Call(FindImage, "", spec.imageId, NoPayload)];
      match AnswerAt(o.reply, |log|, spec.imageId in o.images)
      case Some(e) => Creation(log1, Err(Status(InvalidArgument, ApiFailed(e))), w)
      case None =>
        var image := o.images[spec.imageId];
        if !CloudInitEnabled(image) then Creation(log1, Err(Status(InvalidArgument, Refused(NoCloudInit))), w)
        else ProvisionRun(o, w, log1, spec, machine.name, image, Base64(secret["userData"]))
  }

  // ---------------------------------------------------------------- CreateMachine

  method CreateMachine(cloud: Cloud, machine: Machine, machineClass: Option<MachineClass>, secret: Secret)
    returns (result: Result<Response, Status>)
    requires cloud.Responsive()
    modifies cloud
    ensures var r := CreateRun(OracleOf(cloud), old(cloud.world), old(cloud.log), machine, machineClass, secret);
            cloud.log == r.log && result == r.result && cloud.world == r.world
  {
    if "" != machine.providerId {
      return Err(Status(InvalidArgument, Refused(ExistingProviderId)));
    }
    var providerSpec := DecodeProviderSpecFromMachineClass(machineClass, secret);
    if providerSpec.Err? {
      return Err(Status(InvalidArgument, BadClass(providerSpec.error)));
    }
    var spec := providerSpec.value;
    if "userData" !in secret {
      return Err(Status(Internal, Refused(MissingUserData)));
    }
    var userDataBytes := secret["userData"];
    var image, e := cloud.FindImageById(spec.imageId);
    if e.Some? {
      return Err(Status(InvalidArgument, ApiFailed(e.value)));
    } else if !CloudInitEnabled(image) {
      return Err(Status(InvalidArgument, Refused(NoCloudInit)));
    }
    result := Provision(cloud, spec, machine.name, image, Base64(userDataBytes));
  }

  /** Lines 80-128: the boot volume and the floating-pool LAN. */
  method Provision(cloud: Cloud, spec: ProviderSpec, name: string, image: Image, userData: string)
    returns (result: Result<Response, Status>)
    requires cloud.Responsive()
    modifies cloud
    ensures var r := ProvisionRun(OracleOf(cloud), old(cloud.world), old(cloud.log), spec, name, image, userData);
            cloud.log == r.log && result == r.result && cloud.world == r.world
  {
    var dc := spec.datacenterId;
    var volumeSize := VolumeSize(spec.volumeSize, image.size);
    var volumeId, err := CreateBootVolume(cloud, dc, VolumePropertiesFor(spec, name, volumeSize, userData), spec.cluster);
    if err.Some? {
      return Err(err.value);
    }
    var floatingPoolIpLanId := "";
    if "" != spec.floatingPoolIpId {
      var lanErr;
      floatingPoolIpLanId, lanErr := Ensurer.EnsureFloatingPoolIPBlockLANIsCreated(
        cloud, dc, spec.floatingPoolIpId, name + FloatingPoolSuffix);
      if lanErr.Some? {
        return Err(Status(Internal, EnsureFailed(lanErr.value)));
      }
    } else {
      assert cloud.world.lans + [] == cloud.world.lans;
    }
    result := Configure(cloud, spec, name, volumeId, floatingPoolIpLanId);
  }

  /** Lines 130-221: the server, its labels and NICs, and its start. */
  method Configure(cloud: Cloud, spec: ProviderSpec, name: string, volumeId: string, floatingPoolIpLanId: string)
    returns (result: Result<Response, Status>)
    requires cloud.Responsive()
    modifies cloud
    ensures var r := ConfigureRun(OracleOf(cloud), old(cloud.world), old(cloud.log), spec, name, volumeId, floatingPoolIpLanId);
            cloud.log == r.log && result == r.result && cloud.world == r.world
  {
    var dc := spec.datacenterId;
    var serverId, err := CreateStoppedServer(cloud, dc, ServerPropertiesFor(spec, name), volumeId);
    if err.Some? {
      return Err(err.value);
    }
    err := AddServerLabels(cloud, dc, serverId, spec);
    if err.Some? {
      return Err(err.value);
    }
    err := AttachLan(cloud, dc, serverId, floatingPoolIpLanId);
    if err.Some? {
      return Err(err.value);
    }
    err := AttachLan(cloud, dc, serverId, spec.networkId);
    if err.Some? {
      return Err(err.value);
    }
    var server;
    server, err := StartAndWait(cloud, dc, serverId);
    if err.Some? {
      return Err(err.value);
    }
    return Ok(Response(Transcoder.EncodeProviderID(dc, server.id), server.name));
  }

  method CreateBootVolume(cloud: Cloud, dc: string, properties: VolumeProperties, cluster: string)
    returns (volumeId: string, err: Option<Status>)
    requires cloud.Responsive()
    modifies cloud
    ensures var r := VolumeSteps(OracleOf(cloud), old(cloud.world), old(cloud.log), dc, properties, cluster);
            cloud.log == r.log && err == r.err && cloud.world == r.world
    ensures volumeId == IdAt(cloud.reply, |old(cloud.log)|)
  {
    var e;
    volumeId, e := cloud.PostVolume(dc, properties);
    if e.Some? {
      return volumeId, Some(Status(Internal, ApiFailed(e.value)));
    }
    var _, w := cloud.WaitForVolume(dc, volumeId);
    if w.Some? {
      return volumeId, Some(Status(Internal, WaitFailed(w.value)));
    }
    e := cloud.AddLabelToVolume(dc, volumeId, "cluster", Hex(cluster));
    if e.Some? {
      return volumeId, Some(Status(Internal, ApiFailed(e.value)));
    }
    return volumeId, None;
  }

  method CreateStoppedServer(cloud: Cloud, dc: string, properties: ServerProperties, volumeId: string)
    returns (serverId: string, err: Option<Status>)
    requires cloud.Responsive()
    modifies cloud
    ensures var r := ServerSteps(OracleOf(cloud), old(cloud.world), old(cloud.log), dc, properties, volumeId);
            cloud.log == r.log && err == r.err && cloud.world == r.world
    ensures serverId == IdAt(cloud.reply, |old(cloud.log)|)
  {
    var e;
    serverId, e := cloud.PostServer(dc, properties, volumeId);
    if e.Some? {
      return serverId, Some(Status(Unavailable, ApiFailed(e.value)));
    }
    var w := cloud.WaitForServer(dc, serverId);
    if w.Some? {
      return serverId, Some(Status(Internal, WaitFailed(w.value)));
    }
    e := cloud.PowerServer(dc, serverId, false);
    if e.Some? {
      return serverId, Some(Status(Aborted, ApiFailed(e.value)));
    }
    w := cloud.WaitForServer(dc, serverId);
    if w.Some? {
      return serverId, Some(Status(Internal, WaitFailed(w.value)));
    }
    return serverId, None;
  }

  /** Lines 167-185: the four labels, each added by its own call. */
  method AddServerLabels(cloud: Cloud, dc: string, serverId: string, spec: ProviderSpec) returns (err: Option<Status>)
    modifies cloud
    ensures var r := LabelSteps(OracleOf(cloud), old(cloud.world), old(cloud.log), dc, serverId, ServerLabels(spec));
            cloud.log == r.log && err == r.err && cloud.world == r.world
  {
    ghost var full := LabelSteps(OracleOf(cloud), cloud.world, cloud.log, dc, serverId, ServerLabels(spec));
    ghost var todo := ServerLabels(spec);
    var clusterValue := Hex(spec.cluster);
    var e := cloud.AddLabelToServer(dc, serverId, "cluster", clusterValue);
    if e.Some? {
      return Some(Status(Internal, ApiFailed(e.value)));
    }
    todo := todo[1..];
    assert LabelSteps(OracleOf(cloud), cloud.world, cloud.log, dc, serverId, todo) == full;
    e := cloud.AddLabelToServer(dc, serverId, "role", "node");
    if e.Some? {
      return Some(Status(Internal, ApiFailed(e.value)));
    }
    todo := todo[1..];
    assert LabelSteps(OracleOf(cloud), cloud.world, cloud.log, dc, serverId, todo) == full;
    var region := GetRegionFromZone(spec.zone);
    e := cloud.AddLabelToServer(dc, serverId, "region", Hex(region));
    if e.Some? {
      return Some(Status(Internal, ApiFailed(e.value)));
    }
    todo := todo[1..];
    assert LabelSteps(OracleOf(cloud), cloud.world, cloud.log, dc, serverId, todo) == full;
    e := cloud.AddLabelToServer(dc, serverId, "zone", Hex(spec.zone));
    if e.Some? {
      return Some(Status(Internal, ApiFailed(e.value)));
    }
    todo := todo[1..];
    assert todo == [];
    return None;
  }

  /** Lines 187-199: one of the two optional NIC attachments. */
  method AttachLan(cloud: Cloud, dc: string, serverId: string, lanId: string) returns (err: Option<Status>)
    requires cloud.Responsive()
    modifies cloud
    ensures var r := NicSteps(OracleOf(cloud), old(cloud.world), old(cloud.log), dc, serverId, lanId);
            cloud.log == r.log && err == r.err && cloud.world == r.world
  {
    if "" != lanId {
      var f := Ensurer.EnsureLANIsAttachedToServer(cloud, dc, serverId, lanId);
      if f.Some? {
        return Some(Status(Internal, EnsureFailed(f.value)));
      }
    }
    return None;
  }

  /** Lines 201-214: wait, start, and wait for the started server. */
  method StartAndWait(cloud: Cloud, dc: string, serverId: string) returns (server: Resource, err: Option<Status>)
    requires cloud.Responsive()
    modifies cloud
    ensures var r := StartSteps(OracleOf(cloud), old(cloud.world), old(cloud.log), dc, serverId);
            cloud.log == r.log && err == r.err && cloud.world == r.world
    ensures err.None? ==> server == LastWaited(OracleOf(cloud), cloud.log)
  {
    var w := cloud.WaitForServer(dc, serverId);
    if w.Some? {
      return Zero, Some(Status(Internal, WaitFailed(w.value)));
    }
    var e := cloud.PowerServer(dc, serverId, true);
    if e.Some? {
      return Zero, Some(Status(Aborted, ApiFailed(e.value)));
    }
    ghost var log2 := cloud.log;
    server, w := cloud.WaitForServerAndGetResult(dc, serverId);
    LastWaitedAfter(OracleOf(cloud), log2, Call(WaitServer, dc, serverId, NoPayload));
    if w.Some? {
      return server, Some(Status(Internal, WaitFailed(w.value)));
    }
    return server, None;
  }

  // ---------------------------------------------------------------- DeleteMachine

  /** How DeleteMachine and GetMachineStatus end on a provider ID the decoder refuses:
      InvalidArgument, except that an ID with an authority and no path makes the
      decoder panic on `Path[1:]`, and the request then crashes. */
  function Undecodable(d: Transcoder.DecodeError): (s: Status)
    ensures s.cause == BadProviderId(d)
    ensures s.code == Crashed <==> d == Transcoder.EmptyPathPanic
    ensures s.code != Crashed ==> s.code == InvalidArgument
  {
    Status(if d == Transcoder.EmptyPathPanic then Crashed else InvalidArgument, BadProviderId(d))
  }

  /** Deleting the volumes `ids` one by one, stopping at the first error. */
  function DeleteVolumes(o: Oracle, w: World, log: seq<Call>, dc: string, ids: seq<string>): Run
    decreases |ids|
  {
    if ids == [] then Run(log, None, w)
    else
      var log1 := log + [Call(DeleteVolume, dc, ids[0], NoPayload)];
      match AnswerAt(o.reply, |log|, HasVolume(w, dc, ids[0]))
      case Some(e) => Run(log1, Some(Status(Unavailable, ApiFailed(e))), w)
      case None =>
        var w1 := w.(volumes := WithoutVolumes(w.volumes, dc, {ids[0]}), volumeLabels := w.volumeLabels - {ids[0]});
        DeleteVolumes(o, w1, log1, dc, ids[1..])
  }

  /** Everything after the server was stopped: wait, then fetch and remove. */
  function TeardownRun(o: Oracle, w: World, log: seq<Call>, spec: ProviderSpec, name: string, id: string): Run
  {
    var log1 := log + [Call(WaitServer, spec.datacenterId, id, NoPayload)];
    var settled := Expected(o.settle(|log|), MachineOperationRetries, ServerKind);
    if settled.err.Some? then Run(log1, Some(Status(Internal, WaitFailed(settled.err.value))), w)
    else FetchRun(o, w, log1, spec, name, id)
  }

  /** Fetch the stopped server, then remove what belongs to it. */
  function FetchRun(o: Oracle, w: World, log: seq<Call>, spec: ProviderSpec, name: string, id: string): Run
  {
    var log1 := log + [Call(FindServer, spec.datacenterId, id, NoPayload)];
    var found := FindServerIn(w.servers, spec.datacenterId, id);
    match AnswerAt(o.reply, |log|, found.Some?)
    case Some(e) => Run(log1, Some(Status(Unavailable, ApiFailed(e))), w)
    case None => RemovalRun(o, w, log1, spec, name, id, found.value.volumes)
  }

  /** Once the server was fetched: remove the floating-pool LANs, then the server's
      `volumes` and the server. */
  function RemovalRun(o: Oracle, w: World, log: seq<Call>, spec: ProviderSpec, name: string, id: string,
                      volumes: seq<string>): Run
  {
    var lans := if spec.floatingPoolIpId == "" then Ensurer.Deletion(log, None, w.lans)
                else Ensurer.LanCleanup(o.reply, log, spec.datacenterId, w.lans, name + FloatingPoolSuffix);
    var w1 := w.(lans := lans.lans);
    if lans.err.Some? then Run(lans.log, Some(Status(Unavailable, EnsureFailed(lans.err.value))), w1)
    else PurgeRun(o, w1, lans.log, spec.datacenterId, id, volumes)
  }

  /** The last steps of a teardown: delete the `volumes`, then the server. */
  function PurgeRun(o: Oracle, w: World, log: seq<Call>, dc: string, id: string, volumes: seq<string>): Run
  {
    var deleted := DeleteVolumes(o, w, log, dc, volumes);
    if deleted.err.Some? then deleted
    else
      var w1 := deleted.world;
      var log1 := deleted.log + [Call(DeleteServer, dc, id, NoPayload)];
      match AnswerAt(o.reply, |deleted.log|, FindServerIn(w1.servers, dc, id).Some?)
      case Some(e) => Run(log1, Some(Status(Unavailable, ApiFailed(e))), w1)
      case None =>
        Run(log1, None, w1.(servers := WithoutServers(w1.servers, dc, {id}),
                            serverLabels := w1.serverLabels - {id}, powered := w1.powered - {id}))
  }

  /** A DeleteMachine request issued after the calls `log`. */
  function DeleteRun(o: Oracle, w: World, log: seq<Call>, machine: Machine, machineClass: Option<MachineClass>): Run
  {
    match Transcoder.DecodeServerIDFromProviderID(machine.providerId)
    case Err(d) => Run(log, Some(Undecodable(d)), w)
    case Ok(id) =>
      match ProviderSpecOf(machineClass)
      case Err(c) => Run(log, Some(Status(InvalidArgument, BadClass(c))), w)
      case Ok(spec) =>
        var dc := spec.datacenterId;
        var log1 := log + [Call(StopServer, dc, id, NoPayload)];
        match AnswerAt(o.reply, |log|, FindServerIn(w.servers, dc, id).Some?)
        case Some(e) => Run(log1, if e.status == 404 then None else Some(Status(Unavailable, ApiFailed(e))), w)
        case None => TeardownRun(o, w.(powered := w.powered[id := false]), log1, spec, machine.name, id)
  }

  method DeleteMachine(cloud: Cloud, machine: Machine, machineClass: Option<MachineClass>, secret: Secret)
    returns (err: Option<Status>)
    requires cloud.Responsive()
    modifies cloud
    ensures var r := DeleteRun(OracleOf(cloud), old(cloud.world), old(cloud.log), machine, machineClass);
            cloud.log == r.log && err == r.err && cloud.world == r.world
  {
    var serverId := Transcoder.DecodeServerIDFromProviderID(machine.providerId);
    if serverId.Err? {
      return Some(Undecodable(serverId.error));
    }
    var providerSpec := DecodeProviderSpecFromMachineClass(machineClass, secret);
    if providerSpec.Err? {
      return Some(Status(InvalidArgument, BadClass(providerSpec.error)));
    }
    var spec := providerSpec.value;
    var e := cloud.PowerServer(spec.datacenterId, serverId.value, false);
    if e.Some? {
      if 404 == e.value.status {
        return None;
      }
      return Some(Status(Unavailable, ApiFailed(e.value)));
    }
    err := Teardown(cloud, spec, machine.name, serverId.value);
  }

  /** Lines 262-293: wait, fetch, floating-pool LANs, volumes, server. */
  method Teardown(cloud: Cloud, spec: ProviderSpec, name: string, serverId: string) returns (err: Option<Status>)
    requires cloud.Responsive()
    modifies cloud
    ensures var r := TeardownRun(OracleOf(cloud), old(cloud.world), old(cloud.log), spec, name, serverId);
            cloud.log == r.log && err == r.err && cloud.world == r.world
  {
    var dc := spec.datacenterId;
    var w := cloud.WaitForServer(dc, serverId);
    if w.Some? {
      return Some(Status(Internal, WaitFailed(w.value)));
    }
    var server, e := cloud.FindServerById(dc, serverId);
    if e.Some? {
      return Some(Status(Unavailable, ApiFailed(e.value)));
    }
    if "" != spec.floatingPoolIpId {
      var f := Ensurer.EnsureFloatingPoolIPBlockLANIsDeleted(cloud, dc, name + FloatingPoolSuffix);
      if f.Some? {
        return Some(Status(Unavailable, EnsureFailed(f.value)));
      }
    }
    err := RemoveVolumes(cloud, dc, server.volumes);
    if err.Some? {
      return err;
    }
    e := cloud.RemoveServer(dc, serverId);
    if e.Some? {
      return Some(Status(Unavailable, ApiFailed(e.value)));
    }
    return None;
  }

  /** Lines 281-286: the loop over the server's volumes. */
  method RemoveVolumes(cloud: Cloud, dc: string, volumes: seq<string>) returns (err: Option<Status>)
    modifies cloud
    ensures var r := DeleteVolumes(OracleOf(cloud), old(cloud.world), old(cloud.log), dc, volumes);
            cloud.log == r.log && err == r.err && cloud.world == r.world
  {
    ghost var full := DeleteVolumes(OracleOf(cloud), cloud.world, cloud.log, dc, volumes);
    assert volumes[0..] == volumes;
    var i := 0;
    while i < |volumes|
      invariant 0 <= i <= |volumes|
      invariant DeleteVolumes(OracleOf(cloud), cloud.world, cloud.log, dc, volumes[i..]) == full
    {
      assert volumes[i..][0] == volumes[i] && volumes[i..][1..] == volumes[i + 1..];
      var e := cloud.RemoveVolume(dc, volumes[i]);
      if e.Some? {
        return Some(Status(Unavailable, ApiFailed(e.value)));
      }
      i := i + 1;
    }
    return None;
  }

  // ---------------------------------------------------------------- GetMachineStatus

  /** A GetMachineStatus request issued after the calls `log`. */
  function StatusRun(o: Oracle, w: World, log: seq<Call>, machine: Machine): Answer<Response>
  {
    if machine.providerId == "" then Answer(log, Err(Status(NotFound, NoProviderId(machine.name))))
    else
      match Transcoder.DecodeServerDataFromProviderID(machine.providerId)
      case Err(d) => Answer(log, Err(Undecodable(d)))
      case Ok(data) =>
        var log1 := log + [Call(FindServer, data.datacenterId, data.id, NoPayload)];
        var found := FindServerIn(w.servers, data.datacenterId, data.id);
        match AnswerAt(o.reply, |log|, found.Some?)
        case Some(e) => Answer(log1, Err(Status(NotFound, ApiFailed(e))))
        case None =>
          if found.value.state == Inactive then
            Answer(log1, Err(Status(NotFound, Vanished(found.value.properties.name, data.id))))
          else Answer(log1, Ok(Response(machine.providerId, found.value.properties.name)))
  }

  method GetMachineStatus(cloud: Cloud, machine: Machine, secret: Secret) returns (result: Result<Response, Status>)
    modifies cloud
    ensures var r := StatusRun(OracleOf(cloud), old(cloud.world), old(cloud.log), machine);
            cloud.log == r.log && result == r.result && cloud.world == old(cloud.world)
  {
    if machine.providerId == "" {
      return Err(Status(NotFound, NoProviderId(machine.name)));
    }
    var serverData := Transcoder.DecodeServerDataFromProviderID(machine.providerId);
    if serverData.Err? {
      return Err(Undecodable(serverData.error));
    }
    var server, e := cloud.FindServerById(serverData.value.datacenterId, serverData.value.id);
    if e.Some? {
      return Err(Status(NotFound, ApiFailed(e.value)));
    } else if Inactive == server.state {
      return Err(Status(NotFound, Vanished(server.properties.name, serverData.value.id)));
    }
    return Ok(Response(machine.providerId, server.properties.name));
  }

  // ---------------------------------------------------------------- ListMachines

  /** Whether one label is one of the three ListMachines looks for. */
  predicate Matches(tag: Label, clusterValue: string, zoneValue: string)
  {
    (tag.key == "cluster" && tag.value == clusterValue)
    || (tag.key == "role" && tag.value == "node")
    || (tag.key == "zone" && tag.value == zoneValue)
  }

  /** The number of labels that match, each occurrence counted. */
  function MatchCount(labels: seq<Label>, clusterValue: string, zoneValue: string): (n: nat)
    ensures n <= |labels|
  {
    if labels == [] then 0
    else MatchCount(labels[..|labels| - 1], clusterValue, zoneValue)
         + (if Matches(labels[|labels| - 1], clusterValue, zoneValue) then 1 else 0)
  }

  /** Lines 374-397: the inner loop counting the matching labels. */
  method CountLabelMatches(labels: seq<Label>, clusterValue: string, zoneValue: string) returns (labelMatches: nat)
    ensures labelMatches == MatchCount(labels, clusterValue, zoneValue)
  {
    labelMatches := 0;
    var i := 0;
    while i < |labels|
      invariant 0 <= i <= |labels|
      invariant labelMatches == MatchCount(labels[..i], clusterValue, zoneValue)
    {
      assert labels[..i + 1][..i] == labels[..i];
      var tag := labels[i];
      if tag.key == "cluster" {
        if clusterValue == tag.value {
          labelMatches := labelMatches + 1;
        }
      } else if tag.key == "role" {
        if "node" == tag.value {
          labelMatches := labelMatches + 1;
        }
      } else if tag.key == "zone" {
        if zoneValue == tag.value {
          labelMatches := labelMatches + 1;
        }
      }
      i := i + 1;
    }
    assert labels[..i] == labels;
  }

  /** The outer loop over the listed `servers`, adding to `found` every active server
      whose label count is 3. */
  function Collect(o: Oracle, w: World, log: seq<Call>, dc: string, clusterValue: string, zoneValue: string,
                   servers: seq<Server>, found: map<string, string>): Answer<map<string, string>>
    decreases |servers|
  {
    if servers == [] then Answer(log, Ok(found))
    else if servers[0].state == Inactive then Collect(o, w, log, dc, clusterValue, zoneValue, servers[1..], found)
    else
      var id := servers[0].id;
      var log1 := log + [Call(ListServerLabels, dc, id, NoPayload)];
      match AnswerAt(o.reply, |log|, FindServerIn(w.servers, dc, id).Some?)
      case Some(e) => Answer(log1, Err(Status(Unavailable, ApiFailed(e))))
      case None =>
        var listed := if MatchCount(LabelsOf(w.serverLabels, id), clusterValue, zoneValue) == 3
                      then found[Transcoder.EncodeProviderID(dc, id) := servers[0].properties.name] else found;
        Collect(o, w, log1, dc, clusterValue, zoneValue, servers[1..], listed)
  }

  /** A ListMachines request issued after the calls `log`. */
  function ListRun(o: Oracle, w: World, log: seq<Call>, machineClass: Option<MachineClass>): Answer<map<string, string>>
  {
    match ProviderSpecOf(machineClass)
    case Err(c) => Answer(log, Err(Status(InvalidArgument, BadClass(c))))
    case Ok(spec) =>
      var dc := spec.datacenterId;
      var log1 := log + [Call(ListServers, dc, "", NoPayload)];
      match AnswerAt(o.reply, |log|, true)
      case Some(e) => Answer(log1, Err(Status(Unavailable, ApiFailed(e))))
      case None => Collect(o, w, log1, dc, Hex(spec.cluster), Hex(spec.zone), ServersIn(w.servers, dc), map[])
  }

  method ListMachines(cloud: Cloud, machineClass: Option<MachineClass>, secret: Secret)
    returns (result: Result<map<string, string>, Status>)
    modifies cloud
    ensures var r := ListRun(OracleOf(cloud), old(cloud.world), old(cloud.log), machineClass);
            cloud.log == r.log && result == r.result && cloud.world == old(cloud.world)
  {
    var providerSpec := DecodeProviderSpecFromMachineClass(machineClass, secret);
    if providerSpec.Err? {
      return Err(Status(InvalidArgument, BadClass(providerSpec.error)));
    }
    var spec := providerSpec.value;
    var servers, e := cloud.GetServers(spec.datacenterId);
    if e.Some? {
      return Err(Status(Unavailable, ApiFailed(e.value)));
    }
    result := CollectMachines(cloud, spec, servers);
  }

  /** Lines 360-404: the loop over the listed servers. */
  method CollectMachines(cloud: Cloud, spec: ProviderSpec, servers: seq<Server>)
    returns (result: Result<map<string, string>, Status>)
    modifies cloud
    ensures var r := Collect(OracleOf(cloud), old(cloud.world), old(cloud.log), spec.datacenterId,
                             Hex(spec.cluster), Hex(spec.zone), servers, map[]);
            cloud.log == r.log && result == r.result && cloud.world == old(cloud.world)
  {
    var dc := spec.datacenterId;
    var clusterValue := Hex(spec.cluster);
    var listOfVMs := map[];
    var zoneValue := Hex(spec.zone);
    ghost var full := Collect(OracleOf(cloud), cloud.world, cloud.log, dc, clusterValue, zoneValue, servers, listOfVMs);
    assert servers[0..] == servers;
    var i := 0;
    while i < |servers|
      invariant 0 <= i <= |servers|
      invariant cloud.world == old(cloud.world)
      invariant Collect(OracleOf(cloud), cloud.world, cloud.log, dc, clusterValue, zoneValue, servers[i..], listOfVMs) == full
    {
      var server := servers[i];
      assert servers[i..][0] == server && servers[i..][1..] == servers[i + 1..];
      if Inactive != server.state {
        var labels, e := cloud.GetServerLabels(dc, server.id);
        if e.Some? {
          return Err(Status(Unavailable, ApiFailed(e.value)));
        }
        var labelMatches := CountLabelMatches(labels, clusterValue, zoneValue);
        if 3 == labelMatches {
          listOfVMs := listOfVMs[Transcoder.EncodeProviderID(dc, server.id) := server.properties.name];
        }
      }
      i := i + 1;
    }
    return Ok(listOfVMs);
  }

  // ---------------------------------------------------------------- not implemented

  /** GetVolumeIDs answers with an empty list and Unimplemented, whatever it is asked. */
  function GetVolumeIDs(pvSpecs: seq<string>): (r: (seq<string>, Status))
    ensures r.0 == [] && r.1.code == Unimplemented
  {
    ([], Status(Unimplemented, Refused("")))
  }

  /** GenerateMachineClassForMigration answers with an empty response and Unimplemented. */
  function GenerateMachineClassForMigration(classSpec: string): (r: (Option<MachineClass>, Status))
    ensures r.0.None? && r.1.code == Unimplemented
  {
    (None, Status(Unimplemented, Refused("")))
  }
}
