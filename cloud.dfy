/** The IONOS Cloud as the controller and the ensurer see it through the SDK: the
    resources of every datacenter, a log of the calls made, and two oracles that
    stand for the remote side. `reply(i)` answers the i-th call of the log (success
    with the id of a created resource, or an error with its HTTP status), and
    `settle(i)` is the sequence of lookup replies a wait issued as the i-th call
    sees. A call addressed to a resource that does not exist fails with a 404. */
module Cloud {
  import opened Common
  import opened Polling
  import Apis
  import IonosWrapper

  /** Ids handed out by the cloud are never empty. */
  type Id = s: string | s != "" witness "0"

  datatype ApiError = ApiError(status: int, message: string)

  const NotFoundError: ApiError := ApiError(404, "404 Not Found")

  datatype Reply = Accept(id: Id) | Reject(status: int, message: string)

  datatype Label = Label(key: string, value: string)
  datatype Image = Image(size: nat, cloudInit: Option<string>)

  /** An IP block: its IPs and the IPs its consumers hold. */
  datatype IpBlock = IpBlock(ips: seq<string>, consumers: seq<string>)

  datatype VolumeProperties = VolumeProperties(
    volumeType: string, name: string, size: nat, image: string, sshKeys: seq<string>, userData: string)
  datatype ServerProperties = ServerProperties(name: string, cores: int, ram: int)

  /** A NIC's optional properties; None stands for a property the request leaves unset. */
  datatype NicProperties = NicProperties(lan: int, ips: Option<seq<string>>, dhcp: Option<bool>, firewallActive: Option<bool>)
  datatype LanProperties = LanProperties(name: string, public: bool, ipFailover: seq<string>)

  datatype Volume = Volume(dc: string, id: string, properties: VolumeProperties)
  datatype Server = Server(dc: string, id: string, properties: ServerProperties, bootVolume: string, volumes: seq<string>, state: string)
  datatype Nic = Nic(dc: string, serverId: string, id: string, properties: NicProperties)
  datatype Lan = Lan(dc: string, id: string, properties: LanProperties)

  /** Metadata state of a server the cloud has just created. */
  const Available: string := "AVAILABLE"
  const Inactive: string := "INACTIVE"

  datatype World = World(
    volumes: seq<Volume>,
    volumeLabels: map<string, seq<Label>>,
    servers: seq<Server>,
    serverLabels: map<string, seq<Label>>,
    powered: map<string, bool>,
    nics: seq<Nic>,
    lans: seq<Lan>)

  /** The operations the SDK offers, as far as the core uses them. */
  datatype Op =
    | FindImage | CreateVolume | WaitVolume | LabelVolume(key: string)
    | FindIpBlock | CreateLan | ListLans | DeleteLan
    | CreateServer | WaitServer | StopServer | StartServer | LabelServer(key: string)
    | CreateNic | WaitNic | FindServer | ListServers | ListServerLabels
    | DeleteVolume | DeleteServer

  datatype Payload =
    | NoPayload
    | VolumePayload(volume: VolumeProperties)
    | ServerPayload(server: ServerProperties)
    | NicPayload(nic: NicProperties)
    | LanPayload(lan: LanProperties)
    | LabelPayload(value: string)

  /** One logged call: the operation, the datacenter it addresses ("" for the
      datacenter-free image and IP-block lookups), the resource it addresses or
      refers to, and what it sends. */
  datatype Call = Call(op: Op, dc: string, target: string, payload: Payload)

  /** The operations of the calls `cs`, in order. */
  function Ops(cs: seq<Call>): (r: seq<Op>)
    ensures |r| == |cs|
  {
    if cs == [] then [] else [cs[0].op] + Ops(cs[1..])
  }

  lemma {:induction false} OpsAppend(cs: seq<Call>, ds: seq<Call>)
    ensures Ops(cs + ds) == Ops(cs) + Ops(ds)
  {
    if cs == [] {
      assert cs + ds == ds;
    } else {
      assert (cs + ds)[1..] == cs[1..] + ds;
      OpsAppend(cs[1..], ds);
    }
  }

  /** Why an ensurer or LAN helper gave up. */
  datatype Failure =
    | Api(error: ApiError)
    | Wait(wait: WaitError)
    | NotANumber(text: string)           // strconv.Atoi refused a LAN id
    | ExhaustedBlock(block: IpBlock)     // networks.go formats the whole IP block
    | ExhaustedPool(poolId: string)      // lan.go formats the pool id

  function FailureMessage(f: Failure): string
  {
    match f
    case Api(e) => e.message
    case Wait(LookupFailed(m)) => m
    case Wait(RetriesExceeded(k)) => RetriesMessage(k)
    case NotANumber(t) => "strconv.Atoi: parsing \"" + t + "\": invalid syntax"
    case ExhaustedBlock(_) => "Floating Pool IP Block given is exhausted"
    case ExhaustedPool(id) => "Floating Pool IP Block '" + id + "' given is exhausted"
  }

  /** The LANs of one datacenter, in list order. */
  function LansIn(lans: seq<Lan>, dc: string): (r: seq<Lan>)
    ensures forall l :: l in r <==> l in lans && l.dc == dc
  {
    if lans == [] then [] else (if lans[0].dc == dc then [lans[0]] else []) + LansIn(lans[1..], dc)
  }

  /** The servers of one datacenter, in list order. */
  function ServersIn(servers: seq<Server>, dc: string): (r: seq<Server>)
    ensures forall s :: s in r <==> s in servers && s.dc == dc
  {
    if servers == [] then [] else (if servers[0].dc == dc then [servers[0]] else []) + ServersIn(servers[1..], dc)
  }

  function FindServerIn(servers: seq<Server>, dc: string, id: string): (r: Option<Server>)
    ensures r.Some? ==> r.value in servers && r.value.dc == dc && r.value.id == id
    ensures r.None? ==> forall s :: s in servers ==> !(s.dc == dc && s.id == id)
  {
    if servers == [] then None
    else if servers[0].dc == dc && servers[0].id == id then Some(servers[0])
    else FindServerIn(servers[1..], dc, id)
  }

  /** The answer to call number i: the oracle's error, a 404 when the addressed
      resource is missing, otherwise success. */
  function AnswerAt(reply: nat -> Reply, i: nat, found: bool): (e: Option<ApiError>)
    ensures reply(i).Reject? ==> e == Some(ApiError(reply(i).status, reply(i).message))
    ensures reply(i).Accept? ==> (e.None? <==> found) && (e.Some? ==> e.value == NotFoundError)
  {
    match reply(i)
    case Reject(status, message) => Some(ApiError(status, message))
    case Accept(_) => if found then None else Some(NotFoundError)
  }

  /** The id created by call number i when it succeeds. */
  function IdAt(reply: nat -> Reply, i: nat): Id
  {
    match reply(i)
    case Accept(id) => id
    case Reject(_, _) => "0"
  }

  function WithoutVolumes(volumes: seq<Volume>, dc: string, ids: set<string>): (r: seq<Volume>)
    ensures forall v :: v in r <==> v in volumes && !(v.dc == dc && v.id in ids)
  {
    if volumes == [] then []
    else (if volumes[0].dc == dc && volumes[0].id in ids then [] else [volumes[0]]) + WithoutVolumes(volumes[1..], dc, ids)
  }

  function WithoutServers(servers: seq<Server>, dc: string, ids: set<string>): (r: seq<Server>)
    ensures forall s :: s in r <==> s in servers && !(s.dc == dc && s.id in ids)
  {
    if servers == [] then []
    else (if servers[0].dc == dc && servers[0].id in ids then [] else [servers[0]]) + WithoutServers(servers[1..], dc, ids)
  }

  function WithoutLans(lans: seq<Lan>, dc: string, ids: set<string>): (r: seq<Lan>)
    ensures forall l :: l in r <==> l in lans && !(l.dc == dc && l.id in ids)
  {
    if lans == [] then []
    else (if lans[0].dc == dc && lans[0].id in ids then [] else [lans[0]]) + WithoutLans(lans[1..], dc, ids)
  }

  /** Removing two sets of LANs one after the other removes their union. */
  lemma {:induction false} WithoutLansTwice(lans: seq<Lan>, dc: string, a: set<string>, b: set<string>)
    ensures WithoutLans(WithoutLans(lans, dc, a), dc, b) == WithoutLans(lans, dc, a + b)
  {
    if lans != [] {
      WithoutLansTwice(lans[1..], dc, a, b);
      var head := if lans[0].dc == dc && lans[0].id in a then [] else [lans[0]];
      WithoutLansConcat(head, WithoutLans(lans[1..], dc, a), dc, b);
    }
  }

  lemma {:induction false} WithoutLansConcat(xs: seq<Lan>, ys: seq<Lan>, dc: string, ids: set<string>)
    ensures WithoutLans(xs + ys, dc, ids) == WithoutLans(xs, dc, ids) + WithoutLans(ys, dc, ids)
  {
    if xs != [] {
      assert (xs + ys)[1..] == xs[1..] + ys;
      WithoutLansConcat(xs[1..], ys, dc, ids);
    } else {
      assert xs + ys == ys;
    }
  }

  predicate HasVolume(w: World, dc: string, id: string)
  {
    exists v :: v in w.volumes && v.dc == dc && v.id == id
  }

  predicate HasLan(lans: seq<Lan>, dc: string, id: string)
  {
    exists l :: l in lans && l.dc == dc && l.id == id
  }

  function LabelsOf(labels: map<string, seq<Label>>, id: string): seq<Label>
  {
    if id in labels then labels[id] else []
  }

  class Cloud {
    const images: map<string, Image>
    const ipBlocks: map<string, IpBlock>
    const reply: nat -> Reply
    const settle: nat -> (nat -> Lookup)
    var world: World
    var log: seq<Call>

    constructor (images: map<string, Image>, ipBlocks: map<string, IpBlock>,
                 reply: nat -> Reply, settle: nat -> (nat -> Lookup), world: World)
      ensures this.images == images && this.ipBlocks == ipBlocks
      ensures this.reply == reply && this.settle == settle
      ensures this.world == world && log == []
    {
      this.images := images;
      this.ipBlocks := ipBlocks;
      this.reply := reply;
      this.settle := settle;
      this.world := world;
      log := [];
    }

    /** Every lookup of a wait gets an HTTP response: the waits of utils.go and the
        vendored NIC and server waits read its status unguarded. */
    ghost predicate Responsive()
    {
      forall i: nat, j: nat :: settle(i)(j).status.Some?
    }

    method Record(c: Call)
      modifies this
      ensures log == old(log) + [c] && world == old(world)
    {
      log := log + [c];
    }

    method FindImageById(imageId: string) returns (image: Image, err: Option<ApiError>)
      modifies this
      ensures err == AnswerAt(reply, |old(log)|, imageId in images)
      ensures err.None? ==> imageId in images && image == images[imageId]
      ensures log == old(log) + [Call(FindImage, "", imageId, NoPayload)] && world == old(world)
    {
      err := AnswerAt(reply, |log|, imageId in images);
      image := if err.None? then images[imageId] else Image(0, None);
      Record(Call(FindImage, "", imageId, NoPayload));
    }

    method FindIpBlockById(blockId: string) returns (block: IpBlock, err: Option<ApiError>)
      modifies this
      ensures err == AnswerAt(reply, |old(log)|, blockId in ipBlocks)
      ensures err.None? ==> blockId in ipBlocks && block == ipBlocks[blockId]
      ensures log == old(log) + [Call(FindIpBlock, "", blockId, NoPayload)] && world == old(world)
    {
      err := AnswerAt(reply, |log|, blockId in ipBlocks);
      block := if err.None? then ipBlocks[blockId] else IpBlock([], []);
      Record(Call(FindIpBlock, "", blockId, NoPayload));
    }

    method PostVolume(dc: string, properties: VolumeProperties) returns (id: string, err: Option<ApiError>)
      modifies this
      ensures err == AnswerAt(reply, |old(log)|, true) && id == IdAt(reply, |old(log)|)
      ensures world == if err.Some? then old(world)
                       else old(world).(volumes := old(world).volumes + [Volume(dc, id, properties)])
      ensures log == old(log) + [Call(CreateVolume, dc, "", VolumePayload(properties))]
    {
      err := AnswerAt(reply, |log|, true);
      id := IdAt(reply, |log|);
      if err.None? {
        world := world.(volumes := world.volumes + [Volume(dc, id, properties)]);
      }
      Record(Call(CreateVolume, dc, "", VolumePayload(properties)));
    }

    /** pkg/ionos/apis WaitForVolumeModificationsAndGetResult on volume `id`. */
    method WaitForVolume(dc: string, id: string) returns (volume: Resource, err: Option<WaitError>)
      requires Responsive()
      modifies this
      ensures volume == Expected(settle(|old(log)|), Apis.MachineOperationRetries, VolumeKind).resource
      ensures err == Expected(settle(|old(log)|), Apis.MachineOperationRetries, VolumeKind).err
      ensures log == old(log) + [Call(WaitVolume, dc, id, NoPayload)] && world == old(world)
    {
      var lookups, sleeps;
      volume, err, lookups, sleeps := Apis.WaitForVolumeModificationsAndGetResult(settle(|log|));
      Record(Call(WaitVolume, dc, id, NoPayload));
    }

    method AddLabelToVolume(dc: string, id: string, key: string, value: string) returns (err: Option<ApiError>)
      modifies this
      ensures err == AnswerAt(reply, |old(log)|, old(HasVolume(world, dc, id)))
      ensures world == if err.Some? then old(world)
                       else old(world).(volumeLabels := old(world).volumeLabels[id := LabelsOf(old(world).volumeLabels, id) + [Label(key, value)]])
      ensures log == old(log) + [Call(LabelVolume(key), dc, id, LabelPayload(value))]
    {
      err := AnswerAt(reply, |log|, HasVolume(world, dc, id));
      if err.None? {
        world := world.(volumeLabels := world.volumeLabels[id := LabelsOf(world.volumeLabels, id) + [Label(key, value)]]);
      }
      Record(Call(LabelVolume(key), dc, id, LabelPayload(value)));
    }

    method PostLan(dc: string, properties: LanProperties) returns (id: string, err: Option<ApiError>)
      modifies this
      ensures err == AnswerAt(reply, |old(log)|, true) && id == IdAt(reply, |old(log)|)
      ensures world == if err.Some? then old(world)
                       else old(world).(lans := old(world).lans + [Lan(dc, id, properties)])
      ensures log == old(log) + [Call(CreateLan, dc, "", LanPayload(properties))]
    {
      err := AnswerAt(reply, |log|, true);
      id := IdAt(reply, |log|);
      if err.None? {
        world := world.(lans := world.lans + [Lan(dc, id, properties)]);
      }
      Record(Call(CreateLan, dc, "", LanPayload(properties)));
    }

    method GetLans(dc: string) returns (items: seq<Lan>, err: Option<ApiError>)
      modifies this
      ensures err == AnswerAt(reply, |old(log)|, true)
      ensures err.None? ==> items == LansIn(world.lans, dc)
      ensures log == old(log) + [Call(ListLans, dc, "", NoPayload)] && world == old(world)
    {
      err := AnswerAt(reply, |log|, true);
      items := if err.None? then LansIn(world.lans, dc) else [];
      Record(Call(ListLans, dc, "", NoPayload));
    }

    method RemoveLan(dc: string, id: string) returns (err: Option<ApiError>)
      modifies this
      ensures err == AnswerAt(reply, |old(log)|, old(HasLan(world.lans, dc, id)))
      ensures world == if err.Some? then old(world)
                       else old(world).(lans := WithoutLans(old(world).lans, dc, {id}))
      ensures log == old(log) + [Call(DeleteLan, dc, id, NoPayload)]
    {
      err := AnswerAt(reply, |log|, HasLan(world.lans, dc, id));
      if err.None? {
        world := world.(lans := WithoutLans(world.lans, dc, {id}));
      }
      Record(Call(DeleteLan, dc, id, NoPayload));
    }

    /** Creates a server booting from, and holding, the volume `bootVolume`. */
    method PostServer(dc: string, properties: ServerProperties, bootVolume: string) returns (id: string, err: Option<ApiError>)
      modifies this
      ensures err == AnswerAt(reply, |old(log)|, true) && id == IdAt(reply, |old(log)|)
      ensures world == if err.Some? then old(world)
                       else old(world).(servers := old(world).servers + [Server(dc, id, properties, bootVolume, [bootVolume], Available)])
      ensures log == old(log) + [Call(CreateServer, dc, bootVolume, ServerPayload(properties))]
    {
      err := AnswerAt(reply, |log|, true);
      id := IdAt(reply, |log|);
      if err.None? {
        world := world.(servers := world.servers + [Server(dc, id, properties, bootVolume, [bootVolume], Available)]);
      }
      Record(Call(CreateServer, dc, bootVolume, ServerPayload(properties)));
    }

    /** pkg/ionos/apis WaitForServerModifications on server `id`. */
    method WaitForServer(dc: string, id: string) returns (err: Option<WaitError>)
      requires Responsive()
      modifies this
      ensures err == Expected(settle(|old(log)|), Apis.MachineOperationRetries, ServerKind).err
      ensures log == old(log) + [Call(WaitServer, dc, id, NoPayload)] && world == old(world)
    {
      err := Apis.WaitForServerModifications(settle(|log|));
      Record(Call(WaitServer, dc, id, NoPayload));
    }

    /** pkg/ionos/apis WaitForServerModificationsAndGetResult on server `id`. */
    method WaitForServerAndGetResult(dc: string, id: string) returns (server: Resource, err: Option<WaitError>)
      requires Responsive()
      modifies this
      ensures server == Expected(settle(|old(log)|), Apis.MachineOperationRetries, ServerKind).resource
      ensures err == Expected(settle(|old(log)|), Apis.MachineOperationRetries, ServerKind).err
      ensures log == old(log) + [Call(WaitServer, dc, id, NoPayload)] && world == old(world)
    {
      var lookups, sleeps;
      server, err, lookups, sleeps := Apis.WaitForServerModificationsAndGetResult(settle(|log|));
      Record(Call(WaitServer, dc, id, NoPayload));
    }

    method PowerServer(dc: string, id: string, on: bool) returns (err: Option<ApiError>)
      modifies this
      ensures err == AnswerAt(reply, |old(log)|, old(FindServerIn(world.servers, dc, id).Some?))
      ensures world == if err.Some? then old(world) else old(world).(powered := old(world).powered[id := on])
      ensures log == old(log) + [Call(if on then StartServer else StopServer, dc, id, NoPayload)]
    {
      err := AnswerAt(reply, |log|, FindServerIn(world.servers, dc, id).Some?);
      if err.None? {
        world := world.(powered := world.powered[id := on]);
      }
      Record(Call(if on then StartServer else StopServer, dc, id, NoPayload));
    }

    method AddLabelToServer(dc: string, id: string, key: string, value: string) returns (err: Option<ApiError>)
      modifies this
      ensures err == AnswerAt(reply, |old(log)|, old(FindServerIn(world.servers, dc, id).Some?))
      ensures world == if err.Some? then old(world)
                       else old(world).(serverLabels := old(world).serverLabels[id := LabelsOf(old(world).serverLabels, id) + [Label(key, value)]])
      ensures log == old(log) + [Call(LabelServer(key), dc, id, LabelPayload(value))]
    {
      err := AnswerAt(reply, |log|, FindServerIn(world.servers, dc, id).Some?);
      if err.None? {
        world := world.(serverLabels := world.serverLabels[id := LabelsOf(world.serverLabels, id) + [Label(key, value)]]);
      }
      Record(Call(LabelServer(key), dc, id, LabelPayload(value)));
    }

    method PostNic(dc: string, serverId: string, properties: NicProperties) returns (id: string, err: Option<ApiError>)
      modifies this
      ensures err == AnswerAt(reply, |old(log)|, old(FindServerIn(world.servers, dc, serverId).Some?)) && id == IdAt(reply, |old(log)|)
      ensures world == if err.Some? then old(world)
                       else old(world).(nics := old(world).nics + [Nic(dc, serverId, id, properties)])
      ensures log == old(log) + [Call(CreateNic, dc, serverId, NicPayload(properties))]
    {
      err := AnswerAt(reply, |log|, FindServerIn(world.servers, dc, serverId).Some?);
      id := IdAt(reply, |log|);
      if err.None? {
        world := world.(nics := world.nics + [Nic(dc, serverId, id, properties)]);
      }
      Record(Call(CreateNic, dc, serverId, NicPayload(properties)));
    }

    /** pkg/ionos/apis WaitForNicModifications on NIC `nicId`. */
    method WaitForNic(dc: string, nicId: string) returns (err: Option<WaitError>)
      requires Responsive()
      modifies this
      ensures err == Expected(settle(|old(log)|), Apis.MachineOperationRetries, NicKind).err
      ensures log == old(log) + [Call(WaitNic, dc, nicId, NoPayload)] && world == old(world)
    {
      err := Apis.WaitForNicModifications(settle(|log|));
      Record(Call(WaitNic, dc, nicId, NoPayload));
    }

    /** The vendored WaitForNicModifications, with the wrapper's retry bound. */
    method WaitForNicVendored(dc: string, nicId: string, retries: nat) returns (err: Option<WaitError>)
      requires Responsive()
      modifies this
      ensures err == Expected(settle(|old(log)|), retries, NicKind).err
      ensures log == old(log) + [Call(WaitNic, dc, nicId, NoPayload)] && world == old(world)
    {
      err := IonosWrapper.WaitForNicModifications(settle(|log|), retries);
      Record(Call(WaitNic, dc, nicId, NoPayload));
    }

    method FindServerById(dc: string, id: string) returns (server: Server, err: Option<ApiError>)
      modifies this
      ensures err == AnswerAt(reply, |old(log)|, old(FindServerIn(world.servers, dc, id).Some?))
      ensures err.None? ==> FindServerIn(world.servers, dc, id) == Some(server)
      ensures log == old(log) + [Call(FindServer, dc, id, NoPayload)] && world == old(world)
    {
      var found := FindServerIn(world.servers, dc, id);
      err := AnswerAt(reply, |log|, found.Some?);
      server := if found.Some? then found.value else Server(dc, id, ServerProperties("", 0, 0), "", [], "");
      Record(Call(FindServer, dc, id, NoPayload));
    }

    method GetServers(dc: string) returns (items: seq<Server>, err: Option<ApiError>)
      modifies this
      ensures err == AnswerAt(reply, |old(log)|, true)
      ensures err.None? ==> items == ServersIn(world.servers, dc)
      ensures log == old(log) + [Call(ListServers, dc, "", NoPayload)] && world == old(world)
    {
      err := AnswerAt(reply, |log|, true);
      items := if err.None? then ServersIn(world.servers, dc) else [];
      Record(Call(ListServers, dc, "", NoPayload));
    }

    method GetServerLabels(dc: string, id: string) returns (labels: seq<Label>, err: Option<ApiError>)
      modifies this
      ensures err == AnswerAt(reply, |old(log)|, old(FindServerIn(world.servers, dc, id).Some?))
      ensures err.None? ==> labels == LabelsOf(world.serverLabels, id)
      ensures log == old(log) + [Call(ListServerLabels, dc, id, NoPayload)] && world == old(world)
    {
      err := AnswerAt(reply, |log|, FindServerIn(world.servers, dc, id).Some?);
      labels := if err.None? then LabelsOf(world.serverLabels, id) else [];
      Record(Call(ListServerLabels, dc, id, NoPayload));
    }

    method RemoveVolume(dc: string, id: string) returns (err: Option<ApiError>)
      modifies this
      ensures err == AnswerAt(reply, |old(log)|, old(HasVolume(world, dc, id)))
      ensures world == if err.Some? then old(world)
                       else old(world).(volumes := WithoutVolumes(old(world).volumes, dc, {id}),
                                        volumeLabels := old(world).volumeLabels - {id})
      ensures log == old(log) + [Call(DeleteVolume, dc, id, NoPayload)]
    {
      err := AnswerAt(reply, |log|, HasVolume(world, dc, id));
      if err.None? {
        world := world.(volumes := WithoutVolumes(world.volumes, dc, {id}),
                        volumeLabels := world.volumeLabels - {id});
      }
      Record(Call(DeleteVolume, dc, id, NoPayload));
    }

    method RemoveServer(dc: string, id: string) returns (err: Option<ApiError>)
      modifies this
      ensures err == AnswerAt(reply, |old(log)|, old(FindServerIn(world.servers, dc, id).Some?))
      ensures world == if err.Some? then old(world)
                       else old(world).(servers := WithoutServers(old(world).servers, dc, {id}),
                                        serverLabels := old(world).serverLabels - {id},
                                        powered := old(world).powered - {id})
      ensures log == old(log) + [Call(DeleteServer, dc, id, NoPayload)]
    {
      err := AnswerAt(reply, |log|, FindServerIn(world.servers, dc, id).Some?);
      if err.None? {
        world := world.(servers := WithoutServers(world.servers, dc, {id}),
                        serverLabels := world.serverLabels - {id},
                        powered := world.powered - {id});
      }
      Record(Call(DeleteServer, dc, id, NoPayload));
    }
  }
}
