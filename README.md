# IONOS machine-controller provider: a verified Dafny model

This project models the core of the IONOS Cloud provider for the Gardener machine
controller manager. It covers:

- the provider-ID codec (`ionos:///<datacenterID>/<serverID>`);
- the provider-spec validator;
- the bounded "wait until the resource is no longer BUSY" loops, both the provider's own
  (`pkg/ionos/apis/utils.go`) and the vendored ionos-api-wrapper ones;
- the floating-IP and LAN logic of the ensurer and of the vendored `lan.go`;
- the vendored per-user client registry;
- the sequencing of the four driver calls `CreateMachine`, `DeleteMachine`,
  `GetMachineStatus` and `ListMachines`, plus the two Unimplemented calls.

The IONOS Cloud API is the class `Cloud.Cloud`. It holds the world the API shows:

- volumes, servers, NICs and LANs;
- server and volume labels;
- the power state of each server;
- a log of every call made, in order.

A call does not decide whether it succeeds. An oracle does: `reply`, indexed by the
position of the call in the log, accepts the call with a fresh id or refuses it with an
HTTP status. A call addressed to a resource that does not exist gets a 404. Each wait
call reads its sequence of lookups from a second oracle, `settle`.

Each driver call is a `method` over the cloud. It is proved against a function of the
old world and the old log. That function returns the new log, the result and the new
world. The laws in `ControllerLaws` are stated about those functions:

- the exact order of the calls (the "plan");
- the status code of each failing step;
- that a failure makes no further call;
- what a request leaves in the world;
- how `CreateMachine`, `GetMachineStatus` and `ListMachines` fit together.

Modules, one per file:

| module | file | models |
|---|---|---|
| `Common` | common.dfy | Option/Result, `strconv.Atoi`, the `int32` conversion, `hex.EncodeToString`, standard Base64 |
| `Transcoder` | transcoder.dfy | pkg/ionos/apis/transcoder/provider_id.go, with the parts of `url.Parse` and `uuid.Parse` it observes |
| `Validation` | validation.dfy | pkg/ionos/apis/validation/validation.go |
| `Polling` | polling.dfy | the one polling loop every `WaitFor*AndGetResult` runs |
| `Apis` | apis.dfy | pkg/ionos/apis/utils.go and the shape of the provider spec |
| `IonosWrapper` | wrapper.dfy | vendored client.go, server.go, nic.go, volume.go, datacenter.go |
| `IpSelection` | ipselection.dfy | the "last free IP of the block" scan shared by networks.go and lan.go |
| `Cloud` | cloud.dfy | the IONOS Cloud API as seen by the controller |
| `Ensurer` | ensurer.dfy | pkg/ionos/ensurer/networks.go |
| `IonosLan` | lan.dfy | vendored lan.go |
| `Controller` | controller.dfy | pkg/ionos/machine_controller.go and `DecodeProviderSpecFromMachineClass` |
| `ControllerLaws` | controller_laws.dfy | laws relating the driver calls |

Where the repository's own description and its code disagree, the model follows the code:

- `CreateMachine` never rolls back. A failing step returns at once and leaves behind
  everything already created. `ControllerLaws.ProvisionKeepsVolume` states this for the
  boot volume.
- During a wait a 404 does not end the loop. It counts as a try and polling goes on, so
  a resource that stays 404 ends in the retries-exceeded error
  (`Polling.NotFoundKeepsPolling`).
- The validator checks seven fields only. The network ids, the floating pool and the
  volume size are never checked (`Validation.OptionalFieldsUnchecked`). The repository's
  tests expect a `networkIDs.wan` message that the code never produces.
- `ListMachines` counts matching labels per occurrence, not per distinct key.
- The controller reads a single optional `FloatingPoolIPID` and a single optional
  `NetworkID`. The spec record here has exactly those fields.
- `uuid.Parse` accepts any 38 characters whose middle 36 form a canonical UUID. So a
  component can end in `/`, `?` or `#` and still count as a UUID, and such a provider
  ID does not decode back to its components (`Transcoder.SlashEndedUuidBreaksRoundTrip`).
  The round trip therefore holds for UUIDs free of those characters.
- A provider ID with an authority and no path, such as `ionos://host`, makes the decoder
  panic on `Path[1:]`. `DeleteMachine` and `GetMachineStatus` then crash instead of
  answering InvalidArgument (`ControllerLaws.HostOnlyIdCrashes`). The model gives that
  outcome the code `Crashed`.

## Model

| member | source | states |
|---|---|---|
| Common.Atoi | vendor/github.com/23technologies/ionos-api-wrapper/pkg/lan.go:50-53 | a parsed LAN id is within the 64-bit `int` range, and only text led by a digit or a sign parses |
| Common.Int32 | vendor/github.com/23technologies/ionos-api-wrapper/pkg/lan.go:55 | the `int32(...)` conversion lands in the int32 range, agrees with its argument modulo 2^32 and keeps every value already in range |
| Common.HexBytes | pkg/ionos/machine_controller.go:106 | `hex.EncodeToString` gives two lower-case hex digits per byte |
| Common.HexBytesInjective | pkg/ionos/machine_controller.go:106 | different byte strings give different hex label values |
| Common.Base64 | pkg/ionos/machine_controller.go:81 | the padded standard encoding of n bytes has 4·⌈n/3⌉ characters |
| Transcoder.DecodeUrl | pkg/ionos/apis/transcoder/provider_id.go:43-65 | a parsed URL decodes only with scheme `ionos`, a path `/<dc>/<id>` whose first piece has no `/`, and two UUIDs; an unsupported scheme is reported exactly when the scheme is not `ionos` |
| Transcoder.DecodeServerDataFromProviderID | pkg/ionos/apis/transcoder/provider_id.go:39-68 | the "malformed" error comes exactly when `url.Parse` fails; otherwise the result is the decoding of the parsed URL |
| Transcoder.DecodeDatacenterIDFromProviderID | pkg/ionos/apis/transcoder/provider_id.go:74-81 | succeeds iff the full decode succeeds, returns its datacenter id, and otherwise passes on its error |
| Transcoder.DecodeServerIDFromProviderID | pkg/ionos/apis/transcoder/provider_id.go:87-94 | succeeds iff the full decode succeeds, returns its server id, and otherwise passes on its error |
| Transcoder.EncodeProviderID | pkg/ionos/apis/transcoder/provider_id.go:100-102 | the ID is `ionos:///`, the datacenter id, `/` and the server id, each at a fixed position |
| Transcoder.ParseEncoded | pkg/ionos/apis/transcoder/provider_id.go:100-102 | `url.Parse` reads an encoded provider ID as scheme `ionos`, an empty host and the path `/<dc>/<id>` |
| Transcoder.DecodeEncodedPath | pkg/ionos/apis/transcoder/provider_id.go:47-65 | the path is split at its first `/`; a non-UUID first piece is an invalid datacenter, then a non-UUID rest an invalid server, otherwise both pieces come back unchanged |
| Transcoder.RoundTrip | pkg/ionos/apis/transcoder/provider_id.go:39-68 | decoding `EncodeProviderID(d, s)` gives back exactly d and s, for UUIDs d and s without `/`, `?`, `#` or control characters |
| Transcoder.SlashEndedUuidBreaksRoundTrip | pkg/ionos/apis/transcoder/provider_id.go:47-55 | a 38-character UUID ending in `/` is accepted by the UUID check, yet its encoded ID is refused as an invalid datacenter id |
| Transcoder.EncodeInjective | pkg/ionos/apis/transcoder/provider_id.go:100-102 | two pairs of such UUIDs with the same provider ID are the same pair |
| Transcoder.RejectsOtherScheme | pkg/ionos/apis/transcoder/provider_id.go:43-44 | any scheme other than `ionos` (e.g. `invalid:///test`) gives the unsupported-scheme error |
| Transcoder.RejectsEmpty | pkg/ionos/apis/transcoder/provider_id.go:43-44 | the empty provider ID has no scheme and is rejected as unsupported |
| Transcoder.RejectsSingleSegment | pkg/ionos/apis/transcoder/provider_id.go:47-50 | `ionos:///<segment>` without a second piece is an invalid URL |
| Transcoder.RejectsBadDatacenter | pkg/ionos/apis/transcoder/provider_id.go:52-55 | a first piece that is not a UUID is reported as an invalid datacenter id |
| Transcoder.RejectsBadServer | pkg/ionos/apis/transcoder/provider_id.go:57-60 | a valid datacenter followed by a non-UUID rest is reported as an invalid server id |
| Transcoder.EmptyPathPanics | pkg/ionos/apis/transcoder/provider_id.go:47 | `ionos://host` has an empty path, on which `Path[1:]` panics; the model reports that outcome |
| Validation.Messages | pkg/ionos/apis/validation/validation.go:35-55 | one message per field, in order, each `<name> is a required field` |
| Validation.ValidateIonosProviderSpec | pkg/ionos/apis/validation/validation.go:32-60 | the seven conditional appends give the messages of the missing fields in field order, whatever the secret |
| Validation.CheckedOneMore | pkg/ionos/apis/validation/validation.go:35-55 | checking one more field appends its message exactly when that field is missing |
| Validation.MissingUpToMeaning | pkg/ionos/apis/validation/validation.go:35-55 | the first k checks report exactly the missing fields among the first k, in strictly increasing field order |
| Validation.NoErrorsIffComplete | pkg/ionos/apis/validation/validation.go:35-59 | the list is empty iff datacenter, cluster, zone, image and SSH key are non-empty and cores and memory non-zero |
| Validation.OneMessagePerMissingField | pkg/ionos/apis/validation/validation.go:35-55 | at most seven messages, in field order, and a field's message is present iff that field is missing |
| Validation.MessageInjective | pkg/ionos/apis/validation/validation.go:36-54 | different fields have different messages |
| Validation.SingleMissingField | pkg/ionos/apis/validation/validation.go:35-55 | a spec missing exactly one field gets exactly that field's message |
| Validation.AllFieldsMissing | pkg/ionos/apis/validation/validation.go:35-55 | an empty spec gets all seven messages in the order datacenterID, cluster, zone, cores, memory, imageID, sshKey |
| Validation.OptionalFieldsUnchecked | pkg/ionos/apis/validation/validation.go:32-60 | floating pool, network id and volume size never affect the result |
| Validation.SameMissing | pkg/ionos/apis/validation/validation.go:35-55 | two specs missing the same fields get the same report |
| Apis.GetRegionFromZone | pkg/ionos/apis/utils.go:86-89 | the region is the prefix of the zone up to its first `-`, or the whole zone when it has none |
| Apis.RegionOfDeFra | pkg/ionos/apis/utils.go:86-89 | the zone `de-fra` is in region `de` |
| Apis.RegionIgnoresSuffix | pkg/ionos/apis/utils.go:86-89 | whatever follows the first `-` does not change the region |
| Apis.WaitForNicModificationsAndGetResult | pkg/ionos/apis/utils.go:112-141 | the outcome is the loop's specified outcome with 20 retries, after at most 21 lookups and one sleep fewer than lookups |
| Apis.WaitForNicModifications | pkg/ionos/apis/utils.go:99-102 | returns exactly the error of the AndGetResult variant |
| Apis.WaitForServerModificationsAndGetResult | pkg/ionos/apis/utils.go:162-191 | the outcome is the loop's specified outcome with 20 retries, after at most 21 lookups and one sleep fewer than lookups |
| Apis.WaitForServerModifications | pkg/ionos/apis/utils.go:150-153 | returns exactly the error of the AndGetResult variant |
| Apis.WaitForVolumeModificationsAndGetResult | pkg/ionos/apis/utils.go:212-241 | the outcome is the loop's specified outcome with 20 retries, after at most 21 lookups and one sleep fewer than lookups |
| Apis.WaitForVolumeModifications | pkg/ionos/apis/utils.go:200-203 | returns exactly the error of the AndGetResult variant |
| Polling.FirstEnd | pkg/ionos/apis/utils.go:117-138 | the index of the first lookup that ends the loop, i.e. a counted error or a counted settled resource, no earlier lookup ending it |
| Polling.Poll | pkg/ionos/apis/utils.go:112-141 | the `for repeat` loop returns the resource, the error and the number of lookups the specification gives, sleeping only between lookups |
| Polling.ExpectedMeans | pkg/ionos/apis/utils.go:117-140 | at most retries+1 lookups; success returns a settled, error-free, non-404 lookup; a lookup error is the last lookup's; running out happens only after retries+1 lookups; no earlier lookup ended the loop |
| Polling.FirstSettledIsReturned | pkg/ionos/apis/utils.go:120-126 | when lookup k is the first non-404 one that is no longer BUSY, its resource comes back with no error after k+1 lookups |
| Polling.ErrorStopsAtOnce | pkg/ionos/apis/utils.go:120-123 | a non-404 lookup error ends the loop at once with that error and the last non-404 resource seen |
| Polling.ExhaustedIff | pkg/ionos/apis/utils.go:129-134 | the retries-exceeded error comes iff none of the retries+1 lookups ended the loop, and it comes with the last non-404 resource seen |
| Polling.NothingSeen | pkg/ionos/apis/utils.go:132-133 | with only 404s seen, the returned resource is the zero value |
| Polling.NotFoundKeepsPolling | pkg/ionos/apis/utils.go:120-134 | a resource that always answers 404 exhausts the retries and returns the zero value |
| IonosWrapper.ClientFor | vendor/github.com/23technologies/ionos-api-wrapper/pkg/client.go:32-41 | the cached client of a known user, otherwise a new client built from the user and password |
| IonosWrapper.ClientRegistry.constructor | vendor/github.com/23technologies/ionos-api-wrapper/pkg/client.go:24 | the registry starts empty |
| IonosWrapper.ClientRegistry.GetClientForUser | vendor/github.com/23technologies/ionos-api-wrapper/pkg/client.go:32-41 | returns the cached client or a new one, and does not store the new one |
| IonosWrapper.ClientRegistry.SetClientForUser | vendor/github.com/23technologies/ionos-api-wrapper/pkg/client.go:48-54 | nil removes the user's entry, any other client stores or replaces it |
| IonosWrapper.GetAfterSet | vendor/github.com/23technologies/ionos-api-wrapper/pkg/client.go:51-52 | a get after a set for the same user returns the client set |
| IonosWrapper.GetAfterDelete | vendor/github.com/23technologies/ionos-api-wrapper/pkg/client.go:49-50 | a get after a delete builds a fresh client from the credentials |
| IonosWrapper.SetIsLocal | vendor/github.com/23technologies/ionos-api-wrapper/pkg/client.go:48-54 | setting or deleting one user's entry changes what no other user gets |
| IonosWrapper.PasswordIgnoredWhenCached | vendor/github.com/23technologies/ionos-api-wrapper/pkg/client.go:30-35 | for a cached user the password makes no difference |
| IonosWrapper.WaitForServerModificationsAndGetResult | vendor/github.com/23technologies/ionos-api-wrapper/pkg/server.go:71-100 | the loop's specified outcome with the given retry bound, at most retries+1 lookups; the response must be present |
| IonosWrapper.WaitForServerModifications | vendor/github.com/23technologies/ionos-api-wrapper/pkg/server.go:59-62 | returns exactly the error of the AndGetResult variant |
| IonosWrapper.WaitForNicModificationsAndGetResult | vendor/github.com/23technologies/ionos-api-wrapper/pkg/nic.go:49-78 | the loop's specified outcome with the given retry bound, at most retries+1 lookups; the response must be present |
| IonosWrapper.WaitForNicModifications | vendor/github.com/23technologies/ionos-api-wrapper/pkg/nic.go:36-39 | returns exactly the error of the AndGetResult variant |
| IonosWrapper.WaitForVolumeModificationsAndGetResult | vendor/github.com/23technologies/ionos-api-wrapper/pkg/volume.go:71-100 | the loop's specified outcome, with a missing response treated as non-404, for any lookups |
| IonosWrapper.WaitForVolumeModifications | vendor/github.com/23technologies/ionos-api-wrapper/pkg/volume.go:59-62 | returns exactly the error of the AndGetResult variant |
| IonosWrapper.WaitForDatacenterModificationsAndGetResult | vendor/github.com/23technologies/ionos-api-wrapper/pkg/datacenter.go:45-74 | the loop's specified outcome, with a missing response treated as non-404, for any lookups |
| IonosWrapper.WaitForDatacenterModifications | vendor/github.com/23technologies/ionos-api-wrapper/pkg/datacenter.go:34-37 | returns exactly the error of the AndGetResult variant |
| IonosWrapper.NilResponseErrorStops | vendor/github.com/23technologies/ionos-api-wrapper/pkg/volume.go:79-82 | an error that arrives with no HTTP response ends the guarded loop after the first lookup |
| IpSelection.LastFreeIndex | pkg/ionos/ensurer/networks.go:39-53 | the index of the last IP that no consumer holds, or -1 when every IP is held |
| IpSelection.ChooseFloatingIp | pkg/ionos/ensurer/networks.go:37-53 | the nested loops leave `floatingPoolIP` at the last IP no consumer holds, or empty |
| IpSelection.ChosenIsLastFree | pkg/ionos/ensurer/networks.go:39-53 | a chosen IP is in the block, is held by no consumer, and every later IP is held |
| IpSelection.AppendIp | pkg/ionos/ensurer/networks.go:39-53 | one more IP at the end is chosen iff it is free; otherwise the choice stays |
| Cloud.Cloud.FindImageById | pkg/ionos/machine_controller.go:73-78 | the image lookup records its call and answers with the image, or 404 for an unknown one, unless the oracle refuses |
| Cloud.Cloud.FindIpBlockById | pkg/ionos/ensurer/networks.go:32-35 | the IP-block lookup records its call and answers with the block, or 404 |
| Cloud.Cloud.PostVolume | pkg/ionos/machine_controller.go:100-104 | an accepted volume creation appends the volume with the oracle's id; a refused one changes nothing |
| Cloud.Cloud.WaitForVolume | pkg/ionos/machine_controller.go:109-112 | the volume wait records one call and returns the loop's outcome on the oracle's lookups |
| Cloud.Cloud.AddLabelToVolume | pkg/ionos/apis/utils.go:67-80 | an accepted label is appended to the volume's labels; a missing volume gets 404 |
| Cloud.Cloud.PostLan | pkg/ionos/ensurer/networks.go:67-71 | an accepted LAN creation appends the LAN with the oracle's id |
| Cloud.Cloud.GetLans | pkg/ionos/ensurer/networks.go:80-83 | lists the datacenter's LANs in order |
| Cloud.Cloud.RemoveLan | pkg/ionos/ensurer/networks.go:87-90 | an accepted deletion removes the LAN; a missing LAN gets 404 |
| Cloud.Cloud.PostServer | pkg/ionos/machine_controller.go:144-148 | an accepted server creation appends the server, booting from and holding its volume |
| Cloud.Cloud.WaitForServer | pkg/ionos/apis/utils.go:150-153 | the server wait records one call and returns the loop's error on the oracle's lookups |
| Cloud.Cloud.WaitForServerAndGetResult | pkg/ionos/apis/utils.go:162-191 | the server wait records one call and returns the loop's resource and error |
| Cloud.Cloud.PowerServer | pkg/ionos/machine_controller.go:157-160 | an accepted stop or start sets the server's power state; a missing server gets 404 |
| Cloud.Cloud.AddLabelToServer | pkg/ionos/apis/utils.go:43-56 | an accepted label is appended to the server's labels; a missing server gets 404 |
| Cloud.Cloud.PostNic | pkg/ionos/ensurer/networks.go:109-113 | an accepted NIC creation appends the NIC with the given properties; a missing server gets 404 |
| Cloud.Cloud.WaitForNic | pkg/ionos/apis/utils.go:99-102 | the NIC wait with the controller's retry bound |
| Cloud.Cloud.WaitForNicVendored | vendor/github.com/23technologies/ionos-api-wrapper/pkg/nic.go:36-39 | the NIC wait with the wrapper's retry bound |
| Cloud.Cloud.FindServerById | pkg/ionos/machine_controller.go:323-328 | answers with the datacenter's server of that id, or 404 |
| Cloud.Cloud.GetServers | pkg/ionos/machine_controller.go:355-358 | lists the datacenter's servers in order |
| Cloud.Cloud.GetServerLabels | pkg/ionos/machine_controller.go:369-372 | answers with the server's labels, or 404 |
| Cloud.Cloud.RemoveVolume | pkg/ionos/machine_controller.go:281-286 | an accepted deletion removes the volume and its labels; a missing volume gets 404 |
| Cloud.Cloud.RemoveServer | pkg/ionos/machine_controller.go:288-291 | an accepted deletion removes the server, its labels and its power state |
| Cloud.LansIn | pkg/ionos/ensurer/networks.go:80 | exactly the LANs of the datacenter |
| Cloud.ServersIn | pkg/ionos/machine_controller.go:355 | exactly the servers of the datacenter |
| Cloud.FindServerIn | pkg/ionos/machine_controller.go:267 | a found server has the datacenter and id asked for; none found means no such server exists |
| Cloud.WithoutLans | pkg/ionos/ensurer/networks.go:87 | a LAN is kept iff it is not one of the deleted ids of the datacenter |
| Ensurer.EnsureFloatingPoolIPBlockLANIsCreated | pkg/ionos/ensurer/networks.go:30-77 | log, returned id, error and the LANs created are those of the specified creation |
| Ensurer.NoPoolNoCall | pkg/ionos/ensurer/networks.go:31-76 | an empty pool id makes no call and returns `("", nil)` |
| Ensurer.ErrorMeansNoLan | pkg/ionos/ensurer/networks.go:32-73 | every error comes with the empty id and no LAN; success with a pool returns the id of the one LAN created in the datacenter; at most two calls |
| Ensurer.FullBlockIsExhausted | pkg/ionos/ensurer/networks.go:55-57 | a block with every IP held is reported exhausted after the one lookup, and no LAN is requested |
| Ensurer.RequestedLanUsesLastFreeIp | pkg/ionos/ensurer/networks.go:59-68 | the requested LAN is public, named `lanName`, and fails over to the one last free IP of the block |
| Ensurer.NamedLanIds | pkg/ionos/ensurer/networks.go:85-92 | the ids of exactly the listed LANs with the given name |
| Ensurer.EnsureFloatingPoolIPBlockLANIsDeleted | pkg/ionos/ensurer/networks.go:79-95 | log, error and remaining LANs are those of the specified cleanup |
| Ensurer.DeleteNamedLans | pkg/ionos/ensurer/networks.go:85-92 | the deletion loop over the listed LANs does what the specified deletions do |
| Ensurer.DeleteIfNamed | pkg/ionos/ensurer/networks.go:86-90 | one turn deletes the LAN only when it carries the name, and an error ends the run |
| Ensurer.DeletesOnlyNamedLans | pkg/ionos/ensurer/networks.go:85-94 | one delete per id, in order, all of them unless one fails, and the failure is the API's error |
| Ensurer.CompleteRunRemovesExactly | pkg/ionos/ensurer/networks.go:85-94 | a run without error removes exactly the LANs with those ids, and keeps every other LAN |
| Ensurer.CleanupDeletesNamedLans | pkg/ionos/ensurer/networks.go:79-95 | the cleanup lists, then deletes exactly the LANs of that name in list order, stopping at the first failure; a full run leaves no such LAN |
| Ensurer.EnsureLANIsAttachedToServer | pkg/ionos/ensurer/networks.go:97-121 | log, error and NICs added are those of the specified attachment |
| Ensurer.SameAsVendoredAttach | pkg/ionos/ensurer/networks.go:97-121 | the ensurer's attachment equals the vendored `AttachLANToServer` with the controller's retry bound |
| IonosLan.NicPropertiesFor | vendor/github.com/23technologies/ionos-api-wrapper/pkg/lan.go:57-72 | the NIC carries its LAN; the IP list is set iff an IP is configured; DHCP is set, to false, iff it is disabled; the firewall is set, to true, iff it is enabled |
| IonosLan.PropertiesKeepConfiguration | vendor/github.com/23technologies/ionos-api-wrapper/pkg/lan.go:61-72 | leaving defaults unset loses nothing: the NIC's effective DHCP, firewall and IP are the configured ones |
| IonosLan.PropertiesInjective | vendor/github.com/23technologies/ionos-api-wrapper/pkg/lan.go:61-72 | different configurations give different NIC properties |
| IonosLan.AttachConfiguredNic | vendor/github.com/23technologies/ionos-api-wrapper/pkg/lan.go:49-86 | log, error and NICs added are those of the specified attachment |
| IonosLan.AttachLANToServer | vendor/github.com/23technologies/ionos-api-wrapper/pkg/lan.go:96-103 | the attachment with no IP, DHCP on and firewall off |
| IonosLan.AttachLANToServerWithIP | vendor/github.com/23technologies/ionos-api-wrapper/pkg/lan.go:114-122 | the attachment with the given IP, DHCP on and firewall off |
| IonosLan.AttachLANToServerWithoutDHCP | vendor/github.com/23technologies/ionos-api-wrapper/pkg/lan.go:132-139 | the attachment with no IP, DHCP off and firewall off |
| IonosLan.AttachWANToServer | vendor/github.com/23technologies/ionos-api-wrapper/pkg/lan.go:149-156 | the attachment with no IP, DHCP on and firewall on |
| IonosLan.AttachWANToServerWithIP | vendor/github.com/23technologies/ionos-api-wrapper/pkg/lan.go:167-175 | the attachment with the given IP, DHCP on and firewall on |
| IonosLan.AttachWANAndFloatingIPToServer | vendor/github.com/23technologies/ionos-api-wrapper/pkg/lan.go:186-221 | log, error and NICs added are those of the specified floating attachment |
| IonosLan.NonNumericLanIdMakesNoCall | vendor/github.com/23technologies/ionos-api-wrapper/pkg/lan.go:50-53 | a LAN id that is not a decimal number fails before any call |
| IonosLan.AttachShape | vendor/github.com/23technologies/ionos-api-wrapper/pkg/lan.go:55-85 | one NIC creation with the int32 LAN id; a refused creation is the error; an accepted one adds that NIC and is followed by its wait, whose error is the result |
| IonosLan.FullPoolCreatesNoNic | vendor/github.com/23technologies/ionos-api-wrapper/pkg/lan.go:210-212 | with every pool IP held, the result is the exhausted error after the one lookup, and no NIC |
| IonosLan.FloatingNicUsesLastFreeIp | vendor/github.com/23technologies/ionos-api-wrapper/pkg/lan.go:194-220 | a created floating NIC carries the last free IP of the pool, with DHCP and the firewall on |
| Controller.ProviderSpecOf | pkg/ionos/apis/transcoder/machine_class_json.go:36-57 | a spec is produced iff the class is present, its JSON decodes and the validator reports nothing; it is the decoded spec |
| Controller.DecodeProviderSpecFromMachineClass | pkg/ionos/apis/transcoder/machine_class_json.go:36-57 | the decoder returns exactly that spec or error |
| Controller.VolumeSize | pkg/ionos/machine_controller.go:85-89 | the image size when no size is asked for; otherwise never below the image size, covers the requested bytes in MiB, and is the smallest such count when above the image size |
| Controller.CreateMachine | pkg/ionos/machine_controller.go:45-222 | log, result and new world are those of the specified creation, whose call order is CreateFollows and whose success answer is CreateAnswers |
| Controller.Provision | pkg/ionos/machine_controller.go:80-128 | the boot volume and the floating-pool LAN, then the server part, as specified |
| Controller.Configure | pkg/ionos/machine_controller.go:130-221 | the server, its labels, its NICs and its start, as specified |
| Controller.CreateBootVolume | pkg/ionos/machine_controller.go:100-117 | create, wait and cluster label of the boot volume as specified; the id is the one the cloud gave |
| Controller.CreateStoppedServer | pkg/ionos/machine_controller.go:144-165 | create, wait, stop and wait of the server as specified; the id is the one the cloud gave |
| Controller.AddServerLabels | pkg/ionos/machine_controller.go:167-185 | the four labels, each with its own call, as specified |
| Controller.AttachLan | pkg/ionos/machine_controller.go:187-199 | one optional NIC attachment as specified |
| Controller.StartAndWait | pkg/ionos/machine_controller.go:201-214 | wait, start and wait as specified; the server returned is the one the last wait settled on |
| Controller.Undecodable | pkg/ionos/machine_controller.go:240-243 | a provider ID that does not decode is InvalidArgument, except the empty-path one, on which the decoder panics |
| Controller.DeleteMachine | pkg/ionos/machine_controller.go:229-294 | log, error and new world are those of the specified deletion |
| Controller.Teardown | pkg/ionos/machine_controller.go:262-293 | wait, fetch, floating-pool LANs, volumes and server, as specified |
| Controller.RemoveVolumes | pkg/ionos/machine_controller.go:281-286 | the loop over the server's volumes does what the specified deletions do |
| Controller.GetMachineStatus | pkg/ionos/machine_controller.go:301-331 | log and result are those of the specified status request, and the world is unchanged; its answers are StatusCalls and StatusOfAnyId |
| Controller.MatchCount | pkg/ionos/machine_controller.go:374-397 | no more matches than labels |
| Controller.CountLabelMatches | pkg/ionos/machine_controller.go:374-397 | the inner loop counts every label occurrence equal to one of the three expected labels |
| Controller.ListMachines | pkg/ionos/machine_controller.go:338-405 | log and result are those of the specified listing, and the world is unchanged; its answers are ListAnswers |
| Controller.CollectMachines | pkg/ionos/machine_controller.go:364-402 | the loop over the listed servers fills the map as specified |
| Controller.GetVolumeIDs | pkg/ionos/machine_controller.go:412-418 | always an empty list and Unimplemented |
| Controller.GenerateMachineClassForMigration | pkg/ionos/machine_controller.go:425-431 | always an empty response and Unimplemented |
| ControllerLaws.Chain | pkg/ionos/machine_controller.go:100-214 | a step that ends without error hands on to the next; a failing step ends the request with its error and no further call |
| ControllerLaws.LabelPlan | pkg/ionos/machine_controller.go:167-185 | one label call per label, keyed as the label |
| ControllerLaws.ClusterLabelFollows | pkg/ionos/machine_controller.go:114-117 | the volume's cluster label is one call, failing with Internal |
| ControllerLaws.VolumeStepsFollow | pkg/ionos/machine_controller.go:100-117 | create volume, wait, cluster label, in that order, stopping at the first failure, each failing with Internal |
| ControllerLaws.VolumeStepsWorld | pkg/ionos/machine_controller.go:100-117 | nothing is removed, and an accepted volume creation leaves the volume in the world even if later steps fail |
| ControllerLaws.LanCreationFollows | pkg/ionos/machine_controller.go:121-128 | the floating LAN makes its two calls only when a pool is configured, fails with Internal, and yields an id iff a pool is configured |
| ControllerLaws.StopStepsFollow | pkg/ionos/machine_controller.go:157-165 | stop, then wait; a refused stop is Aborted |
| ControllerLaws.ServerStepsFollow | pkg/ionos/machine_controller.go:144-165 | create server, wait, stop, wait in that order; a refused creation is Unavailable, a refused stop Aborted |
| ControllerLaws.ServerStepsWorld | pkg/ionos/machine_controller.go:144-165 | nothing is removed; on success the world gains exactly the new server, powered off |
| ControllerLaws.LabelStepsFollow | pkg/ionos/machine_controller.go:167-185 | the label calls in the order of the labels, stopping at the first failure |
| ControllerLaws.LabelStepsAppend | pkg/ionos/machine_controller.go:167-185 | labelling changes only labels, and on success appends the labels, in order, to the server's own |
| ControllerLaws.AttachmentFollows | pkg/ionos/ensurer/networks.go:97-121 | an attachment makes the NIC creation and then its wait, or no call at all, and its failure maps to Internal |
| ControllerLaws.NicStepsFollow | pkg/ionos/machine_controller.go:187-199 | an empty LAN id makes no call; otherwise NIC creation and its wait |
| ControllerLaws.StartStepsFollow | pkg/ionos/machine_controller.go:201-214 | wait, start, wait; a refused start is Aborted |
| ControllerLaws.StartStepsWorld | pkg/ionos/machine_controller.go:201-214 | only the power state changes, and it is on once the start was accepted, even if the last wait fails |
| ControllerLaws.NetworkTail | pkg/ionos/machine_controller.go:194-214 | from the network NIC on, the calls follow their plan |
| ControllerLaws.FloatingTail | pkg/ionos/machine_controller.go:187-214 | from the floating-pool NIC on, the calls follow their plan |
| ControllerLaws.LabelTail | pkg/ionos/machine_controller.go:167-214 | from the server labels on, the calls follow their plan |
| ControllerLaws.ConfigureFollows | pkg/ionos/machine_controller.go:144-221 | from the server creation on, the calls follow their plan and each failure carries its step's code |
| ControllerLaws.ProvisionFollows | pkg/ionos/machine_controller.go:100-221 | from the boot volume on, the calls follow their plan |
| ControllerLaws.StartAnswers | pkg/ionos/machine_controller.go:211-219 | after a successful start the last call is the wait on the server, and the answer is the provider ID of the data center and the waited server's id, with that server's name |
| ControllerLaws.ConfigureAnswers | pkg/ionos/machine_controller.go:144-219 | from the server creation on, a success ends with a wait on a server of the data center and answers with that server's provider ID and name |
| ControllerLaws.CreateAnswers | pkg/ionos/machine_controller.go:216-221 | CreateMachine succeeds only after its checks pass, ends with a wait on a server of the class's data center, and answers with EncodeProviderID of that data center and the waited server's id, and the server's name |
| ControllerLaws.CreateFollows | pkg/ionos/machine_controller.go:56-221 | a request failing its checks makes no call and changes nothing; otherwise image lookup, volume, optional LAN, server, labels, NICs and start, in that order, stopping at the first failure with that step's code |
| ControllerLaws.NicStepsAdd | pkg/ionos/machine_controller.go:187-199 | attaching a NIC only adds NICs |
| ControllerLaws.NetworkWorldTail | pkg/ionos/machine_controller.go:194-214 | the network NIC and the start remove nothing and leave the server powered on when they succeed |
| ControllerLaws.FloatingWorldTail | pkg/ionos/machine_controller.go:187-214 | the two NICs and the start remove nothing and leave the server powered on when they succeed |
| ControllerLaws.LabelWorldTail | pkg/ionos/machine_controller.go:167-214 | from the labels on nothing is removed and no server added; on success the four labels are appended and the server is on |
| ControllerLaws.ConfigureOutcome | pkg/ionos/machine_controller.go:144-221 | a successful configuration leaves the new server in the world with its four labels, powered on, and removes nothing |
| ControllerLaws.ProvisionKeepsVolume | pkg/ionos/machine_controller.go:100-214 | once the boot volume is accepted it stays, however the creation ends: no rollback |
| ControllerLaws.DeleteVolumesRemoves | pkg/ionos/machine_controller.go:281-286 | the volume loop removes exactly the server's volumes when every call succeeds, nothing else in any case, and fails with Unavailable |
| ControllerLaws.TeardownRemoves | pkg/ionos/machine_controller.go:262-293 | a successful teardown removes the server, exactly its volumes and, with a pool, exactly the LANs named after the machine |
| ControllerLaws.DeleteMissingSucceeds | pkg/ionos/machine_controller.go:252-260 | a server the cloud does not know gets a 404 on stop, and the deletion succeeds after that one call, changing nothing |
| ControllerLaws.DeleteRemoves | pkg/ionos/machine_controller.go:240-294 | a successful deletion leaves no server with the machine's id and none of its volumes, and adds nothing |
| ControllerLaws.DeleteVolumesFollow | pkg/ionos/machine_controller.go:281-286 | one volume deletion per volume, in list order, stopping at the first failure, which is Unavailable |
| ControllerLaws.CleanupFollows | pkg/ionos/ensurer/networks.go:79-95 | the LAN cleanup lists, then deletes each LAN of that name, and any failure is Unavailable |
| ControllerLaws.PurgeFollows | pkg/ionos/machine_controller.go:281-291 | the volumes are deleted in order, then the server, each failure Unavailable |
| ControllerLaws.RemovalFollows | pkg/ionos/machine_controller.go:272-291 | floating-pool LANs (only with a pool), volumes, server, in that order, stopping at the first failure |
| ControllerLaws.TeardownFollows | pkg/ionos/machine_controller.go:262-293 | wait, fetch, LANs, volumes, server, in that order; a wait failure is Internal, any other failure Unavailable |
| ControllerLaws.DeleteFollows | pkg/ionos/machine_controller.go:229-294 | a bad provider ID or class ends the request before any call; a 404 on the stop is success after that call; otherwise stop and teardown in order, each failure carrying its step's code |
| ControllerLaws.StatusCalls | pkg/ionos/machine_controller.go:312-319 | an empty provider ID is NotFound, a malformed one InvalidArgument and the empty-path one a crash, all without a call; otherwise the one server lookup |
| ControllerLaws.HostOnlyIdCrashes | pkg/ionos/machine_controller.go:240 | `ionos://host` crashes DeleteMachine and GetMachineStatus before any call |
| ControllerLaws.StatusOfAnyId | pkg/ionos/machine_controller.go:321-330 | for any set ID that decodes: the one lookup of the decoded server; success iff the lookup was accepted and found a server that is not INACTIVE, echoing the ID and giving the server's name; every failure NotFound, a refused lookup's with its own error |
| ControllerLaws.StatusOfServer | pkg/ionos/machine_controller.go:316-330 | for an ID made of two UUIDs without special characters the status succeeds iff the server exists and is not INACTIVE, echoing the ID and the server's name; otherwise NotFound |
| ControllerLaws.CreatedLabelsMatch | pkg/ionos/machine_controller.go:374-399 | the labels CreateMachine adds are exactly three matches for ListMachines |
| ControllerLaws.CollectListsMatching | pkg/ionos/machine_controller.go:364-402 | without an error, the map gains exactly the provider IDs of the non-INACTIVE servers with three matching labels |
| ControllerLaws.CollectValues | pkg/ionos/machine_controller.go:364-402 | the walk fails only with Unavailable, and each key it adds maps to the name of a listed, non-INACTIVE, three-label server with that provider ID |
| ControllerLaws.ListAnswers | pkg/ionos/machine_controller.go:338-405 | InvalidArgument iff the class does not decode, every other failure Unavailable; a listing's keys are exactly the provider IDs of the data center's non-INACTIVE servers with three matching labels, each mapped to such a server's name |
| ControllerLaws.ListFindsCreated | pkg/ionos/machine_controller.go:338-405 | a non-INACTIVE server labelled as CreateMachine labels it is among the machines a successful listing reports |

## Left out

- HTTP and the IONOS SDK request builders are not modelled. The cloud is an abstract state plus an oracle that answers each call with success (and a fresh id), an error status, or a 404 when the addressed resource is missing.
- `time.Sleep` and the 15-second interval are not modelled; sleeps are only counted. `ctx` is never checked for cancellation, so none is modelled. `klog` logging is left out.
- `url.Parse` is modelled only as far as the decoder can observe it: control characters, fragment, query, scheme, opaque URLs and the authority. Percent-decoding and host validation are not modelled.
- `uuid.Parse` is a predicate over the four forms it accepts: canonical, `urn:uuid:`, 32 bare hex digits, and 38 characters whose first and last are not checked. The parsed value is not modelled, since the decoder discards it. `uuid.Parse` itself is not part of this model; the predicate follows the published google/uuid library.
- Common.Base64: only the length of the encoding is stated, not that it decodes back.
- Go's formatted error strings are replaced by structured causes. The gRPC status codes and the fixed messages of the controller are exact.
- JSON decoding of the machine class is abstracted: a class carries either a decoded spec or the decoder's error text.
- Controller.VolumeSize: float32 arithmetic is modelled with naturals and ceiling division; float rounding of large sizes is not captured.
- The registry's map is used without synchronisation in the source. Concurrency is not modelled; the registry is sequential.
- `GetClientForUser`'s credentials are parameters, and the client itself is opaque.
- The vendored `defaultOperationRetries` is declared in a file that is not part of this model, so the vendored waits take the retry bound as a parameter.
- Apis.WaitForNicModificationsAndGetResult: requires every lookup to carry an HTTP status. A lookup without a response makes utils.go:120 read `httpResponse.StatusCode` through nil and panic; that crash is not modelled.
- Apis.WaitForNicModifications: requires every lookup to carry an HTTP status. A lookup without a response makes utils.go:120 read `httpResponse.StatusCode` through nil and panic; that crash is not modelled.
- Apis.WaitForServerModificationsAndGetResult: requires every lookup to carry an HTTP status. A lookup without a response makes utils.go:170 read `httpResponse.StatusCode` through nil and panic; that crash is not modelled.
- Apis.WaitForServerModifications: requires every lookup to carry an HTTP status. A lookup without a response makes utils.go:170 read `httpResponse.StatusCode` through nil and panic; that crash is not modelled.
- Apis.WaitForVolumeModificationsAndGetResult: requires every lookup to carry an HTTP status. A lookup without a response makes utils.go:220 read `httpResponse.StatusCode` through nil and panic; that crash is not modelled.
- Apis.WaitForVolumeModifications: requires every lookup to carry an HTTP status. A lookup without a response makes utils.go:220 read `httpResponse.StatusCode` through nil and panic; that crash is not modelled.
- IonosWrapper.WaitForServerModificationsAndGetResult: requires every lookup to carry an HTTP status. A lookup without a response makes the vendored server.go:79 read `httpResponse.StatusCode` through nil and panic; that crash is not modelled.
- IonosWrapper.WaitForServerModifications: requires every lookup to carry an HTTP status. A lookup without a response makes the vendored server.go:79 read `httpResponse.StatusCode` through nil and panic; that crash is not modelled.
- IonosWrapper.WaitForNicModificationsAndGetResult: requires every lookup to carry an HTTP status. A lookup without a response makes the vendored nic.go:57 read `httpResponse.StatusCode` through nil and panic; that crash is not modelled.
- IonosWrapper.WaitForNicModifications: requires every lookup to carry an HTTP status. A lookup without a response makes the vendored nic.go:57 read `httpResponse.StatusCode` through nil and panic; that crash is not modelled.
- Cloud.Cloud.Responsive: the cloud's waits assume the same, so a nil-response panic during a driver call is not modelled either.
- Controller.DeleteMachine: a failed stop reads `httpResponse.StatusCode` without a nil check. The model assumes every refused call carries a status, so that panic is not modelled.
- The lookups a wait sees come from the oracle, not from the world. The model does not relate a resource's BUSY/AVAILABLE state during a wait to the calls before it.
- ControllerLaws.CreateFollows: a failure with code Internal is not tied to the call that failed. The laws are composed step by step, and one step, the attach of a LAN whose id is not a number, fails with Internal before it makes any call; that such a failure always comes after a call whose own code is Internal (a label or a NIC wait) is not proved. Every other code is tied to the last call made.
- ControllerLaws.ConfigureFollows: the same weakening for Internal as in CreateFollows.
- ControllerLaws.ProvisionFollows: the same weakening for Internal as in CreateFollows.
- `AddLabelToServer`/`AddLabelToVolume` (apis/utils.go and the vendored copies) are single calls. They are the cloud methods of the same name.
- The mock servers and the test files are not modelled.
