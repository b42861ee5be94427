/** The vendored ionos-api-wrapper: its per-user client registry (client.go) and the
    settlement waits of server.go, nic.go, volume.go and datacenter.go. The wrapper's
    retry bound `defaultOperationRetries` is declared outside the shown files, so
    every wait takes it as the parameter `retries`. */
module IonosWrapper {
  import opened Common
  import opened Polling

  /** An SDK client, identified by the configuration it was built from: user name,
      password and API token. */
  datatype Client = Client(user: string, password: string, token: string)

  /** NewAPIClient(NewConfiguration(user, password, "")). */
  function NewClient(user: string, password: string): Client
  {
    Client(user, password, "")
  }

  /** The client GetClientForUser hands out for a map of cached clients. */
  function ClientFor(singletons: map<string, Client>, user: string, password: string): (c: Client)
    ensures user in singletons ==> c == singletons[user]
    ensures user !in singletons ==> c == NewClient(user, password)
  {
    if user in singletons then singletons[user] else NewClient(user, password)
  }

  /** The package-level `singletons` map and the two functions over it. */
  class ClientRegistry {
    var singletons: map<string, Client>

    constructor ()
      ensures singletons == map[]
    {
      singletons := map[];
    }

    /** The cached client of `user`, or a fresh one that is not stored. */
    method GetClientForUser(user: string, password: string) returns (client: Client)
      ensures client == ClientFor(singletons, user, password)
    {
      if user in singletons {
        client := singletons[user];
      } else {
        client := NewClient(user, password);
      }
    }

    /** None (a nil client) removes the user's entry; a client stores or overwrites it. */
    method SetClientForUser(user: string, client: Option<Client>)
      modifies this
      ensures client.None? ==> singletons == old(singletons) - {user}
      ensures client.Some? ==> singletons == old(singletons)[user := client.value]
    {
      if client.None? {
        singletons := singletons - {user};
      } else {
        singletons := singletons[user := client.value];
      }
    }
  }

  // ---------------------------------------------------------------- registry laws

  /** After storing `c` for `user`, every get for `user` returns `c`, whatever the password. */
  lemma GetAfterSet(singletons: map<string, Client>, user: string, c: Client, password: string)
    ensures ClientFor(singletons[user := c], user, password) == c
  {
  }

  /** After removing `user`, a get builds a new client from the given credentials. */
  lemma GetAfterDelete(singletons: map<string, Client>, user: string, password: string)
    ensures ClientFor(singletons - {user}, user, password) == NewClient(user, password)
  {
  }

  /** Setting or removing one user's entry leaves every other user's get unchanged. */
  lemma SetIsLocal(singletons: map<string, Client>, user: string, other: string, c: Option<Client>, password: string)
    requires other != user
    ensures var after := if c.None? then singletons - {user} else singletons[user := c.value];
            ClientFor(after, other, password) == ClientFor(singletons, other, password)
  {
  }

  /** With a cached client the password argument makes no difference. */
  lemma PasswordIgnoredWhenCached(singletons: map<string, Client>, user: string, p1: string, p2: string)
    requires user in singletons
    ensures ClientFor(singletons, user, p1) == ClientFor(singletons, user, p2)
  {
  }

  // ---------------------------------------------------------------- vendored waits

  /** server.go: the response is dereferenced without a nil check, so every lookup
      must carry a status. */
  method WaitForServerModificationsAndGetResult(ls: nat -> Lookup, retries: nat)
    returns (server: Resource, err: Option<WaitError>, lookups: nat, sleeps: nat)
    requires forall i: nat :: ls(i).status.Some?
    ensures WaitOutcome(server, err, lookups) == Expected(ls, retries, ServerKind)
    ensures lookups <= retries + 1 && sleeps + 1 == lookups
  {
    server, err, lookups, sleeps := Poll(ls, retries, ServerKind, false);
  }

  method WaitForServerModifications(ls: nat -> Lookup, retries: nat) returns (err: Option<WaitError>)
    requires forall i: nat :: ls(i).status.Some?
    ensures err == Expected(ls, retries, ServerKind).err
  {
    var _, e, _, _ := WaitForServerModificationsAndGetResult(ls, retries);
    err := e;
  }

  /** nic.go: as server.go, no nil check. */
  method WaitForNicModificationsAndGetResult(ls: nat -> Lookup, retries: nat)
    returns (nic: Resource, err: Option<WaitError>, lookups: nat, sleeps: nat)
    requires forall i: nat :: ls(i).status.Some?
    ensures WaitOutcome(nic, err, lookups) == Expected(ls, retries, NicKind)
    ensures lookups <= retries + 1 && sleeps + 1 == lookups
  {
    nic, err, lookups, sleeps := Poll(ls, retries, NicKind, false);
  }

  method WaitForNicModifications(ls: nat -> Lookup, retries: nat) returns (err: Option<WaitError>)
    requires forall i: nat :: ls(i).status.Some?
    ensures err == Expected(ls, retries, NicKind).err
  {
    var _, e, _, _ := WaitForNicModificationsAndGetResult(ls, retries);
    err := e;
  }

  /** volume.go: a nil response is read as a non-404 one, so any lookup is accepted. */
  method WaitForVolumeModificationsAndGetResult(ls: nat -> Lookup, retries: nat)
    returns (volume: Resource, err: Option<WaitError>, lookups: nat, sleeps: nat)
    ensures WaitOutcome(volume, err, lookups) == Expected(ls, retries, VolumeKind)
    ensures lookups <= retries + 1 && sleeps + 1 == lookups
  {
    volume, err, lookups, sleeps := Poll(ls, retries, VolumeKind, true);
  }

  method WaitForVolumeModifications(ls: nat -> Lookup, retries: nat) returns (err: Option<WaitError>)
    ensures err == Expected(ls, retries, VolumeKind).err
  {
    var _, e, _, _ := WaitForVolumeModificationsAndGetResult(ls, retries);
    err := e;
  }

  /** datacenter.go: nil-guarded like volume.go. */
  method WaitForDatacenterModificationsAndGetResult(ls: nat -> Lookup, retries: nat)
    returns (datacenter: Resource, err: Option<WaitError>, lookups: nat, sleeps: nat)
    ensures WaitOutcome(datacenter, err, lookups) == Expected(ls, retries, DatacenterKind)
    ensures lookups <= retries + 1 && sleeps + 1 == lookups
  {
    datacenter, err, lookups, sleeps := Poll(ls, retries, DatacenterKind, true);
  }

  method WaitForDatacenterModifications(ls: nat -> Lookup, retries: nat) returns (err: Option<WaitError>)
    ensures err == Expected(ls, retries, DatacenterKind).err
  {
    var _, e, _, _ := WaitForDatacenterModificationsAndGetResult(ls, retries);
    err := e;
  }

  /** Under the nil guard a failed lookup without any response ends the wait at once
      with that lookup's error. */
  lemma NilResponseErrorStops(ls: nat -> Lookup, retries: nat, kind: Kind)
    requires ls(0).status.None? && ls(0).error.Some?
    ensures Expected(ls, retries, kind) == WaitOutcome(Zero, Some(LookupFailed(ls(0).error.value)), 1)
  {
    ErrorStopsAtOnce(ls, retries, kind, 0);
  }
}
