/** The settlement wait shared by pkg/ionos/apis/utils.go and the vendored
    ionos-api-wrapper (server.go, nic.go, volume.go, datacenter.go).

    Each copy repeatedly looks a resource up until a lookup that is not a 404
    reports a state other than "BUSY", returns a non-404 lookup error at once,
    and gives up once more than `retries` tries have been made. The sequence of
    lookup replies is an oracle `ls`: `ls(i)` is the reply to the i-th lookup. */
module Polling {
  import opened Common

  const Busy: string := "BUSY"

  /** The part of an SDK resource the waiters and their callers look at. */
  datatype Resource = Resource(id: string, name: string, state: string)

  /** Go's zero value of a resource struct, returned when nothing was kept. */
  const Zero: Resource := Resource("", "", "")

  /** One FindById call: the HTTP status (None for a nil response), the error
      (None when the call succeeded) and the decoded resource. */
  datatype Lookup = Lookup(status: Option<int>, error: Option<string>, resource: Resource)

  datatype Kind = NicKind | ServerKind | VolumeKind | DatacenterKind

  datatype WaitError =
    | LookupFailed(message: string)   // a non-404 lookup error, returned unchanged
    | RetriesExceeded(kind: Kind)     // "Maximum number of retries exceeded waiting for ..."

  /** The resource kept, the error returned and the number of lookups made. */
  datatype WaitOutcome = WaitOutcome(resource: Resource, err: Option<WaitError>, lookups: nat)

  function RetriesMessage(kind: Kind): string
  {
    "Maximum number of retries exceeded waiting for " +
    match kind
    case NicKind => "NIC modifications"
    case ServerKind => "server modifications"
    case VolumeKind => "volume modifications"
    case DatacenterKind => "datacenter modifications"
  }

  /** A lookup the loop takes into account: anything but a 404. */
  predicate Counts(l: Lookup) { l.status != Some(404) }

  /** A lookup after which the loop stops: a counted error, or a counted settled resource. */
  predicate Ends(l: Lookup) { Counts(l) && (l.error.Some? || l.resource.state != Busy) }

  /** The first of the lookups 0 .. n-1 that ends the wait, or n when none does. */
  function FirstEnd(ls: nat -> Lookup, n: nat): (k: nat)
    ensures k <= n
    ensures forall j: nat :: j < k ==> !Ends(ls(j))
    ensures k < n ==> Ends(ls(k))
  {
    if n == 0 then 0
    else
      var k := FirstEnd(ls, n - 1);
      if k < n - 1 then k else if Ends(ls(n - 1)) then n - 1 else n
  }

  /** The resource of the latest counted lookup among 0 .. n-1, or the zero value. */
  function LastSeen(ls: nat -> Lookup, n: nat): Resource
  {
    if n == 0 then Zero
    else if Counts(ls(n - 1)) then ls(n - 1).resource
    else LastSeen(ls, n - 1)
  }

  /** What a wait with `retries` retries returns, stated through the first lookup
      that ends it: a settled resource, a lookup error, or exhaustion after
      `retries + 1` lookups none of which ended it. ExpectedMeans states what that is. */
  function Expected(ls: nat -> Lookup, retries: nat, kind: Kind): (o: WaitOutcome)
    ensures 1 <= o.lookups <= retries + 1
  {
    var k := FirstEnd(ls, retries + 1);
    if k == retries + 1 then WaitOutcome(LastSeen(ls, retries + 1), Some(RetriesExceeded(kind)), retries + 1)
    else if ls(k).error.Some? then WaitOutcome(LastSeen(ls, k), Some(LookupFailed(ls(k).error.value)), k + 1)
    else WaitOutcome(ls(k).resource, None, k + 1)
  }

  /** The `for repeat` loop. `nilGuard` selects the vendored volume and datacenter
      variant, whose test `nil == httpResponse || 404 != ...` reads a nil response
      as a non-404 one; the other copies dereference the response unguarded. */
  method Poll(ls: nat -> Lookup, retries: nat, kind: Kind, nilGuard: bool)
    returns (resource: Resource, err: Option<WaitError>, lookups: nat, sleeps: nat)
    requires !nilGuard ==> forall i: nat :: ls(i).status.Some?
    ensures WaitOutcome(resource, err, lookups) == Expected(ls, retries, kind)
    ensures sleeps + 1 == lookups
  {
    resource := Zero;
    err := None;
    sleeps := 0;
    var repeat := true;
    var tryCount: nat := 0;
    while repeat
      invariant repeat ==> tryCount <= retries && sleeps == tryCount
      invariant repeat ==> resource == LastSeen(ls, tryCount)
      invariant repeat ==> forall j: nat :: j < tryCount ==> !Ends(ls(j))
      invariant !repeat ==>
        1 <= tryCount && sleeps + 1 == tryCount && Expected(ls, retries, kind) == WaitOutcome(resource, None, tryCount)
      invariant err.None?
      decreases if repeat then retries + 1 - tryCount else 0
    {
      var l := ls(tryCount);
      var counts := if nilGuard then l.status.None? || l.status.value != 404 else l.status.value != 404;
      if counts {
        if l.error.Some? {
          ErrorStopsAtOnce(ls, retries, kind, tryCount);
          err := Some(LookupFailed(l.error.value));
          lookups := tryCount + 1;
          return;
        }
        repeat := l.resource.state == Busy;
        resource := l.resource;
        if !repeat {
          FirstSettledIsReturned(ls, retries, kind, tryCount);
        }
      }
      tryCount := tryCount + 1;
      if repeat {
        if tryCount > retries {
          ExhaustedIff(ls, retries, kind);
          err := Some(RetriesExceeded(kind));
          lookups := tryCount;
          return;
        }
        sleeps := sleeps + 1;
      }
    }
    lookups := tryCount;
  }

  // ---------------------------------------------------------------- laws

  /** A wait returns without error only a counted, error-free lookup whose state is not
      "BUSY"; a lookup error only from a counted lookup that reported it; the retries
      error only after `retries + 1` lookups; and every lookup before the last one made
      left the resource busy or was a 404. */
  lemma ExpectedMeans(ls: nat -> Lookup, retries: nat, kind: Kind)
    ensures var o := Expected(ls, retries, kind);
            1 <= o.lookups <= retries + 1
            && (o.err.None? ==>
                  Counts(ls(o.lookups - 1)) && ls(o.lookups - 1).error.None? && o.resource.state != Busy
                  && o.resource == ls(o.lookups - 1).resource)
            && (o.err.Some? && o.err.value.LookupFailed? ==>
                  Counts(ls(o.lookups - 1)) && ls(o.lookups - 1).error == Some(o.err.value.message))
            && (o.err.Some? && o.err.value.RetriesExceeded? ==> o.lookups == retries + 1 && o.err.value.kind == kind)
            && (forall j: nat :: j < o.lookups - 1 ==> !Ends(ls(j)))
  {
    var k := FirstEnd(ls, retries + 1);
    if k < retries + 1 {
      assert Ends(ls(k));
    }
  }

  /** The first lookup that is neither a 404 nor an error and whose state is not
      "BUSY" ends the wait with that resource and no error. */
  lemma FirstSettledIsReturned(ls: nat -> Lookup, retries: nat, kind: Kind, k: nat)
    requires k <= retries
    requires forall j: nat :: j < k ==> !Ends(ls(j))
    requires Counts(ls(k)) && ls(k).error.None? && ls(k).resource.state != Busy
    ensures Expected(ls, retries, kind) == WaitOutcome(ls(k).resource, None, k + 1)
  {
    assert Ends(ls(k));
  }

  /** A non-404 lookup error ends the wait at once, returning the last resource seen before it. */
  lemma ErrorStopsAtOnce(ls: nat -> Lookup, retries: nat, kind: Kind, k: nat)
    requires k <= retries
    requires forall j: nat :: j < k ==> !Ends(ls(j))
    requires Counts(ls(k)) && ls(k).error.Some?
    ensures Expected(ls, retries, kind)
            == WaitOutcome(LastSeen(ls, k), Some(LookupFailed(ls(k).error.value)), k + 1)
  {
    assert Ends(ls(k));
  }

  /** The wait is exhausted exactly when none of the first `retries + 1` lookups ends it;
      it then returns the last non-404 resource seen. */
  lemma ExhaustedIff(ls: nat -> Lookup, retries: nat, kind: Kind)
    ensures Expected(ls, retries, kind).err == Some(RetriesExceeded(kind))
            <==> forall j: nat :: j <= retries ==> !Ends(ls(j))
    ensures Expected(ls, retries, kind).err == Some(RetriesExceeded(kind))
            ==> Expected(ls, retries, kind).resource == LastSeen(ls, retries + 1)
  {
    var k := FirstEnd(ls, retries + 1);
    if k < retries + 1 {
      assert Ends(ls(k));
    }
  }

  /** No counted lookup among the first n: nothing is kept, so the zero value is returned. */
  lemma {:induction false} NothingSeen(ls: nat -> Lookup, n: nat)
    requires forall j: nat :: j < n ==> !Counts(ls(j))
    ensures LastSeen(ls, n) == Zero
  {
    if n > 0 {
      NothingSeen(ls, n - 1);
    }
  }

  /** A 404 does not end the wait: a resource that stays 404 exhausts all
      `retries + 1` lookups and the zero value is returned with the retries error. */
  lemma NotFoundKeepsPolling(ls: nat -> Lookup, retries: nat, kind: Kind)
    requires forall j: nat :: ls(j).status == Some(404)
    ensures Expected(ls, retries, kind) == WaitOutcome(Zero, Some(RetriesExceeded(kind)), retries + 1)
  {
    NothingSeen(ls, retries + 1);
    ExhaustedIff(ls, retries, kind);
  }
}
