/** The provider specification validator of pkg/ionos/apis/validation/validation.go:
    seven required fields checked in a fixed order, one message per missing field,
    every violation collected. */
module Validation {
  import opened Apis

  datatype Field = DatacenterId | Cluster | Zone | Cores | Memory | ImageId | SshKey

  const FieldCount: nat := 7

  /** The field checked in position i. */
  function FieldAt(i: nat): (f: Field)
    requires i < FieldCount
    ensures Rank(f) == i
  {
    match i
    case 0 => DatacenterId
    case 1 => Cluster
    case 2 => Zone
    case 3 => Cores
    case 4 => Memory
    case 5 => ImageId
    case _ => SshKey
  }

  /** Position of a field in the check order. */
  function Rank(f: Field): nat
  {
    match f
    case DatacenterId => 0
    case Cluster => 1
    case Zone => 2
    case Cores => 3
    case Memory => 4
    case ImageId => 5
    case SshKey => 6
  }

  /** The name a message uses for a field (its JSON key). */
  function FieldName(f: Field): string
  {
    match f
    case DatacenterId => "datacenterID"
    case Cluster => "cluster"
    case Zone => "zone"
    case Cores => "cores"
    case Memory => "memory"
    case ImageId => "imageID"
    case SshKey => "sshKey"
  }

  function Message(f: Field): string
  {
    FieldName(f) + " is a required field"
  }

  /** A field counts as missing when it holds its zero value. */
  predicate IsMissing(spec: ProviderSpec, f: Field)
  {
    match f
    case DatacenterId => spec.datacenterId == ""
    case Cluster => spec.cluster == ""
    case Zone => spec.zone == ""
    case Cores => spec.cores == 0
    case Memory => spec.memory == 0
    case ImageId => spec.imageId == ""
    case SshKey => spec.sshKey == ""
  }

  /** The missing fields among the first k checked, in check order. */
  function MissingUpTo(spec: ProviderSpec, k: nat): seq<Field>
    requires k <= FieldCount
  {
    if k == 0 then []
    else MissingUpTo(spec, k - 1) + (if IsMissing(spec, FieldAt(k - 1)) then [FieldAt(k - 1)] else [])
  }

  function MissingFields(spec: ProviderSpec): seq<Field>
  {
    MissingUpTo(spec, FieldCount)
  }

  function Messages(fs: seq<Field>): (r: seq<string>)
    ensures |r| == |fs|
    ensures forall i :: 0 <= i < |fs| ==> r[i] == Message(fs[i])
  {
    seq(|fs|, i requires 0 <= i < |fs| => Message(fs[i]))
  }

  /** ValidateIonosProviderSpec. The secret is passed but never read. */
  method ValidateIonosProviderSpec(spec: ProviderSpec, secret: map<string, seq<int>>)
    returns (allErrs: seq<string>)
    ensures allErrs == Messages(MissingFields(spec))
  {
    allErrs := [];
    ghost var checked: nat := 0;
    CheckedOneMore(spec, checked, allErrs);
    if "" == spec.datacenterId {
      allErrs := allErrs + [Message(DatacenterId)];
    }
    checked := checked + 1;
    CheckedOneMore(spec, checked, allErrs);
    if "" == spec.cluster {
      allErrs := allErrs + [Message(Cluster)];
    }
    checked := checked + 1;
    CheckedOneMore(spec, checked, allErrs);
    if "" == spec.zone {
      allErrs := allErrs + [Message(Zone)];
    }
    checked := checked + 1;
    CheckedOneMore(spec, checked, allErrs);
    if spec.cores == 0 {
      allErrs := allErrs + [Message(Cores)];
    }
    checked := checked + 1;
    CheckedOneMore(spec, checked, allErrs);
    if spec.memory == 0 {
      allErrs := allErrs + [Message(Memory)];
    }
    checked := checked + 1;
    CheckedOneMore(spec, checked, allErrs);
    if "" == spec.imageId {
      allErrs := allErrs + [Message(ImageId)];
    }
    checked := checked + 1;
    CheckedOneMore(spec, checked, allErrs);
    if "" == spec.sshKey {
      allErrs := allErrs + [Message(SshKey)];
    }
    checked := checked + 1;
  }

  /** Checking the field in position k appends its message, when it is missing, to
      the messages of the fields before it. */
  lemma CheckedOneMore(spec: ProviderSpec, k: nat, errs: seq<string>)
    requires k < FieldCount
    requires errs == Messages(MissingUpTo(spec, k))
    ensures Messages(MissingUpTo(spec, k + 1))
      == errs + (if IsMissing(spec, FieldAt(k)) then [Message(FieldAt(k))] else [])
  {
    var front := MissingUpTo(spec, k);
    if IsMissing(spec, FieldAt(k)) {
      assert (front + [FieldAt(k)])[..|front|] == front;
    }
  }

  // ---------------------------------------------------------------- laws

  /** Every required field is set: datacenter, cluster, zone, image and ssh key
      non-empty, cores and memory non-zero. */
  predicate IsComplete(spec: ProviderSpec)
  {
    spec.datacenterId != "" && spec.cluster != "" && spec.zone != "" && spec.cores != 0
    && spec.memory != 0 && spec.imageId != "" && spec.sshKey != ""
  }

  /** A field is reported among the first k exactly when it is one of them and missing;
      the report holds at most k fields, in strictly increasing check order. */
  lemma {:induction false} MissingUpToMeaning(spec: ProviderSpec, k: nat)
    requires k <= FieldCount
    ensures forall f :: f in MissingUpTo(spec, k) <==> Rank(f) < k && IsMissing(spec, f)
    ensures |MissingUpTo(spec, k)| <= k
    ensures forall i, j :: 0 <= i < j < |MissingUpTo(spec, k)| ==>
      Rank(MissingUpTo(spec, k)[i]) < Rank(MissingUpTo(spec, k)[j])
  {
    if k > 0 {
      MissingUpToMeaning(spec, k - 1);
      forall f ensures f in MissingUpTo(spec, k) <==> Rank(f) < k && IsMissing(spec, f) {
        if Rank(f) == k - 1 { assert f == FieldAt(k - 1); }
      }
    }
  }

  /** The validator reports nothing exactly when the specification is complete. */
  lemma NoErrorsIffComplete(spec: ProviderSpec)
    ensures Messages(MissingFields(spec)) == [] <==> IsComplete(spec)
  {
    MissingUpToMeaning(spec, FieldCount);
    var ms := MissingFields(spec);
    if !IsComplete(spec) {
      var f :| IsMissing(spec, f);
      assert f in ms;
    }
    assert |ms| == 0 || ms[0] in ms;
  }

  /** One message per missing field: never more than seven, in the fixed field order,
      and a field's message appears exactly when that field is missing. */
  lemma OneMessagePerMissingField(spec: ProviderSpec)
    ensures |Messages(MissingFields(spec))| <= FieldCount
    ensures forall i, j :: 0 <= i < j < |MissingFields(spec)| ==>
      Rank(MissingFields(spec)[i]) < Rank(MissingFields(spec)[j])
    ensures forall f :: Message(f) in Messages(MissingFields(spec)) <==> IsMissing(spec, f)
  {
    MissingUpToMeaning(spec, FieldCount);
    var ms := MissingFields(spec);
    forall f ensures Message(f) in Messages(ms) <==> IsMissing(spec, f) {
      if Message(f) in Messages(ms) {
        var i :| 0 <= i < |ms| && Messages(ms)[i] == Message(f);
        MessageInjective(ms[i], f);
      }
      if IsMissing(spec, f) {
        var i :| 0 <= i < |ms| && ms[i] == f;
        assert Messages(ms)[i] == Message(f);
      }
    }
  }

  /** Distinct fields have distinct messages. */
  lemma MessageInjective(f: Field, g: Field)
    requires Message(f) == Message(g)
    ensures f == g
  {
    assert FieldName(f) == Message(f)[..|Message(f)| - 20];
    assert FieldName(g) == Message(g)[..|Message(g)| - 20];
  }

  /** With one field missing, the validator reports exactly that field. */
  lemma SingleMissingField(spec: ProviderSpec, f: Field)
    requires IsMissing(spec, f)
    requires forall g :: g != f ==> !IsMissing(spec, g)
    ensures Messages(MissingFields(spec)) == [Message(f)]
  {
    MissingUpToMeaning(spec, FieldCount);
    var ms := MissingFields(spec);
    assert f in ms;
    assert ms[0] in ms && ms[|ms| - 1] in ms;
    assert |ms| == 1;
  }

  /** With every field missing, all seven messages appear, in check order. */
  lemma AllFieldsMissing(spec: ProviderSpec)
    requires spec.datacenterId == "" && spec.cluster == "" && spec.zone == "" && spec.cores == 0
    requires spec.memory == 0 && spec.imageId == "" && spec.sshKey == ""
    ensures Messages(MissingFields(spec)) ==
      [ Message(DatacenterId), Message(Cluster), Message(Zone), Message(Cores), Message(Memory),
        Message(ImageId), Message(SshKey) ]
  {
    assert MissingUpTo(spec, 1) == [DatacenterId];
    assert MissingUpTo(spec, 2) == [DatacenterId, Cluster];
    assert MissingUpTo(spec, 3) == [DatacenterId, Cluster, Zone];
    assert MissingUpTo(spec, 4) == [DatacenterId, Cluster, Zone, Cores];
    assert MissingUpTo(spec, 5) == [DatacenterId, Cluster, Zone, Cores, Memory];
    assert MissingUpTo(spec, 6) == [DatacenterId, Cluster, Zone, Cores, Memory, ImageId];
    assert MissingUpTo(spec, 7) == [DatacenterId, Cluster, Zone, Cores, Memory, ImageId, SshKey];
  }

  /** The floating pool, the network and the volume size are never checked. */
  lemma OptionalFieldsUnchecked(spec: ProviderSpec, floatingPoolIpId: string, networkId: string, volumeSize: nat)
    ensures MissingFields(spec.(floatingPoolIpId := floatingPoolIpId, networkId := networkId, volumeSize := volumeSize))
            == MissingFields(spec)
  {
    var other := spec.(floatingPoolIpId := floatingPoolIpId, networkId := networkId, volumeSize := volumeSize);
    SameMissing(spec, other, FieldCount);
  }

  lemma {:induction false} SameMissing(a: ProviderSpec, b: ProviderSpec, k: nat)
    requires k <= FieldCount
    requires forall f :: IsMissing(a, f) == IsMissing(b, f)
    ensures MissingUpTo(a, k) == MissingUpTo(b, k)
  {
    if k > 0 {
      SameMissing(a, b, k - 1);
    }
  }
}
