/**
 * The two pure pieces of instance creation: the block-device mapping sent with `run_instances`
 * and the `Name` tag each launched instance receives.
 */
module Instances {
  import opened Common
  import opened Strings

  const DefaultIops: int := 100
  const DefaultEbsVolumeSize: int := 8
  const DefaultEbsVolumeType: string := "gp2"
  const DefaultEbsVolumeName: string := "/dev/sda1"

  /**
   * `--ebs-delete` has no declared type: left alone it is the boolean default `True`, given on
   * the command line it is whatever text followed the flag.
   */
  datatype DeleteFlag = DefaultTrue | Given(text: string)

  /** Python's `bool(...)` of the flag: the default is true, a string is true unless empty. */
  predicate Truthy(flag: DeleteFlag)
  {
    match flag
    case DefaultTrue => true
    case Given(text) => text != []
  }

  /** The options `create_new_block_device_mapping` reads. */
  datatype VolumeOptions = VolumeOptions(
    ebsVolName: string,
    ebsVolSize: int,
    ebsVolType: string,
    ebsDeleteOnTerm: DeleteFlag,
    iops: int)

  /** The options as they are when no volume flag is given. */
  const DefaultVolumeOptions: VolumeOptions :=
    VolumeOptions(DefaultEbsVolumeName, DefaultEbsVolumeSize, DefaultEbsVolumeType, DefaultTrue, DefaultIops)

  /** The `Ebs` dictionary; `iops` is None when the key is absent. */
  datatype Ebs = Ebs(volumeSize: int, volumeType: string, deleteOnTermination: bool, iops: Option<int>)

  /** One entry of `BlockDeviceMappings`. */
  datatype BlockDeviceMapping = BlockDeviceMapping(deviceName: string, ebs: Ebs)

  /**
   * Builds the single mapping from the options, then adds `Iops` to it unless the volume type
   * is `gp2`, which does not take one.
   */
  method CreateNewBlockDeviceMapping(opts: VolumeOptions) returns (mappings: seq<BlockDeviceMapping>)
    ensures |mappings| == 1
    ensures mappings[0].deviceName == opts.ebsVolName
    ensures mappings[0].ebs.volumeSize == opts.ebsVolSize
    ensures mappings[0].ebs.volumeType == opts.ebsVolType
    ensures mappings[0].ebs.deleteOnTermination == Truthy(opts.ebsDeleteOnTerm)
    ensures mappings[0].ebs.iops.Some? <==> opts.ebsVolType != "gp2"
    ensures mappings[0].ebs.iops.Some? ==> mappings[0].ebs.iops.value == opts.iops
  {
    mappings := [BlockDeviceMapping(opts.ebsVolName,
      Ebs(opts.ebsVolSize, opts.ebsVolType, Truthy(opts.ebsDeleteOnTerm), None))];
    if opts.ebsVolType != "gp2" {
      var entry := mappings[0];
      mappings := mappings[0 := entry.(ebs := entry.ebs.(iops := Some(opts.iops)))];
    }
  }

  /** With every volume flag left at its default the mapping asks for no IOPS and deletes the volume. */
  method DefaultMapping() returns (mappings: seq<BlockDeviceMapping>)
    ensures mappings == [BlockDeviceMapping("/dev/sda1", Ebs(8, "gp2", true, None))]
  {
    mappings := CreateNewBlockDeviceMapping(DefaultVolumeOptions);
  }

  /**
   * Only the empty string turns deletion off: `--ebs-delete False` and `--ebs-delete 0` are
   * non-empty strings and so still delete the volume on termination.
   */
  lemma DeleteFlagIsText()
    ensures Truthy(Given("False")) && Truthy(Given("0"))
    ensures forall text :: !Truthy(Given(text)) <==> text == []
  {
  }

  /** `name_tag` from the options; None when the flag is not given. */
  predicate TagsRequested(nameTag: Option<string>)
  {
    nameTag.Some? && nameTag.value != []
  }

  /**
   * The `Name` tag of instance `i` out of `count`: the name alone for a single instance,
   * otherwise the name followed by `-` and the instance's position.
   */
  function TagValue(name: string, count: nat, i: nat): (v: string)
    ensures count == 1 ==> v == name
    ensures count != 1 ==> |v| > |name| + 1 && v[..|name|] == name && v[|name|] == '-'
  {
    if count == 1 then name else name + "-" + NatToString(i)
  }

  /** Two instances launched together never receive the same `Name` tag. */
  lemma TagValuesDistinct(name: string, count: nat, i: nat, j: nat)
    requires i < count && j < count && i != j
    ensures TagValue(name, count, i) != TagValue(name, count, j)
  {
    var vi, vj := TagValue(name, count, i), TagValue(name, count, j);
    assert vi[|name| + 1..] == NatToString(i);
    assert vj[|name| + 1..] == NatToString(j);
    NatToStringInjective(i, j);
  }

  /** One `create_tags` request: the instance id and the `Name` value it receives. */
  datatype NameTag = NameTag(instanceId: string, value: string)

  /**
   * Walks the launched instances with a running position and issues one tag request per
   * instance, but only when a non-empty name was given.
   */
  method NameTags(nameTag: Option<string>, instanceIds: seq<string>) returns (tags: seq<NameTag>)
    ensures !TagsRequested(nameTag) ==> tags == []
    ensures TagsRequested(nameTag) ==> |tags| == |instanceIds|
    ensures TagsRequested(nameTag) ==> forall i :: 0 <= i < |tags| ==>
      tags[i] == NameTag(instanceIds[i], TagValue(nameTag.value, |instanceIds|, i))
    ensures forall i, j :: 0 <= i < |tags| && 0 <= j < |tags| && i != j ==> tags[i].value != tags[j].value
  {
    tags := [];
    if TagsRequested(nameTag) {
      var i := 0;
      while i < |instanceIds|
        invariant 0 <= i <= |instanceIds|
        invariant |tags| == i
        invariant forall k :: 0 <= k < i ==> tags[k] == NameTag(instanceIds[k], TagValue(nameTag.value, |instanceIds|, k))
      {
        tags := tags + [NameTag(instanceIds[i], TagValue(nameTag.value, |instanceIds|, i))];
        i := i + 1;
      }
      forall i, j | 0 <= i < |tags| && 0 <= j < |tags| && i != j
        ensures tags[i].value != tags[j].value
      {
        TagValuesDistinct(nameTag.value, |instanceIds|, i, j);
      }
    }
  }
}
