/**
 * The `aws_instance` block builder: one EC2 instance record becomes one
 * resource block with its required lines, tags map, extra EBS volumes, IAM
 * profile, security groups, the tags map a second time, and the mapped
 * attributes.
 */
module Instance {
  import opened Wrappers
  import opened Text
  import opened Literal
  import opened Hcl
  import opened AttributeMapping

  datatype Tag = Tag(key: string, value: string)

  /** The `Ebs` entry of a block-device mapping; every key is optional. */
  datatype Ebs = Ebs(
    volumeType: Option<string>,
    volumeSize: Option<int>,
    deleteOnTermination: Option<bool>,
    iops: Option<int>,
    encrypted: Option<bool>,
    kmsKeyId: Option<string>)

  datatype BlockDeviceMapping = BlockDeviceMapping(deviceName: string, ebs: Option<Ebs>)

  /**
   * An instance record. Absent `Tags`, `BlockDeviceMappings` and
   * `SecurityGroups` are empty lists (the builder treats both alike);
   * `iamInstanceProfileArn` is the profile's `Arn`, absent when the record has
   * no profile or an empty one; `securityGroupIds` are the groups' `GroupId`s;
   * `attributes` is the record as the mapping table sees it.
   */
  datatype Instance = Instance(
    instanceId: string,
    imageId: string,
    instanceType: string,
    tags: seq<Tag>,
    blockDeviceMappings: seq<BlockDeviceMapping>,
    rootDeviceName: Option<string>,
    iamInstanceProfileArn: Option<string>,
    securityGroupIds: seq<string>,
    attributes: Record)

  // ---------------------------------------------------------------------
  // Tags: a Python dict, i.e. keys in first-insertion order, later values
  // overriding earlier ones.

  type TagMap = seq<(string, string)>

  function Keys(d: TagMap): seq<string> {
    seq(|d|, i requires 0 <= i < |d| => d[i].0)
  }

  /** `d[k] = v`: overwrite in place when the key is there, append otherwise. */
  function Put(d: TagMap, k: string, v: string): TagMap {
    if k in Keys(d) then seq(|d|, i requires 0 <= i < |d| => if d[i].0 == k then (k, v) else d[i])
    else d + [(k, v)]
  }

  /** `{tag['Key']: tag['Value'] for tag in tags}` (empty for no tags). */
  function GetInstanceTags(tags: seq<Tag>): TagMap {
    if |tags| == 0 then []
    else Put(GetInstanceTags(tags[..|tags| - 1]), tags[|tags| - 1].key, tags[|tags| - 1].value)
  }

  function TagKeys(tags: seq<Tag>): seq<string> {
    seq(|tags|, i requires 0 <= i < |tags| => tags[i].key)
  }

  /** The value of the last tag with key `k`. */
  function LastValue(tags: seq<Tag>, k: string): Option<string> {
    if |tags| == 0 then None
    else if tags[|tags| - 1].key == k then Some(tags[|tags| - 1].value)
    else LastValue(tags[..|tags| - 1], k)
  }

  /** The distinct elements of `ks` in order of first occurrence. */
  function Dedup(ks: seq<string>): seq<string> {
    if |ks| == 0 then []
    else
      var d := Dedup(ks[..|ks| - 1]);
      if ks[|ks| - 1] in d then d else d + [ks[|ks| - 1]]
  }

  predicate Distinct(ks: seq<string>) {
    forall i, j :: 0 <= i < j < |ks| ==> ks[i] != ks[j]
  }

  lemma {:induction false} DedupSpec(ks: seq<string>)
    ensures Distinct(Dedup(ks))
    ensures forall k :: k in Dedup(ks) <==> k in ks
  {
    if |ks| > 0 {
      var init := ks[..|ks| - 1];
      DedupSpec(init);
      assert ks == init + [ks[|ks| - 1]];
    }
  }

  /**
   * The tags dict has one entry per distinct key, keys in order of first
   * occurrence, each holding the value of the last tag with that key; it is
   * empty exactly when there are no tags.
   */
  lemma {:induction false} GetInstanceTagsSpec(tags: seq<Tag>)
    ensures Keys(GetInstanceTags(tags)) == Dedup(TagKeys(tags))
    ensures forall p :: 0 <= p < |GetInstanceTags(tags)| ==>
              LastValue(tags, GetInstanceTags(tags)[p].0) == Some(GetInstanceTags(tags)[p].1)
    ensures |GetInstanceTags(tags)| == 0 <==> |tags| == 0
  {
    if |tags| > 0 {
      var init, last := tags[..|tags| - 1], tags[|tags| - 1];
      GetInstanceTagsSpec(init);
      var d := GetInstanceTags(init);
      var r := GetInstanceTags(tags);
      assert r == Put(d, last.key, last.value);
      assert TagKeys(tags)[..|tags| - 1] == TagKeys(init);
      assert Keys(r) == Dedup(TagKeys(tags)) by {
        if last.key in Keys(d) {
          assert Keys(r) == Keys(d);
        } else {
          assert Keys(r) == Keys(d) + [last.key];
        }
      }
      forall p | 0 <= p < |r|
        ensures LastValue(tags, r[p].0) == Some(r[p].1)
      {
        if r[p].0 == last.key {
          assert r[p].1 == last.value by {
            if last.key !in Keys(d) {
              assert forall q :: 0 <= q < |d| ==> Keys(d)[q] == r[q].0;
            }
          }
        } else {
          assert p < |d| && r[p] == d[p];
          assert LastValue(tags, d[p].0) == LastValue(init, d[p].0);
        }
      }
      DedupSpec(TagKeys(tags));
      assert last.key in TagKeys(tags);
    }
  }

  /** One `"<key>" = "<value>"` line per dict entry. */
  function TagAttrs(d: TagMap): seq<Attr> {
    seq(|d|, i requires 0 <= i < |d| => Attr(4, Quote(d[i].0), 0, Quote(d[i].1)))
  }

  /** The `tags = { ... }` map after a blank line, or nothing for an empty dict. */
  function TagLines(d: TagMap): seq<Line> {
    if |d| == 0 then [] else [Spacer(""), Section(2, "tags =", TagAttrs(d))]
  }

  // ---------------------------------------------------------------------
  // EBS volumes

  /** A mapping gets an `ebs_block_device` when it has an `Ebs` entry and is not the root device. */
  predicate Selected(m: BlockDeviceMapping, root: Option<string>) {
    m.ebs.Some? && Some(m.deviceName) != root
  }

  /** The four lines every EBS sub-block has, with the source's defaults. */
  function EbsRequiredAttrs(deviceName: string, ebs: Ebs): seq<Attr> {
    [ Attr(4, "device_name", 21, Quote(deviceName)),
      Attr(4, "volume_type", 21, Quote(ebs.volumeType.GetOr("gp2"))),
      Attr(4, "volume_size", 21, IntToString(ebs.volumeSize.GetOr(8))),
      Attr(4, "delete_on_termination", 21, BoolText(ebs.deleteOnTermination.GetOr(true))) ]
  }

  /** A sub-block line for a key the `Ebs` entry may lack: present exactly when the value is. */
  function OptionalAttr(key: string, value: Option<string>): seq<Attr> {
    OptionalEntry(4, key, 21, value)
  }

  function IopsValue(ebs: Ebs): Option<string> {
    if ebs.iops.Some? then Some(IntToString(ebs.iops.value)) else None
  }

  function EncryptedValue(ebs: Ebs): Option<string> {
    if ebs.encrypted.Some? then Some(BoolText(ebs.encrypted.value)) else None
  }

  function KmsKeyIdValue(ebs: Ebs): Option<string> {
    if ebs.kmsKeyId.Some? then Some(Quote(ebs.kmsKeyId.value)) else None
  }

  function EbsAttrs(deviceName: string, ebs: Ebs): seq<Attr> {
    EbsRequiredAttrs(deviceName, ebs)
    + OptionalAttr("iops", IopsValue(ebs))
    + OptionalAttr("encrypted", EncryptedValue(ebs))
    + OptionalAttr("kms_key_id", KmsKeyIdValue(ebs))
  }

  /** A spacer line of two blanks, then the sub-block. */
  function EbsBlockLines(deviceName: string, ebs: Ebs): seq<Line> {
    [Spacer("  "), Section(2, "ebs_block_device", EbsAttrs(deviceName, ebs))]
  }

  /** What one mapping contributes. */
  function MappingLines(m: BlockDeviceMapping, root: Option<string>): seq<Line> {
    if Selected(m, root) then EbsBlockLines(m.deviceName, m.ebs.value) else []
  }

  function EbsLines(ms: seq<BlockDeviceMapping>, root: Option<string>): seq<Line> {
    if |ms| == 0 then []
    else EbsLines(ms[..|ms| - 1], root) + MappingLines(ms[|ms| - 1], root)
  }

  /** The sub-blocks the selected mappings should get, in mapping order. */
  function SelectedSections(ms: seq<BlockDeviceMapping>, root: Option<string>): seq<seq<Attr>> {
    if |ms| == 0 then []
    else MappingSection(ms[0], root) + SelectedSections(ms[1..], root)
  }

  /** The sub-block one mapping should get: one when it is selected, none otherwise. */
  function MappingSection(m: BlockDeviceMapping, root: Option<string>): seq<seq<Attr>> {
    if Selected(m, root) then [EbsAttrs(m.deviceName, m.ebs.value)] else []
  }

  lemma {:induction false} SelectedSectionsAppend(a: seq<BlockDeviceMapping>, b: seq<BlockDeviceMapping>, root: Option<string>)
    ensures SelectedSections(a + b, root) == SelectedSections(a, root) + SelectedSections(b, root)
  {
    if |a| == 0 {
      assert a + b == b;
    } else {
      assert (a + b)[1..] == a[1..] + b;
      SelectedSectionsAppend(a[1..], b, root);
    }
  }

  lemma SelectedSectionsSnoc(ms: seq<BlockDeviceMapping>, root: Option<string>)
    requires |ms| > 0
    ensures SelectedSections(ms, root) == SelectedSections(ms[..|ms| - 1], root) + SelectedSections([ms[|ms| - 1]], root)
  {
    assert ms == ms[..|ms| - 1] + [ms[|ms| - 1]];
    SelectedSectionsAppend(ms[..|ms| - 1], [ms[|ms| - 1]], root);
  }

  /** One mapping contributes its sub-block when selected, and nothing else. */
  lemma MappingLinesSections(m: BlockDeviceMapping, root: Option<string>, h: string)
    ensures Sections(MappingLines(m, root), h) == if h == "ebs_block_device" then SelectedSections([m], root) else []
  {
    assert [m][1..] == [];
    if Selected(m, root) {
      SectionsOfSpacedSection("  ", 2, "ebs_block_device", EbsAttrs(m.deviceName, m.ebs.value), h);
    }
  }

  lemma MappingLinesNoKey(m: BlockDeviceMapping, root: Option<string>, k: string)
    ensures !HasKey(MappingLines(m, root), k)
  {
    if Selected(m, root) {
      SectionsOfSpacedSection("  ", 2, "ebs_block_device", EbsAttrs(m.deviceName, m.ebs.value), "");
    }
  }

  /**
   * The EBS lines hold exactly one `ebs_block_device` section per selected
   * mapping, in mapping order, and no other section.
   */
  lemma {:induction false} EbsLinesSections(ms: seq<BlockDeviceMapping>, root: Option<string>, h: string)
    ensures Sections(EbsLines(ms, root), h) == if h == "ebs_block_device" then SelectedSections(ms, root) else []
  {
    if |ms| > 0 {
      var init, m := ms[..|ms| - 1], ms[|ms| - 1];
      EbsLinesSections(init, root, h);
      MappingLinesSections(m, root, h);
      SectionsAppend(EbsLines(init, root), MappingLines(m, root), h);
      SelectedSectionsSnoc(ms, root);
    }
  }

  /** The EBS lines hold no top-level attribute. */
  lemma {:induction false} EbsLinesNoKey(ms: seq<BlockDeviceMapping>, root: Option<string>, k: string)
    ensures !HasKey(EbsLines(ms, root), k)
  {
    if |ms| > 0 {
      var init, m := ms[..|ms| - 1], ms[|ms| - 1];
      EbsLinesNoKey(init, root, k);
      MappingLinesNoKey(m, root, k);
      LookupAppend(EbsLines(init, root), MappingLines(m, root), k);
    }
  }

  lemma EbsRequiredAttrsSpec(deviceName: string, ebs: Ebs)
    ensures var a := EbsRequiredAttrs(deviceName, ebs);
      && AttrLookup(a, "device_name") == Some(Quote(deviceName))
      && AttrLookup(a, "volume_type") == Some(Quote(ebs.volumeType.GetOr("gp2")))
      && AttrLookup(a, "volume_size") == Some(IntToString(ebs.volumeSize.GetOr(8)))
      && AttrLookup(a, "delete_on_termination") == Some(BoolText(ebs.deleteOnTermination.GetOr(true)))
      && AttrLookup(a, "iops") == None
      && AttrLookup(a, "encrypted") == None
      && AttrLookup(a, "kms_key_id") == None
  {
    var a := EbsRequiredAttrs(deviceName, ebs);
    forall k ensures AttrLookup(a, k) == if k == a[0].key then Some(a[0].value)
                                          else if k == a[1].key then Some(a[1].value)
                                          else if k == a[2].key then Some(a[2].value)
                                          else if k == a[3].key then Some(a[3].value)
                                          else None
    {
      assert AttrLookup(a[4..], k) == None;
      assert AttrLookup(a[3..], k) == if k == a[3].key then Some(a[3].value) else AttrLookup(a[3..][1..], k);
      assert a[3..][1..] == a[4..];
      assert AttrLookup(a[2..], k) == if k == a[2].key then Some(a[2].value) else AttrLookup(a[2..][1..], k);
      assert a[2..][1..] == a[3..];
      assert AttrLookup(a[1..], k) == if k == a[1].key then Some(a[1].value) else AttrLookup(a[1..][1..], k);
      assert a[1..][1..] == a[2..];
    }
  }

  lemma OptionalAttrLookup(key: string, value: Option<string>, k: string)
    ensures AttrLookup(OptionalAttr(key, value), k) == if k == key then value else None
  {
    if value.Some? {
      assert OptionalAttr(key, value)[1..] == [];
    }
  }

  /**
   * Inside an EBS sub-block: the device name, `volume_type` defaulting to
   * `gp2`, `volume_size` to 8 and `delete_on_termination` to true, and an
   * `iops`, `encrypted` or `kms_key_id` line exactly when the key is present,
   * holding the count, the unquoted boolean and the quoted key id.
   */
  lemma EbsAttrsSpec(deviceName: string, ebs: Ebs)
    ensures var a := EbsAttrs(deviceName, ebs);
      && AttrLookup(a, "device_name") == Some(Quote(deviceName))
      && AttrLookup(a, "volume_type") == Some(Quote(ebs.volumeType.GetOr("gp2")))
      && AttrLookup(a, "volume_size") == Some(IntToString(ebs.volumeSize.GetOr(8)))
      && AttrLookup(a, "delete_on_termination") == Some(if ebs.deleteOnTermination != Some(false) then "true" else "false")
      && (AttrLookup(a, "iops").Some? <==> ebs.iops.Some?)
      && (AttrLookup(a, "encrypted").Some? <==> ebs.encrypted.Some?)
      && (AttrLookup(a, "kms_key_id").Some? <==> ebs.kmsKeyId.Some?)
      && (ebs.iops.Some? ==> AttrLookup(a, "iops") == Some(IntToString(ebs.iops.value)))
      && (ebs.encrypted.Some? ==> AttrLookup(a, "encrypted") == Some(BoolText(ebs.encrypted.value)))
      && (ebs.kmsKeyId.Some? ==> AttrLookup(a, "kms_key_id") == Some(Quote(ebs.kmsKeyId.value)))
  {
    var req := EbsRequiredAttrs(deviceName, ebs);
    var o1, o2, o3 := OptionalAttr("iops", IopsValue(ebs)), OptionalAttr("encrypted", EncryptedValue(ebs)),
                      OptionalAttr("kms_key_id", KmsKeyIdValue(ebs));
    EbsRequiredAttrsSpec(deviceName, ebs);
    forall k | k in ["device_name", "volume_type", "volume_size", "delete_on_termination", "iops", "encrypted", "kms_key_id"]
      ensures AttrLookup(req + o1 + o2 + o3, k)
           == if AttrLookup(req, k).Some? then AttrLookup(req, k)
              else if k == "iops" then IopsValue(ebs)
              else if k == "encrypted" then EncryptedValue(ebs)
              else if k == "kms_key_id" then KmsKeyIdValue(ebs)
              else None
    {
      AttrLookupAppend(req + o1 + o2, o3, k);
      AttrLookupAppend(req + o1, o2, k);
      AttrLookupAppend(req, o1, k);
      OptionalAttrLookup("iops", IopsValue(ebs), k);
      OptionalAttrLookup("encrypted", EncryptedValue(ebs), k);
      OptionalAttrLookup("kms_key_id", KmsKeyIdValue(ebs), k);
    }
  }

  /**
   * A mapping for the instance's root device never yields an EBS sub-block,
   * whatever the other mappings are.
   */
  lemma {:induction false} RootDeviceExcluded(ms: seq<BlockDeviceMapping>, root: string)
    ensures forall s :: s in SelectedSections(ms, Some(root)) ==>
              AttrLookup(s, "device_name") != Some(Quote(root))
  {
    if |ms| > 0 {
      RootDeviceExcluded(ms[1..], root);
      if Selected(ms[0], Some(root)) {
        EbsAttrsSpec(ms[0].deviceName, ms[0].ebs.value);
        assert Quote(ms[0].deviceName)[1..|ms[0].deviceName| + 1] == ms[0].deviceName;
      }
    }
  }

  // ---------------------------------------------------------------------
  // The remaining lines

  function RequiredLines(inst: Instance): seq<Line> {
    [ AttrLine(Attr(2, "ami", 13, Quote(inst.imageId))),
      AttrLine(Attr(2, "instance_type", 13, Quote(inst.instanceType))) ]
  }

  function IamLines(arn: Option<string>): seq<Line> {
    if arn.Some? then [AttrLine(Attr(2, "iam_instance_profile", 0, Quote(LastSegment(arn.value))))]
    else []
  }

  /** `', '.join(f'"{sg}"' for sg in ids)`. */
  function JoinQuoted(ids: seq<string>): string {
    if |ids| == 0 then ""
    else if |ids| == 1 then Quote(ids[0])
    else JoinQuoted(ids[..|ids| - 1]) + ", " + Quote(ids[|ids| - 1])
  }

  /** Each group id after the first, quoted and preceded by `", "`, in list order. */
  function QuotedTail(ids: seq<string>): seq<string>
    requires |ids| > 0
  {
    seq(|ids| - 1, i requires 0 <= i < |ids| - 1 => ", " + Quote(ids[i + 1]))
  }

  /**
   * The joined list is the first id quoted, then every later id quoted and
   * preceded by `", "`, in list order.
   */
  lemma {:induction false} JoinQuotedSpec(ids: seq<string>)
    requires |ids| > 0
    ensures JoinQuoted(ids) == Quote(ids[0]) + Concat(QuotedTail(ids))
  {
    var n := |ids|;
    if n == 1 {
      assert QuotedTail(ids) == [];
    } else {
      var init := ids[..n - 1];
      JoinQuotedSpec(init);
      QuotedTailSnoc(ids);
      ConcatSnoc(QuotedTail(init), ", " + Quote(ids[n - 1]));
      Regroup3(Quote(ids[0]) + Concat(QuotedTail(init)), ", ", Quote(ids[n - 1]));
    }
  }

  lemma QuotedTailSnoc(ids: seq<string>)
    requires |ids| > 1
    ensures QuotedTail(ids) == QuotedTail(ids[..|ids| - 1]) + [", " + Quote(ids[|ids| - 1])]
  {
    var init := ids[..|ids| - 1];
    assert forall i :: 0 <= i < |init| ==> init[i] == ids[i];
  }

  lemma ConcatSnoc(parts: seq<string>, x: string)
    ensures Concat(parts + [x]) == Concat(parts) + x
  {
    assert (parts + [x])[..|parts|] == parts;
  }

  function SecurityGroupLines(ids: seq<string>): seq<Line> {
    if |ids| == 0 then []
    else [AttrLine(Attr(2, "vpc_security_group_ids", 0, "[" + JoinQuoted(ids) + "]"))]
  }

  /** One `<tfName> = <literal>` line per mapped attribute. */
  function MappedLines(pairs: seq<(string, Value)>): seq<Line> {
    seq(|pairs|, i requires 0 <= i < |pairs| => AttrLine(Attr(2, pairs[i].0, 0, Render(pairs[i].1))))
  }

  lemma MappedLinesAppend(a: seq<(string, Value)>, b: seq<(string, Value)>)
    ensures MappedLines(a + b) == MappedLines(a) + MappedLines(b)
  {
  }

  /** Everything before the mapped attributes, the tags map twice included. */
  function FixedBody(inst: Instance): seq<Line> {
    var tags := TagLines(GetInstanceTags(inst.tags));
    RequiredLines(inst)
    + tags
    + EbsLines(inst.blockDeviceMappings, inst.rootDeviceName)
    + IamLines(inst.iamInstanceProfileArn)
    + SecurityGroupLines(inst.securityGroupIds)
    + tags
  }

  function InstanceBody(inst: Instance, table: seq<Entry>): seq<Line> {
    FixedBody(inst) + MappedLines(MapAttributes(inst.attributes, table))
  }

  /** The block is named by the raw instance id. */
  function InstanceBlock(inst: Instance, table: seq<Entry>): Block {
    Block("aws_instance", inst.instanceId, InstanceBody(inst, table))
  }

  // ---------------------------------------------------------------------
  // Properties of the block

  lemma TagLinesSpec(d: TagMap)
    ensures forall k :: !HasKey(TagLines(d), k)
    ensures Sections(TagLines(d), "tags =") == if |d| == 0 then [] else [TagAttrs(d)]
    ensures forall h :: h != "tags =" ==> Sections(TagLines(d), h) == []
  {
    if |d| > 0 {
      forall h ensures Sections(TagLines(d), h) == if h == "tags =" then [TagAttrs(d)] else [] {
        SectionsOfSpacedSection("", 2, "tags =", TagAttrs(d), h);
      }
      SectionsOfSpacedSection("", 2, "tags =", TagAttrs(d), "");
    }
  }

  lemma MappedLinesHaveNoSections(pairs: seq<(string, Value)>, h: string)
    ensures Sections(MappedLines(pairs), h) == []
    decreases |pairs|
  {
    if |pairs| > 0 {
      assert MappedLines(pairs)[1..] == MappedLines(pairs[1..]);
      MappedLinesHaveNoSections(pairs[1..], h);
    }
  }

  /** The sections of the body, piece by piece. */
  lemma BodySections(inst: Instance, table: seq<Entry>, h: string)
    ensures Sections(InstanceBody(inst, table), h)
         == Sections(TagLines(GetInstanceTags(inst.tags)), h)
          + Sections(EbsLines(inst.blockDeviceMappings, inst.rootDeviceName), h)
          + Sections(TagLines(GetInstanceTags(inst.tags)), h)
  {
    var req, tags := RequiredLines(inst), TagLines(GetInstanceTags(inst.tags));
    var ebs := EbsLines(inst.blockDeviceMappings, inst.rootDeviceName);
    var iam, sg := IamLines(inst.iamInstanceProfileArn), SecurityGroupLines(inst.securityGroupIds);
    var mapped := MappedLines(MapAttributes(inst.attributes, table));
    SectionsAppend(req + tags + ebs + iam + sg + tags, mapped, h);
    SectionsOfConcat6(req, tags, ebs, iam, sg, tags, h);
    MappedLinesHaveNoSections(MapAttributes(inst.attributes, table), h);
    SingleLinesHaveNoSections(inst, h);
  }

  lemma SingleLinesHaveNoSections(inst: Instance, h: string)
    ensures Sections(RequiredLines(inst), h) == []
    ensures Sections(IamLines(inst.iamInstanceProfileArn), h) == []
    ensures Sections(SecurityGroupLines(inst.securityGroupIds), h) == []
  {
    SectionsOfAttrLines(RequiredLines(inst), h);
    SectionsOfAttrLines(IamLines(inst.iamInstanceProfileArn), h);
    SectionsOfAttrLines(SecurityGroupLines(inst.securityGroupIds), h);
  }

  /** The tags map has one line per distinct tag key. */
  lemma TagLineCount(tags: seq<Tag>)
    ensures |TagAttrs(GetInstanceTags(tags))| == |Dedup(TagKeys(tags))|
    ensures |GetInstanceTags(tags)| == 0 <==> |tags| == 0
  {
    GetInstanceTagsSpec(tags);
    assert |Keys(GetInstanceTags(tags))| == |GetInstanceTags(tags)|;
  }

  /**
   * The tags map is emitted twice, identically, when the instance has tags
   * and not at all otherwise.
   */
  lemma TagsMapEmittedTwice(inst: Instance, table: seq<Entry>)
    ensures Sections(InstanceBody(inst, table), "tags =")
         == if |inst.tags| == 0 then [] else [TagAttrs(GetInstanceTags(inst.tags)), TagAttrs(GetInstanceTags(inst.tags))]
  {
    var d := GetInstanceTags(inst.tags);
    var ebs := EbsLines(inst.blockDeviceMappings, inst.rootDeviceName);
    BodySections(inst, table, "tags =");
    TagLinesSpec(d);
    EbsLinesSections(inst.blockDeviceMappings, inst.rootDeviceName, "tags =");
    TagLineCount(inst.tags);
  }

  /** The body's EBS sub-blocks are exactly those of the selected mappings, in mapping order. */
  lemma EbsSubBlocksOfInstance(inst: Instance, table: seq<Entry>)
    ensures Sections(InstanceBody(inst, table), "ebs_block_device")
         == SelectedSections(inst.blockDeviceMappings, inst.rootDeviceName)
  {
    BodySections(inst, table, "ebs_block_device");
    TagLinesOtherSection(GetInstanceTags(inst.tags), "ebs_block_device");
    EbsLinesSections(inst.blockDeviceMappings, inst.rootDeviceName, "ebs_block_device");
    var tags := Sections(TagLines(GetInstanceTags(inst.tags)), "ebs_block_device");
    assert tags + Sections(EbsLines(inst.blockDeviceMappings, inst.rootDeviceName), "ebs_block_device") + tags
        == Sections(EbsLines(inst.blockDeviceMappings, inst.rootDeviceName), "ebs_block_device");
  }

  lemma TagLinesOtherSection(d: TagMap, h: string)
    requires |h| != |"tags ="|
    ensures Sections(TagLines(d), h) == []
  {
    TagLinesSpec(d);
  }

  /** Lines without key `k` around `mid` leave its lookup unchanged. */
  lemma LookupAround(pre: seq<Line>, mid: seq<Line>, post: seq<Line>, k: string)
    requires !HasKey(pre, k) && !HasKey(post, k)
    ensures Lookup(pre + mid + post, k) == Lookup(mid, k)
  {
    LookupAppend(pre, mid + post, k);
    LookupAppend(mid, post, k);
    assert pre + mid + post == pre + (mid + post);
  }

  /** The lookup in `req + tags + ebs + mid + tags` when only `mid` can hold the key. */
  lemma LookupInFixedShape(req: seq<Line>, tags: seq<Line>, ebs: seq<Line>, mid: seq<Line>, k: string)
    requires !HasKey(req, k) && !HasKey(tags, k) && !HasKey(ebs, k)
    ensures Lookup(req + tags + ebs + mid + tags, k) == Lookup(mid, k)
  {
    LookupAppend(req, tags, k);
    LookupAppend(req + tags, ebs, k);
    LookupAround(req + tags + ebs, mid, tags, k);
  }

  lemma TagLinesNoKey(d: TagMap, k: string)
    ensures !HasKey(TagLines(d), k)
  {
    TagLinesSpec(d);
  }

  lemma RequiredLinesNoKey(inst: Instance, k: string)
    requires k != "ami" && k != "instance_type"
    ensures !HasKey(RequiredLines(inst), k)
  {
    var req := RequiredLines(inst);
    assert req[1..][1..] == [];
    assert Lookup(req, k) == None;
  }

  /** Only the IAM and security-group lines can hold a key other than `ami` and `instance_type`. */
  lemma FixedBodyLookup(inst: Instance, k: string)
    requires k != "ami" && k != "instance_type"
    ensures Lookup(FixedBody(inst), k)
         == Lookup(IamLines(inst.iamInstanceProfileArn) + SecurityGroupLines(inst.securityGroupIds), k)
  {
    var req, tags := RequiredLines(inst), TagLines(GetInstanceTags(inst.tags));
    var ebs := EbsLines(inst.blockDeviceMappings, inst.rootDeviceName);
    var mid := IamLines(inst.iamInstanceProfileArn) + SecurityGroupLines(inst.securityGroupIds);
    assert FixedBody(inst) == req + tags + ebs + mid + tags;
    RequiredLinesNoKey(inst, k);
    TagLinesNoKey(GetInstanceTags(inst.tags), k);
    EbsLinesNoKey(inst.blockDeviceMappings, inst.rootDeviceName, k);
    LookupInFixedShape(req, tags, ebs, mid, k);
  }

  /**
   * Before the mapped attributes: `ami` and `instance_type` come first; the
   * IAM profile line is present exactly when the record has a profile and
   * names the segment after the ARN's last slash; the security-group list is
   * present exactly when there are groups, and holds them quoted, in order,
   * between brackets.
   */
  lemma IamAndGroupLookup(arn: Option<string>, ids: seq<string>)
    ensures Lookup(IamLines(arn) + SecurityGroupLines(ids), "iam_instance_profile")
         == if arn.Some? then Some(Quote(LastSegment(arn.value))) else None
    ensures Lookup(IamLines(arn) + SecurityGroupLines(ids), "vpc_security_group_ids").Some? <==> |ids| > 0
    ensures |ids| > 0 ==>
              Lookup(IamLines(arn) + SecurityGroupLines(ids), "vpc_security_group_ids") == Some("[" + JoinQuoted(ids) + "]")
  {
    var iam, sg := IamLines(arn), SecurityGroupLines(ids);
    IamLinesLookup(arn);
    GroupLinesLookup(ids);
    LookupAppend(iam, sg, "iam_instance_profile");
    LookupAppend(iam, sg, "vpc_security_group_ids");
  }

  lemma IamLinesLookup(arn: Option<string>)
    ensures Lookup(IamLines(arn), "iam_instance_profile") == if arn.Some? then Some(Quote(LastSegment(arn.value))) else None
    ensures !HasKey(IamLines(arn), "vpc_security_group_ids")
  {
    var iam := IamLines(arn);
    assert iam != [] ==> iam[1..] == [];
  }

  lemma GroupLinesLookup(ids: seq<string>)
    ensures !HasKey(SecurityGroupLines(ids), "iam_instance_profile")
    ensures Lookup(SecurityGroupLines(ids), "vpc_security_group_ids")
         == if |ids| > 0 then Some("[" + JoinQuoted(ids) + "]") else None
  {
    var sg := SecurityGroupLines(ids);
    assert sg != [] ==> sg[1..] == [];
  }

  lemma FixedBodySpec(inst: Instance)
    ensures FixedBody(inst)[..2] == RequiredLines(inst)
    ensures Lookup(FixedBody(inst), "iam_instance_profile")
         == if inst.iamInstanceProfileArn.Some?
            then Some(Quote(LastSegment(inst.iamInstanceProfileArn.value))) else None
    ensures Lookup(FixedBody(inst), "vpc_security_group_ids").Some? <==> |inst.securityGroupIds| > 0
    ensures |inst.securityGroupIds| > 0 ==>
              Lookup(FixedBody(inst), "vpc_security_group_ids") == Some("[" + JoinQuoted(inst.securityGroupIds) + "]")
  {
    FixedBodyLookup(inst, "iam_instance_profile");
    FixedBodyLookup(inst, "vpc_security_group_ids");
    IamAndGroupLookup(inst.iamInstanceProfileArn, inst.securityGroupIds);
    var rest := FixedBody(inst)[2..];
    assert FixedBody(inst) == RequiredLines(inst) + rest;
  }

  /**
   * The block is named by the raw instance id, and its `ami` and
   * `instance_type` lines, which come first, carry the quoted image id and
   * instance type.
   */
  lemma InstanceHeaderSpec(inst: Instance, table: seq<Entry>)
    ensures InstanceBlock(inst, table).kind == "aws_instance"
    ensures InstanceBlock(inst, table).name == inst.instanceId
    ensures InstanceBlock(inst, table).body[..2] == RequiredLines(inst)
    ensures Lookup(InstanceBlock(inst, table).body, "ami") == Some(Quote(inst.imageId))
    ensures Lookup(InstanceBlock(inst, table).body, "instance_type") == Some(Quote(inst.instanceType))
  {
    var req := RequiredLines(inst);
    var body := InstanceBody(inst, table);
    var rest := body[2..];
    FixedBodySpec(inst);
    assert body == req + rest;
    LookupFirstOfPrefix(req, rest, 0);
    LookupFirstOfPrefix(req, rest, 1);
  }

  /**
   * After the fixed lines come the mapped attributes: one line per table path
   * the record resolves, in table declaration order, rendered by the literal
   * formatter.
   */
  lemma MappedAttributesOfInstance(inst: Instance, table: seq<Entry>)
    ensures InstanceBody(inst, table)[|FixedBody(inst)|..]
         == MappedLines(Present(inst.attributes, Paths(table)))
  {
    MapAttributesArePresentPaths(inst.attributes, table);
    assert InstanceBody(inst, table)[|FixedBody(inst)|..] == MappedLines(MapAttributes(inst.attributes, table));
  }

  // ---------------------------------------------------------------------
  // The builder itself

  /** The text of the tags map: a blank line, the head, one line per entry, the closing brace. */
  lemma TagLinesText(d: TagMap)
    requires |d| > 0
    ensures LinesText(TagLines(d)) == "\n\n  tags = {" + AttrsText(TagAttrs(d)) + "\n  }"
  {
    SpacedSectionLiteral("", 2, "tags =", TagAttrs(d), "\n\n  tags = {", "\n  }");
  }

  /** One entry line as the dict loop writes it: indented, quoted, newline-terminated. */
  function TagEntryText(k: string, v: string): string {
    "    \"" + k + "\" = \"" + v + "\"\n"
  }

  function TagEntriesText(d: TagMap): string {
    if |d| == 0 then "" else TagEntriesText(d[..|d| - 1]) + TagEntryText(d[|d| - 1].0, d[|d| - 1].1)
  }

  /** Writing every entry newline-terminated gives the attribute lines of the map's section. */
  lemma {:induction false} TagEntriesAreAttrs(d: TagMap)
    ensures "\n" + TagEntriesText(d) == AttrsText(TagAttrs(d)) + "\n"
  {
    if |d| > 0 {
      var init, last := d[..|d| - 1], d[|d| - 1];
      var e := AttrText(Attr(4, Quote(last.0), 0, Quote(last.1)));
      var n, t, a := "\n", TagEntriesText(init), AttrsText(TagAttrs(init));
      assert "\n" + TagEntriesText(d) == n + (t + (e + n)) by {
        TagEntryLine(last.0, last.1);
      }
      assert n + (t + (e + n)) == (n + t) + (e + n);
      TagEntriesAreAttrs(init);
      assert n + t == a + n;
      assert (a + n) + (e + n) == a + n + e + n;
      assert TagAttrs(d)[..|d| - 1] == TagAttrs(init);
      assert AttrsText(TagAttrs(d)) == a + n + e;
    }
  }

  lemma TagEntryLine(k: string, v: string)
    ensures TagEntryText(k, v) == AttrText(Attr(4, Quote(k), 0, Quote(v))) + "\n"
  {
    assert Spaces(4) == "    ";
  }

  /** Closing the map: entry lines written newline-terminated read as the section's lines. */
  lemma CloseTagsMap(config: string, entries: string, attrs: string)
    requires "\n" + entries == attrs + "\n"
    ensures config + "\n\n  tags = {\n" + entries + "  }" == config + ("\n\n  tags = {" + attrs + "\n  }")
  {
    var n, open, close := "\n", "\n\n  tags = {", "  }";
    assert "\n\n  tags = {\n" == open + n;
    assert "\n  }" == n + close;
    calc {
      config + (open + n) + entries + close;
      config + open + (n + entries) + close;
      config + open + (attrs + n) + close;
      config + (open + attrs + (n + close));
    }
  }

  /** Appends the tags map when the dict has entries, writing the entries in dict order. */
  method AppendTagsMap(config: string, tags: TagMap) returns (out: string)
    ensures out == config + LinesText(TagLines(tags))
  {
    out := config;
    if |tags| > 0 {
      out := out + "\n\n  tags = {\n";
      var i := 0;
      while i < |tags|
        invariant 0 <= i <= |tags|
        invariant out == config + "\n\n  tags = {\n" + TagEntriesText(tags[..i])
      {
        var (key, value) := tags[i];
        var line := "    \"" + key + "\" = \"" + value + "\"\n";
        assert tags[..i + 1][..i] == tags[..i];
        assert TagEntriesText(tags[..i + 1]) == TagEntriesText(tags[..i]) + line;
        out := out + line;
        i := i + 1;
      }
      out := out + "  }";
      assert tags[..i] == tags;
      TagEntriesAreAttrs(tags);
      TagLinesText(tags);
      CloseTagsMap(config, TagEntriesText(tags), AttrsText(TagAttrs(tags)));
    }
  }

  // The seven lines of a sub-block, each as the source spells it.

  lemma DeviceNameLine(v: string)
    ensures "\n" + AttrText(Attr(4, "device_name", 21, Quote(v))) == "\n    device_name           = \"" + v + "\""
  {
    QuotedLineText(4, "device_name", 21, 10, "\n    device_name           = \"", v);
  }

  lemma VolumeTypeLine(v: string)
    ensures "\n" + AttrText(Attr(4, "volume_type", 21, Quote(v))) == "\n    volume_type           = \"" + v + "\""
  {
    QuotedLineText(4, "volume_type", 21, 10, "\n    volume_type           = \"", v);
  }

  lemma VolumeSizeLine(v: int)
    ensures "\n" + AttrText(Attr(4, "volume_size", 21, IntToString(v))) == "\n    volume_size           = " + IntToString(v)
  {
    var prefix := "\n    volume_size           = ";
    assert prefix == "\n" + Spaces(4) + "volume_size" + Spaces(10) + " = " by {
      assert Spaces(10) == "          ";
      FourSpaces();
    }
    PaddedLineText(4, "volume_size", 21, 10, prefix, IntToString(v));
  }

  lemma DeleteOnTerminationLine(v: bool)
    ensures "\n" + AttrText(Attr(4, "delete_on_termination", 21, BoolText(v))) == "\n    delete_on_termination = " + BoolText(v)
  {
    var prefix := "\n    delete_on_termination = ";
    assert prefix == "\n" + Spaces(4) + "delete_on_termination" + Spaces(0) + " = " by {
      assert Spaces(0) == [];
      FourSpaces();
    }
    PaddedLineText(4, "delete_on_termination", 21, 0, prefix, BoolText(v));
  }

  lemma IopsLine(v: int)
    ensures "\n" + AttrText(Attr(4, "iops", 21, IntToString(v))) == "\n    iops                  = " + IntToString(v)
  {
    PaddedLineText(4, "iops", 21, 17, "\n    iops                  = ", IntToString(v));
  }

  lemma EncryptedLine(v: bool)
    ensures "\n" + AttrText(Attr(4, "encrypted", 21, BoolText(v))) == "\n    encrypted             = " + BoolText(v)
  {
    PaddedLineText(4, "encrypted", 21, 12, "\n    encrypted             = ", BoolText(v));
  }

  lemma KmsKeyIdLine(v: string)
    ensures "\n" + AttrText(Attr(4, "kms_key_id", 21, Quote(v))) == "\n    kms_key_id            = \"" + v + "\""
  {
    QuotedLineText(4, "kms_key_id", 21, 11, "\n    kms_key_id            = \"", v);
  }

  /** The four lines every sub-block starts with, as the source's f-string writes them. */
  lemma EbsRequiredText(deviceName: string, ebs: Ebs)
    ensures AttrsText(EbsRequiredAttrs(deviceName, ebs))
         == "\n    device_name           = \"" + deviceName + "\""
          + ("\n    volume_type           = \"" + ebs.volumeType.GetOr("gp2") + "\"")
          + ("\n    volume_size           = " + IntToString(ebs.volumeSize.GetOr(8)))
          + ("\n    delete_on_termination = " + BoolText(ebs.deleteOnTermination.GetOr(true)))
  {
    DeviceNameLine(deviceName);
    VolumeTypeLine(ebs.volumeType.GetOr("gp2"));
    VolumeSizeLine(ebs.volumeSize.GetOr(8));
    DeleteOnTerminationLine(ebs.deleteOnTermination.GetOr(true));
    AttrsTextOfFour(EbsRequiredAttrs(deviceName, ebs),
      "\n    device_name           = \"" + deviceName + "\"",
      "\n    volume_type           = \"" + ebs.volumeType.GetOr("gp2") + "\"",
      "\n    volume_size           = " + IntToString(ebs.volumeSize.GetOr(8)),
      "\n    delete_on_termination = " + BoolText(ebs.deleteOnTermination.GetOr(true)));
  }

  /** The text of a sub-block and the two-blank line before it. */
  lemma EbsBlockText(attrs: seq<Attr>)
    ensures LinesText([Spacer("  "), Section(2, "ebs_block_device", attrs)])
         == "\n  \n  ebs_block_device {" + AttrsText(attrs) + "\n  }"
  {
    SpacedSectionLiteral("  ", 2, "ebs_block_device", attrs, "\n  \n  ebs_block_device {", "\n  }");
  }

  /** Writing an optional line when its value is present writes the optional attribute. */
  lemma AppendOptionalAttr(pre: string, attrs: seq<Attr>, key: string, value: Option<string>, line: string)
    requires value.Some? && "\n" + AttrText(Attr(4, key, 21, value.value)) == line
    ensures pre + AttrsText(attrs) + line == pre + AttrsText(attrs + OptionalAttr(key, value))
  {
    AppendAttrLine(pre, attrs, Attr(4, key, 21, value.value), line);
  }

  /** Nothing is written for an absent value. */
  lemma OptionalAttrAbsent(attrs: seq<Attr>, key: string, value: Option<string>)
    requires value.None?
    ensures attrs + OptionalAttr(key, value) == attrs
  {
  }

  lemma CloseEbsBlock(config: string, head: string, attrs: string)
    ensures config + head + attrs + "\n  }" == config + (head + attrs + "\n  }")
  {
  }

  /** Appends one `ebs_block_device` sub-block. */
  method AppendEbsBlock(config: string, deviceName: string, ebs: Ebs) returns (out: string)
    ensures out == config + LinesText(EbsBlockLines(deviceName, ebs))
  {
    var head := "\n  \n  ebs_block_device {";
    var required := "\n    device_name           = \"" + deviceName + "\""
      + ("\n    volume_type           = \"" + ebs.volumeType.GetOr("gp2") + "\"")
      + ("\n    volume_size           = " + IntToString(ebs.volumeSize.GetOr(8)))
      + ("\n    delete_on_termination = " + BoolText(ebs.deleteOnTermination.GetOr(true)));
    out := config + head + required;
    ghost var attrs := EbsRequiredAttrs(deviceName, ebs);
    EbsRequiredText(deviceName, ebs);
    if ebs.iops.Some? {
      var line := "\n    iops                  = " + IntToString(ebs.iops.value);
      IopsLine(ebs.iops.value);
      AppendOptionalAttr(config + head, attrs, "iops", IopsValue(ebs), line);
      out := out + line;
    } else {
      OptionalAttrAbsent(attrs, "iops", IopsValue(ebs));
    }
    attrs := attrs + OptionalAttr("iops", IopsValue(ebs));
    if ebs.encrypted.Some? {
      var line := "\n    encrypted             = " + BoolText(ebs.encrypted.value);
      EncryptedLine(ebs.encrypted.value);
      AppendOptionalAttr(config + head, attrs, "encrypted", EncryptedValue(ebs), line);
      out := out + line;
    } else {
      OptionalAttrAbsent(attrs, "encrypted", EncryptedValue(ebs));
    }
    attrs := attrs + OptionalAttr("encrypted", EncryptedValue(ebs));
    if ebs.kmsKeyId.Some? {
      var line := "\n    kms_key_id            = \"" + ebs.kmsKeyId.value + "\"";
      KmsKeyIdLine(ebs.kmsKeyId.value);
      AppendOptionalAttr(config + head, attrs, "kms_key_id", KmsKeyIdValue(ebs), line);
      out := out + line;
    } else {
      OptionalAttrAbsent(attrs, "kms_key_id", KmsKeyIdValue(ebs));
    }
    attrs := attrs + OptionalAttr("kms_key_id", KmsKeyIdValue(ebs));
    out := out + "\n  }";
    EbsBlockText(attrs);
    CloseEbsBlock(config, head, AttrsText(attrs));
  }

  /** Appends the sub-block of one mapping when it is selected. */
  method AppendMapping(config: string, m: BlockDeviceMapping, root: Option<string>) returns (out: string)
    ensures out == config + LinesText(MappingLines(m, root))
  {
    out := config;
    if m.ebs.Some? && Some(m.deviceName) != root {
      out := AppendEbsBlock(config, m.deviceName, m.ebs.value);
    } else {
      assert config + LinesText([]) == config;
    }
  }

  lemma EbsLinesStep(ms: seq<BlockDeviceMapping>, i: nat, root: Option<string>)
    requires i < |ms|
    ensures EbsLines(ms[..i + 1], root) == EbsLines(ms[..i], root) + MappingLines(ms[i], root)
  {
    assert ms[..i + 1][..i] == ms[..i];
  }

  /** Appends one sub-block per selected mapping, in mapping order. */
  method AppendEbsVolumes(config: string, ms: seq<BlockDeviceMapping>, root: Option<string>) returns (out: string)
    ensures out == config + LinesText(EbsLines(ms, root))
  {
    out := config;
    var i := 0;
    while i < |ms|
      invariant 0 <= i <= |ms|
      invariant out == config + LinesText(EbsLines(ms[..i], root))
    {
      var next := AppendMapping(out, ms[i], root);
      EbsLinesStep(ms, i, root);
      AppendLines(config, EbsLines(ms[..i], root), MappingLines(ms[i], root), out, next);
      out := next;
      i := i + 1;
    }
    assert ms[..i] == ms;
  }

  lemma RequiredText(inst: Instance)
    ensures LinesText(RequiredLines(inst))
         == ("\n  ami           = \"" + inst.imageId + "\"") + ("\n  instance_type = \"" + inst.instanceType + "\"")
  {
    var lines := RequiredLines(inst);
    LinesTextPair(lines[0], lines[1]);
    QuotedLineText(2, "ami", 13, 10, "\n  ami           = \"", inst.imageId);
    QuotedLineText(2, "instance_type", 13, 0, "\n  instance_type = \"", inst.instanceType);
  }

  lemma IamLine(v: string)
    ensures "\n" + AttrText(Attr(2, "iam_instance_profile", 0, Quote(v))) == "\n  iam_instance_profile = \"" + v + "\""
  {
    var prefix := "\n  iam_instance_profile = \"";
    assert prefix == "\n" + Spaces(2) + "iam_instance_profile" + Spaces(0) + " = " + "\"" by {
      assert Spaces(0) == [];
      TwoSpaces();
    }
    QuotedLineText(2, "iam_instance_profile", 0, 0, prefix, v);
  }

  /** The profile line names the segment after the ARN's last slash, quoted. */
  lemma IamProfileText(arn: string)
    ensures LinesText(IamLines(Some(arn))) == "\n  iam_instance_profile = \"" + LastSegment(arn) + "\""
  {
    LinesTextSnoc([], IamLines(Some(arn))[0]);
    IamLine(LastSegment(arn));
  }

  /** Appends the profile line when the record has a profile. */
  method AppendIamProfile(config: string, arn: Option<string>) returns (out: string)
    ensures out == config + LinesText(IamLines(arn))
  {
    out := config;
    if arn.Some? {
      var profileName := LastSegment(arn.value);
      out := out + ("\n  iam_instance_profile = \"" + profileName + "\"");
      IamProfileText(arn.value);
    }
  }

  lemma SecurityGroupLine(v: string)
    ensures "\n" + AttrText(Attr(2, "vpc_security_group_ids", 0, v)) == "\n  vpc_security_group_ids = " + v
  {
    var prefix := "\n  vpc_security_group_ids = ";
    assert prefix == "\n" + Spaces(2) + "vpc_security_group_ids" + Spaces(0) + " = " by {
      assert Spaces(0) == [];
      TwoSpaces();
    }
    PaddedLineText(2, "vpc_security_group_ids", 0, 0, prefix, v);
  }

  lemma BracketedGroupLine(v: string)
    ensures "\n" + AttrText(Attr(2, "vpc_security_group_ids", 0, "[" + v + "]")) == "\n  vpc_security_group_ids = [" + v + "]"
  {
    var prefix := "\n  vpc_security_group_ids = ";
    SecurityGroupLine("[" + v + "]");
    assert prefix + ("[" + v + "]") == (prefix + "[") + v + "]";
  }

  /** The group list: the ids quoted, comma-separated, between brackets. */
  lemma SecurityGroupText(ids: seq<string>)
    requires |ids| > 0
    ensures LinesText(SecurityGroupLines(ids)) == "\n  vpc_security_group_ids = [" + JoinQuoted(ids) + "]"
  {
    LinesTextSnoc([], SecurityGroupLines(ids)[0]);
    BracketedGroupLine(JoinQuoted(ids));
  }

  /** Appends the security-group list when there are groups. */
  method AppendSecurityGroups(config: string, ids: seq<string>) returns (out: string)
    ensures out == config + LinesText(SecurityGroupLines(ids))
  {
    out := config;
    if |ids| > 0 {
      var opening, joined := "\n  vpc_security_group_ids = [", JoinQuoted(ids);
      out := out + opening;
      out := out + joined;
      out := out + "]";
      assert config + opening + joined + "]" == config + (opening + joined + "]");
      SecurityGroupText(ids);
    }
  }

  /** A mapped attribute's line: two blanks, the Terraform name, ` = `, the literal. */
  lemma MappedLineText(tf: string, v: Value)
    ensures LinesText(MappedLines([(tf, v)])) == "\n  " + tf + " = " + Render(v)
  {
    assert MappedLines([(tf, v)]) == [AttrLine(Attr(2, tf, 0, Render(v)))];
    TwoSpaces();
    BareLineText("\n  ", Attr(2, tf, 0, Render(v)));
  }

  /** Appends the line of one mapped attribute. */
  method AppendMappedLine(config: string, tf: string, value: Value) returns (out: string)
    ensures out == config + LinesText(MappedLines([(tf, value)]))
  {
    out := config + "\n  " + tf + " = " + Render(value);
    MappedLineText(tf, value);
  }

  lemma MemberLinesStep(members: map<string, Value>, subs: seq<(string, string)>, k: nat)
    requires k < |subs|
    ensures MappedLines(MemberPairs(members, subs[..k + 1]))
         == MappedLines(MemberPairs(members, subs[..k])) + MappedLines(MemberPair(members, subs[k]))
  {
    assert subs[..k + 1][..k] == subs[..k];
    MappedLinesAppend(MemberPairs(members, subs[..k]), MemberPair(members, subs[k]));
  }

  /** Appends the line of one group member when the group has it. */
  method AppendMember(config: string, members: map<string, Value>, sub: (string, string)) returns (out: string)
    ensures out == config + LinesText(MappedLines(MemberPair(members, sub)))
  {
    out := config;
    if sub.0 in members {
      out := AppendMappedLine(config, sub.1, members[sub.0]);
    } else {
      assert config + LinesText([]) == config;
    }
  }

  /** Appends what one table row maps: a present flat field, or the present members of a present group. */
  method AppendEntry(config: string, rec: Record, e: Entry) returns (out: string)
    ensures out == config + LinesText(MappedLines(EntryPairs(rec, e)))
  {
    out := config;
    match e
    case Flat(api, tf) =>
      if api in rec {
        out := AppendMappedLine(out, tf, FieldValue(rec[api]));
      }
    case Group(api, subs) =>
      if api in rec && rec[api].Nested? {
        var members := rec[api].members;
        var k := 0;
        while k < |subs|
          invariant 0 <= k <= |subs|
          invariant out == config + LinesText(MappedLines(MemberPairs(members, subs[..k])))
        {
          var next := AppendMember(out, members, subs[k]);
          MemberLinesStep(members, subs, k);
          AppendLines(config, MappedLines(MemberPairs(members, subs[..k])), MappedLines(MemberPair(members, subs[k])), out, next);
          out := next;
          k := k + 1;
        }
        assert subs[..k] == subs;
      }
  }

  /** Appends the mapped attributes, row by row in table order. */
  lemma MappedLinesStep(rec: Record, table: seq<Entry>, j: nat)
    requires j < |table|
    ensures MappedLines(MapAttributes(rec, table[..j + 1]))
         == MappedLines(MapAttributes(rec, table[..j])) + MappedLines(EntryPairs(rec, table[j]))
  {
    assert table[..j + 1][..j] == table[..j];
    MappedLinesAppend(MapAttributes(rec, table[..j]), EntryPairs(rec, table[j]));
  }

  method AppendMappedAttributes(config: string, rec: Record, table: seq<Entry>) returns (out: string)
    ensures out == config + LinesText(MappedLines(MapAttributes(rec, table)))
  {
    out := config;
    var j := 0;
    while j < |table|
      invariant 0 <= j <= |table|
      invariant out == config + LinesText(MappedLines(MapAttributes(rec, table[..j])))
    {
      var next := AppendEntry(out, rec, table[j]);
      MappedLinesStep(rec, table, j);
      AppendLines(config, MappedLines(MapAttributes(rec, table[..j])), MappedLines(EntryPairs(rec, table[j])), out, next);
      out := next;
      j := j + 1;
    }
    assert table[..j] == table;
  }

  lemma InstanceBlockText(id: string, body: seq<Line>, head: string)
    requires head == "\nresource \"aws_instance\" \"" + id + "\" {"
    ensures BlockText(Block("aws_instance", id, body)) == head + LinesText(body) + "\n}"
  {
    assert "\nresource \"" + "aws_instance" + "\" \"" == "\nresource \"aws_instance\" \"";
  }

  /** `generate_instance_config`: the text of the instance's resource block. */
  method GenerateInstanceConfig(inst: Instance, table: seq<Entry>) returns (config: string)
    ensures config == BlockText(InstanceBlock(inst, table))
  {
    var head := "\nresource \"aws_instance\" \"" + inst.instanceId + "\" {";
    var tags := GetInstanceTags(inst.tags);
    var ami := "\n  ami           = \"" + inst.imageId + "\"";
    var instanceType := "\n  instance_type = \"" + inst.instanceType + "\"";
    config := head + ami + instanceType;
    ghost var body := RequiredLines(inst);
    RequiredText(inst);
    assert config == head + LinesText(body);

    var next := AppendTagsMap(config, tags);
    AppendLines(head, body, TagLines(tags), config, next);
    config, body := next, body + TagLines(tags);

    next := AppendEbsVolumes(config, inst.blockDeviceMappings, inst.rootDeviceName);
    AppendLines(head, body, EbsLines(inst.blockDeviceMappings, inst.rootDeviceName), config, next);
    config, body := next, body + EbsLines(inst.blockDeviceMappings, inst.rootDeviceName);

    next := AppendIamProfile(config, inst.iamInstanceProfileArn);
    AppendLines(head, body, IamLines(inst.iamInstanceProfileArn), config, next);
    config, body := next, body + IamLines(inst.iamInstanceProfileArn);

    next := AppendSecurityGroups(config, inst.securityGroupIds);
    AppendLines(head, body, SecurityGroupLines(inst.securityGroupIds), config, next);
    config, body := next, body + SecurityGroupLines(inst.securityGroupIds);

    tags := GetInstanceTags(inst.tags);
    next := AppendTagsMap(config, tags);
    AppendLines(head, body, TagLines(tags), config, next);
    config, body := next, body + TagLines(tags);

    next := AppendMappedAttributes(config, inst.attributes, table);
    AppendLines(head, body, MappedLines(MapAttributes(inst.attributes, table)), config, next);
    config, body := next, body + MappedLines(MapAttributes(inst.attributes, table));

    config := config + "\n}";
    assert body == InstanceBody(inst, table);
    InstanceBlockText(inst.instanceId, body, head);
  }
}
