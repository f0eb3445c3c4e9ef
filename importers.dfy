/**
 * The two importers, reduced to what they decide: which blocks go into
 * `ec2.tf` and `eventbridge.tf`, whether each file is written at all, and
 * whether it starts with the `provider "aws"` block. The records the AWS
 * calls would fetch are inputs; the output directory is a map from file
 * names to contents, and a file "exists" when its name is a key.
 */
module Importers {
  import opened Wrappers
  import opened Text
  import opened Json
  import opened Hcl
  import opened AttributeMapping
  import opened Instance
  import opened EventBridge

  /** `[f(x) for x in xs]`. */
  function MapSeq<A, B>(f: A -> B, xs: seq<A>): (r: seq<B>)
    ensures |r| == |xs|
  {
    if |xs| == 0 then [] else MapSeq(f, xs[..|xs| - 1]) + [f(xs[|xs| - 1])]
  }

  lemma MapSeqIndex<A, B>(f: A -> B, xs: seq<A>, i: nat)
    requires i < |xs|
    ensures |MapSeq(f, xs)| == |xs| && MapSeq(f, xs)[i] == f(xs[i])
  {
    if i < |xs| - 1 {
      MapSeqIndex(f, xs[..|xs| - 1], i);
    }
  }

  /** Mapping one more element appends its image to a list built so far. */
  lemma MapSeqStep<A, B>(f: A -> B, config: seq<B>, xs: seq<A>, j: nat, out: seq<B>, y: B)
    requires j < |xs|
    requires out == config + MapSeq(f, xs[..j]) && y == f(xs[j])
    ensures out + [y] == config + MapSeq(f, xs[..j + 1])
  {
    assert xs[..j + 1][..j] == xs[..j];
  }

  lemma {:induction false} MapSeqAppend<A, B>(f: A -> B, xs: seq<A>, ys: seq<A>)
    ensures MapSeq(f, xs + ys) == MapSeq(f, xs) + MapSeq(f, ys)
  {
    if |ys| > 0 {
      var init := ys[..|ys| - 1];
      MapSeqAppend(f, xs, init);
      assert (xs + ys)[..|xs + ys| - 1] == xs + init;
    } else {
      assert xs + ys == xs;
    }
  }

  /** The session's region and the profile it was opened with (`None` when it has none). */
  datatype Session = Session(region: string, profile: Option<string>)

  /** The profile the provider block names: the session's, or `default` when it has none or an empty one. */
  function ProfileName(s: Session): (r: string)
    ensures r != ""
    ensures r == "default" <==> s.profile.None? || s.profile.value == "" || s.profile.value == "default"
  {
    if s.profile.Some? && s.profile.value != "" then s.profile.value else "default"
  }

  /** The provider block both importers write, with a blank line before it and a newline after it. */
  function ProviderBlock(s: Session): string {
    "\nprovider \"aws\" {"
    + "\n  region  = \"" + s.region + "\""
    + "\n  profile = \"" + ProfileName(s) + "\""
    + "\n}\n"
  }

  /** The provider block's attribute lines, padded to the width of `profile`. */
  function ProviderLines(s: Session): seq<Line> {
    [AttrLine(Attr(2, "region", 7, Quote(s.region))), AttrLine(Attr(2, "profile", 7, Quote(ProfileName(s))))]
  }

  lemma RegionLine(v: string)
    ensures "\n" + AttrText(Attr(2, "region", 7, Quote(v))) == "\n  region  = \"" + v + "\""
  {
    var prefix := "\n  region  = \"";
    assert prefix == "\n" + Spaces(2) + "region" + Spaces(1) + " = " + "\"" by {
      TwoSpaces();
    }
    QuotedLineText(2, "region", 7, 1, prefix, v);
  }

  lemma ProfileLine(v: string)
    ensures "\n" + AttrText(Attr(2, "profile", 7, Quote(v))) == "\n  profile = \"" + v + "\""
  {
    var prefix := "\n  profile = \"";
    assert prefix == "\n" + Spaces(2) + "profile" + Spaces(0) + " = " + "\"" by {
      TwoSpaces();
      assert Spaces(0) == [];
    }
    QuotedLineText(2, "profile", 7, 0, prefix, v);
  }

  /**
   * The provider block is the `provider "aws"` opening line, a `region` line
   * holding the session's region and a `profile` line holding the profile
   * name, each quoted, and the closing brace followed by a newline.
   */
  lemma ProviderBlockSpec(s: Session)
    ensures ProviderBlock(s) == "\nprovider \"aws\" {" + LinesText(ProviderLines(s)) + "\n}\n"
    ensures Lookup(ProviderLines(s), "region") == Some(Quote(s.region))
    ensures Lookup(ProviderLines(s), "profile") == Some(Quote(ProfileName(s)))
  {
    var region := "\n  region  = \"" + s.region + "\"";
    var profile := "\n  profile = \"" + ProfileName(s) + "\"";
    RegionLine(s.region);
    ProfileLine(ProfileName(s));
    LinesTextPair(ProviderLines(s)[0], ProviderLines(s)[1]);
    var opening, closing := "\nprovider \"aws\" {", "\n}\n";
    assert opening + region + profile + closing == opening + (region + profile) + closing;
  }

  // ---------------------------------------------------------------------
  // EC2 instances

  /** One reservation of `describe_instances`. */
  datatype Reservation = Reservation(instances: seq<Instance>)

  /** The instances of all reservations, reservation by reservation, in order. */
  function AllInstances(rs: seq<Reservation>): seq<Instance> {
    if |rs| == 0 then [] else AllInstances(rs[..|rs| - 1]) + rs[|rs| - 1].instances
  }

  /** There are no instances exactly when every reservation is empty. */
  lemma {:induction false} AllInstancesEmpty(rs: seq<Reservation>)
    ensures |AllInstances(rs)| == 0 <==> forall i :: 0 <= i < |rs| ==> |rs[i].instances| == 0
  {
    if |rs| > 0 {
      var init := rs[..|rs| - 1];
      AllInstancesEmpty(init);
      assert forall i :: 0 <= i < |init| ==> init[i] == rs[i];
    }
  }

  /** The instances of one more reservation follow those of the reservations before it. */
  lemma AllInstancesSnoc(rs: seq<Reservation>, r: nat)
    requires r < |rs|
    ensures AllInstances(rs[..r + 1]) == AllInstances(rs[..r]) + rs[r].instances
  {
    assert rs[..r + 1][..r] == rs[..r];
  }


  /** The instance block of an instance, as `generate_instance_config` writes it. */
  function InstanceRender(table: seq<Entry>): Instance -> string {
    inst => BlockText(InstanceBlock(inst, table))
  }

  lemma InstanceRenderSpec(table: seq<Entry>)
    ensures forall inst {:trigger BlockText(InstanceBlock(inst, table))} ::
              InstanceRender(table)(inst) == BlockText(InstanceBlock(inst, table))
  {
  }

  /** The instance blocks, in the order the instances were listed. */
  function InstanceTexts(insts: seq<Instance>, table: seq<Entry>): seq<string> {
    MapSeq(InstanceRender(table), insts)
  }

  /** One more reservation appends the blocks of its instances. */
  lemma NextReservation(header: seq<string>, rs: seq<Reservation>, r: nat, table: seq<Entry>, before: seq<string>, after: seq<string>)
    requires r < |rs|
    requires before == header + InstanceTexts(AllInstances(rs[..r]), table)
    requires after == before + InstanceTexts(rs[r].instances, table)
    ensures after == header + InstanceTexts(AllInstances(rs[..r + 1]), table)
    ensures |AllInstances(rs[..r + 1])| == |AllInstances(rs[..r])| + |rs[r].instances|
  {
    AllInstancesSnoc(rs, r);
    MapSeqAppend(InstanceRender(table), AllInstances(rs[..r]), rs[r].instances);
    Regroup3(header, InstanceTexts(AllInstances(rs[..r]), table), InstanceTexts(rs[r].instances, table));
  }

  /** The contents of `ec2.tf`: the provider block and every instance block, joined by newlines. */
  function Ec2File(s: Session, rs: seq<Reservation>, table: seq<Entry>): string {
    JoinLines([ProviderBlock(s)] + InstanceTexts(AllInstances(rs), table))
  }

  /** The output directory after the EC2 importer: `ec2.tf` is (over)written only when there are instances. */
  function AfterEc2(files: map<string, string>, s: Session, rs: seq<Reservation>, table: seq<Entry>): map<string, string> {
    if |AllInstances(rs)| > 0 then files["ec2.tf" := Ec2File(s, rs, table)] else files
  }

  /**
   * With at least one instance, `ec2.tf` is the provider block, a newline,
   * then the instance blocks one per line group, in reservation order and
   * in order within each reservation.
   */
  lemma Ec2FileLayout(s: Session, rs: seq<Reservation>, table: seq<Entry>)
    requires |AllInstances(rs)| > 0
    ensures Ec2File(s, rs, table) == ProviderBlock(s) + "\n" + JoinLines(InstanceTexts(AllInstances(rs), table))
  {
    JoinLinesCons(ProviderBlock(s), InstanceTexts(AllInstances(rs), table));
  }

  // ---------------------------------------------------------------------
  // EventBridge rules

  /** A rule of `list_rules` with the targets `list_targets_by_rule` returns for it. */
  datatype FetchedRule = FetchedRule(rule: Rule, targets: seq<Target>)

  /** Every rule's event pattern, if any, is JSON the codec accepts. */
  predicate AllPatternsParse(codec: Codec, fetched: seq<FetchedRule>) {
    forall i :: 0 <= i < |fetched| ==> PatternParses(codec, fetched[i].rule)
  }

  /** A rule's configuration text. */
  function RuleText(codec: Codec, f: FetchedRule): string
    requires PatternParses(codec, f.rule)
  {
    BlocksText(RuleBlocks(codec, f.rule, f.targets))
  }

  /**
   * The configuration text `generate_eventbridge_rule_config` writes for a
   * rule whose pattern parses (the importer is never given another; the
   * empty text stands in for the exception it would raise).
   */
  function RuleRender(codec: Codec): FetchedRule -> string {
    (f: FetchedRule) => if PatternParses(codec, f.rule) then RuleText(codec, f) else ""
  }

  lemma RuleRenderSpec(codec: Codec)
    ensures forall f: FetchedRule {:trigger BlocksText(RuleBlocks(codec, f.rule, f.targets))} ::
              PatternParses(codec, f.rule) ==> RuleRender(codec)(f) == BlocksText(RuleBlocks(codec, f.rule, f.targets))
  {
  }

  /** Each rule's configuration text, in the order the rules were listed. */
  function RuleTexts(codec: Codec, fetched: seq<FetchedRule>): seq<string> {
    MapSeq(RuleRender(codec), fetched)
  }

  /** The contents of `eventbridge.tf`: the provider block unless `ec2.tf` exists, then every rule's text. */
  function EventbridgeFile(s: Session, codec: Codec, fetched: seq<FetchedRule>, hasEc2: bool): string
    requires AllPatternsParse(codec, fetched)
  {
    JoinLines((if hasEc2 then [] else [ProviderBlock(s)]) + RuleTexts(codec, fetched))
  }

  /** The output directory after the EventBridge importer: nothing is written when there are no rules. */
  function AfterEventbridge(files: map<string, string>, s: Session, codec: Codec, fetched: seq<FetchedRule>): map<string, string>
    requires AllPatternsParse(codec, fetched)
  {
    if |fetched| == 0 then files
    else files["eventbridge.tf" := EventbridgeFile(s, codec, fetched, "ec2.tf" in files)]
  }

  /** A rule's configuration text starts with its rule block's opening line, `"\nresource ..."`. */
  lemma RuleTextStart(codec: Codec, f: FetchedRule)
    requires PatternParses(codec, f.rule)
    ensures |RuleText(codec, f)| >= 2 && RuleText(codec, f)[..2] == "\nr"
  {
    RuleBlocksSpec(codec, f.rule, f.targets);
    BlocksTextStart(RuleBlocks(codec, f.rule, f.targets));
  }

  /** Text that starts with `x` does not start with a `p` whose second character differs from `x`'s. */
  lemma DifferentStarts(p: string, x: string, text: string)
    requires 2 <= |p| && 2 <= |x| <= |text| && text[..|x|] == x
    requires p[1] != x[1]
    ensures !(p <= text)
  {
    assert text[1] == x[1];
  }

  /**
   * `eventbridge.tf` begins with the provider block if and only if `ec2.tf`
   * did not exist when the importer ran.
   */
  lemma EventbridgeProviderIff(s: Session, codec: Codec, fetched: seq<FetchedRule>, hasEc2: bool)
    requires AllPatternsParse(codec, fetched)
    requires |fetched| > 0
    ensures ProviderBlock(s) <= EventbridgeFile(s, codec, fetched, hasEc2) <==> !hasEc2
  {
    var texts := RuleTexts(codec, fetched);
    var provider := ProviderBlock(s);
    var chunks := (if hasEc2 then [] else [provider]) + texts;
    JoinLinesStartsWithFirst(chunks);
    if hasEc2 {
      FirstRuleTextStart(codec, fetched);
      ProviderStart(s);
      DifferentStarts(provider, chunks[0][..2], JoinLines(chunks));
    } else {
      assert chunks[0] == provider;
    }
  }

  /** The first rule's text, which heads `eventbridge.tf` when `ec2.tf` exists, starts with `"\nr"`. */
  lemma FirstRuleTextStart(codec: Codec, fetched: seq<FetchedRule>)
    requires AllPatternsParse(codec, fetched)
    requires |fetched| > 0
    ensures |RuleTexts(codec, fetched)[0]| >= 2 && RuleTexts(codec, fetched)[0][..2] == "\nr"
  {
    MapSeqIndex(RuleRender(codec), fetched, 0);
    RuleTextStart(codec, fetched[0]);
  }

  lemma ProviderStart(s: Session)
    ensures |ProviderBlock(s)| >= 2 && ProviderBlock(s)[1] == 'p'
  {
    var opening := "\nprovider \"aws\" {";
    var rest := "\n  region  = \"" + s.region + "\"" + "\n  profile = \"" + ProfileName(s) + "\"" + "\n}\n";
    assert ProviderBlock(s) == opening + rest;
    assert (opening + rest)[1] == opening[1];
  }

  /** `ec2.tf`, when written, begins with the provider block. */
  lemma Ec2StartsWithProvider(s: Session, rs: seq<Reservation>, table: seq<Entry>)
    requires |AllInstances(rs)| > 0
    ensures ProviderBlock(s) <= Ec2File(s, rs, table)
  {
    Ec2FileLayout(s, rs, table);
    PrefixOfConcat(ProviderBlock(s), "\n" + JoinLines(InstanceTexts(AllInstances(rs), table)));
  }

  /** Writing one file leaves every other file as it was. */
  lemma UpdateKeepsOther<K, V>(m: map<K, V>, k: K, v: V, other: K)
    requires k != other
    ensures other in m[k := v] <==> other in m
    ensures other in m ==> m[k := v][other] == m[other]
  {
  }

  lemma PrefixOfConcat<T>(p: seq<T>, rest: seq<T>)
    ensures p <= p + rest
  {
    assert (p + rest)[..|p|] == p;
  }

  /**
   * Importing instances and then rules into a directory without `ec2.tf`
   * writes the provider block once: at the head of `ec2.tf` when there
   * were instances, otherwise at the head of `eventbridge.tf` when there
   * were rules; and `eventbridge.tf` carries none when `ec2.tf` was written.
   */
  lemma ProviderWrittenOnce(files: map<string, string>, s: Session, rs: seq<Reservation>, table: seq<Entry>,
                            codec: Codec, fetched: seq<FetchedRule>)
    requires "ec2.tf" !in files
    requires AllPatternsParse(codec, fetched)
    ensures var after := AfterEventbridge(AfterEc2(files, s, rs, table), s, codec, fetched);
      && ("ec2.tf" in after <==> |AllInstances(rs)| > 0)
      && ("ec2.tf" in after ==> ProviderBlock(s) <= after["ec2.tf"])
      && (|fetched| > 0 ==> "eventbridge.tf" in after
                            && (ProviderBlock(s) <= after["eventbridge.tf"] <==> "ec2.tf" !in after))
  {
    var mid := AfterEc2(files, s, rs, table);
    if |AllInstances(rs)| > 0 {
      Ec2StartsWithProvider(s, rs, table);
    }
    assert |"eventbridge.tf"| != |"ec2.tf"|;
    if |fetched| > 0 {
      UpdateKeepsOther(mid, "eventbridge.tf", EventbridgeFile(s, codec, fetched, "ec2.tf" in mid), "ec2.tf");
      EventbridgeProviderIff(s, codec, fetched, "ec2.tf" in mid);
    }
  }

  // ---------------------------------------------------------------------
  // The importers

  /** Appends one reservation's instance blocks, counting the instances. */
  method AppendReservation(config: seq<string>, count: nat, instances: seq<Instance>, table: seq<Entry>,
                           ghost render: Instance -> string)
    returns (out: seq<string>, outCount: nat)
    requires forall inst {:trigger BlockText(InstanceBlock(inst, table))} :: render(inst) == BlockText(InstanceBlock(inst, table))
    ensures out == config + MapSeq(render, instances)
    ensures outCount == count + |instances|
  {
    out, outCount := config, count;
    for j := 0 to |instances|
      invariant out == config + MapSeq(render, instances[..j])
      invariant outCount == count + j
    {
      outCount := outCount + 1;
      var block := GenerateInstanceConfig(instances[j], table);
      MapSeqStep(render, config, instances, j, out, block);
      out := out + [block];
    }
    assert instances[..|instances|] == instances;
  }

  /**
   * The list `import_ec2_resources` joins: the provider block, then one
   * block per instance of every reservation, in order; and the number of
   * instances converted.
   */
  method CollectInstanceBlocks(session: Session, reservations: seq<Reservation>, table: seq<Entry>)
    returns (terraformConfig: seq<string>, instanceCount: nat)
    ensures terraformConfig == [ProviderBlock(session)] + InstanceTexts(AllInstances(reservations), table)
    ensures instanceCount == |AllInstances(reservations)|
  {
    terraformConfig := [ProviderBlock(session)];
    instanceCount := 0;
    for r := 0 to |reservations|
      invariant terraformConfig == [ProviderBlock(session)] + InstanceTexts(AllInstances(reservations[..r]), table)
      invariant instanceCount == |AllInstances(reservations[..r])|
    {
      ghost var before := terraformConfig;
      InstanceRenderSpec(table);
      terraformConfig, instanceCount := AppendReservation(terraformConfig, instanceCount, reservations[r].instances, table, InstanceRender(table));
      NextReservation([ProviderBlock(session)], reservations, r, table, before, terraformConfig);
    }
    assert reservations[..|reservations|] == reservations;
  }

  /** Appends each rule's configuration text to `header`, counting the rules. */
  method AppendRules(header: seq<string>, codec: Codec, fetched: seq<FetchedRule>, region: string,
                     ghost render: FetchedRule -> string)
    returns (terraformConfig: seq<string>, ruleCount: nat)
    requires AllPatternsParse(codec, fetched)
    requires forall f: FetchedRule {:trigger BlocksText(RuleBlocks(codec, f.rule, f.targets))} ::
               PatternParses(codec, f.rule) ==> render(f) == BlocksText(RuleBlocks(codec, f.rule, f.targets))
    ensures terraformConfig == header + MapSeq(render, fetched)
    ensures ruleCount == |fetched|
  {
    terraformConfig, ruleCount := header, 0;
    for i := 0 to |fetched|
      invariant terraformConfig == header + MapSeq(render, fetched[..i])
      invariant ruleCount == i
    {
      ruleCount := ruleCount + 1;
      var ruleConfig := GenerateEventbridgeRuleConfig(codec, fetched[i].rule, fetched[i].targets, region);
      MapSeqStep(render, header, fetched, i, terraformConfig, ruleConfig);
      terraformConfig := terraformConfig + [ruleConfig];
    }
    assert fetched[..|fetched|] == fetched;
  }

  /** The directory the `.tf` files are written to. */
  class OutputDirectory {
    var files: map<string, string>

    constructor (files: map<string, string>)
      ensures this.files == files
    {
      this.files := files;
    }

    /**
     * `import_ec2_resources`: the provider block, then one block per
     * instance across all reservations; `ec2.tf` is written only when at
     * least one instance was converted. Returns the instance count.
     */
    method ImportEc2Resources(session: Session, reservations: seq<Reservation>, table: seq<Entry>)
      returns (instanceCount: nat)
      modifies this
      ensures instanceCount == |AllInstances(reservations)|
      ensures files == AfterEc2(old(files), session, reservations, table)
    {
      var terraformConfig;
      terraformConfig, instanceCount := CollectInstanceBlocks(session, reservations, table);
      if instanceCount > 0 {
        files := files["ec2.tf" := JoinLines(terraformConfig)];
      }
    }

    /**
     * `import_eventbridge_rules`: nothing is written when there are no
     * rules; otherwise `eventbridge.tf` holds the provider block (only when
     * `ec2.tf` does not exist yet) and each rule's text. Returns the rule count.
     */
    method ImportEventbridgeRules(session: Session, codec: Codec, fetched: seq<FetchedRule>)
      returns (ruleCount: nat)
      requires AllPatternsParse(codec, fetched)
      modifies this
      ensures ruleCount == |fetched|
      ensures files == AfterEventbridge(old(files), session, codec, fetched)
    {
      ruleCount := 0;
      if |fetched| == 0 {
        return;
      }
      var terraformConfig: seq<string> := [];
      if "ec2.tf" !in files {
        terraformConfig := terraformConfig + [ProviderBlock(session)];
      }
      ghost var header := terraformConfig;
      assert header == (if "ec2.tf" in files then [] else [ProviderBlock(session)]);
      RuleRenderSpec(codec);
      terraformConfig, ruleCount := AppendRules(terraformConfig, codec, fetched, session.region, RuleRender(codec));
      assert terraformConfig == header + RuleTexts(codec, fetched);
      assert JoinLines(terraformConfig) == EventbridgeFile(session, codec, fetched, "ec2.tf" in files);
      files := files["eventbridge.tf" := JoinLines(terraformConfig)];
    }
  }
}
