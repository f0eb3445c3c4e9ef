/**
 * The EventBridge builder: one rule record and its targets become an
 * `aws_cloudwatch_event_rule` block followed by one
 * `aws_cloudwatch_event_target` block per target, each block separated from
 * the previous one by a newline.
 */
module EventBridge {
  import opened Wrappers
  import opened Text
  import opened Json
  import opened Hcl

  /** A rule as `list_rules` returns it; `State` is required, every other key but `Name` optional. */
  datatype Rule = Rule(
    name: string,
    description: Option<string>,
    scheduleExpression: Option<string>,
    eventPattern: Option<string>,
    state: string,
    eventBusName: Option<string>,
    roleArn: Option<string>)

  datatype InputTransformer = InputTransformer(inputPathsMap: Option<Json>, inputTemplate: Option<string>)

  /** A target as `list_targets_by_rule` returns it. */
  datatype Target = Target(
    id: string,
    arn: string,
    roleArn: Option<string>,
    input: Option<string>,
    inputPath: Option<string>,
    inputTransformer: Option<InputTransformer>)

  // ---------------------------------------------------------------------
  // Names

  /** The rule's Terraform name: every `-`, then every `.`, replaced by `_`. */
  function ResourceName(name: string): string {
    Replace(Replace(name, '-', '_'), '.', '_')
  }

  /**
   * The resource name has the rule name's length, keeps every other
   * character in place, and contains neither `-` nor `.`.
   */
  lemma ResourceNameSpec(name: string)
    ensures |ResourceName(name)| == |name|
    ensures forall i :: 0 <= i < |name| ==>
              ResourceName(name)[i] == if name[i] == '-' || name[i] == '.' then '_' else name[i]
    ensures '-' !in ResourceName(name) && '.' !in ResourceName(name)
  {
    var dashless := Replace(name, '-', '_');
    ReplaceAt(name, '-', '_');
    ReplaceAt(dashless, '.', '_');
    var r := ResourceName(name);
    forall c | c in r ensures c != '-' && c != '.' {
      var i :| 0 <= i < |r| && r[i] == c;
      assert r[i] == if dashless[i] == '.' then '_' else dashless[i];
    }
  }

  /** The target at position `idx` is named `<resource name>_target_<idx>`. */
  function TargetName(resourceName: string, idx: nat): string {
    resourceName + "_target_" + NatToString(idx)
  }

  /** Targets at different positions get different names. */
  lemma TargetNamesDistinct(resourceName: string, i: nat, j: nat)
    ensures TargetName(resourceName, i) == TargetName(resourceName, j) <==> i == j
  {
    if TargetName(resourceName, i) == TargetName(resourceName, j) {
      var p := resourceName + "_target_";
      assert NatToString(i) == TargetName(resourceName, i)[|p|..];
      assert NatToString(j) == TargetName(resourceName, j)[|p|..];
      NatToStringInjective(i, j);
    }
  }

  /** The reference a target's `rule` line holds, unquoted. */
  function RuleReference(resourceName: string): string {
    "aws_cloudwatch_event_rule." + resourceName + ".name"
  }

  // ---------------------------------------------------------------------
  // The rule block

  function Quoted(o: Option<string>): Option<string> {
    if o.Some? then Some(Quote(o.value)) else None
  }

  /** `json.loads` accepts the rule's event pattern, when it has one; the source raises otherwise. */
  predicate PatternParses(codec: Codec, rule: Rule) {
    rule.eventPattern.Some? ==> codec.decode(rule.eventPattern.value).Some?
  }

  /** The pattern re-serialised, or the bare token `null` when the rule has none. */
  function EventPatternText(codec: Codec, rule: Rule): string
    requires PatternParses(codec, rule)
  {
    if rule.eventPattern.Some? then Canonical(codec, rule.eventPattern.value) else "null"
  }

  function RuleFixedLines(codec: Codec, rule: Rule): seq<Line>
    requires PatternParses(codec, rule)
  {
    [ AttrLine(Attr(2, "name", 19, Quote(rule.name))),
      AttrLine(Attr(2, "description", 19, Quote(rule.description.GetOr("")))),
      AttrLine(Attr(2, "schedule_expression", 19, Quote(rule.scheduleExpression.GetOr("")))),
      AttrLine(Attr(2, "event_pattern", 19, EventPatternText(codec, rule))),
      AttrLine(Attr(2, "is_enabled", 19, BoolText(rule.state == "ENABLED"))) ]
  }

  /** The bus line's value: only a bus other than `default` is written. */
  function EventBusValue(rule: Rule): Option<string> {
    if rule.eventBusName.Some? && rule.eventBusName.value != "default" then Some(Quote(rule.eventBusName.value))
    else None
  }

  function RuleBody(codec: Codec, rule: Rule): seq<Line>
    requires PatternParses(codec, rule)
  {
    RuleFixedLines(codec, rule)
    + OptionalLine(2, "event_bus_name", 0, EventBusValue(rule))
    + OptionalLine(2, "role_arn", 0, Quoted(rule.roleArn))
  }

  function RuleBlock(codec: Codec, rule: Rule): Block
    requires PatternParses(codec, rule)
  {
    Block("aws_cloudwatch_event_rule", ResourceName(rule.name), RuleBody(codec, rule))
  }

  // ---------------------------------------------------------------------
  // The target blocks

  function TargetFixedLines(resourceName: string, t: Target): seq<Line> {
    [ AttrLine(Attr(2, "rule", 9, RuleReference(resourceName))),
      AttrLine(Attr(2, "target_id", 9, Quote(t.id))),
      AttrLine(Attr(2, "arn", 9, Quote(t.arn))) ]
  }

  /** `Input`, JSON-encoded as a string, wins over `InputPath`. */
  function InputLines(codec: Codec, t: Target): seq<Line> {
    if t.input.Some? then [AttrLine(Attr(2, "input", 0, codec.encode(JString(t.input.value))))]
    else if t.inputPath.Some? then [AttrLine(Attr(2, "input_path", 0, Quote(t.inputPath.value)))]
    else []
  }

  function EncodedPaths(codec: Codec, tr: InputTransformer): Option<string> {
    if tr.inputPathsMap.Some? then Some(codec.encode(tr.inputPathsMap.value)) else None
  }

  function EncodedTemplate(codec: Codec, tr: InputTransformer): Option<string> {
    if tr.inputTemplate.Some? then Some(codec.encode(JString(tr.inputTemplate.value))) else None
  }

  function TransformerAttrs(codec: Codec, tr: InputTransformer): seq<Attr> {
    OptionalEntry(4, "input_paths", 0, EncodedPaths(codec, tr))
    + OptionalEntry(4, "input_template", 0, EncodedTemplate(codec, tr))
  }

  function TransformerLines(codec: Codec, tr: Option<InputTransformer>): seq<Line> {
    if tr.Some? then [Section(2, "input_transformer", TransformerAttrs(codec, tr.value))] else []
  }

  function TargetBody(codec: Codec, resourceName: string, t: Target): seq<Line> {
    TargetFixedLines(resourceName, t)
    + OptionalLine(2, "role_arn", 0, Quoted(t.roleArn))
    + InputLines(codec, t)
    + TransformerLines(codec, t.inputTransformer)
  }

  function TargetBlock(codec: Codec, resourceName: string, idx: nat, t: Target): Block {
    Block("aws_cloudwatch_event_target", TargetName(resourceName, idx), TargetBody(codec, resourceName, t))
  }

  function TargetBlocks(codec: Codec, resourceName: string, targets: seq<Target>): seq<Block> {
    seq(|targets|, i requires 0 <= i < |targets| => TargetBlock(codec, resourceName, i, targets[i]))
  }

  /** The rule block, then the target blocks in list order. */
  function RuleBlocks(codec: Codec, rule: Rule, targets: seq<Target>): seq<Block>
    requires PatternParses(codec, rule)
  {
    [RuleBlock(codec, rule)] + TargetBlocks(codec, ResourceName(rule.name), targets)
  }

  // ---------------------------------------------------------------------
  // Properties of the rule block

  /** A key other than the five fixed ones is looked up past the fixed lines. */
  lemma RuleBodyLookupPastFixed(codec: Codec, rule: Rule, k: string)
    requires PatternParses(codec, rule)
    requires k !in ["name", "description", "schedule_expression", "event_pattern", "is_enabled"]
    ensures Lookup(RuleBody(codec, rule), k)
         == if k == "event_bus_name" then EventBusValue(rule)
            else if k == "role_arn" then Quoted(rule.roleArn)
            else None
  {
    var fixed := RuleFixedLines(codec, rule);
    var bus, role := OptionalLine(2, "event_bus_name", 0, EventBusValue(rule)), OptionalLine(2, "role_arn", 0, Quoted(rule.roleArn));
    assert !HasKey(fixed, k);
    LookupAppend(fixed + bus, role, k);
    LookupAppend(fixed, bus, k);
    OptionalLineLookup(2, "event_bus_name", 0, EventBusValue(rule), k);
    OptionalLineLookup(2, "role_arn", 0, Quoted(rule.roleArn), k);
  }

  /** A fixed key is found in the fixed lines. */
  lemma RuleBodyLookupFixed(codec: Codec, rule: Rule, i: nat)
    requires PatternParses(codec, rule)
    requires i < 5
    ensures var l := RuleFixedLines(codec, rule)[i];
      Lookup(RuleBody(codec, rule), l.attr.key) == Some(l.attr.value)
  {
    var fixed := RuleFixedLines(codec, rule);
    var rest := OptionalLine(2, "event_bus_name", 0, EventBusValue(rule)) + OptionalLine(2, "role_arn", 0, Quoted(rule.roleArn));
    assert RuleBody(codec, rule) == fixed + rest;
    RuleFixedKeysFirst(codec, rule, i);
    LookupFirstOfPrefix(fixed, rest, i);
  }

  /** No fixed line before the `i`-th has its key. */
  lemma RuleFixedKeysFirst(codec: Codec, rule: Rule, i: nat)
    requires PatternParses(codec, rule)
    requires i < 5
    ensures var fixed := RuleFixedLines(codec, rule);
      forall j :: 0 <= j < i ==> !(fixed[j].AttrLine? && fixed[j].attr.key == fixed[i].attr.key)
  {
    var keys := ["name", "description", "schedule_expression", "event_pattern", "is_enabled"];
    var fixed := RuleFixedLines(codec, rule);
    assert forall j :: 0 <= j < 5 ==> fixed[j].AttrLine? && fixed[j].attr.key == keys[j];
    assert forall j :: 0 <= j < i ==> |keys[j]| != |keys[i]| || keys[j][0] != keys[i][0];
  }

  /**
   * The rule's lines: its name and description and schedule quoted, the
   * last two defaulting to the empty string; `is_enabled` is `true` exactly
   * when the state is `ENABLED`, `false` otherwise, and never quoted.
   */
  lemma RuleBodySpec(codec: Codec, rule: Rule)
    requires PatternParses(codec, rule)
    ensures Lookup(RuleBody(codec, rule), "name") == Some(Quote(rule.name))
    ensures Lookup(RuleBody(codec, rule), "description") == Some(Quote(rule.description.GetOr("")))
    ensures Lookup(RuleBody(codec, rule), "schedule_expression") == Some(Quote(rule.scheduleExpression.GetOr("")))
    ensures Lookup(RuleBody(codec, rule), "is_enabled") == Some(if rule.state == "ENABLED" then "true" else "false")
  {
    RuleBodyLookupFixed(codec, rule, 0);
    RuleBodyLookupFixed(codec, rule, 1);
    RuleBodyLookupFixed(codec, rule, 2);
    RuleBodyLookupFixed(codec, rule, 4);
  }

  /**
   * The event pattern is written re-serialised, so it parses back to the
   * document the rule's pattern parses to; a rule without one gets `null`.
   */
  lemma EventPatternKept(codec: Codec, rule: Rule)
    requires RoundTrips(codec)
    requires PatternParses(codec, rule)
    ensures rule.eventPattern.None? ==> Lookup(RuleBody(codec, rule), "event_pattern") == Some("null")
    ensures rule.eventPattern.Some? ==>
              && Lookup(RuleBody(codec, rule), "event_pattern").Some?
              && codec.decode(Lookup(RuleBody(codec, rule), "event_pattern").value) == codec.decode(rule.eventPattern.value)
  {
    RuleBodyLookupFixed(codec, rule, 3);
    if rule.eventPattern.Some? {
      CanonicalKeepsDocument(codec, rule.eventPattern.value);
    }
  }

  /**
   * `event_bus_name` is written exactly when the rule names a bus other
   * than `default`, and then holds that name quoted; `role_arn` exactly when
   * the rule has one.
   */
  lemma RuleOptionalLines(codec: Codec, rule: Rule)
    requires PatternParses(codec, rule)
    ensures HasKey(RuleBody(codec, rule), "event_bus_name")
        <==> rule.eventBusName.Some? && rule.eventBusName.value != "default"
    ensures HasKey(RuleBody(codec, rule), "event_bus_name") ==>
              Lookup(RuleBody(codec, rule), "event_bus_name") == Some(Quote(rule.eventBusName.value))
    ensures Lookup(RuleBody(codec, rule), "role_arn") == Quoted(rule.roleArn)
  {
    RuleBodyLookupPastFixed(codec, rule, "event_bus_name");
    RuleBodyLookupPastFixed(codec, rule, "role_arn");
  }

  // ---------------------------------------------------------------------
  // Properties of the target blocks

  /** A key the fixed target lines lack is looked up past them. */
  lemma TargetBodyLookupPastFixed(codec: Codec, resourceName: string, t: Target, k: string)
    requires k !in ["rule", "target_id", "arn"]
    ensures Lookup(TargetBody(codec, resourceName, t), k)
         == if k == "role_arn" then Quoted(t.roleArn) else Lookup(InputLines(codec, t), k)
  {
    var fixed, role := TargetFixedLines(resourceName, t), OptionalLine(2, "role_arn", 0, Quoted(t.roleArn));
    var input, tr := InputLines(codec, t), TransformerLines(codec, t.inputTransformer);
    assert !HasKey(fixed, k);
    assert !HasKey(tr, k);
    LookupAppend(fixed + role + input, tr, k);
    LookupAppend(fixed + role, input, k);
    LookupAppend(fixed, role, k);
    OptionalLineLookup(2, "role_arn", 0, Quoted(t.roleArn), k);
  }

  /** The fixed target lines come first. */
  lemma TargetBodyLookupFixed(codec: Codec, resourceName: string, t: Target, i: nat)
    requires i < 3
    ensures var l := TargetFixedLines(resourceName, t)[i];
      Lookup(TargetBody(codec, resourceName, t), l.attr.key) == Some(l.attr.value)
  {
    var fixed := TargetFixedLines(resourceName, t);
    var rest := OptionalLine(2, "role_arn", 0, Quoted(t.roleArn)) + InputLines(codec, t) + TransformerLines(codec, t.inputTransformer);
    assert TargetBody(codec, resourceName, t) == fixed + rest;
    LookupFirstOfPrefix(fixed, rest, i);
  }

  /**
   * Every target block's `rule` line is the unquoted reference to the rule
   * block's name; `target_id` and `arn` hold the target's id and ARN quoted.
   */
  lemma TargetBodySpec(codec: Codec, resourceName: string, t: Target)
    ensures Lookup(TargetBody(codec, resourceName, t), "rule") == Some(RuleReference(resourceName))
    ensures Lookup(TargetBody(codec, resourceName, t), "target_id") == Some(Quote(t.id))
    ensures Lookup(TargetBody(codec, resourceName, t), "arn") == Some(Quote(t.arn))
  {
    TargetBodyLookupFixed(codec, resourceName, t, 0);
    TargetBodyLookupFixed(codec, resourceName, t, 1);
    TargetBodyLookupFixed(codec, resourceName, t, 2);
  }

  /**
   * A target with `Input` gets an `input` line and no `input_path` line;
   * one without `Input` gets an `input_path` line exactly when it has
   * `InputPath`, quoted; `role_arn` appears exactly when the target has one.
   */
  lemma InputPrecedence(codec: Codec, resourceName: string, t: Target)
    ensures HasKey(TargetBody(codec, resourceName, t), "input") <==> t.input.Some?
    ensures HasKey(TargetBody(codec, resourceName, t), "input_path") <==> t.input.None? && t.inputPath.Some?
    ensures !(HasKey(TargetBody(codec, resourceName, t), "input") && HasKey(TargetBody(codec, resourceName, t), "input_path"))
    ensures t.input.None? && t.inputPath.Some? ==>
              Lookup(TargetBody(codec, resourceName, t), "input_path") == Some(Quote(t.inputPath.value))
    ensures Lookup(TargetBody(codec, resourceName, t), "role_arn") == Quoted(t.roleArn)
  {
    TargetBodyLookupPastFixed(codec, resourceName, t, "input");
    TargetBodyLookupPastFixed(codec, resourceName, t, "input_path");
    TargetBodyLookupPastFixed(codec, resourceName, t, "role_arn");
  }

  /** The `input` line is the input JSON-encoded as a string: decoding it gives the input back. */
  lemma InputRoundTrip(codec: Codec, resourceName: string, t: Target)
    requires RoundTrips(codec)
    requires t.input.Some?
    ensures Lookup(TargetBody(codec, resourceName, t), "input").Some?
    ensures codec.decode(Lookup(TargetBody(codec, resourceName, t), "input").value) == Some(JString(t.input.value))
  {
    TargetBodyLookupPastFixed(codec, resourceName, t, "input");
  }

  /**
   * The `input_transformer` sub-block appears exactly when the target has
   * an input transformer; it holds `input_paths` exactly when the
   * transformer has a paths map and `input_template` exactly when it has a
   * template, each decoding back to what the transformer holds. The paths
   * map comes from a Python `dict`, so its keys are distinct.
   */
  lemma TransformerSpec(codec: Codec, resourceName: string, t: Target)
    requires RoundTrips(codec)
    requires t.inputTransformer.Some? && t.inputTransformer.value.inputPathsMap.Some? ==>
               WellFormed(t.inputTransformer.value.inputPathsMap.value)
    ensures Sections(TargetBody(codec, resourceName, t), "input_transformer")
         == if t.inputTransformer.Some? then [TransformerAttrs(codec, t.inputTransformer.value)] else []
    ensures t.inputTransformer.Some? ==>
              var tr := t.inputTransformer.value;
              var attrs := TransformerAttrs(codec, tr);
              && (AttrLookup(attrs, "input_paths").Some? <==> tr.inputPathsMap.Some?)
              && (AttrLookup(attrs, "input_template").Some? <==> tr.inputTemplate.Some?)
              && (tr.inputPathsMap.Some? ==> codec.decode(AttrLookup(attrs, "input_paths").value) == tr.inputPathsMap)
              && (tr.inputTemplate.Some? ==>
                    codec.decode(AttrLookup(attrs, "input_template").value) == Some(JString(tr.inputTemplate.value)))
  {
    var fixed, role := TargetFixedLines(resourceName, t), OptionalLine(2, "role_arn", 0, Quoted(t.roleArn));
    var input, trl := InputLines(codec, t), TransformerLines(codec, t.inputTransformer);
    var h := "input_transformer";
    SectionsAppend(fixed + role + input, trl, h);
    SectionsAppend(fixed + role, input, h);
    SectionsAppend(fixed, role, h);
    OptionalLineLookup(2, "role_arn", 0, Quoted(t.roleArn), h);
    SectionsOfAttrLines(fixed, h);
    SectionsOfAttrLines(input, h);
    if t.inputTransformer.Some? {
      assert trl[1..] == [];
      var tr := t.inputTransformer.value;
      var paths, template := EncodedPaths(codec, tr), EncodedTemplate(codec, tr);
      var a, b := OptionalEntry(4, "input_paths", 0, paths), OptionalEntry(4, "input_template", 0, template);
      AttrLookupAppend(a, b, "input_paths");
      AttrLookupAppend(a, b, "input_template");
      OptionalEntryLookup(4, "input_paths", 0, paths, "input_paths");
      OptionalEntryLookup(4, "input_paths", 0, paths, "input_template");
      OptionalEntryLookup(4, "input_template", 0, template, "input_paths");
      OptionalEntryLookup(4, "input_template", 0, template, "input_template");
    }
  }

  /**
   * One block per target, in list order: the target at position `i` is
   * named `<resource name>_target_<i>` and has that target's lines.
   */
  lemma TargetBlocksSpec(codec: Codec, resourceName: string, targets: seq<Target>)
    ensures |TargetBlocks(codec, resourceName, targets)| == |targets|
    ensures forall i :: 0 <= i < |targets| ==>
              var b := TargetBlocks(codec, resourceName, targets)[i];
              && b.kind == "aws_cloudwatch_event_target"
              && b.name == TargetName(resourceName, i)
              && b.body == TargetBody(codec, resourceName, targets[i])
  {
  }

  /** The rule block comes first, named by the resource name; the target blocks follow. */
  lemma RuleBlocksSpec(codec: Codec, rule: Rule, targets: seq<Target>)
    requires PatternParses(codec, rule)
    ensures var blocks := RuleBlocks(codec, rule, targets);
      && |blocks| == |targets| + 1
      && blocks[0].kind == "aws_cloudwatch_event_rule"
      && blocks[0].name == ResourceName(rule.name)
      && blocks[0].body == RuleBody(codec, rule)
      && blocks[1..] == TargetBlocks(codec, ResourceName(rule.name), targets)
  {
  }

  /** Adding a target adds its block at the end. */
  lemma RuleBlocksSnoc(codec: Codec, rule: Rule, targets: seq<Target>, t: Target)
    requires PatternParses(codec, rule)
    ensures RuleBlocks(codec, rule, targets + [t])
         == RuleBlocks(codec, rule, targets) + [TargetBlock(codec, ResourceName(rule.name), |targets|, t)]
  {
    var rn := ResourceName(rule.name);
    TargetBlocksSnoc(codec, rn, targets, t);
    var r, bs, b := RuleBlock(codec, rule), TargetBlocks(codec, rn, targets), TargetBlock(codec, rn, |targets|, t);
    assert [r] + (bs + [b]) == [r] + bs + [b];
  }

  /** The blocks for one more target of the list are those so far and the new target's block. */
  lemma RuleBlocksPrefixSnoc(codec: Codec, rule: Rule, targets: seq<Target>, idx: nat)
    requires PatternParses(codec, rule)
    requires idx < |targets|
    ensures |RuleBlocks(codec, rule, targets[..idx])| > 0
    ensures RuleBlocks(codec, rule, targets[..idx + 1])
         == RuleBlocks(codec, rule, targets[..idx]) + [TargetBlock(codec, ResourceName(rule.name), idx, targets[idx])]
  {
    assert targets[..idx + 1] == targets[..idx] + [targets[idx]];
    RuleBlocksSnoc(codec, rule, targets[..idx], targets[idx]);
  }

  lemma TargetBlocksSnoc(codec: Codec, resourceName: string, targets: seq<Target>, t: Target)
    ensures TargetBlocks(codec, resourceName, targets + [t])
         == TargetBlocks(codec, resourceName, targets) + [TargetBlock(codec, resourceName, |targets|, t)]
  {
    var ts := targets + [t];
    var all := TargetBlocks(codec, resourceName, ts);
    var split := TargetBlocks(codec, resourceName, targets) + [TargetBlock(codec, resourceName, |targets|, t)];
    forall i | 0 <= i < |ts|
      ensures all[i] == split[i]
    {
      if i < |targets| {
        assert ts[i] == targets[i];
      }
    }
  }

  /** A rule with no targets yields its rule block alone. */
  lemma NoTargetsNoTargetBlocks(codec: Codec, rule: Rule)
    requires PatternParses(codec, rule)
    ensures BlocksText(RuleBlocks(codec, rule, [])) == BlockText(RuleBlock(codec, rule))
  {
    assert RuleBlocks(codec, rule, []) == [RuleBlock(codec, rule)];
    BlocksTextOne(RuleBlock(codec, rule));
  }

  // ---------------------------------------------------------------------
  // The lines as the builder spells them

  lemma NameLine(v: string)
    ensures "\n" + AttrText(Attr(2, "name", 19, Quote(v))) == "\n  name                = \"" + v + "\""
  {
    var prefix := "\n  name                = \"";
    assert prefix == "\n" + Spaces(2) + "name" + Spaces(15) + " = " + "\"" by {
      TwoSpaces();
    }
    QuotedLineText(2, "name", 19, 15, prefix, v);
  }

  lemma DescriptionLine(v: string)
    ensures "\n" + AttrText(Attr(2, "description", 19, Quote(v))) == "\n  description         = \"" + v + "\""
  {
    var prefix := "\n  description         = \"";
    assert prefix == "\n" + Spaces(2) + "description" + Spaces(8) + " = " + "\"" by {
      TwoSpaces();
    }
    QuotedLineText(2, "description", 19, 8, prefix, v);
  }

  lemma ScheduleExpressionLine(v: string)
    ensures "\n" + AttrText(Attr(2, "schedule_expression", 19, Quote(v))) == "\n  schedule_expression = \"" + v + "\""
  {
    var prefix := "\n  schedule_expression = \"";
    assert prefix == "\n" + Spaces(2) + "schedule_expression" + Spaces(0) + " = " + "\"" by {
      assert Spaces(0) == [];
      TwoSpaces();
    }
    QuotedLineText(2, "schedule_expression", 19, 0, prefix, v);
  }

  lemma EventPatternLine(v: string)
    ensures "\n" + AttrText(Attr(2, "event_pattern", 19, v)) == "\n  event_pattern       = " + v
  {
    var prefix := "\n  event_pattern       = ";
    assert prefix == "\n" + Spaces(2) + "event_pattern" + Spaces(6) + " = " by {
      TwoSpaces();
    }
    PaddedLineText(2, "event_pattern", 19, 6, prefix, v);
  }

  lemma IsEnabledLine(v: string)
    ensures "\n" + AttrText(Attr(2, "is_enabled", 19, v)) == "\n  is_enabled          = " + v
  {
    var prefix := "\n  is_enabled          = ";
    assert prefix == "\n" + Spaces(2) + "is_enabled" + Spaces(9) + " = " by {
      TwoSpaces();
    }
    PaddedLineText(2, "is_enabled", 19, 9, prefix, v);
  }

  lemma EventBusNameLine(v: string)
    ensures "\n" + AttrText(Attr(2, "event_bus_name", 0, Quote(v))) == "\n  event_bus_name = \"" + v + "\""
  {
    var prefix := "\n  event_bus_name = \"";
    assert prefix == "\n" + Spaces(2) + "event_bus_name" + Spaces(0) + " = " + "\"" by {
      assert Spaces(0) == [];
      TwoSpaces();
    }
    QuotedLineText(2, "event_bus_name", 0, 0, prefix, v);
  }

  lemma RoleArnLine(v: string)
    ensures "\n" + AttrText(Attr(2, "role_arn", 0, Quote(v))) == "\n  role_arn = \"" + v + "\""
  {
    var prefix := "\n  role_arn = \"";
    assert prefix == "\n" + Spaces(2) + "role_arn" + Spaces(0) + " = " + "\"" by {
      assert Spaces(0) == [];
      TwoSpaces();
    }
    QuotedLineText(2, "role_arn", 0, 0, prefix, v);
  }

  lemma RuleLine(v: string)
    ensures "\n" + AttrText(Attr(2, "rule", 9, v)) == "\n  rule      = " + v
  {
    var prefix := "\n  rule      = ";
    assert prefix == "\n" + Spaces(2) + "rule" + Spaces(5) + " = " by {
      TwoSpaces();
    }
    PaddedLineText(2, "rule", 9, 5, prefix, v);
  }

  lemma TargetIdLine(v: string)
    ensures "\n" + AttrText(Attr(2, "target_id", 9, Quote(v))) == "\n  target_id = \"" + v + "\""
  {
    var prefix := "\n  target_id = \"";
    assert prefix == "\n" + Spaces(2) + "target_id" + Spaces(0) + " = " + "\"" by {
      assert Spaces(0) == [];
      TwoSpaces();
    }
    QuotedLineText(2, "target_id", 9, 0, prefix, v);
  }

  lemma ArnLine(v: string)
    ensures "\n" + AttrText(Attr(2, "arn", 9, Quote(v))) == "\n  arn       = \"" + v + "\""
  {
    var prefix := "\n  arn       = \"";
    assert prefix == "\n" + Spaces(2) + "arn" + Spaces(6) + " = " + "\"" by {
      TwoSpaces();
    }
    QuotedLineText(2, "arn", 9, 6, prefix, v);
  }

  lemma InputLine(v: string)
    ensures "\n" + AttrText(Attr(2, "input", 0, v)) == "\n  input = " + v
  {
    var prefix := "\n  input = ";
    assert prefix == "\n" + Spaces(2) + "input" + Spaces(0) + " = " by {
      assert Spaces(0) == [];
      TwoSpaces();
    }
    PaddedLineText(2, "input", 0, 0, prefix, v);
  }

  lemma InputPathLine(v: string)
    ensures "\n" + AttrText(Attr(2, "input_path", 0, Quote(v))) == "\n  input_path = \"" + v + "\""
  {
    var prefix := "\n  input_path = \"";
    assert prefix == "\n" + Spaces(2) + "input_path" + Spaces(0) + " = " + "\"" by {
      assert Spaces(0) == [];
      TwoSpaces();
    }
    QuotedLineText(2, "input_path", 0, 0, prefix, v);
  }

  lemma InputPathsLine(v: string)
    ensures "\n" + AttrText(Attr(4, "input_paths", 0, v)) == "\n    input_paths = " + v
  {
    var prefix := "\n    input_paths = ";
    assert prefix == "\n" + Spaces(4) + "input_paths" + Spaces(0) + " = " by {
      assert Spaces(0) == [];
      FourSpaces();
    }
    PaddedLineText(4, "input_paths", 0, 0, prefix, v);
  }

  lemma InputTemplateLine(v: string)
    ensures "\n" + AttrText(Attr(4, "input_template", 0, v)) == "\n    input_template = " + v
  {
    var prefix := "\n    input_template = ";
    assert prefix == "\n" + Spaces(4) + "input_template" + Spaces(0) + " = " by {
      assert Spaces(0) == [];
      FourSpaces();
    }
    PaddedLineText(4, "input_template", 0, 0, prefix, v);
  }

  /** The five lines every rule block starts with, as the builder's f-string writes them. */
  lemma RuleFixedText(codec: Codec, rule: Rule)
    requires PatternParses(codec, rule)
    ensures LinesText(RuleFixedLines(codec, rule))
         == ("\n  name                = \"" + rule.name + "\"")
          + ("\n  description         = \"" + rule.description.GetOr("") + "\"")
          + ("\n  schedule_expression = \"" + rule.scheduleExpression.GetOr("") + "\"")
          + ("\n  event_pattern       = " + EventPatternText(codec, rule))
          + ("\n  is_enabled          = " + BoolText(rule.state == "ENABLED"))
  {
    var description, schedule := rule.description.GetOr(""), rule.scheduleExpression.GetOr("");
    var pattern, enabled := EventPatternText(codec, rule), BoolText(rule.state == "ENABLED");
    NameLine(rule.name);
    DescriptionLine(description);
    ScheduleExpressionLine(schedule);
    EventPatternLine(pattern);
    IsEnabledLine(enabled);
    AttrLinesTextOfFive(
      Attr(2, "name", 19, Quote(rule.name)),
      Attr(2, "description", 19, Quote(description)),
      Attr(2, "schedule_expression", 19, Quote(schedule)),
      Attr(2, "event_pattern", 19, pattern),
      Attr(2, "is_enabled", 19, enabled),
      "\n  name                = \"" + rule.name + "\"",
      "\n  description         = \"" + description + "\"",
      "\n  schedule_expression = \"" + schedule + "\"",
      "\n  event_pattern       = " + pattern,
      "\n  is_enabled          = " + enabled);
  }

  /** The three lines every target block starts with. */
  lemma TargetFixedText(resourceName: string, t: Target)
    ensures LinesText(TargetFixedLines(resourceName, t))
         == ("\n  rule      = " + RuleReference(resourceName))
          + ("\n  target_id = \"" + t.id + "\"")
          + ("\n  arn       = \"" + t.arn + "\"")
  {
    RuleLine(RuleReference(resourceName));
    TargetIdLine(t.id);
    ArnLine(t.arn);
    AttrLinesTextOfThree(
      Attr(2, "rule", 9, RuleReference(resourceName)),
      Attr(2, "target_id", 9, Quote(t.id)),
      Attr(2, "arn", 9, Quote(t.arn)),
      "\n  rule      = " + RuleReference(resourceName),
      "\n  target_id = \"" + t.id + "\"",
      "\n  arn       = \"" + t.arn + "\"");
  }

  /** The text of the input transformer sub-block, given the text of its optional lines. */
  lemma TransformerText(codec: Codec, tr: InputTransformer, paths: string, template: string)
    requires paths == if tr.inputPathsMap.Some? then "\n    input_paths = " + codec.encode(tr.inputPathsMap.value) else ""
    requires template == if tr.inputTemplate.Some? then "\n    input_template = " + codec.encode(JString(tr.inputTemplate.value)) else ""
    ensures LinesText(TransformerLines(codec, Some(tr))) == "\n  input_transformer {" + paths + template + "\n  }"
  {
    TransformerAttrsText(codec, tr, paths, template);
    TransformerBraces();
    SectionLiteral(2, "input_transformer", TransformerAttrs(codec, tr), "\n  input_transformer {", "\n  }");
  }

  lemma TransformerAttrsText(codec: Codec, tr: InputTransformer, paths: string, template: string)
    requires paths == if tr.inputPathsMap.Some? then "\n    input_paths = " + codec.encode(tr.inputPathsMap.value) else ""
    requires template == if tr.inputTemplate.Some? then "\n    input_template = " + codec.encode(JString(tr.inputTemplate.value)) else ""
    ensures AttrsText(TransformerAttrs(codec, tr)) == paths + template
  {
    if tr.inputPathsMap.Some? {
      InputPathsLine(codec.encode(tr.inputPathsMap.value));
    }
    if tr.inputTemplate.Some? {
      InputTemplateLine(codec.encode(JString(tr.inputTemplate.value)));
    }
    OptionalEntryText(4, "input_paths", 0, EncodedPaths(codec, tr), paths);
    OptionalEntryText(4, "input_template", 0, EncodedTemplate(codec, tr), template);
    AttrsTextAppendOptional(OptionalEntry(4, "input_paths", 0, EncodedPaths(codec, tr)), OptionalEntry(4, "input_template", 0, EncodedTemplate(codec, tr)));
  }

  lemma TransformerBraces()
    ensures "\n  input_transformer {" == "\n" + Spaces(2) + "input_transformer" + " {"
    ensures "\n  }" == "\n" + Spaces(2) + "}"
  {
    TwoSpaces();
  }

  // ---------------------------------------------------------------------
  // The builder

  /** Writes the rule block: the fixed lines, then the bus and role lines when they apply. */
  method RuleBlockConfig(codec: Codec, rule: Rule, resourceName: string) returns (config: string)
    requires PatternParses(codec, rule)
    requires resourceName == ResourceName(rule.name)
    ensures config == BlockText(RuleBlock(codec, rule))
  {
    var head := "\nresource \"" + "aws_cloudwatch_event_rule" + "\" \"" + resourceName + "\" {";
    var name := "\n  name                = \"" + rule.name + "\"";
    var description := "\n  description         = \"" + rule.description.GetOr("") + "\"";
    var schedule := "\n  schedule_expression = \"" + rule.scheduleExpression.GetOr("") + "\"";
    var pattern := "\n  event_pattern       = "
      + (if rule.eventPattern.Some? then codec.encode(codec.decode(rule.eventPattern.value).value) else "null");
    var enabled := "\n  is_enabled          = " + BoolText(rule.state == "ENABLED");
    config := head + name + description + schedule + pattern + enabled;
    ghost var body := RuleFixedLines(codec, rule);
    RuleFixedText(codec, rule);
    Regroup6(head, name, description, schedule, pattern, enabled);

    ghost var before, busText := config, "";
    if rule.eventBusName.Some? && rule.eventBusName.value != "default" {
      busText := "\n  event_bus_name = \"" + rule.eventBusName.value + "\"";
      config := config + ("\n  event_bus_name = \"" + rule.eventBusName.value + "\"");
      EventBusNameLine(rule.eventBusName.value);
    }
    OptionalLineText(2, "event_bus_name", 0, EventBusValue(rule), busText);
    AppendLines(head, body, OptionalLine(2, "event_bus_name", 0, EventBusValue(rule)), before, config);
    body := body + OptionalLine(2, "event_bus_name", 0, EventBusValue(rule));

    before := config;
    config := AppendRoleArn(config, rule.roleArn);
    AppendLines(head, body, OptionalLine(2, "role_arn", 0, Quoted(rule.roleArn)), before, config);
    body := body + OptionalLine(2, "role_arn", 0, Quoted(rule.roleArn));

    config := config + "\n}";
    BlockTextOf("aws_cloudwatch_event_rule", resourceName, body, head);
  }

  /** Writes the input transformer sub-block when the target has one. */
  method AppendInputTransformer(config: string, codec: Codec, tr: Option<InputTransformer>) returns (out: string)
    ensures out == config + LinesText(TransformerLines(codec, tr))
  {
    out := config;
    if tr.Some? {
      var opening, closing := "\n  input_transformer {", "\n  }";
      out := out + opening;
      ghost var paths, template := "", "";
      if tr.value.inputPathsMap.Some? {
        paths := "\n    input_paths = " + codec.encode(tr.value.inputPathsMap.value);
        out := out + ("\n    input_paths = " + codec.encode(tr.value.inputPathsMap.value));
      }
      if tr.value.inputTemplate.Some? {
        template := "\n    input_template = " + codec.encode(JString(tr.value.inputTemplate.value));
        out := out + ("\n    input_template = " + codec.encode(JString(tr.value.inputTemplate.value)));
      }
      out := out + closing;
      TransformerText(codec, tr.value, paths, template);
      Regroup5(config, opening, paths, template, closing);
    }
  }

  /** Writes the input line: `input` when the target has `Input`, else `input_path` when it has `InputPath`. */
  method AppendInput(config: string, codec: Codec, t: Target) returns (out: string)
    ensures out == config + LinesText(InputLines(codec, t))
  {
    out := config;
    if t.input.Some? {
      out := out + ("\n  input = " + codec.encode(JString(t.input.value)));
      InputLine(codec.encode(JString(t.input.value)));
      LinesTextSnoc([], InputLines(codec, t)[0]);
    } else if t.inputPath.Some? {
      out := out + ("\n  input_path = \"" + t.inputPath.value + "\"");
      InputPathLine(t.inputPath.value);
      LinesTextSnoc([], InputLines(codec, t)[0]);
    }
  }

  /** Writes the `role_arn` line of a rule or a target when it has a role. */
  method AppendRoleArn(config: string, roleArn: Option<string>) returns (out: string)
    ensures out == config + LinesText(OptionalLine(2, "role_arn", 0, Quoted(roleArn)))
  {
    out := config;
    ghost var roleText := "";
    if roleArn.Some? {
      roleText := "\n  role_arn = \"" + roleArn.value + "\"";
      out := out + ("\n  role_arn = \"" + roleArn.value + "\"");
      RoleArnLine(roleArn.value);
    }
    OptionalLineText(2, "role_arn", 0, Quoted(roleArn), roleText);
  }

  /** The opening line of a target block. */
  ghost function TargetOpening(resourceName: string, idx: nat): string {
    "\nresource \"" + "aws_cloudwatch_event_target" + "\" \"" + TargetName(resourceName, idx) + "\" {"
  }

  /** Writes a blank line, the opening line of a target block and its three fixed lines. */
  method AppendTargetOpening(config: string, resourceName: string, idx: nat, t: Target) returns (out: string)
    ensures out == config + "\n" + TargetOpening(resourceName, idx) + LinesText(TargetFixedLines(resourceName, t))
  {
    var targetName := resourceName + "_target_" + NatToString(idx);
    var head := "\nresource \"" + "aws_cloudwatch_event_target" + "\" \"" + targetName + "\" {";
    var rule := "\n  rule      = " + ("aws_cloudwatch_event_rule." + resourceName + ".name");
    var id := "\n  target_id = \"" + t.id + "\"";
    var arn := "\n  arn       = \"" + t.arn + "\"";
    out := config + "\n" + head + rule + id + arn;
    TargetFixedText(resourceName, t);
    assert config + "\n" + head + rule + id + arn == config + "\n" + head + (rule + id + arn);
  }

  /** Writes one target block, after a blank line. */
  method AppendTarget(config: string, codec: Codec, resourceName: string, idx: nat, t: Target) returns (out: string)
    ensures out == config + "\n" + BlockText(TargetBlock(codec, resourceName, idx, t))
  {
    out := AppendTargetOpening(config, resourceName, idx, t);
    ghost var head := TargetOpening(resourceName, idx);
    ghost var pre := config + "\n" + head;
    ghost var body := TargetFixedLines(resourceName, t);

    var next := AppendRoleArn(out, t.roleArn);
    AppendLines(pre, body, OptionalLine(2, "role_arn", 0, Quoted(t.roleArn)), out, next);
    out, body := next, body + OptionalLine(2, "role_arn", 0, Quoted(t.roleArn));

    next := AppendInput(out, codec, t);
    AppendLines(pre, body, InputLines(codec, t), out, next);
    out, body := next, body + InputLines(codec, t);

    next := AppendInputTransformer(out, codec, t.inputTransformer);
    AppendLines(pre, body, TransformerLines(codec, t.inputTransformer), out, next);
    out, body := next, body + TransformerLines(codec, t.inputTransformer);

    out := out + "\n}";
    TargetBlockText(config, codec, resourceName, idx, t, body, out);
  }

  /** A target block written from its opening line, its body's lines and the closing brace. */
  lemma TargetBlockText(config: string, codec: Codec, resourceName: string, idx: nat, t: Target, body: seq<Line>, out: string)
    requires body == TargetBody(codec, resourceName, t)
    requires out == config + "\n" + TargetOpening(resourceName, idx) + LinesText(body) + "\n}"
    ensures out == config + "\n" + BlockText(TargetBlock(codec, resourceName, idx, t))
  {
    AppendBlockText(config, "\n", TargetBlock(codec, resourceName, idx, t), TargetOpening(resourceName, idx), out);
  }

  /**
   * `generate_eventbridge_rule_config`: the rule block, then one target
   * block per target in list order. `region` is accepted and unused, as in
   * the source.
   */
  method GenerateEventbridgeRuleConfig(codec: Codec, rule: Rule, targets: seq<Target>, region: string)
    returns (config: string)
    requires PatternParses(codec, rule)
    ensures config == BlocksText(RuleBlocks(codec, rule, targets))
  {
    var resourceName := Replace(Replace(rule.name, '-', '_'), '.', '_');
    config := RuleBlockConfig(codec, rule, resourceName);
    assert RuleBlocks(codec, rule, targets[..0]) == [RuleBlock(codec, rule)];
    BlocksTextOne(RuleBlock(codec, rule));
    var idx := 0;
    while idx < |targets|
      invariant 0 <= idx <= |targets|
      invariant config == BlocksText(RuleBlocks(codec, rule, targets[..idx]))
    {
      ghost var before := config;
      config := AppendTarget(config, codec, resourceName, idx, targets[idx]);
      RuleBlocksPrefixSnoc(codec, rule, targets, idx);
      BlocksTextAppend(RuleBlocks(codec, rule, targets[..idx]), TargetBlock(codec, resourceName, idx, targets[idx]),
        RuleBlocks(codec, rule, targets[..idx + 1]), before, config);
      idx := idx + 1;
    }
    assert targets[..idx] == targets;
  }
}
