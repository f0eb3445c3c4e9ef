# terra-cli translator, modelled in Dafny

terra-cli scans an AWS account and writes Terraform files. This project models its translator core. It does not model the AWS client or the command line.

The translator takes records that have already been fetched: EC2 instances grouped in reservations, and EventBridge rules with their targets. It builds Terraform text from them and decides which `.tf` files to write.

- `generate_instance_config` appends to a `config` string, section by section, to build an instance's `aws_instance` block.
- `generate_eventbridge_rule_config` builds one `aws_cloudwatch_event_rule` block and one `aws_cloudwatch_event_target` block per target.
- The two importers join these blocks with a provider block into `ec2.tf` and `eventbridge.tf`.

How the model is built:

- A spec function builds a structured block for every piece of text: `Hcl.Block`, with a kind, a name, and lines that are attributes, spacers or brace sections. `Hcl.BlockText` renders a block to exactly the characters the source concatenates.
- The builders are imperative methods that append to a string as the source does. Each one is proved to produce `BlockText` of its spec block.
- The properties (which lines exist, their values, defaults, order and naming) are proved as lemmas over the structured lines. Because of the first two points, they hold for the generated text.
- The importers are methods of an `OutputDirectory` class whose `files` map stands for the output directory.

Modules:

| module | file | contents |
|---|---|---|
| `Wrappers` | wrappers.dfy | `Option` |
| `Text` | text.dfy | spaces, padding, quoting, integer text, `str.replace`, `split('/')[-1]`, `'\n'.join` |
| `Json` | json.dfy | JSON documents; the `json.loads`/`json.dumps` pair as a codec parameter |
| `Literal` | literal.dfy | the type-directed literal formatter of the mapped-attribute loop |
| `AttributeMapping` | attribute_mapping.dfy | the two-level `attribute_mapping` table and the pairs it selects |
| `Hcl` | hcl.dfy | blocks, lines, their rendering, lookups and sections |
| `Instance` | instance.dfy | `get_instance_tags`, `generate_instance_config` |
| `EventBridge` | eventbridge.dfy | `generate_eventbridge_rule_config` |
| `Importers` | importers.dfy | provider block, `import_ec2_resources`, `import_eventbridge_rules` |

## Model

| member | source | states |
|---|---|---|
| Text.Quote | terra_cli/main.py:129-130 | The quoted text is the value between two `"`, with no escaping: two characters longer, first and last are `"`, the inside is the value itself |
| Text.PadRightSpec | terra_cli/main.py:129-130 | A padded key starts with the key and continues with blanks only |
| Text.IntToStringRoundTrip | terra_cli/main.py:147 | An integer's decimal text parses back to the same integer |
| Text.NatToStringInjective | terra_cli/main.py:234 | Different indices give different decimal texts |
| Text.ReplaceAt | terra_cli/main.py:214 | `replace(from, to)` keeps the length and changes exactly the characters equal to `from` |
| Text.LastSegmentSpec | terra_cli/main.py:162 | `split('/')[-1]` is a slash-free suffix of the ARN, preceded by a `/` when shorter than the ARN |
| Text.LastSegmentNoSlash | terra_cli/main.py:162 | An ARN without `/` is its own last segment |
| Text.JoinLinesStartsWithFirst | terra_cli/main.py:108 | A `'\n'.join` of chunks begins with the first chunk |
| Text.JoinLinesCons | terra_cli/main.py:108 | Joining a chunk in front of a nonempty list is that chunk, a newline, and the join of the rest |
| Json.CanonicalKeepsDocument | terra_cli/main.py:221 | `json.dumps(json.loads(p))` parses to the same document as `p`, and applying it again changes nothing |
| Literal.Render | terra_cli/main.py:188-201 | Every literal is nonempty |
| Literal.RenderBool | terra_cli/main.py:188-189 | A boolean renders as exactly `true` or `false`, and `true` iff the value is true |
| Literal.RenderQuotedIff | terra_cli/main.py:188-193 | A literal starts with a quote iff the value is neither a boolean nor a number |
| Literal.RenderIntRoundTrip | terra_cli/main.py:190-191 | A number renders unquoted, as text that parses back to the number |
| Literal.RenderStringVerbatim | terra_cli/main.py:192-193 | Any other value renders as `"`, its text unchanged, `"` |
| AttributeMapping.EntryPairsArePresent | terra_cli/main.py:183-201 | One table row yields exactly the row's field paths that the record resolves, in table order |
| AttributeMapping.MapAttributesArePresentPaths | terra_cli/main.py:182-201 | The whole loop yields, in table declaration order, exactly the flattened table paths the record resolves; absent fields and members yield nothing |
| Hcl.LinesTextAppend | terra_cli/main.py:127-203 | The text of consecutive runs of lines is the concatenation of their texts |
| Hcl.BlocksTextAppend | terra_cli/main.py:233-259 | Appending a block's text after the text of a list of blocks gives the text of the extended list |
| Hcl.BlocksTextStart | terra_cli/main.py:216-217 | The text of a nonempty list of blocks starts with `"\nr"`, the opening of `resource` |
| Instance.GetInstanceTagsSpec | terra_cli/main.py:206-209 | The tag map's keys are the distinct tag keys in first-occurrence order; each key holds the value of its last tag; the map is empty iff there are no tags |
| Instance.DedupSpec | terra_cli/main.py:209 | The distinct keys contain no repeats and hold exactly the keys of the tags |
| Instance.TagLineCount | terra_cli/main.py:132-136 | One tag line per distinct key; no tags map when there are no tags |
| Instance.TagLinesSpec | terra_cli/main.py:132-136 | The tag lines are one `tags =` section when there are tags and nothing otherwise; they hold no top-level attribute |
| Instance.TagsMapEmittedTwice | terra_cli/main.py:132-179 | The block holds the identical tags map twice when the instance has tags, and none otherwise |
| Instance.EbsRequiredAttrsSpec | terra_cli/main.py:145-148 | An EBS sub-block's four fixed lines: the quoted device name, then type, size and deletion flag, with defaults `gp2`, `8` and `true` |
| Instance.EbsAttrsSpec | terra_cli/main.py:145-155 | Also: `iops`, `encrypted` and `kms_key_id` appear iff the EBS record has them. `iops` holds the count in decimal, `encrypted` an unquoted `true`/`false`, and `kms_key_id` the key id quoted |
| Instance.EbsLinesSections | terra_cli/main.py:139-157 | The mappings' lines hold one `ebs_block_device` section per selected mapping, in mapping order, and no other section |
| Instance.EbsSubBlocksOfInstance | terra_cli/main.py:139-157 | The block's EBS sub-blocks are exactly those of the mappings with an `Ebs` entry that are not the root device, in mapping order |
| Instance.RootDeviceExcluded | terra_cli/main.py:140 | No EBS sub-block names the root device |
| Instance.InstanceHeaderSpec | terra_cli/main.py:127-130 | The block is an `aws_instance` named by the raw instance id; it starts with `ami` and `instance_type`, which carry the quoted image id and instance type |
| Instance.FixedBodySpec | terra_cli/main.py:129-171 | `iam_instance_profile` is present iff the record has a profile, and holds the ARN's last segment; `vpc_security_group_ids` is present iff the group list is nonempty, and holds the group ids quoted, joined by `, ` in list order, in square brackets |
| Instance.IamAndGroupLookup | terra_cli/main.py:160-171 | The same facts, presence and values, about the IAM and security-group lines alone |
| Instance.JoinQuotedSpec | terra_cli/main.py:170 | The joined group list is the first id quoted, followed by `, ` and the quoted id for each later id, in order |
| Instance.MappedAttributesOfInstance | terra_cli/main.py:181-201 | After the fixed lines come exactly the mapped attributes: one rendered line per table path the record resolves, in table order |
| Instance.AppendTagsMap | terra_cli/main.py:132-136 | Appends the text of the tags map |
| Instance.AppendEbsBlock | terra_cli/main.py:141-157 | Appends the text of one EBS sub-block |
| Instance.AppendMapping | terra_cli/main.py:140-157 | Appends one mapping's sub-block when it has `Ebs` and is not the root device, and nothing otherwise |
| Instance.AppendEbsVolumes | terra_cli/main.py:139-157 | The loop over mappings appends the text of the selected mappings' sub-blocks |
| Instance.AppendIamProfile | terra_cli/main.py:160-163 | Appends the IAM profile line when a profile exists |
| Instance.AppendSecurityGroups | terra_cli/main.py:166-171 | Appends the security-group list when there are groups |
| Instance.AppendEntry | terra_cli/main.py:183-201 | Appends the lines one table row maps |
| Instance.AppendMember | terra_cli/main.py:185-193 | Appends one group member's line when the nested mapping has that member, and nothing otherwise |
| Instance.AppendMappedLine | terra_cli/main.py:187-201 | Appends one mapped value's line: `tf = ` and the value as a bool, number or quoted literal |
| Instance.AppendMappedAttributes | terra_cli/main.py:182-201 | The loop over the table appends every mapped line |
| Instance.GenerateInstanceConfig | terra_cli/main.py:123-204 | The string the builder returns is the text of the instance's spec block |
| EventBridge.ResourceNameSpec | terra_cli/main.py:214 | The resource name is the rule name with every `-` and `.` turned into `_`, so it holds neither character |
| EventBridge.TargetNamesDistinct | terra_cli/main.py:234 | `<name>_target_<idx>` names differ iff their indices differ |
| EventBridge.RuleBodySpec | terra_cli/main.py:218-222 | `name` is the quoted rule name; `description` and `schedule_expression` are quoted and default to the empty string; `is_enabled` is `true` iff the state is `ENABLED` |
| EventBridge.EventPatternKept | terra_cli/main.py:221 | Without a pattern, `event_pattern` is the bare `null`; otherwise its value parses to the same document as the rule's pattern |
| EventBridge.RuleOptionalLines | terra_cli/main.py:224-228 | `event_bus_name` is present iff the rule names a bus other than `default`, and then holds it quoted; `role_arn` is present iff the rule has one |
| EventBridge.TargetBodySpec | terra_cli/main.py:237-240 | `rule` is the unquoted reference `aws_cloudwatch_event_rule.<name>.name`; `target_id` and `arn` are the quoted target fields |
| EventBridge.InputPrecedence | terra_cli/main.py:242-248 | `input` is present iff the target has `Input`; `input_path` is present iff it has `InputPath` and no `Input`, so never both; `role_arn` is present iff the target has one |
| EventBridge.InputRoundTrip | terra_cli/main.py:245-246 | The `input` value parses to the target's `Input` string |
| EventBridge.TransformerSpec | terra_cli/main.py:250-257 | An `input_transformer` section exists iff the target has one. `input_paths` and `input_template` appear iff they are set, and each parses back to its field (the paths map, a `dict`, has distinct keys) |
| EventBridge.TargetBlocksSpec | terra_cli/main.py:233-240 | One `aws_cloudwatch_event_target` block per target, in list order; the one at index `i` is named `<name>_target_<i>` |
| EventBridge.RuleBlocksSpec | terra_cli/main.py:216-259 | The rule block comes first, named by the resource name, followed by exactly the target blocks |
| EventBridge.NoTargetsNoTargetBlocks | terra_cli/main.py:230-233 | A rule without targets yields its rule block alone |
| EventBridge.RuleBlocksSnoc | terra_cli/main.py:233-259 | One more target appends exactly its block |
| EventBridge.RuleBlockConfig | terra_cli/main.py:216-230 | The rule part of the builder produces the text of the rule block |
| EventBridge.AppendTarget | terra_cli/main.py:234-259 | One loop iteration appends the text of that target's block |
| EventBridge.AppendTargetOpening | terra_cli/main.py:233-240 | Appends a blank line, the header of the target resource named `<rule>_target_<index>`, and its `rule`, `target_id` and `arn` lines |
| EventBridge.AppendRoleArn | terra_cli/main.py:227-228 | Appends the quoted `role_arn` line exactly when a role is set; the target's role at lines 242-243 uses it too |
| EventBridge.AppendInput | terra_cli/main.py:245-248 | Appends the JSON-encoded `input` line when `Input` is set, else the quoted `input_path` line when `InputPath` is, else nothing |
| EventBridge.AppendInputTransformer | terra_cli/main.py:250-257 | Appends the `input_transformer` section, with its `input_paths` and `input_template` lines JSON-encoded when present, exactly when the target has a transformer |
| EventBridge.GenerateEventbridgeRuleConfig | terra_cli/main.py:211-261 | The string the builder returns is the text of the rule block followed by its target blocks |
| Importers.ProfileName | terra_cli/main.py:87 | The profile name is never empty, and it is `default` iff the session's profile is missing, empty or `default` |
| Importers.ProviderBlockSpec | terra_cli/main.py:84-89 | The provider block is an `aws` provider whose `region` is the session region and whose `profile` is the profile name, both quoted |
| Importers.AllInstancesEmpty | terra_cli/main.py:94-96 | The count over all reservations is zero iff every reservation is empty |
| Importers.AllInstancesSnoc | terra_cli/main.py:94-95 | One more reservation appends exactly its instances |
| Importers.MapSeqAppend | terra_cli/main.py:94-102 | Converting two runs of records gives the two runs of texts one after the other |
| Importers.Ec2FileLayout | terra_cli/main.py:104-108 | `ec2.tf` is the provider block, a newline, then the instance blocks joined by newlines |
| Importers.Ec2StartsWithProvider | terra_cli/main.py:84-108 | `ec2.tf` always begins with the provider block |
| Importers.EventbridgeProviderIff | terra_cli/main.py:284-308 | `eventbridge.tf` begins with the provider block iff `ec2.tf` did not exist |
| Importers.ProviderWrittenOnce | terra_cli/main.py:73-311 | Importing instances then rules into a directory without `ec2.tf`: `ec2.tf` exists iff there were instances and then begins with the provider block; with rules, `eventbridge.tf` exists and begins with the provider block iff `ec2.tf` does not |
| Importers.AppendReservation | terra_cli/main.py:95-102 | The inner loop appends one block text per instance of the reservation and counts them |
| Importers.CollectInstanceBlocks | terra_cli/main.py:81-102 | The list holds the provider block, then one block text per instance across all reservations in order; the count is their number |
| Importers.AppendRules | terra_cli/main.py:293-303 | The loop appends one rule text per rule, in order, and counts them |
| Importers.OutputDirectory.ImportEc2Resources | terra_cli/main.py:73-113 | `ec2.tf` is written, with the joined list, exactly when the instance count is positive; nothing else changes |
| Importers.OutputDirectory.ImportEventbridgeRules | terra_cli/main.py:263-311 | Nothing is written when there are no rules. Otherwise `eventbridge.tf` is written: the provider block only when `ec2.tf` is absent, then every rule's text, joined by newlines |

## Left out

- The command line (`cli`, `scan`, `print_banner`, `show_next_steps`) and every console message: user interface only.
- boto3 sessions and clients, `describe_instances`, rule pagination and `list_targets_by_rule`: network I/O. Records and targets arrive as inputs (`Reservation`, `FetchedRule`).
- Directory creation and file writing: the output directory is the `files` map of `OutputDirectory`. "`ec2.tf` exists" is key membership, and writing a file is a map update. Write failures are not modelled.
- The text format of `json.loads`/`json.dumps`. The codec is a parameter, and the decode-after-encode law (`RoundTrips`) is a hypothesis of the lemmas that need it. That law is stated only for documents whose objects have distinct keys (`WellFormed`): Python's decoder keeps the last of repeated keys, so it never produces any other kind.
- Python floats and their `str()` text: numbers in records are integers, and so are the numbers inside JSON documents (`JNumber` holds an `int`), so an event pattern or input paths map holding `0.5` is outside the model. A target's `Input` is a string, encoded as a JSON string and never parsed, so it is not affected.
- Text escaping: the source inserts values between quotes unchanged, and so does the model, so a value containing `"` yields text Terraform cannot parse.
- EventBridge.GenerateEventbridgeRuleConfig: requires the rule's `EventPattern` to parse. On a malformed pattern the source raises, and the importer stops with it.
- Importers.OutputDirectory.ImportEventbridgeRules: requires every rule's pattern to parse, for the same reason.
- A group entry of the attribute table on a record field that is not a mapping: the source would test membership on that value and may raise. The model maps nothing for it.
- An `IamInstanceProfile` without an `Arn` key raises in the source. The model's profile is an optional ARN, so that case cannot arise.
- The `region` parameter of `generate_eventbridge_rule_config` is unused in the source and unused in the model.
- Dictionary iteration order is modelled for the tags map, as first-insertion order with the last value winning. The attribute table is an ordered sequence.
- The instance block is named by `InstanceId` verbatim (terra_cli/main.py:124, :128); the code does not sanitise it, and neither does the model.
- Missing required keys: `InstanceId`, `ImageId`, `InstanceType`, `DeviceName`, a security group's `GroupId`, a tag's `Key` and `Value`, a rule's `Name` and `State`, and a target's `Id` and `Arn` are fields of the model's records, so they are always present. The source raises `KeyError` without them (terra_cli/main.py:124, :129-130, :145, :167, :209, :214, :222, :239-240); AWS responses always carry these keys.
- Importers.OutputDirectory.ImportEc2Resources: the attribute table is a parameter of the model. The source never defines `attribute_mapping` (terra_cli/main.py:182 reads it, and no other file defines it), so as written it raises `NameError` on the first instance, and `ec2.tf` is never written when any instance exists. The model states what the importer does once the table is defined.
- The duplicated tags map is kept as the source writes it.
