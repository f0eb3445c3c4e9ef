/**
 * The shape of the emitted Terraform text. A resource block is a keyword, a
 * block name and a body of lines; a line is an attribute `key = value`, a
 * spacer line, or a brace-delimited section of attributes (the `tags` map,
 * `ebs_block_device`, `input_transformer`). BlockText produces exactly the
 * characters the source concatenates, so every property stated about a
 * block's lines is a property of the generated file.
 */
module Hcl {
  import opened Wrappers
  import opened Text

  /** `<indent><key padded to width> = <value>`; `width` 0 means no padding. */
  datatype Attr = Attr(indent: nat, key: string, width: nat, value: string)

  datatype Line =
    | AttrLine(attr: Attr)
    | Spacer(text: string)
    | Section(indent: nat, head: string, attrs: seq<Attr>)

  /** `resource "<kind>" "<name>" { <body> }` */
  datatype Block = Block(kind: string, name: string, body: seq<Line>)

  function AttrText(a: Attr): string {
    Spaces(a.indent) + PadRight(a.key, a.width) + " = " + a.value
  }

  /** Each attribute on a line of its own, every line introduced by a newline. */
  function AttrsText(attrs: seq<Attr>): string {
    if |attrs| == 0 then ""
    else AttrsText(attrs[..|attrs| - 1]) + "\n" + AttrText(attrs[|attrs| - 1])
  }

  function LineText(l: Line): string {
    match l
    case AttrLine(a) => "\n" + AttrText(a)
    case Spacer(t) => "\n" + t
    case Section(indent, head, attrs) =>
      "\n" + Spaces(indent) + head + " {" + AttrsText(attrs) + "\n" + Spaces(indent) + "}"
  }

  /** The parts one after another. */
  function Concat(parts: seq<string>): string {
    if |parts| == 0 then "" else Concat(parts[..|parts| - 1]) + parts[|parts| - 1]
  }

  function LinesText(lines: seq<Line>): string {
    Concat(seq(|lines|, i requires 0 <= i < |lines| => LineText(lines[i])))
  }

  function BlockText(b: Block): string {
    "\nresource \"" + b.kind + "\" \"" + b.name + "\" {" + LinesText(b.body) + "\n}"
  }

  lemma {:induction false} ConcatAppend(a: seq<string>, b: seq<string>)
    ensures Concat(a + b) == Concat(a) + Concat(b)
  {
    if |b| == 0 {
      assert a + b == a;
    } else {
      assert (a + b)[..|a + b| - 1] == a + b[..|b| - 1];
      ConcatAppend(a, b[..|b| - 1]);
    }
  }

  /** The text of consecutive lines is the concatenation of their texts. */
  lemma LinesTextAppend(a: seq<Line>, b: seq<Line>)
    ensures LinesText(a + b) == LinesText(a) + LinesText(b)
  {
    var ta := seq(|a|, i requires 0 <= i < |a| => LineText(a[i]));
    var tb := seq(|b|, i requires 0 <= i < |b| => LineText(b[i]));
    assert seq(|a + b|, i requires 0 <= i < |a + b| => LineText((a + b)[i])) == ta + tb;
    ConcatAppend(ta, tb);
  }

  /** Appending one line appends its text. */
  lemma LinesTextSnoc(a: seq<Line>, l: Line)
    ensures LinesText(a + [l]) == LinesText(a) + LineText(l)
  {
    LinesTextAppend(a, [l]);
    var one := seq(1, i requires 0 <= i < 1 => LineText([l][i]));
    assert one[..0] == [] && one[0] == LineText(l);
    assert LinesText([l]) == Concat(one) == Concat(one[..0]) + one[0];
  }

  /** The text of two lines. */
  lemma LinesTextPair(l1: Line, l2: Line)
    ensures LinesText([l1, l2]) == LineText(l1) + LineText(l2)
  {
    var t := seq(2, i requires 0 <= i < 2 => LineText([l1, l2][i]));
    assert t == [LineText(l1), LineText(l2)];
    ConcatPair(LineText(l1), LineText(l2));
  }

  lemma ConcatPair(x: string, y: string)
    ensures Concat([x, y]) == x + y
  {
    assert [x][..0] == [];
    assert Concat([x]) == x;
    assert [x, y][..1] == [x];
    assert Concat([x, y]) == Concat([x]) + y;
  }

  /** The text of a spacer line followed by a section: its opening, its attributes, its closing. */
  lemma SpacedSectionText(t: string, indent: nat, head: string, attrs: seq<Attr>)
    ensures LinesText([Spacer(t), Section(indent, head, attrs)])
         == ("\n" + t + "\n" + Spaces(indent) + head + " {") + AttrsText(attrs) + ("\n" + Spaces(indent) + "}")
  {
    LinesTextPair(Spacer(t), Section(indent, head, attrs));
    var n, sp, open, a, close := "\n", Spaces(indent), " {", AttrsText(attrs), "}";
    assert (n + t) + (n + sp + head + open + a + n + sp + close)
        == (n + t + n + sp + head + open) + a + (n + sp + close);
  }

  /** The same, with the opening and closing text spelled out by the caller. */
  lemma SpacedSectionLiteral(t: string, indent: nat, head: string, attrs: seq<Attr>, opening: string, closing: string)
    requires opening == "\n" + t + "\n" + Spaces(indent) + head + " {"
    requires closing == "\n" + Spaces(indent) + "}"
    ensures LinesText([Spacer(t), Section(indent, head, attrs)]) == opening + AttrsText(attrs) + closing
  {
    SpacedSectionText(t, indent, head, attrs);
  }

  /** The text of four attributes, given the text of each line. */
  lemma AttrsTextOfFour(a: seq<Attr>, t0: string, t1: string, t2: string, t3: string)
    requires |a| == 4
    requires "\n" + AttrText(a[0]) == t0 && "\n" + AttrText(a[1]) == t1
    requires "\n" + AttrText(a[2]) == t2 && "\n" + AttrText(a[3]) == t3
    ensures AttrsText(a) == t0 + t1 + t2 + t3
  {
    AttrsTextEmptyPrefix(a);
    AttrsTextPrefixStep(a, 0, "", t0);
    AttrsTextPrefixStep(a, 1, t0, t1);
    AttrsTextPrefixStep(a, 2, t0 + t1, t2);
    AttrsTextPrefixStep(a, 3, t0 + t1 + t2, t3);
    assert a[..4] == a;
  }

  lemma AttrsTextEmptyPrefix(a: seq<Attr>)
    ensures AttrsText(a[..0]) == ""
  {
    assert a[..0] == [];
  }

  /** Extending a prefix of the attributes by one extends its text by that attribute's line. */
  lemma AttrsTextPrefixStep(a: seq<Attr>, n: nat, acc: string, t: string)
    requires n < |a|
    requires AttrsText(a[..n]) == acc && t == "\n" + AttrText(a[n])
    ensures AttrsText(a[..n + 1]) == acc + t
  {
    assert a[..n + 1][..n] == a[..n];
  }

  /** An attribute line is its fixed prefix (indent, padded key, ` = `) followed by the value. */
  lemma AttrLineText(a: Attr, prefix: string)
    requires prefix == "\n" + Spaces(a.indent) + PadRight(a.key, a.width) + " = "
    ensures "\n" + AttrText(a) == prefix + a.value
  {
    var n, sp, k, eq := "\n", Spaces(a.indent), PadRight(a.key, a.width), " = ";
    assert n + (sp + k + eq + a.value) == (n + sp + k + eq) + a.value;
  }

  /** Appending one attribute appends a newline and its text. */
  lemma AttrsTextSnoc(a: seq<Attr>, x: Attr)
    ensures AttrsText(a + [x]) == AttrsText(a) + "\n" + AttrText(x)
  {
    assert (a + [x])[..|a|] == a;
  }

  /** A line as written with its padding spelled out: `blanks` is what the key is padded by. */
  lemma PaddedLineText(indent: nat, key: string, width: nat, blanks: nat, prefix: string, v: string)
    requires blanks == if |key| < width then width - |key| else 0
    requires prefix == "\n" + Spaces(indent) + key + Spaces(blanks) + " = "
    ensures "\n" + AttrText(Attr(indent, key, width, v)) == prefix + v
  {
    assert PadRight(key, width) == key + Spaces(blanks);
    assert "\n" + Spaces(indent) + (key + Spaces(blanks)) + " = " == "\n" + Spaces(indent) + key + Spaces(blanks) + " = ";
    AttrLineText(Attr(indent, key, width, v), prefix);
  }

  /** The same for a quoted value: the prefix ends with the opening quote. */
  lemma QuotedLineText(indent: nat, key: string, width: nat, blanks: nat, prefix: string, v: string)
    requires blanks == if |key| < width then width - |key| else 0
    requires prefix == "\n" + Spaces(indent) + key + Spaces(blanks) + " = " + "\""
    ensures "\n" + AttrText(Attr(indent, key, width, Quote(v))) == prefix + v + "\""
  {
    var bare := "\n" + Spaces(indent) + key + Spaces(blanks) + " = ";
    PaddedLineText(indent, key, width, blanks, bare, Quote(v));
    QuoteRegroup(bare, v);
  }

  /** An unpadded attribute line: a newline, the indent, the key, ` = `, the value. */
  lemma BareLineText(lead: string, a: Attr)
    requires a.width == 0 && lead == "\n" + Spaces(a.indent)
    ensures LinesText([AttrLine(a)]) == lead + a.key + " = " + a.value
  {
    LinesTextSnoc([], AttrLine(a));
    var n, sp, k, eq := "\n", Spaces(a.indent), a.key, " = ";
    assert n + (sp + k + eq + a.value) == (n + sp) + k + eq + a.value;
  }

  /** Text written after `head + LinesText(lines)` that is the text of `extra` extends the lines by `extra`. */
  lemma AppendLines(head: string, lines: seq<Line>, extra: seq<Line>, before: string, after: string)
    requires before == head + LinesText(lines)
    requires after == before + LinesText(extra)
    ensures after == head + LinesText(lines + extra)
  {
    LinesTextAppend(lines, extra);
  }

  /** Attributes followed by at most one more are written one after the other. */
  lemma AttrsTextAppendOptional(a: seq<Attr>, b: seq<Attr>)
    requires |b| <= 1
    ensures AttrsText(a + b) == AttrsText(a) + AttrsText(b)
  {
    if |b| == 0 {
      assert a + b == a;
    } else {
      var x := b[0];
      assert b == [x];
      AttrsTextSnoc(a, x);
      SingleAttrText(x);
      Regroup3(AttrsText(a), "\n", AttrText(x));
    }
  }

  lemma SingleAttrText(x: Attr)
    ensures AttrsText([x]) == "\n" + AttrText(x)
  {
    assert [x][..0] == [];
  }

  lemma AppendAttrLine(pre: string, attrs: seq<Attr>, x: Attr, line: string)
    requires "\n" + AttrText(x) == line
    ensures pre + AttrsText(attrs) + line == pre + AttrsText(attrs + [x])
  {
    AttrsTextSnoc(attrs, x);
    SnocRegroup(pre, AttrsText(attrs), "\n", AttrText(x), line, AttrsText(attrs + [x]));
  }

  /** Appending `n + t` after `pre + a` is appending `a + n + t` after `pre`. */
  lemma SnocRegroup<T>(pre: seq<T>, a: seq<T>, n: seq<T>, t: seq<T>, line: seq<T>, whole: seq<T>)
    requires line == n + t && whole == a + n + t
    ensures pre + a + line == pre + whole
  {
  }

  /** The text of three attribute lines, given the text of each. */
  lemma AttrLinesTextOfThree(a0: Attr, a1: Attr, a2: Attr, t0: string, t1: string, t2: string)
    requires "\n" + AttrText(a0) == t0 && "\n" + AttrText(a1) == t1 && "\n" + AttrText(a2) == t2
    ensures LinesText([AttrLine(a0), AttrLine(a1), AttrLine(a2)]) == t0 + t1 + t2
  {
    var l0, l1, l2 := AttrLine(a0), AttrLine(a1), AttrLine(a2);
    assert [l0, l1, l2] == [l0, l1] + [l2];
    LinesTextPair(l0, l1);
    LinesTextSnoc([l0, l1], l2);
  }

  /** The text of five attribute lines, given the text of each. */
  lemma AttrLinesTextOfFive(a0: Attr, a1: Attr, a2: Attr, a3: Attr, a4: Attr,
                            t0: string, t1: string, t2: string, t3: string, t4: string)
    requires "\n" + AttrText(a0) == t0 && "\n" + AttrText(a1) == t1 && "\n" + AttrText(a2) == t2
    requires "\n" + AttrText(a3) == t3 && "\n" + AttrText(a4) == t4
    ensures LinesText([AttrLine(a0), AttrLine(a1), AttrLine(a2), AttrLine(a3), AttrLine(a4)]) == t0 + t1 + t2 + t3 + t4
  {
    var first := [AttrLine(a0), AttrLine(a1), AttrLine(a2)];
    AttrLinesTextOfThree(a0, a1, a2, t0, t1, t2);
    assert [AttrLine(a0), AttrLine(a1), AttrLine(a2), AttrLine(a3), AttrLine(a4)] == first + [AttrLine(a3)] + [AttrLine(a4)];
    LinesTextSnoc(first, AttrLine(a3));
    LinesTextSnoc(first + [AttrLine(a3)], AttrLine(a4));
  }

  /** The text of a lone section: its opening, its attributes, its closing. */
  lemma SectionLiteral(indent: nat, head: string, attrs: seq<Attr>, opening: string, closing: string)
    requires opening == "\n" + Spaces(indent) + head + " {"
    requires closing == "\n" + Spaces(indent) + "}"
    ensures LinesText([Section(indent, head, attrs)]) == opening + AttrsText(attrs) + closing
  {
    LinesTextSnoc([], Section(indent, head, attrs));
    var n, sp, a := "\n", Spaces(indent), AttrsText(attrs);
    assert n + sp + head + " {" + a + n + sp + "}" == (n + sp + head + " {") + a + (n + sp + "}");
  }

  /** An attribute line written only when its value is present. */
  function OptionalLine(indent: nat, key: string, width: nat, value: Option<string>): seq<Line> {
    if value.Some? then [AttrLine(Attr(indent, key, width, value.value))] else []
  }

  /** The same inside a section. */
  function OptionalEntry(indent: nat, key: string, width: nat, value: Option<string>): seq<Attr> {
    if value.Some? then [Attr(indent, key, width, value.value)] else []
  }

  /** An optional line holds its key exactly when the value is present, and no section. */
  lemma OptionalLineLookup(indent: nat, key: string, width: nat, value: Option<string>, k: string)
    ensures Lookup(OptionalLine(indent, key, width, value), k) == if k == key then value else None
    ensures Sections(OptionalLine(indent, key, width, value), k) == []
  {
    if value.Some? {
      assert OptionalLine(indent, key, width, value)[1..] == [];
    }
  }

  lemma OptionalEntryLookup(indent: nat, key: string, width: nat, value: Option<string>, k: string)
    ensures AttrLookup(OptionalEntry(indent, key, width, value), k) == if k == key then value else None
  {
    if value.Some? {
      assert OptionalEntry(indent, key, width, value)[1..] == [];
    }
  }

  /** An optional line's text is the line when the value is present and nothing otherwise. */
  lemma OptionalLineText(indent: nat, key: string, width: nat, value: Option<string>, text: string)
    requires value.Some? ==> "\n" + AttrText(Attr(indent, key, width, value.value)) == text
    ensures LinesText(OptionalLine(indent, key, width, value)) == if value.Some? then text else ""
  {
    if value.Some? {
      LinesTextSnoc([], AttrLine(Attr(indent, key, width, value.value)));
    }
  }

  lemma OptionalEntryText(indent: nat, key: string, width: nat, value: Option<string>, text: string)
    requires value.Some? ==> "\n" + AttrText(Attr(indent, key, width, value.value)) == text
    ensures AttrsText(OptionalEntry(indent, key, width, value)) == if value.Some? then text else ""
  {
    if value.Some? {
      assert OptionalEntry(indent, key, width, value)[..0] == [];
    }
  }

  /** The text of a block, with its opening line spelled out by the caller. */
  lemma BlockTextOf(kind: string, name: string, body: seq<Line>, head: string)
    requires head == "\nresource \"" + kind + "\" \"" + name + "\" {"
    ensures BlockText(Block(kind, name, body)) == head + LinesText(body) + "\n}"
  {
  }

  /** A block written after some text and a separator. */
  lemma AppendBlockText(config: string, sep: string, b: Block, head: string, out: string)
    requires head == "\nresource \"" + b.kind + "\" \"" + b.name + "\" {"
    requires out == config + sep + head + LinesText(b.body) + "\n}"
    ensures out == config + sep + BlockText(b)
  {
    BlockTextOf(b.kind, b.name, b.body, head);
    var lines, close := LinesText(b.body), "\n}";
    assert config + sep + head + lines + close == config + sep + (head + lines + close);
  }

  /** Blocks written one after another, separated by newlines, as `"\n".join` does. */
  function BlocksText(blocks: seq<Block>): string {
    JoinLines(seq(|blocks|, i requires 0 <= i < |blocks| => BlockText(blocks[i])))
  }

  lemma BlocksTextOne(b: Block)
    ensures BlocksText([b]) == BlockText(b)
  {
  }

  /** Every block's text, and so every non-empty run of blocks, starts with a newline and `r` of `resource`. */
  lemma BlocksTextStart(blocks: seq<Block>)
    requires |blocks| > 0
    ensures |BlocksText(blocks)| >= 2 && BlocksText(blocks)[..2] == "\nr"
  {
    var texts := seq(|blocks|, i requires 0 <= i < |blocks| => BlockText(blocks[i]));
    JoinLinesStartsWithFirst(texts);
    BlockTextStart(blocks[0]);
  }

  lemma BlockTextStart(b: Block)
    ensures |BlockText(b)| >= 2 && BlockText(b)[..2] == "\nr"
  {
    var opening, rest := "\nresource \"", b.kind + "\" \"" + b.name + "\" {" + LinesText(b.body) + "\n}";
    assert BlockText(b) == opening + rest;
    assert (opening + rest)[..2] == opening[..2];
  }

  lemma BlocksTextSnoc(blocks: seq<Block>, b: Block)
    requires |blocks| > 0
    ensures BlocksText(blocks + [b]) == BlocksText(blocks) + "\n" + BlockText(b)
  {
    var t := seq(|blocks|, i requires 0 <= i < |blocks| => BlockText(blocks[i]));
    var u := seq(|blocks| + 1, i requires 0 <= i < |blocks| + 1 => BlockText((blocks + [b])[i]));
    assert u[..|blocks|] == t;
  }

  /** `BlocksTextSnoc` for text already written. */
  lemma BlocksTextAppend(blocks: seq<Block>, b: Block, all: seq<Block>, before: string, after: string)
    requires |blocks| > 0 && all == blocks + [b]
    requires before == BlocksText(blocks) && after == before + "\n" + BlockText(b)
    ensures after == BlocksText(all)
  {
    BlocksTextSnoc(blocks, b);
  }

  /** Some top-level attribute line of `lines` has key `key`. */
  predicate HasKey(lines: seq<Line>, key: string) {
    exists i :: 0 <= i < |lines| && lines[i].AttrLine? && lines[i].attr.key == key
  }

  /** The value of the first top-level attribute line with key `key`. */
  function Lookup(lines: seq<Line>, key: string): (r: Option<string>)
    ensures r.Some? <==> HasKey(lines, key)
  {
    if |lines| == 0 then None
    else if lines[0].AttrLine? && lines[0].attr.key == key then Some(lines[0].attr.value)
    else
      var r := Lookup(lines[1..], key);
      assert HasKey(lines[1..], key) ==> HasKey(lines, key) by {
        if HasKey(lines[1..], key) {
          var i :| 0 <= i < |lines[1..]| && lines[1..][i].AttrLine? && lines[1..][i].attr.key == key;
          assert lines[i + 1] == lines[1..][i];
        }
      }
      assert HasKey(lines, key) ==> HasKey(lines[1..], key) by {
        if HasKey(lines, key) {
          var i :| 0 <= i < |lines| && lines[i].AttrLine? && lines[i].attr.key == key;
          assert i > 0 && lines[1..][i - 1] == lines[i];
        }
      }
      r
  }

  /** The value of the first attribute with key `key` inside a section. */
  function AttrLookup(attrs: seq<Attr>, key: string): Option<string> {
    if |attrs| == 0 then None
    else if attrs[0].key == key then Some(attrs[0].value)
    else AttrLookup(attrs[1..], key)
  }

  lemma {:induction false} AttrLookupAppend(a: seq<Attr>, b: seq<Attr>, key: string)
    ensures AttrLookup(a + b, key) == if AttrLookup(a, key).Some? then AttrLookup(a, key) else AttrLookup(b, key)
  {
    if |a| > 0 {
      assert (a + b)[1..] == a[1..] + b;
      AttrLookupAppend(a[1..], b, key);
    } else {
      assert a + b == b;
    }
  }

  /** The attribute lists of the sections headed `head`, in order. */
  function Sections(lines: seq<Line>, head: string): seq<seq<Attr>> {
    if |lines| == 0 then []
    else (if lines[0].Section? && lines[0].head == head then [lines[0].attrs] else [])
         + Sections(lines[1..], head)
  }

  /** A spacer followed by one section: that section's attributes if the head matches. */
  lemma SectionsOfSpacedSection(t: string, indent: nat, head: string, attrs: seq<Attr>, h: string)
    ensures Sections([Spacer(t), Section(indent, head, attrs)], h) == if head == h then [attrs] else []
    ensures forall k :: !HasKey([Spacer(t), Section(indent, head, attrs)], k)
  {
    var l := [Spacer(t), Section(indent, head, attrs)];
    assert l[1..] == [Section(indent, head, attrs)];
    assert l[1..][1..] == [];
    assert Sections(l[1..], h) == (if head == h then [attrs] else []) + Sections(l[1..][1..], h);
  }

  /** A single attribute line, or none, holds no section. */
  lemma {:induction false} SectionsOfAttrLines(lines: seq<Line>, h: string)
    requires forall i :: 0 <= i < |lines| ==> lines[i].AttrLine?
    ensures Sections(lines, h) == []
  {
    if |lines| > 0 {
      SectionsOfAttrLines(lines[1..], h);
    }
  }

  /** The first attribute line with a given key is the one a lookup finds. */
  lemma {:induction false} LookupFirst(lines: seq<Line>, i: nat)
    requires i < |lines| && lines[i].AttrLine?
    requires forall j :: 0 <= j < i ==> !(lines[j].AttrLine? && lines[j].attr.key == lines[i].attr.key)
    ensures Lookup(lines, lines[i].attr.key) == Some(lines[i].attr.value)
  {
    if i > 0 {
      LookupFirst(lines[1..], i - 1);
    }
  }

  /** The first line with a key is found before anything appended after it. */
  lemma LookupFirstOfPrefix(a: seq<Line>, b: seq<Line>, i: nat)
    requires i < |a| && a[i].AttrLine?
    requires forall j :: 0 <= j < i ==> !(a[j].AttrLine? && a[j].attr.key == a[i].attr.key)
    ensures Lookup(a + b, a[i].attr.key) == Some(a[i].attr.value)
  {
    LookupFirst(a, i);
    LookupAppend(a, b, a[i].attr.key);
  }

  lemma SectionsOfConcat6(l1: seq<Line>, l2: seq<Line>, l3: seq<Line>, l4: seq<Line>, l5: seq<Line>, l6: seq<Line>, h: string)
    ensures Sections(l1 + l2 + l3 + l4 + l5 + l6, h)
         == Sections(l1, h) + Sections(l2, h) + Sections(l3, h) + Sections(l4, h) + Sections(l5, h) + Sections(l6, h)
  {
    SectionsAppend(l1 + l2 + l3 + l4 + l5, l6, h);
    SectionsAppend(l1 + l2 + l3 + l4, l5, h);
    SectionsAppend(l1 + l2 + l3, l4, h);
    SectionsAppend(l1 + l2, l3, h);
    SectionsAppend(l1, l2, h);
  }

  lemma {:induction false} LookupAppend(a: seq<Line>, b: seq<Line>, key: string)
    ensures Lookup(a + b, key) == if HasKey(a, key) then Lookup(a, key) else Lookup(b, key)
  {
    if |a| > 0 {
      assert (a + b)[1..] == a[1..] + b;
      LookupAppend(a[1..], b, key);
    } else {
      assert a + b == b;
    }
  }

  lemma {:induction false} SectionsAppend(a: seq<Line>, b: seq<Line>, head: string)
    ensures Sections(a + b, head) == Sections(a, head) + Sections(b, head)
  {
    if |a| > 0 {
      assert (a + b)[1..] == a[1..] + b;
      SectionsAppend(a[1..], b, head);
    } else {
      assert a + b == b;
    }
  }
}
