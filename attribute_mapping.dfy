/**
 * The attribute-mapping table that drives the last part of an instance block:
 * each entry names a record field and the Terraform attribute it becomes, or
 * names a nested record field and maps some of its members one level down.
 */
module AttributeMapping {
  import opened Wrappers
  import opened Literal

  /** A table row: `(apiName, tfName)`, or `(apiName, [(subName, tfName)])` for a group. */
  datatype Entry =
    | Flat(api: string, tf: string)
    | Group(api: string, members: seq<(string, string)>)

  /**
   * A field of a loosely-typed record: a plain value, or a nested mapping
   * (with the `str()` text Python would print for it).
   */
  datatype RecordField =
    | Scalar(value: Value)
    | Nested(members: map<string, Value>, display: string)

  type Record = map<string, RecordField>

  /** The value a flat entry renders: a nested mapping is rendered through its display text. */
  function FieldValue(f: RecordField): Value {
    match f
    case Scalar(v) => v
    case Nested(_, display) => VOther(display)
  }

  /** The `(tfName, value)` pairs of a group's members present in the nested mapping, in table order. */
  function MemberPairs(members: map<string, Value>, subs: seq<(string, string)>): seq<(string, Value)> {
    if |subs| == 0 then []
    else
      var sub := subs[|subs| - 1];
      MemberPairs(members, subs[..|subs| - 1]) + MemberPair(members, sub)
  }

  /** What one member row of a group maps: the member when the group has it. */
  function MemberPair(members: map<string, Value>, sub: (string, string)): seq<(string, Value)> {
    if sub.0 in members then [(sub.1, members[sub.0])] else []
  }

  /** What one table row contributes; an absent field, or an absent group, contributes nothing. */
  function EntryPairs(rec: Record, e: Entry): seq<(string, Value)> {
    match e
    case Flat(api, tf) => if api in rec then [(tf, FieldValue(rec[api]))] else []
    case Group(api, subs) =>
      if api in rec && rec[api].Nested? then MemberPairs(rec[api].members, subs) else []
  }

  /** The mapped attributes of a record, in table declaration order. */
  function MapAttributes(rec: Record, table: seq<Entry>): seq<(string, Value)> {
    if |table| == 0 then []
    else MapAttributes(rec, table[..|table| - 1]) + EntryPairs(rec, table[|table| - 1])
  }

  // An independent description of the same table: flatten every row into
  // field paths first, then keep the paths the record resolves.

  /** A field path of at most two levels and the attribute it is mapped to. */
  datatype Path = Path(api: string, sub: Option<string>, tf: string)

  function EntryPaths(e: Entry): seq<Path> {
    match e
    case Flat(api, tf) => [Path(api, None, tf)]
    case Group(api, subs) =>
      seq(|subs|, i requires 0 <= i < |subs| => Path(api, Some(subs[i].0), subs[i].1))
  }

  function Paths(table: seq<Entry>): seq<Path> {
    if |table| == 0 then [] else EntryPaths(table[0]) + Paths(table[1..])
  }

  /** The value at a path, if the record has it. */
  function Resolve(rec: Record, p: Path): Option<Value> {
    if p.api !in rec then None
    else match p.sub
      case None => Some(FieldValue(rec[p.api]))
      case Some(s) =>
        if rec[p.api].Nested? && s in rec[p.api].members then Some(rec[p.api].members[s]) else None
  }

  /** The resolved paths, in order, as `(tfName, value)` pairs. */
  function Present(rec: Record, paths: seq<Path>): seq<(string, Value)> {
    if |paths| == 0 then []
    else
      var v := Resolve(rec, paths[0]);
      (if v.Some? then [(paths[0].tf, v.value)] else []) + Present(rec, paths[1..])
  }

  lemma {:induction false} PresentAppend(rec: Record, a: seq<Path>, b: seq<Path>)
    ensures Present(rec, a + b) == Present(rec, a) + Present(rec, b)
  {
    if |a| == 0 {
      assert a + b == b;
    } else {
      assert (a + b)[1..] == a[1..] + b;
      PresentAppend(rec, a[1..], b);
    }
  }

  lemma {:induction false} PathsAppend(a: seq<Entry>, b: seq<Entry>)
    ensures Paths(a + b) == Paths(a) + Paths(b)
  {
    if |a| == 0 {
      assert a + b == b;
    } else {
      assert (a + b)[1..] == a[1..] + b;
      PathsAppend(a[1..], b);
    }
  }

  /** The paths of a group whose field is not a present mapping all resolve to nothing. */
  lemma {:induction false} PresentOfAbsentGroup(rec: Record, paths: seq<Path>, api: string)
    requires api !in rec || !rec[api].Nested?
    requires forall i :: 0 <= i < |paths| ==> paths[i].api == api && paths[i].sub.Some?
    ensures Present(rec, paths) == []
  {
    if |paths| > 0 {
      PresentOfAbsentGroup(rec, paths[1..], api);
    }
  }

  /** A present group maps exactly its members that the nested mapping holds, in table order. */
  lemma {:induction false} MemberPairsArePresent(rec: Record, api: string, subs: seq<(string, string)>)
    requires api in rec && rec[api].Nested?
    ensures MemberPairs(rec[api].members, subs) == Present(rec, EntryPaths(Group(api, subs)))
  {
    if |subs| > 0 {
      var init, last := subs[..|subs| - 1], subs[|subs| - 1];
      MemberPairsArePresent(rec, api, init);
      var pInit, pLast := EntryPaths(Group(api, init)), [Path(api, Some(last.0), last.1)];
      assert EntryPaths(Group(api, subs)) == pInit + pLast;
      PresentAppend(rec, pInit, pLast);
      assert Present(rec, pLast[1..]) == [] by { assert pLast[1..] == []; }
    }
  }

  lemma EntryPairsArePresent(rec: Record, e: Entry)
    ensures EntryPairs(rec, e) == Present(rec, EntryPaths(e))
  {
    match e
    case Flat(api, tf) =>
      assert EntryPaths(e)[1..] == [];
    case Group(api, subs) =>
      if api in rec && rec[api].Nested? {
        MemberPairsArePresent(rec, api, subs);
      } else {
        PresentOfAbsentGroup(rec, EntryPaths(e), api);
      }
  }

  /**
   * The mapper emits one pair for every table path the record resolves and
   * nothing else, in table declaration order: a field missing from the
   * record, a member missing from a present group, and every member of a
   * missing group are skipped.
   */
  lemma {:induction false} MapAttributesArePresentPaths(rec: Record, table: seq<Entry>)
    ensures MapAttributes(rec, table) == Present(rec, Paths(table))
  {
    if |table| > 0 {
      var init, last := table[..|table| - 1], table[|table| - 1];
      MapAttributesArePresentPaths(rec, init);
      assert table == init + [last];
      PathsAppend(init, [last]);
      assert Paths([last]) == EntryPaths(last) by {
        assert [last][1..] == [];
        assert EntryPaths(last) + [] == EntryPaths(last);
      }
      PresentAppend(rec, Paths(init), EntryPaths(last));
      EntryPairsArePresent(rec, last);
    }
  }
}
