/**
 Reading a profile's YAML: the conversion of a node graph, whose aliases may form
 cycles, into plain values within limits on depth, aliases and nodes; and the line
 of a value, or of the closest thing around it, by its JSON pointer.
 */
module Yaml {
  import opened Common

  type Ref = nat

  /** What the YAML library gives: nodes that refer to one another. A scalar has
      its text, whether it is a merge key, and its decoded value if it has one. */
  datatype Node =
    | AliasNode(line: nat, target: Ref)
    | MappingNode(line: nat, content: seq<Ref>)
    | SequenceNode(line: nat, content: seq<Ref>)
    | ScalarNode(line: nat, text: string, isMerge: bool, decoded: Option<string>)
    | OtherNode(line: nat)

  type Graph = map<Ref, Node>

  datatype Json = Atom(text: string) | Object(fields: map<string, Json>) | Array(items: seq<Json>)

  datatype Limits = Limits(maxDepth: nat, maxAliases: nat, maxNodes: nat)

  const DEFAULT_LIMITS := Limits(48, 64, 100_000)

  predicate Closed(g: Graph) {
    forall r | r in g ::
      && (g[r].AliasNode? ==> g[r].target in g)
      && (g[r].MappingNode? || g[r].SequenceNode? ==> forall c | c in g[r].content :: c in g)
  }

  // ------------------------------------------------------------ the reference

  /** The graph unfolded from a node, aliases and all, cut off where it gets too
      deep. A document is what its unfolding says. */
  datatype Tree =
    | TooDeep
    | Alias(line: nat, of: Tree)
    | Mapping(line: nat, keys: seq<Node>, items: seq<Tree>)
    | Sequence(line: nat, items: seq<Tree>)
    | Scalar(line: nat, decoded: Option<string>)
    | Other(line: nat)

  /** Keys and values alternate; a key left over at the end is ignored. */
  function ValuesOf(content: seq<Ref>): (r: seq<Ref>)
    ensures forall c | c in r :: c in content
  {
    seq(|content| / 2, i requires 0 <= i < |content| / 2 => content[2 * i + 1])
  }

  function KeysOf(g: Graph, content: seq<Ref>): seq<Node>
    requires forall c | c in content :: c in g
  {
    seq(|content| / 2, i requires 0 <= i < |content| / 2 && content[2 * i] in g => g[content[2 * i]])
  }

  function Unfold(g: Graph, n: Ref, left: int): Tree
    requires Closed(g) && n in g
    decreases left + 1, 0
  {
    if left < 0 then TooDeep
    else
      match g[n]
      case AliasNode(line, target) => Alias(line, Unfold(g, target, left - 1))
      case MappingNode(line, content) => Mapping(line, KeysOf(g, content), UnfoldAll(g, ValuesOf(content), left))
      case SequenceNode(line, content) => Sequence(line, UnfoldAll(g, content, left))
      case ScalarNode(line, _, _, decoded) => Scalar(line, decoded)
      case OtherNode(line) => Other(line)
  }

  function UnfoldAll(g: Graph, refs: seq<Ref>, left: int): (r: seq<Tree>)
    requires Closed(g) && left >= 0 && forall c | c in refs :: c in g
    ensures |r| == |refs| && forall i | 0 <= i < |r| :: r[i] == Unfold(g, refs[i], left - 1)
    decreases left, 1, |refs|
  {
    if refs == [] then []
    else UnfoldAll(g, refs[..|refs| - 1], left) + [Unfold(g, refs[|refs| - 1], left - 1)]
  }

  function Meaning(t: Tree): Option<Json>
    decreases t
  {
    match t
    case TooDeep => None
    case Alias(_, of) => Meaning(of)
    case Mapping(_, keys, items) => (match Fields(keys, items) case None => None case Some(m) => Some(Object(m)))
    case Sequence(_, items) => (match Items(items) case None => None case Some(s) => Some(Array(s)))
    case Scalar(_, None) => None
    case Scalar(_, Some(d)) => Some(Atom(d))
    case Other(_) => None
  }

  function Items(ts: seq<Tree>): Option<seq<Json>>
    decreases ts
  {
    if ts == [] then Some([])
    else
      match (Items(ts[..|ts| - 1]), Meaning(ts[|ts| - 1]))
      case (Some(front), Some(last)) => Some(front + [last])
      case _ => None
  }

  function Fields(keys: seq<Node>, ts: seq<Tree>): Option<map<string, Json>>
    decreases ts
  {
    if ts == [] then Some(map[])
    else if |keys| < |ts| then None
    else
      match (Fields(keys, ts[..|ts| - 1]), Meaning(ts[|ts| - 1]))
      case (Some(front), Some(last)) => AddField(front, keys[|ts| - 1], last)
      case _ => None
  }

  /** A key is a plain value and new; a merge key brings all its fields in, but
      those already there stay. */
  function AddField(m: map<string, Json>, key: Node, v: Json): Option<map<string, Json>> {
    if !key.ScalarNode? then None
    else if key.isMerge then Merged(m, v)
    else if key.text in m then None
    else Some(m[key.text := v])
  }

  /** What is merged is a mapping or a list of mappings. */
  function Merged(m: map<string, Json>, v: Json): Option<map<string, Json>> {
    match v
    case Object(fields) => Some(fields + m)
    case Array(items) => MergeAll(m, items)
    case Atom(_) => None
  }

  function MergeAll(m: map<string, Json>, sources: seq<Json>): Option<map<string, Json>> {
    if sources == [] then Some(m)
    else
      match MergeAll(m, sources[..|sources| - 1])
      case None => None
      case Some(front) =>
        if sources[|sources| - 1].Object? then Some(sources[|sources| - 1].fields + front) else None
  }

  /** How many nodes are visited, and how many of them are aliases. */
  function Size(t: Tree): nat
    decreases t
  {
    match t
    case Alias(_, of) => 1 + Size(of)
    case Mapping(_, _, items) => 1 + SizeAll(items)
    case Sequence(_, items) => 1 + SizeAll(items)
    case _ => 1
  }

  function SizeAll(ts: seq<Tree>): nat
    decreases ts
  {
    if ts == [] then 0 else SizeAll(ts[..|ts| - 1]) + Size(ts[|ts| - 1])
  }

  function Aliases(t: Tree): nat
    decreases t
  {
    match t
    case Alias(_, of) => 1 + Aliases(of)
    case Mapping(_, _, items) => AliasesAll(items)
    case Sequence(_, items) => AliasesAll(items)
    case _ => 0
  }

  function AliasesAll(ts: seq<Tree>): nat
    decreases ts
  {
    if ts == [] then 0 else AliasesAll(ts[..|ts| - 1]) + Aliases(ts[|ts| - 1])
  }

  /** The unfolding is a value, and what is left of the limits is enough for it. */
  predicate Fits(t: Tree, lim: Limits, nodes: nat, aliases: nat) {
    Meaning(t).Some? && nodes + Size(t) <= lim.maxNodes && aliases + Aliases(t) <= lim.maxAliases
  }

  // ------------------------------------------------------------ JSON pointers

  function ReplaceAll(s: string, c: char, with_: string): string {
    if s == [] then [] else (if s[0] == c then with_ else [s[0]]) + ReplaceAll(s[1..], c, with_)
  }

  function Escape(s: string): string { ReplaceAll(ReplaceAll(s, '~', "~0"), '/', "~1") }

  function Digit(n: nat): char
    requires n < 10
  {
    "0123456789"[n]
  }

  function Itoa(n: nat): string { if n < 10 then [Digit(n)] else Itoa(n / 10) + [Digit(n % 10)] }

  /** The positions known after a node was visited: the first one at a pointer
      stays, and what a merge key brings in is at the pointer of its mapping. */
  function Record(pos: map<string, nat>, ptr: string, t: Tree): map<string, nat>
    decreases t
  {
    match t
    case TooDeep => pos
    case Alias(line, of) => Record(Mark(pos, ptr, line), ptr, of)
    case Mapping(line, keys, items) => RecordFields(Mark(pos, ptr, line), ptr, keys, items)
    case Sequence(line, items) => RecordAll(Mark(pos, ptr, line), ptr, items)
    case Scalar(line, _) => Mark(pos, ptr, line)
    case Other(line) => Mark(pos, ptr, line)
  }

  function Mark(pos: map<string, nat>, ptr: string, line: nat): map<string, nat> {
    if ptr in pos then pos else pos[ptr := line]
  }

  function RecordAll(pos: map<string, nat>, ptr: string, ts: seq<Tree>): map<string, nat>
    decreases ts
  {
    if ts == [] then pos
    else Record(RecordAll(pos, ptr, ts[..|ts| - 1]), ptr + "/" + Itoa(|ts| - 1), ts[|ts| - 1])
  }

  function RecordFields(pos: map<string, nat>, ptr: string, keys: seq<Node>, ts: seq<Tree>): map<string, nat>
    decreases ts
  {
    if ts == [] || |keys| < |ts| then pos
    else Record(RecordFields(pos, ptr, keys, ts[..|ts| - 1]), Below(ptr, keys[|ts| - 1]), ts[|ts| - 1])
  }

  function Below(ptr: string, key: Node): string {
    if key.ScalarNode? && !key.isMerge then ptr + "/" + Escape(key.text) else ptr
  }

  // --------------------------------------------------------- parts and wholes

  lemma {:induction false} ItemsOfPrefix(ts: seq<Tree>, i: nat)
    requires i <= |ts|
    ensures Items(ts).Some? ==> Items(ts[..i]).Some?
    ensures SizeAll(ts[..i]) <= SizeAll(ts) && AliasesAll(ts[..i]) <= AliasesAll(ts)
    decreases |ts|
  {
    if i < |ts| {
      assert ts[..|ts| - 1][..i] == ts[..i];
      ItemsOfPrefix(ts[..|ts| - 1], i);
    } else {
      assert ts[..i] == ts;
    }
  }

  lemma ItemsNext(ts: seq<Tree>, i: nat)
    requires i < |ts|
    ensures SizeAll(ts[..i + 1]) == SizeAll(ts[..i]) + Size(ts[i])
    ensures AliasesAll(ts[..i + 1]) == AliasesAll(ts[..i]) + Aliases(ts[i])
    ensures forall pos, ptr :: RecordAll(pos, ptr, ts[..i + 1]) ==
              Record(RecordAll(pos, ptr, ts[..i]), ptr + "/" + Itoa(i), ts[i])
    ensures Items(ts[..i + 1]) == if Items(ts[..i]).Some? && Meaning(ts[i]).Some?
                                  then Some(Items(ts[..i]).value + [Meaning(ts[i]).value]) else None
  {
    assert ts[..i + 1][..i] == ts[..i];
  }

  lemma {:induction false} FieldsOfPrefix(keys: seq<Node>, ts: seq<Tree>, i: nat)
    requires i <= |ts| <= |keys|
    ensures Fields(keys, ts).Some? ==> Fields(keys, ts[..i]).Some?
    decreases |ts|
  {
    hide AddField;
    if i < |ts| {
      assert ts[..|ts| - 1][..i] == ts[..i];
      FieldsOfPrefix(keys, ts[..|ts| - 1], i);
    } else {
      assert ts[..i] == ts;
    }
  }

  lemma FieldsNext(keys: seq<Node>, ts: seq<Tree>, i: nat)
    requires i < |ts| == |keys|
    ensures forall pos, ptr :: RecordFields(pos, ptr, keys, ts[..i + 1]) ==
              Record(RecordFields(pos, ptr, keys, ts[..i]), Below(ptr, keys[i]), ts[i])
    ensures Fields(keys, ts[..i + 1]) == if Fields(keys, ts[..i]).Some? && Meaning(ts[i]).Some?
                                         then AddField(Fields(keys, ts[..i]).value, keys[i], Meaning(ts[i]).value)
                                         else None
  {
    hide AddField;
    assert ts[..i + 1][..i] == ts[..i];
  }

  lemma SizeIsPositive(t: Tree)
    ensures Size(t) >= 1
  {
  }

  lemma {:induction false} MergeFails(m: map<string, Json>, sources: seq<Json>, i: nat)
    requires i < |sources| && !sources[i].Object?
    ensures MergeAll(m, sources) == None
    decreases |sources|
  {
    if i < |sources| - 1 {
      assert sources[..|sources| - 1][i] == sources[i];
      MergeFails(m, sources[..|sources| - 1], i);
    }
  }

  lemma MappingShape(g: Graph, n: Ref, left: nat)
    requires Closed(g) && n in g && g[n].MappingNode?
    ensures var t, content := Unfold(g, n, left), g[n].content;
            && t.Mapping? && |t.keys| == |t.items| == |content| / 2
            && forall i | 0 <= i < |t.items| ::
                 && content[2 * i] in g && content[2 * i + 1] in g
                 && t.keys[i] == g[content[2 * i]] && t.items[i] == Unfold(g, content[2 * i + 1], left - 1)
  {
    hide Meaning, Size, Aliases, Fields, SizeAll, AliasesAll, RecordFields;
    forall i | 0 <= i < |g[n].content| / 2 ensures g[n].content[2 * i] in g && g[n].content[2 * i + 1] in g {
      assert g[n].content[2 * i] in g[n].content && g[n].content[2 * i + 1] in g[n].content;
    }
  }

  lemma MappingSays(t: Tree)
    requires t.Mapping?
    ensures Meaning(t) == if Fields(t.keys, t.items).Some? then Some(Object(Fields(t.keys, t.items).value)) else None
    ensures Size(t) == 1 + SizeAll(t.items) && Aliases(t) == AliasesAll(t.items)
  {
  }

  lemma NoFields()
    ensures forall keys :: Fields(keys, []) == Some(map[])
    ensures SizeAll([]) == 0 && AliasesAll([]) == 0 && forall pos, ptr, keys :: RecordFields(pos, ptr, keys, []) == pos
  {
  }

  lemma MappingIs(g: Graph, n: Ref, left: nat)
    requires Closed(g) && n in g && g[n].MappingNode?
    ensures var t, content := Unfold(g, n, left), g[n].content;
            && t.Mapping? && |t.keys| == |t.items| == |content| / 2
            && (forall i | 0 <= i < |t.items| ::
                  && content[2 * i] in g && content[2 * i + 1] in g
                  && t.keys[i] == g[content[2 * i]] && t.items[i] == Unfold(g, content[2 * i + 1], left - 1))
            && Meaning(t) == (if Fields(t.keys, t.items).Some? then Some(Object(Fields(t.keys, t.items).value))
                              else None)
            && Size(t) == 1 + SizeAll(t.items) && Aliases(t) == AliasesAll(t.items)
    ensures forall keys :: Fields(keys, []) == Some(map[])
    ensures SizeAll([]) == 0 && AliasesAll([]) == 0 && forall pos, ptr, keys :: RecordFields(pos, ptr, keys, []) == pos
  {
    hide *;
    MappingShape(g, n, left);
    MappingSays(Unfold(g, n, left));
    NoFields();
  }

  lemma SequenceIs(g: Graph, n: Ref, left: nat)
    requires Closed(g) && n in g && g[n].SequenceNode?
    ensures var t, content := Unfold(g, n, left), g[n].content;
            && t.Sequence? && |t.items| == |content|
            && (forall i | 0 <= i < |t.items| :: content[i] in g && t.items[i] == Unfold(g, content[i], left - 1))
            && Meaning(t) == (if Items(t.items).Some? then Some(Array(Items(t.items).value)) else None)
            && Size(t) == 1 + SizeAll(t.items) && Aliases(t) == AliasesAll(t.items)
    ensures Items([]) == Some([]) && SizeAll([]) == 0 && AliasesAll([]) == 0
    ensures forall pos, ptr :: RecordAll(pos, ptr, []) == pos
  {
  }

  // ------------------------------------------------------------ the converter

  class Converter {
    const g: Graph
    const lim: Limits
    var nodes: nat
    var aliases: nat
    var pos: map<string, nat>

    constructor (g: Graph, lim: Limits)
      ensures this.g == g && this.lim == lim && nodes == 0 && aliases == 0 && pos == map[]
    {
      this.g, this.lim, nodes, aliases, pos := g, lim, 0, 0, map[];
    }

    function Of(n: Ref, depth: nat): Tree
      requires Closed(g) && n in g
    {
      Unfold(g, n, lim.maxDepth - depth)
    }

    /** Succeeds exactly when the unfolding is a value within the limits, and then
        gives that value, after one visit for each of its nodes. */
    method Convert(n: Ref, ptr: string, depth: nat) returns (r: Option<Json>)
      requires Closed(g) && n in g && depth <= lim.maxDepth + 1
      requires nodes <= lim.maxNodes && aliases <= lim.maxAliases
      modifies this
      ensures nodes <= lim.maxNodes + 1
      ensures r.Some? <==> Fits(Of(n, depth), lim, old(nodes), old(aliases))
      ensures r.Some? ==> r == Meaning(Of(n, depth))
      ensures r.Some? ==> nodes == old(nodes) + Size(Of(n, depth)) && aliases == old(aliases) + Aliases(Of(n, depth))
      ensures r.Some? ==> pos == Record(old(pos), ptr, Of(n, depth))
      decreases lim.maxDepth + 1 - depth, 3
    {
      nodes := nodes + 1;
      if nodes > lim.maxNodes { SizeIsPositive(Of(n, depth)); return None; }
      if depth > lim.maxDepth { return None; }
      if ptr !in pos { pos := pos[ptr := g[n].line]; }
      match g[n] {
        case AliasNode(_, target) =>
          aliases := aliases + 1;
          if aliases > lim.maxAliases { return None; }
          r := Convert(target, ptr, depth + 1);
        case MappingNode(_, content) => r := ConvertMapping(n, ptr, depth);
        case SequenceNode(_, content) => r := ConvertSequence(n, ptr, depth);
        case ScalarNode(_, _, _, decoded) =>
          if decoded == None { return None; }
          return Some(Atom(decoded.value));
        case OtherNode(_) => return None;
      }
    }

    method ConvertSequence(n: Ref, ptr: string, depth: nat) returns (r: Option<Json>)
      requires Closed(g) && n in g && g[n].SequenceNode? && depth <= lim.maxDepth
      requires 1 <= nodes <= lim.maxNodes && aliases <= lim.maxAliases
      modifies this
      ensures nodes <= lim.maxNodes + 1
      ensures r.Some? <==> Fits(Of(n, depth), lim, old(nodes) - 1, old(aliases))
      ensures r.Some? ==> r == Meaning(Of(n, depth))
      ensures r.Some? ==> nodes == old(nodes) - 1 + Size(Of(n, depth)) &&
                          aliases == old(aliases) + Aliases(Of(n, depth))
      ensures r.Some? ==> pos == RecordAll(old(pos), ptr, Of(n, depth).items)
      decreases lim.maxDepth + 1 - depth, 0
    {
      hide Record, Meaning, Size, Aliases, RecordAll, SizeAll, AliasesAll, Items, Unfold, Closed;
      var content := g[n].content;
      SequenceIs(g, n, lim.maxDepth - depth);
      ghost var ts := Of(n, depth).items;
      var out: seq<Json> := [];
      for i := 0 to |content|
        invariant nodes == old(nodes) + SizeAll(ts[..i]) <= lim.maxNodes
        invariant aliases == old(aliases) + AliasesAll(ts[..i]) <= lim.maxAliases
        invariant Items(ts[..i]) == Some(out) && pos == RecordAll(old(pos), ptr, ts[..i])
      {
        assert content[i] in content;
        ItemsNext(ts, i);
        ItemsOfPrefix(ts, i + 1);
        var child := Convert(content[i], ptr + "/" + Itoa(i), depth + 1);
        if child == None { return None; }
        out := out + [child.value];
      }
      assert ts[..|content|] == ts;
      return Some(Array(out));
    }

    method ConvertMapping(n: Ref, ptr: string, depth: nat) returns (r: Option<Json>)
      requires Closed(g) && n in g && g[n].MappingNode? && depth <= lim.maxDepth
      requires 1 <= nodes <= lim.maxNodes && aliases <= lim.maxAliases
      modifies this
      ensures nodes <= lim.maxNodes + 1
      ensures r.Some? <==> Fits(Of(n, depth), lim, old(nodes) - 1, old(aliases))
      ensures r.Some? ==> r == Meaning(Of(n, depth))
      ensures r.Some? ==> nodes == old(nodes) - 1 + Size(Of(n, depth)) &&
                          aliases == old(aliases) + Aliases(Of(n, depth))
      ensures r.Some? ==> pos == RecordFields(old(pos), ptr, Of(n, depth).keys, Of(n, depth).items)
      decreases lim.maxDepth + 1 - depth, 2
    {
      hide AddField, Record, Meaning, Size, Aliases, Fields, RecordFields, SizeAll, AliasesAll, Items, Unfold, Closed;
      var content := g[n].content;
      MappingIs(g, n, lim.maxDepth - depth);
      ghost var keys, ts := Of(n, depth).keys, Of(n, depth).items;
      var out: map<string, Json> := map[];
      var i := 0;
      while 2 * i + 1 < |content|
        invariant 0 <= i <= |ts| == |keys| == |content| / 2
        invariant nodes == old(nodes) + SizeAll(ts[..i]) <= lim.maxNodes
        invariant aliases == old(aliases) + AliasesAll(ts[..i]) <= lim.maxAliases
        invariant Fields(keys, ts[..i]) == Some(out)
        invariant pos == RecordFields(old(pos), ptr, keys, ts[..i])
      {
        var k, v := content[2 * i], content[2 * i + 1];
        assert k in content && v in content;
        ItemsNext(ts, i);
        ItemsOfPrefix(ts, i + 1);
        FieldsNext(keys, ts, i);
        FieldsOfPrefix(keys, ts, i + 1);
        var more := ConvertField(out, k, v, ptr, depth);
        if more == None { return None; }
        out := more.value;
        i := i + 1;
      }
      assert ts[..i] == ts;
      return Some(Object(out));
    }

    method ConvertField(out: map<string, Json>, k: Ref, v: Ref, ptr: string, depth: nat)
      returns (r: Option<map<string, Json>>)
      requires Closed(g) && k in g && v in g && depth <= lim.maxDepth
      requires nodes <= lim.maxNodes && aliases <= lim.maxAliases
      modifies this
      ensures nodes <= lim.maxNodes + 1
      ensures r.Some? <==> Fits(Of(v, depth + 1), lim, old(nodes), old(aliases)) &&
                           AddField(out, g[k], Meaning(Of(v, depth + 1)).value).Some?
      ensures r.Some? ==> r == AddField(out, g[k], Meaning(Of(v, depth + 1)).value)
      ensures r.Some? ==> nodes == old(nodes) + Size(Of(v, depth + 1)) &&
                          aliases == old(aliases) + Aliases(Of(v, depth + 1))
      ensures r.Some? ==> pos == Record(old(pos), Below(ptr, g[k]), Of(v, depth + 1))
      decreases lim.maxDepth + 1 - depth, 1
    {
      if !g[k].ScalarNode? { return None; }
      if g[k].isMerge {
        r := Merge(out, v, ptr, depth);
        return;
      }
      if g[k].text in out { return None; }
      var child := Convert(v, ptr + "/" + Escape(g[k].text), depth + 1);
      if child == None { return None; }
      return Some(out[g[k].text := child.value]);
    }

    /** A merge key: fields already present win. */
    method Merge(out: map<string, Json>, v: Ref, ptr: string, depth: nat) returns (r: Option<map<string, Json>>)
      requires Closed(g) && v in g && depth <= lim.maxDepth
      requires nodes <= lim.maxNodes && aliases <= lim.maxAliases
      modifies this
      ensures nodes <= lim.maxNodes + 1
      ensures r.Some? <==> Fits(Of(v, depth + 1), lim, old(nodes), old(aliases)) &&
                           Merged(out, Meaning(Of(v, depth + 1)).value).Some?
      ensures r.Some? ==> r == Merged(out, Meaning(Of(v, depth + 1)).value)
      ensures r.Some? ==> nodes == old(nodes) + Size(Of(v, depth + 1)) &&
                          aliases == old(aliases) + Aliases(Of(v, depth + 1))
      ensures r.Some? ==> pos == Record(old(pos), ptr, Of(v, depth + 1))
      decreases lim.maxDepth + 1 - depth, 0
    {
      var merged := Convert(v, ptr, depth + 1);
      if merged == None { return None; }
      var sources: seq<Json>;
      match merged.value {
        case Object(_) => sources := [merged.value];
        case Array(items) => sources := items;
        case Atom(_) => return None;
      }
      var m := out;
      for i := 0 to |sources|
        invariant MergeAll(out, sources[..i]) == Some(m)
      {
        assert sources[..i + 1][..i] == sources[..i];
        if !sources[i].Object? { MergeFails(out, sources, i); return None; }
        m := sources[i].fields + m;
      }
      assert sources[..|sources|] == sources;
      return Some(m);
    }
  }

  // ------------------------------------------------------------ mappings

  predicate Mergeable(v: Json) {
    v.Object? || (v.Array? && forall i | 0 <= i < |v.items| :: v.items[i].Object?)
  }

  /** Merging adds the fields that are not there yet. */
  lemma {:induction false} MergeAllAdds(m: map<string, Json>, sources: seq<Json>)
    ensures MergeAll(m, sources).Some? <==> forall i | 0 <= i < |sources| :: sources[i].Object?
    ensures MergeAll(m, sources).Some? <==> MergeAll(map[], sources).Some?
    ensures MergeAll(m, sources).Some? ==> MergeAll(m, sources).value == MergeAll(map[], sources).value + m
    decreases |sources|
  {
    if sources != [] {
      var front, last := sources[..|sources| - 1], sources[|sources| - 1];
      MergeAllAdds(m, front);
      assert sources == front + [last];
      if last.Object? && MergeAll(m, front).Some? {
        var rest := MergeAll(map[], front).value;
        assert last.fields + (rest + m) == (last.fields + rest) + m;
      }
    }
  }

  lemma MergedAdds(m: map<string, Json>, v: Json)
    ensures Merged(m, v).Some? <==> Mergeable(v)
    ensures Mergeable(v) ==> Merged(map[], v).Some? && Merged(m, v).value == Merged(map[], v).value + m
  {
    match v {
      case Object(fields) => assert fields + map[] == fields;
      case Array(items) => MergeAllAdds(m, items);
      case Atom(_) =>
    }
  }

  /** The fields a key brings into its mapping. */
  function Gives(key: Node, t: Tree): map<string, Json> {
    if Meaning(t) == None || !key.ScalarNode? then map[]
    else if !key.isMerge then map[key.text := Meaning(t).value]
    else if Merged(map[], Meaning(t).value).Some? then Merged(map[], Meaning(t).value).value
    else map[]
  }

  /** A plain key that an earlier key, plain or merged, brought in before. */
  ghost predicate Repeated(keys: seq<Node>, ts: seq<Tree>, i: nat)
    requires i < |ts| <= |keys| && keys[i].ScalarNode?
  {
    exists j :: 0 <= j < i && keys[i].text in Gives(keys[j], ts[j])
  }

  ghost predicate FieldOk(keys: seq<Node>, ts: seq<Tree>, i: nat)
    requires i < |ts| <= |keys|
  {
    && keys[i].ScalarNode? && Meaning(ts[i]).Some?
    && (if keys[i].isMerge then Mergeable(Meaning(ts[i]).value) else !Repeated(keys, ts, i))
  }

  /** All that the first keys bring in; of two fields the earlier one counts. */
  function Together(keys: seq<Node>, ts: seq<Tree>, n: nat): map<string, Json>
    requires n <= |ts| <= |keys|
  {
    if n == 0 then map[] else Gives(keys[n - 1], ts[n - 1]) + Together(keys, ts, n - 1)
  }

  /** A field is that of the first key that brings it in. */
  lemma {:induction false} FirstCounts(keys: seq<Node>, ts: seq<Tree>, n: nat, name: string)
    requires n <= |ts| <= |keys|
    ensures name in Together(keys, ts, n) <==> exists j :: 0 <= j < n && name in Gives(keys[j], ts[j])
    ensures forall j | 0 <= j < n && name in Gives(keys[j], ts[j]) &&
                       (forall i | 0 <= i < j :: name !in Gives(keys[i], ts[i])) ::
              Together(keys, ts, n)[name] == Gives(keys[j], ts[j])[name]
  {
    hide Gives;
    if n > 0 { FirstCounts(keys, ts, n - 1, name); }
  }

  lemma AddFieldAdds(m: map<string, Json>, key: Node, t: Tree)
    requires Meaning(t).Some?
    ensures var r := AddField(m, key, Meaning(t).value);
            && (r.Some? <==> key.ScalarNode? &&
                             if key.isMerge then Mergeable(Meaning(t).value) else key.text !in m)
            && (r.Some? ==> r.value == Gives(key, t) + m)
  {
    MergedAdds(m, Meaning(t).value);
    hide Merged, Mergeable, Meaning;
  }

  lemma FieldOkIff(keys: seq<Node>, ts: seq<Tree>, i: nat)
    requires i < |ts| <= |keys|
    ensures FieldOk(keys, ts, i) <==>
            Meaning(ts[i]).Some? && AddField(Together(keys, ts, i), keys[i], Meaning(ts[i]).value).Some?
    ensures FieldOk(keys, ts, i) ==>
            AddField(Together(keys, ts, i), keys[i], Meaning(ts[i]).value) == Some(Together(keys, ts, i + 1))
  {
    if Meaning(ts[i]).Some? {
      AddFieldAdds(Together(keys, ts, i), keys[i], ts[i]);
      if keys[i].ScalarNode? { FirstCounts(keys, ts, i, keys[i].text); }
      hide Meaning, Gives, AddField, Mergeable;
    }
  }

  lemma {:induction false} FieldsIff(keys: seq<Node>, ts: seq<Tree>, n: nat)
    requires n <= |ts| <= |keys|
    ensures Fields(keys, ts[..n]).Some? <==> forall i | 0 <= i < n :: FieldOk(keys, ts, i)
    ensures Fields(keys, ts[..n]).Some? ==> Fields(keys, ts[..n]).value == Together(keys, ts, n)
  {
    if n > 0 {
      hide Meaning, Gives, AddField, FieldOk, Together;
      FieldsIff(keys, ts, n - 1);
      assert ts[..n][..n - 1] == ts[..n - 1] && ts[..n][n - 1] == ts[n - 1];
      FieldOkIff(keys, ts, n - 1);
    } else {
      assert Together(keys, ts, n) == map[];
    }
  }

  /** A mapping has a value if and only if its keys and values have, merge keys
      have mappings, and no plain key comes behind one that already brought it
      in, merge keys included; so an override must stand before the merge key.
      The value then has what any key brings in, as the first one brings it. */
  lemma MappingIff(line: nat, keys: seq<Node>, ts: seq<Tree>)
    requires |keys| == |ts|
    ensures Meaning(Mapping(line, keys, ts)).Some? <==> forall i | 0 <= i < |ts| :: FieldOk(keys, ts, i)
    ensures Meaning(Mapping(line, keys, ts)).Some? ==>
              Meaning(Mapping(line, keys, ts)) == Some(Object(Together(keys, ts, |ts|)))
  {
    FieldsIff(keys, ts, |ts|);
    assert ts[..|ts|] == ts;
  }

  /** The shortest such mappings: an override, before a merge key and behind it. */
  lemma OverrideMustComeFirst(merge: Node, key: Node, base: Tree, value: Tree)
    requires merge.ScalarNode? && merge.isMerge && key.ScalarNode? && !key.isMerge
    requires Meaning(value).Some? && Meaning(base).Some? && Meaning(base).value.Object?
    requires key.text in Meaning(base).value.fields
    ensures Fields([merge, key], [base, value]) == None
    ensures Fields([key, merge], [value, base]) == Some(Meaning(base).value.fields[key.text := Meaning(value).value])
  {
    var fields, v := Meaning(base).value.fields, Meaning(value).value;
    assert [base, value][..1] == [base] && [base][..0] == [] && [value, base][..1] == [value] && [value][..0] == [];
    hide Meaning;
    assert Fields([merge, key], [base]) == Some(fields + map[]);
    assert Fields([key, merge], [value]) == Some(map[key.text := v]);
    assert fields + map[key.text := v] == fields[key.text := v];
  }

  // --------------------------------------------------------- depth and cycles

  /** A value nests no deeper than so many levels. */
  ghost predicate WithinDepth(v: Json, d: int)
    decreases v
  {
    d >= 0 && match v
              case Atom(_) => true
              case Object(fields) => forall k | k in fields :: WithinDepth(fields[k], d - 1)
              case Array(items) => forall i | 0 <= i < |items| :: WithinDepth(items[i], d - 1)
  }

  lemma {:induction false} DeeperIsFine(v: Json, d: int, e: int)
    requires WithinDepth(v, d) && d <= e
    ensures WithinDepth(v, e)
    decreases v
  {
    match v {
      case Atom(_) =>
      case Object(fields) =>
        forall k | k in fields ensures WithinDepth(fields[k], e - 1) { DeeperIsFine(fields[k], d - 1, e - 1); }
      case Array(items) =>
        forall i | 0 <= i < |items| ensures WithinDepth(items[i], e - 1) { DeeperIsFine(items[i], d - 1, e - 1); }
    }
  }

  ghost predicate FieldsWithin(m: map<string, Json>, d: int) { forall k | k in m :: WithinDepth(m[k], d) }

  lemma {:induction false} MergeWithin(m: map<string, Json>, sources: seq<Json>, d: int)
    requires FieldsWithin(m, d) && forall i | 0 <= i < |sources| :: WithinDepth(sources[i], d - 1)
    ensures MergeAll(m, sources).Some? ==> FieldsWithin(MergeAll(m, sources).value, d)
    decreases |sources|
  {
    if sources != [] && MergeAll(m, sources).Some? {
      MergeWithin(m, sources[..|sources| - 1], d);
      var last := sources[|sources| - 1];
      assert WithinDepth(last, d - 1);
      forall k | k in last.fields ensures WithinDepth(last.fields[k], d) { DeeperIsFine(last.fields[k], d - 2, d); }
    }
  }

  lemma AddFieldWithin(m: map<string, Json>, key: Node, v: Json, d: int)
    requires FieldsWithin(m, d) && WithinDepth(v, d)
    ensures AddField(m, key, v).Some? ==> FieldsWithin(AddField(m, key, v).value, d)
  {
    if key.ScalarNode? && key.isMerge {
      match v {
        case Atom(_) =>
        case Object(fields) =>
          forall k | k in fields ensures WithinDepth(fields[k], d) { DeeperIsFine(fields[k], d - 1, d); }
        case Array(items) => MergeWithin(m, items, d);
      }
    }
  }

  lemma {:induction false} FieldsStayWithin(keys: seq<Node>, ts: seq<Tree>, d: int)
    requires |ts| <= |keys| && forall i | 0 <= i < |ts| && Meaning(ts[i]).Some? :: WithinDepth(Meaning(ts[i]).value, d)
    ensures Fields(keys, ts).Some? ==> FieldsWithin(Fields(keys, ts).value, d)
    decreases |ts|
  {
    hide AddField, WithinDepth;
    if ts != [] && Fields(keys, ts).Some? {
      var front, last := ts[..|ts| - 1], ts[|ts| - 1];
      assert forall i | 0 <= i < |front| :: front[i] == ts[i];
      FieldsStayWithin(keys, front, d);
      assert Meaning(ts[|ts| - 1]).Some? && WithinDepth(Meaning(ts[|ts| - 1]).value, d);
      hide FieldsWithin;
      AddFieldWithin(Fields(keys, front).value, keys[|ts| - 1], Meaning(last).value, d);
    }
  }

  lemma {:induction false} ItemsAre(ts: seq<Tree>)
    requires Items(ts).Some?
    ensures |Items(ts).value| == |ts|
    ensures forall i | 0 <= i < |ts| :: Meaning(ts[i]) == Some(Items(ts).value[i])
    decreases |ts|
  {
    if ts != [] {
      ItemsAre(ts[..|ts| - 1]);
      forall i | 0 <= i < |ts| - 1 ensures Meaning(ts[i]) == Some(Items(ts).value[i]) {
        assert ts[..|ts| - 1][i] == ts[i];
      }
    }
  }

  /** Every value accepted nests within the depth limit, whatever aliases and
      merge keys brought in. */
  lemma {:induction false} DepthIsBounded(g: Graph, n: Ref, left: int)
    requires Closed(g) && n in g && Meaning(Unfold(g, n, left)).Some?
    ensures WithinDepth(Meaning(Unfold(g, n, left)).value, left)
    decreases left + 1, 1
  {
    if left >= 0 {
      match g[n] {
        case AliasNode(_, target) =>
          DepthIsBounded(g, target, left - 1);
          DeeperIsFine(Meaning(Unfold(g, n, left)).value, left - 1, left);
        case MappingNode(_, content) => MappingDepth(g, n, left);
        case SequenceNode(_, content) => SequenceDepth(g, n, left);
        case _ =>
      }
    }
  }

  lemma MappingDepth(g: Graph, n: Ref, left: nat)
    requires Closed(g) && n in g && g[n].MappingNode? && Meaning(Unfold(g, n, left)).Some?
    ensures WithinDepth(Meaning(Unfold(g, n, left)).value, left)
    decreases left + 1, 0
  {
    hide Unfold, Meaning, Fields, Size, Aliases;
    MappingIs(g, n, left);
    var t := Unfold(g, n, left);
    forall i | 0 <= i < |t.items| && Meaning(t.items[i]).Some?
      ensures WithinDepth(Meaning(t.items[i]).value, left - 1) {
      DepthIsBounded(g, g[n].content[2 * i + 1], left - 1);
    }
    FieldsStayWithin(t.keys, t.items, left - 1);
  }

  lemma SequenceDepth(g: Graph, n: Ref, left: nat)
    requires Closed(g) && n in g && g[n].SequenceNode? && Meaning(Unfold(g, n, left)).Some?
    ensures WithinDepth(Meaning(Unfold(g, n, left)).value, left)
    decreases left + 1, 0
  {
    var ts := Unfold(g, n, left).items;
    ItemsAre(ts);
    forall i | 0 <= i < |ts| ensures WithinDepth(Items(ts).value[i], left - 1) {
      assert g[n].content[i] in g[n].content;
      DepthIsBounded(g, g[n].content[i], left - 1);
    }
  }

  /** What converting a node also converts. */
  predicate Converts(g: Graph, n: Ref, m: Ref)
    requires n in g
  {
    match g[n]
    case AliasNode(_, target) => target == m
    case MappingNode(_, content) => m in ValuesOf(content)
    case SequenceNode(_, content) => m in content
    case _ => false
  }

  lemma PartsMatter(g: Graph, n: Ref, m: Ref, left: int)
    requires Closed(g) && n in g && m in g && Converts(g, n, m) && Meaning(Unfold(g, n, left)).Some?
    ensures left >= 0 && Meaning(Unfold(g, m, left - 1)).Some?
  {
    match g[n] {
      case AliasNode(_, _) =>
      case MappingNode(_, content) =>
        MappingIs(g, n, left);
        var t := Unfold(g, n, left);
        var i :| 0 <= i < |ValuesOf(content)| && ValuesOf(content)[i] == m;
        FieldsOfPrefix(t.keys, t.items, i + 1);
        FieldsNext(t.keys, t.items, i);
      case SequenceNode(_, content) =>
        var ts := Unfold(g, n, left).items;
        var i :| 0 <= i < |content| && content[i] == m;
        ItemsAre(ts);
      case _ =>
    }
  }

  predicate Walk(g: Graph, path: seq<Ref>) {
    && |path| > 0 && (forall i | 0 <= i < |path| :: path[i] in g)
    && forall i | 0 < i < |path| :: Converts(g, path[i - 1], path[i])
  }

  lemma NotTooDeep(g: Graph, n: Ref, left: int)
    requires Closed(g) && n in g && Meaning(Unfold(g, n, left)).Some?
    ensures left >= 0
  {
  }

  lemma {:induction false} WalksMatter(g: Graph, path: seq<Ref>, left: int)
    requires Closed(g) && Walk(g, path) && Meaning(Unfold(g, path[0], left)).Some?
    ensures left >= |path| - 1 && Meaning(Unfold(g, path[|path| - 1], left - (|path| - 1))).Some?
    decreases |path|
  {
    hide Unfold, Meaning, Converts;
    NotTooDeep(g, path[0], left);
    if |path| > 1 {
      WalksMatter(g, path[..|path| - 1], left);
      PartsMatter(g, path[|path| - 2], path[|path| - 1], left - (|path| - 2));
      NotTooDeep(g, path[|path| - 1], left - (|path| - 1));
    }
  }

  /** A node that contains itself, through any number of others, aliases and
      merge keys is refused at every depth limit. */
  lemma {:induction false} CyclesAreRefused(g: Graph, path: seq<Ref>, left: int)
    requires Closed(g) && Walk(g, path) && |path| > 1 && path[0] == path[|path| - 1]
    ensures Meaning(Unfold(g, path[0], left)) == None
    decreases if left < 0 then 0 else left + 1
  {
    if Meaning(Unfold(g, path[0], left)).Some? {
      WalksMatter(g, path, left);
      CyclesAreRefused(g, path, left - (|path| - 1));
    }
  }

  // ------------------------------------------------------------------ lines

  function Unescape(s: string): string {
    if s == [] then []
    else if |s| >= 2 && s[0] == '~' && s[1] == '0' then ['~'] + Unescape(s[2..])
    else if |s| >= 2 && s[0] == '~' && s[1] == '1' then ['/'] + Unescape(s[2..])
    else [s[0]] + Unescape(s[1..])
  }

  function EscapeChar(c: char): string { if c == '~' then "~0" else if c == '/' then "~1" else [c] }

  lemma ReplaceCons(c: char, s: string, old_: char, with_: string)
    ensures ReplaceAll([c] + s, old_, with_) == (if c == old_ then with_ else [c]) + ReplaceAll(s, old_, with_)
  {
    assert ([c] + s)[1..] == s;
  }

  /** Both replacements in one pass. */
  lemma EscapeOnce(s: string)
    requires s != []
    ensures Escape(s) == EscapeChar(s[0]) + Escape(s[1..])
  {
    var rest := ReplaceAll(s[1..], '~', "~0");
    assert s == [s[0]] + s[1..];
    ReplaceCons(s[0], s[1..], '~', "~0");
    if s[0] == '~' {
      assert "~0" + rest == ['~'] + (['0'] + rest);
      ReplaceCons('~', ['0'] + rest, '/', "~1");
      ReplaceCons('0', rest, '/', "~1");
      var done := ReplaceAll(rest, '/', "~1");
      assert ['~'] + (['0'] + done) == "~0" + done;
    } else {
      ReplaceCons(s[0], rest, '/', "~1");
    }
  }

  /** Escaping is undone by unescaping, and leaves no slash. */
  lemma {:induction false} EscapeRoundTrip(s: string)
    ensures Unescape(Escape(s)) == s && '/' !in Escape(s)
  {
    if s != [] {
      EscapeOnce(s);
      EscapeRoundTrip(s[1..]);
      hide Escape;
      var first, rest := EscapeChar(s[0]), Escape(s[1..]);
      assert (first + rest)[|first|..] == rest;
      assert s == [s[0]] + s[1..];
    }
  }

  lemma EscapeIsInjective(a: string, b: string)
    requires Escape(a) == Escape(b)
    ensures a == b
  {
    EscapeRoundTrip(a);
    EscapeRoundTrip(b);
  }

  function Pointer(tokens: seq<string>): string {
    if tokens == [] then "" else Pointer(tokens[..|tokens| - 1]) + "/" + Escape(tokens[|tokens| - 1])
  }

  /** The last slash of a string, or -1. */
  method LastIndex(s: string) returns (i: int)
    ensures -1 <= i < |s| && (i >= 0 ==> s[i] == '/') && forall j | i < j < |s| :: s[j] != '/'
  {
    i := |s| - 1;
    while i >= 0 && s[i] != '/'
      invariant -1 <= i < |s| && forall j | i < j < |s| :: s[j] != '/'
    {
      i := i - 1;
    }
  }

  /** The last slash is where the last token begins. */
  lemma LastToken(tokens: seq<string>)
    requires tokens != []
    ensures var p, front := Pointer(tokens), Pointer(tokens[..|tokens| - 1]);
            |front| < |p| && p[|front|] == '/' && p[..|front|] == front && forall j | |front| < j < |p| :: p[j] != '/'
  {
    var p, front, last := Pointer(tokens), Pointer(tokens[..|tokens| - 1]), Escape(tokens[|tokens| - 1]);
    EscapeRoundTrip(tokens[|tokens| - 1]);
    assert p == front + "/" + last;
    forall j | |front| < j < |p| ensures p[j] != '/' { assert p[j] == last[j - |front| - 1]; }
  }

  lemma {:induction false} PointersDiffer(a: seq<string>, b: seq<string>)
    requires Pointer(a) == Pointer(b)
    ensures a == b
    decreases |a|
  {
    if a != [] && b != [] {
      LastToken(a);
      LastToken(b);
      var fa, fb := a[..|a| - 1], b[..|b| - 1];
      assert |Pointer(fa)| == |Pointer(fb)|;
      PointersDiffer(fa, fb);
      var p, n := Pointer(a), |Pointer(fa)|;
      assert p[n + 1..] == Escape(a[|a| - 1]) && p[n + 1..] == Escape(b[|b| - 1]);
      EscapeIsInjective(a[|a| - 1], b[|b| - 1]);
      assert a == fa + [a[|a| - 1]] && b == fb + [b[|b| - 1]];
    }
  }

  /** The line of the longest part of a path that is recorded. */
  function Closest(pos: map<string, nat>, tokens: seq<string>): nat {
    if Pointer(tokens) in pos then pos[Pointer(tokens)]
    else if tokens == [] then 0 else Closest(pos, tokens[..|tokens| - 1])
  }

  /** The same for any string: what is recorded for it, or for what is left of it
      before a slash, the last slash first. */
  ghost predicate LineFor(pos: map<string, nat>, p: string, line: nat) {
    exists n :: 0 <= n <= |p| && (n == |p| || p[n] == '/') && Cuts(pos, p, n) &&
                (if p[..n] in pos then line == pos[p[..n]] else line == 0 && '/' !in p[..n])
  }

  /** Nothing longer is recorded. */
  ghost predicate Cuts(pos: map<string, nat>, p: string, n: nat) {
    forall k | n < k <= |p| && (k == |p| || p[k] == '/') :: p[..k] !in pos
  }

  /** Positions.Line: it looks at every part in turn. */
  method Line(pos: map<string, nat>, pointer: string) returns (line: nat)
    ensures LineFor(pos, pointer, line)
    ensures forall tokens | pointer == Pointer(tokens) :: line == Closest(pos, tokens)
  {
    var p := pointer;
    while true
      invariant p <= pointer && (p == pointer || pointer[|p|] == '/') && Cuts(pos, pointer, |p|)
      decreases |p|
    {
      assert pointer[..|p|] == p;
      if p in pos { line := pos[p]; break; }
      var i := LastIndex(p);
      if i < 0 { line := 0; break; }
      p := p[..i];
    }
    assert LineFor(pos, pointer, line) by { assert pointer[..|p|] == p && 0 <= |p| <= |pointer|; }
    forall tokens | pointer == Pointer(tokens) ensures line == Closest(pos, tokens) {
      LineIsClosest(pos, tokens, line);
    }
  }

  /** For the pointer of a path, the parts are the pointers of its beginnings. */
  lemma {:induction false} LineIsClosest(pos: map<string, nat>, tokens: seq<string>, line: nat)
    requires LineFor(pos, Pointer(tokens), line)
    ensures line == Closest(pos, tokens)
    decreases |tokens|
  {
    var p := Pointer(tokens);
    assert p[..|p|] == p;
    if p !in pos && tokens != [] {
      var front := tokens[..|tokens| - 1];
      LastToken(tokens);
      var q := Pointer(front);
      var n :| 0 <= n <= |p| && (n == |p| || p[n] == '/') && Cuts(pos, p, n) &&
               (if p[..n] in pos then line == pos[p[..n]] else line == 0 && '/' !in p[..n]);
      assert p[|q|] == '/' && p[..|q|] == q;
      ShorterPart(pos, p, q, n, line);
      LineIsClosest(pos, front, line);
    }
  }

  lemma ShorterPart(pos: map<string, nat>, p: string, q: string, n: nat, line: nat)
    requires |q| < |p| && p[..|q|] == q && p[|q|] == '/' && (forall j | |q| < j < |p| :: p[j] != '/') && p !in pos
    requires n <= |p| && (n == |p| || p[n] == '/') && Cuts(pos, p, n)
    requires if p[..n] in pos then line == pos[p[..n]] else line == 0 && '/' !in p[..n]
    ensures LineFor(pos, q, line)
  {
    assert p[..|p|] == p && p[|q|] in p;
    assert n <= |q| && p[..n] == q[..n];
    forall k | n < k <= |q| && (k == |q| || q[k] == '/') ensures q[..k] !in pos {
      assert p[..k] == q[..k] && p[k] == '/';
    }
    if n < |q| { assert q[n] == p[n]; }
  }

  /** It is the recorded path with the most tokens that begins the one asked for. */
  lemma {:induction false} ClosestIsLongest(pos: map<string, nat>, tokens: seq<string>, n: nat)
    requires n <= |tokens| && Pointer(tokens[..n]) in pos
    requires forall k | n < k <= |tokens| :: Pointer(tokens[..k]) !in pos
    ensures Closest(pos, tokens) == pos[Pointer(tokens[..n])]
    decreases |tokens|
  {
    assert tokens[..|tokens|] == tokens;
    if n < |tokens| {
      assert Pointer(tokens[..|tokens|]) !in pos;
      var front := tokens[..|tokens| - 1];
      assert forall k | 0 <= k <= |front| :: front[..k] == tokens[..k];
      ClosestIsLongest(pos, front, n);
    }
  }
}