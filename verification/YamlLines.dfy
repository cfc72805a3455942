/**
 Which lines a conversion records: for every path of the document, through keys
 and indices, the line of the first node met there.
 */
module YamlLines {
  import opened Common
  import opened Yaml

  type Path = seq<string>

  /** A node met at a path, with its line, and whether it is an alias. */
  datatype Visit = Visit(path: Path, line: nat, alias: bool)

  /** The nodes of an unfolded document in the order they are met, each with its
      path: the texts of the keys and the numbers of the items that lead to it. An
      alias stands where its target does, and what a merge key brings in where
      its mapping does. */
  function Visits(t: Tree, path: Path): seq<Visit>
    decreases t
  {
    match t
    case TooDeep => []
    case Alias(line, of) => [Visit(path, line, true)] + Visits(of, path)
    case Mapping(line, keys, items) => [Visit(path, line, false)] + FieldVisits(keys, items, path)
    case Sequence(line, items) => [Visit(path, line, false)] + ItemVisits(items, path)
    case Scalar(line, _) => [Visit(path, line, false)]
    case Other(line) => [Visit(path, line, false)]
  }

  function ItemVisits(ts: seq<Tree>, path: Path): seq<Visit>
    decreases ts
  {
    if ts == [] then []
    else ItemVisits(ts[..|ts| - 1], path) + Visits(ts[|ts| - 1], path + [Itoa(|ts| - 1)])
  }

  function FieldVisits(keys: seq<Node>, ts: seq<Tree>, path: Path): seq<Visit>
    decreases ts
  {
    if ts == [] || |keys| < |ts| then []
    else
      var key := keys[|ts| - 1];
      FieldVisits(keys, ts[..|ts| - 1], path) +
      Visits(ts[|ts| - 1], if key.ScalarNode? && !key.isMerge then path + [key.text] else path)
  }

  // ---------------------------------------------------------------- numerals

  function Value(c: char): nat { if '0' <= c <= '9' then c as int - '0' as int else 0 }

  /** Reads a decimal numeral. */
  function Atoi(s: string): nat { if s == [] then 0 else 10 * Atoi(s[..|s| - 1]) + Value(s[|s| - 1]) }

  /** Numbers are written in decimal, without leading zeros, and read back. */
  lemma {:induction false} ItoaReadsBack(n: nat)
    ensures var s := Itoa(n);
            && s != [] && Atoi(s) == n && (forall i | 0 <= i < |s| :: '0' <= s[i] <= '9')
            && (s[0] == '0' ==> n == 0 && |s| == 1)
  {
    var s := Itoa(n);
    if n < 10 {
      assert s[..0] == [];
    } else {
      ItoaReadsBack(n / 10);
      assert s[..|s| - 1] == Itoa(n / 10) && s[0] == Itoa(n / 10)[0];
    }
  }

  lemma NumeralsDiffer(m: nat, n: nat)
    requires Itoa(m) == Itoa(n)
    ensures m == n
  {
    ItoaReadsBack(m);
    ItoaReadsBack(n);
  }

  lemma {:induction false} NothingToEscape(s: string)
    requires forall i | 0 <= i < |s| :: s[i] != '~' && s[i] != '/'
    ensures Escape(s) == s
  {
    if s != [] {
      EscapeOnce(s);
      NothingToEscape(s[1..]);
      hide Escape;
    }
  }

  lemma PointerBelow(path: Path, token: string)
    ensures Pointer(path + [token]) == Pointer(path) + "/" + Escape(token)
  {
    assert (path + [token])[..|path|] == path;
  }

  lemma PointerOfItem(path: Path, i: nat)
    ensures Pointer(path + [Itoa(i)]) == Pointer(path) + "/" + Itoa(i)
  {
    hide Itoa, Escape, Pointer;
    ItoaReadsBack(i);
    NothingToEscape(Itoa(i));
    PointerBelow(path, Itoa(i));
  }

  // --------------------------------------------------------------- positions

  /** The first visit of a path counts. */
  function MarkAll(pos: map<string, nat>, vs: seq<Visit>): map<string, nat> {
    if vs == [] then pos
    else Mark(MarkAll(pos, vs[..|vs| - 1]), Pointer(vs[|vs| - 1].path), vs[|vs| - 1].line)
  }

  lemma {:induction false} MarkMore(pos: map<string, nat>, a: seq<Visit>, b: seq<Visit>)
    ensures MarkAll(pos, a + b) == MarkAll(MarkAll(pos, a), b)
  {
    hide Mark, Pointer;
    if b == [] {
      assert a + b == a;
    } else {
      assert (a + b)[..|a + b| - 1] == a + b[..|b| - 1];
      MarkMore(pos, a, b[..|b| - 1]);
    }
  }

  lemma MarkOne(pos: map<string, nat>, path: Path, line: nat, alias: bool)
    ensures MarkAll(pos, [Visit(path, line, alias)]) == Mark(pos, Pointer(path), line)
  {
    assert [Visit(path, line, alias)][..0] == [];
  }

  lemma {:induction false} RecordMarks(pos: map<string, nat>, t: Tree, path: Path)
    ensures Record(pos, Pointer(path), t) == MarkAll(pos, Visits(t, path))
    decreases t, 1
  {
    hide Mark, MarkAll, Pointer, Itoa;
    if t.TooDeep? {
      MarkNone(pos);
    } else {
      MarkOne(pos, path, t.line, t.Alias?);
      var marked := Mark(pos, Pointer(path), t.line);
      match t {
        case Alias(line, of) =>
          RecordMarks(marked, of, path);
          MarkMore(pos, [Visit(path, line, true)], Visits(of, path));
        case Mapping(line, keys, items) =>
          RecordFieldsMarks(marked, keys, items, path);
          MarkMore(pos, [Visit(path, line, false)], FieldVisits(keys, items, path));
        case Sequence(line, items) =>
          RecordItemsMarks(marked, items, path);
          MarkMore(pos, [Visit(path, line, false)], ItemVisits(items, path));
        case _ =>
      }
    }
  }

  lemma MarkNone(pos: map<string, nat>)
    ensures MarkAll(pos, []) == pos
  {
  }

  lemma {:induction false} RecordItemsMarks(pos: map<string, nat>, ts: seq<Tree>, path: Path)
    ensures RecordAll(pos, Pointer(path), ts) == MarkAll(pos, ItemVisits(ts, path))
    decreases ts, 0
  {
    hide Mark, MarkAll, Pointer, Itoa, Record, Visits;
    if ts == [] {
      MarkNone(pos);
    } else {
      var front, i := ts[..|ts| - 1], |ts| - 1;
      RecordItemsMarks(pos, front, path);
      PointerOfItem(path, i);
      RecordMarks(MarkAll(pos, ItemVisits(front, path)), ts[i], path + [Itoa(i)]);
      MarkMore(pos, ItemVisits(front, path), Visits(ts[i], path + [Itoa(i)]));
    }
  }

  lemma {:induction false} RecordFieldsMarks(pos: map<string, nat>, keys: seq<Node>, ts: seq<Tree>, path: Path)
    ensures RecordFields(pos, Pointer(path), keys, ts) == MarkAll(pos, FieldVisits(keys, ts, path))
    decreases ts, 0
  {
    hide Mark, MarkAll, Pointer, Itoa, Record, Visits, Escape;
    if ts == [] || |keys| < |ts| {
      MarkNone(pos);
    } else {
      var front, i := ts[..|ts| - 1], |ts| - 1;
      var below := if keys[i].ScalarNode? && !keys[i].isMerge then path + [keys[i].text] else path;
      RecordFieldsMarks(pos, keys, front, path);
      if keys[i].ScalarNode? { PointerBelow(path, keys[i].text); }
      RecordMarks(MarkAll(pos, FieldVisits(keys, front, path)), ts[i], below);
      MarkMore(pos, FieldVisits(keys, front, path), Visits(ts[i], below));
    }
  }

  /** Nothing before it was met at its path. */
  ghost predicate First(vs: seq<Visit>, i: nat)
    requires i < |vs|
  {
    forall j | 0 <= j < i :: vs[j].path != vs[i].path
  }

  /** The positions say exactly the first line of each path that was visited. */
  ghost predicate Locates(pos: map<string, nat>, vs: seq<Visit>) {
    && (forall p | p in pos :: exists i :: 0 <= i < |vs| && p == Pointer(vs[i].path))
    && forall i | 0 <= i < |vs| ::
         Pointer(vs[i].path) in pos && (First(vs, i) ==> pos[Pointer(vs[i].path)] == vs[i].line)
  }

  lemma {:induction false} MarksLocate(vs: seq<Visit>)
    ensures Locates(MarkAll(map[], vs), vs)
  {
    hide Locates, Mark, Pointer;
    if vs == [] {
      NothingLocated();
    } else {
      var front, last := vs[..|vs| - 1], vs[|vs| - 1];
      MarksLocate(front);
      MarkLocates(MarkAll(map[], front), front, last);
      assert vs == front + [last];
    }
  }

  lemma NothingLocated()
    ensures Locates(map[], [])
  {
  }

  lemma MarkLocates(pos: map<string, nat>, front: seq<Visit>, last: Visit)
    requires Locates(pos, front)
    ensures Locates(Mark(pos, Pointer(last.path), last.line), front + [last])
  {
    hide Pointer;
    var vs, pos' := front + [last], Mark(pos, Pointer(last.path), last.line);
    forall p | p in pos' ensures exists i :: 0 <= i < |vs| && p == Pointer(vs[i].path) {
      if p in pos {
        var i :| 0 <= i < |front| && p == Pointer(front[i].path);
        assert p == Pointer(vs[i].path);
      } else {
        assert p == Pointer(vs[|front|].path);
      }
    }
    forall i | 0 <= i < |vs|
      ensures Pointer(vs[i].path) in pos' && (First(vs, i) ==> pos'[Pointer(vs[i].path)] == vs[i].line)
    {
      if i < |front| {
        assert vs[i] == front[i];
        if First(vs, i) { assert First(front, i) by { assert forall j | 0 <= j < i :: vs[j] == front[j]; } }
      } else {
        forall j | 0 <= j < |front| && First(vs, i) ensures Pointer(last.path) != Pointer(front[j].path) {
          assert vs[j] == front[j];
          if Pointer(last.path) == Pointer(front[j].path) { PointersDiffer(last.path, front[j].path); }
        }
      }
    }
  }

  /** ParseYAML, from the root of the document on. */
  method ParseYAML(g: Graph, root: Ref, lim: Limits) returns (r: Option<Json>, pos: map<string, nat>)
    requires Closed(g) && root in g
    ensures r.Some? <==> Fits(Unfold(g, root, lim.maxDepth), lim, 0, 0)
    ensures r.Some? ==> r == Meaning(Unfold(g, root, lim.maxDepth))
    ensures r.Some? ==> Locates(pos, Visits(Unfold(g, root, lim.maxDepth), []))
  {
    var c := new Converter(g, lim);
    r := c.Convert(root, "", 0);
    pos := c.pos;
    ghost var t := Unfold(g, root, lim.maxDepth);
    assert c.Of(root, 0) == t;
    if r.Some? {
      RecordMarks(map[], t, []);
      MarksLocate(Visits(t, []));
    }
  }

  /** A list means the list of what its items mean, and nothing if one of them
      means nothing. */
  lemma {:induction false} ItemsIff(ts: seq<Tree>)
    ensures Items(ts).Some? <==> forall i | 0 <= i < |ts| :: Meaning(ts[i]).Some?
    ensures Items(ts).Some? ==>
              && |Items(ts).value| == |ts|
              && forall i | 0 <= i < |ts| :: Meaning(ts[i]) == Some(Items(ts).value[i])
    decreases |ts|
  {
    hide Meaning;
    if ts != [] {
      var front := ts[..|ts| - 1];
      ItemsIff(front);
      assert forall i | 0 <= i < |front| :: front[i] == ts[i];
    }
  }

  lemma SequenceMeans(line: nat, ts: seq<Tree>)
    ensures Meaning(Sequence(line, ts)).Some? <==> forall i | 0 <= i < |ts| :: Meaning(ts[i]).Some?
    ensures Meaning(Sequence(line, ts)).Some? ==>
              var v := Meaning(Sequence(line, ts)).value;
              && v.Array? && |v.items| == |ts| && forall i | 0 <= i < |ts| :: Meaning(ts[i]) == Some(v.items[i])
  {
    ItemsIff(ts);
  }

  function AliasVisits(vs: seq<Visit>): nat {
    if vs == [] then 0 else AliasVisits(vs[..|vs| - 1]) + if vs[|vs| - 1].alias then 1 else 0
  }

  lemma {:induction false} AliasesMore(a: seq<Visit>, b: seq<Visit>)
    ensures AliasVisits(a + b) == AliasVisits(a) + AliasVisits(b)
  {
    if b == [] {
      assert a + b == a;
    } else {
      assert (a + b)[..|a + b| - 1] == a + b[..|b| - 1];
      AliasesMore(a, b[..|b| - 1]);
    }
  }

  lemma AliasesFirst(v: Visit, vs: seq<Visit>)
    ensures AliasVisits([v] + vs) == (if v.alias then 1 else 0) + AliasVisits(vs)
  {
    AliasesMore([v], vs);
    assert [v][..0] == [];
  }

  /** The nodes and aliases counted against the limits are those met. */
  lemma {:induction false} SizeIsVisits(t: Tree, path: Path)
    requires Meaning(t).Some?
    ensures |Visits(t, path)| == Size(t) && AliasVisits(Visits(t, path)) == Aliases(t)
    decreases t, 1
  {
    hide AliasVisits;
    NoAliases();
    var first, rest := Visits(t, path)[0], Visits(t, path)[1..];
    AliasesFirst(first, rest);
    assert Visits(t, path) == [first] + rest;
    match t {
      case Alias(_, of) => SizeIsVisits(of, path);
      case Mapping(_, keys, items) => SizeOfFields(keys, items, path);
      case Sequence(_, items) => SizeOfItems(items, path);
      case Scalar(_, _) => assert rest == [];
      case _ =>
    }
  }

  lemma NoAliases()
    ensures AliasVisits([]) == 0
  {
  }

  lemma {:induction false} SizeOfItems(ts: seq<Tree>, path: Path)
    requires Items(ts).Some?
    ensures |ItemVisits(ts, path)| == SizeAll(ts) && AliasVisits(ItemVisits(ts, path)) == AliasesAll(ts)
    decreases ts, 0
  {
    hide AliasVisits;
    NoAliases();
    if ts != [] {
      AliasesMore(ItemVisits(ts[..|ts| - 1], path), Visits(ts[|ts| - 1], path + [Itoa(|ts| - 1)]));
      SizeOfItems(ts[..|ts| - 1], path);
      SizeIsVisits(ts[|ts| - 1], path + [Itoa(|ts| - 1)]);
    }
  }

  lemma {:induction false} SizeOfFields(keys: seq<Node>, ts: seq<Tree>, path: Path)
    requires Fields(keys, ts).Some?
    ensures |FieldVisits(keys, ts, path)| == SizeAll(ts) && AliasVisits(FieldVisits(keys, ts, path)) == AliasesAll(ts)
    decreases ts, 0
  {
    hide AliasVisits;
    NoAliases();
    if ts != [] {
      var key := keys[|ts| - 1];
      AliasesMore(FieldVisits(keys, ts[..|ts| - 1], path),
                  Visits(ts[|ts| - 1], if key.ScalarNode? && !key.isMerge then path + [key.text] else path));
      SizeOfFields(keys, ts[..|ts| - 1], path);
      SizeIsVisits(ts[|ts| - 1], if key.ScalarNode? && !key.isMerge then path + [key.text] else path);
    }
  }

  /** So the line found for a path of the document is the line of the first node
      met there. */
  lemma LineOfPath(pos: map<string, nat>, vs: seq<Visit>, i: nat)
    requires Locates(pos, vs) && i < |vs| && First(vs, i)
    ensures Closest(pos, vs[i].path) == vs[i].line
  {
  }
}
