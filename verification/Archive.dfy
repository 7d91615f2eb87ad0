/** The path index of an archive's listing: which lists of entries are accepted, in
    whatever order (internal/domain/archive.go:117-254). */
module Archive {
  import opened Values

  // ---------- names ----------

  /** The segments between slashes, at least one. */
  function Split(s: string): (r: seq<string>)
    ensures |r| > 0
  {
    if s == "" then [""]
    else
      var rest := Split(s[1..]);
      if s[0] == '/' then [""] + rest else [[s[0]] + rest[0]] + rest[1..]
  }

  function Join(segments: seq<string>): string {
    if segments == [] then ""
    else if |segments| == 1 then segments[0]
    else segments[0] + "/" + Join(segments[1..])
  }

  lemma {:induction false} JoinSplit(s: string)
    ensures Join(Split(s)) == s
  {
    if s != "" {
      var rest := Split(s[1..]);
      JoinSplit(s[1..]);
      if s[0] == '/' {
        assert ([""] + rest)[1..] == rest;
      } else {
        var all := [[s[0]] + rest[0]] + rest[1..];
        assert all[1..] == rest[1..];
      }
    }
  }

  predicate Plain(segment: string) {
    segment != "" && segment != "." && segment != ".." && '/' !in segment && '\\' !in segment && '\0' !in segment
  }

  /** What remains of a relative name without upward segments after normalization. */
  function Kept(segments: seq<string>): seq<string> {
    if segments == [] then []
    else if segments[0] == "" || segments[0] == "." then Kept(segments[1..])
    else [segments[0]] + Kept(segments[1..])
  }

  predicate Absolute(name: string) { (|name| > 0 && name[0] == '/') || (|name| > 1 && name[1] == ':') }

  /** internal/domain/archive.go:117-137. */
  function Contained(name: string): Option<seq<string>> {
    if name == "" || '\\' in name || '\0' in name || Absolute(name) || ".." in Split(name) then None
    else
      var kept := Kept(Split(name));
      if kept == [] then None else Some(kept)
  }

  lemma {:induction false} SegmentsArePlain(s: string, banned: char)
    ensures forall seg | seg in Split(s) :: '/' !in seg && (banned !in s ==> banned !in seg)
  {
    if s != "" {
      SegmentsArePlain(s[1..], banned);
      var rest := Split(s[1..]);
      assert s == [s[0]] + s[1..];
      if s[0] != '/' {
        forall seg | seg in Split(s)
          ensures '/' !in seg && (banned !in s ==> banned !in seg)
        {
          if seg != [s[0]] + rest[0] { assert seg in rest; }
        }
      }
    }
  }

  lemma {:induction false} KeptOf(segments: seq<string>)
    ensures forall seg | seg in Kept(segments) :: seg in segments && seg != "" && seg != "."
  {
    if segments != [] { KeptOf(segments[1..]); }
  }

  /** An accepted path is not empty and has no empty, dot or upward segment, no
      separator of another system and no NUL. */
  lemma ContainedIsPlain(name: string)
    requires Contained(name).Some?
    ensures Contained(name).value != []
    ensures forall seg | seg in Contained(name).value :: Plain(seg)
  {
    SegmentsArePlain(name, '\\');
    SegmentsArePlain(name, '\0');
    KeptOf(Split(name));
  }

  // ---------- entries and the names they give ----------

  datatype Kind = Regular | Directory | Link | Special

  datatype Raw = Raw(name: string, kind: Kind)

  /** A normalized path and whether it is a directory. */
  datatype Entry = Entry(path: seq<string>, dir: bool)

  /** One indexed name: an entry's path or one of its ancestors'. */
  datatype Named = Named(spelling: string, dir: bool)

  /** The k-th name of an entry: its first k segments, a directory unless they are all
      of a file's. */
  function NameAt(e: Entry, k: nat): Named
    requires k < |e.path|
  {
    Named(Join(e.path[..k + 1]), k < |e.path| - 1 || e.dir)
  }

  function NamesOf(e: Entry): seq<Named> {
    seq(|e.path|, k requires 0 <= k < |e.path| => NameAt(e, k))
  }

  // ---------- the index ----------

  type Index = map<string, Named>

  /** internal/domain/archive.go:154-175: a name is new, or the same directory again. */
  function AddName(fold: string -> string, index: Index, n: Named): Result<Index> {
    var key := fold(n.spelling);
    if key !in index then Ok(index[key := n])
    else if index[key].spelling != n.spelling || index[key].dir != n.dir || !n.dir then Err(Invalid)
    else Ok(index)
  }

  function AddNames(fold: string -> string, index: Index, names: seq<Named>): Result<Index> {
    if names == [] then Ok(index)
    else
      var before :- AddNames(fold, index, names[..|names| - 1]);
      AddName(fold, before, names[|names| - 1])
  }

  function AddEntries(fold: string -> string, entries: seq<Entry>): Result<Index> {
    if entries == [] then Ok(map[])
    else
      var before :- AddEntries(fold, entries[..|entries| - 1]);
      AddNames(fold, before, NamesOf(entries[|entries| - 1]))
  }

  // ---------- what acceptance means ----------

  /** Two occurrences of names live together unless they fold alike, and then only as
      one spelling of one directory. */
  predicate Together(fold: string -> string, a: Named, b: Named) {
    fold(a.spelling) == fold(b.spelling) ==> a == b && a.dir
  }

  predicate NamesTogether(fold: string -> string, a: seq<Named>, b: seq<Named>) {
    forall i, j | 0 <= i < |a| && 0 <= j < |b| :: Together(fold, a[i], b[j])
  }

  predicate Alone(fold: string -> string, names: seq<Named>) {
    forall i, j | 0 <= i < j < |names| :: Together(fold, names[i], names[j])
  }

  /** No two paths, entries or ancestors, differ only by case, none is both a file and a
      directory, and no file repeats. */
  ghost predicate Consistent(fold: string -> string, entries: seq<Entry>) {
    && (forall i | 0 <= i < |entries| :: Alone(fold, NamesOf(entries[i])))
    && (forall i, j | 0 <= i < j < |entries| :: NamesTogether(fold, NamesOf(entries[i]), NamesOf(entries[j])))
  }

  /** The index holds exactly the names added so far. */
  ghost predicate Holds(fold: string -> string, index: Index, names: seq<Named>) {
    && (forall i | 0 <= i < |names| :: fold(names[i].spelling) in index && index[fold(names[i].spelling)] == names[i])
    && (forall key | key in index :: index[key] in names && fold(index[key].spelling) == key)
  }

  lemma AddNameMeans(fold: string -> string, index: Index, names: seq<Named>, n: Named)
    requires Holds(fold, index, names)
    ensures AddName(fold, index, n).Ok? <==> forall i | 0 <= i < |names| :: Together(fold, names[i], n)
    ensures AddName(fold, index, n).Ok? ==> Holds(fold, AddName(fold, index, n).value, names + [n])
  {
    var key := fold(n.spelling);
    if key in index {
      var i :| 0 <= i < |names| && names[i] == index[key];
    }
    if AddName(fold, index, n).Ok? {
      var next := AddName(fold, index, n).value;
      assert (names + [n])[|names|] == n;
      assert forall m | m in names :: m in names + [n];
    }
  }

  /** Beside others and among themselves, name by name. */
  lemma OneMoreName(fold: string -> string, before: seq<Named>, names: seq<Named>)
    requires names != []
    ensures var init, last := names[..|names| - 1], names[|names| - 1];
            (NamesTogether(fold, before, names) && Alone(fold, names))
            <==> NamesTogether(fold, before, init) && Alone(fold, init) && NamesTogether(fold, before + init, [last])
  {
    var n := |names| - 1;
    var init, last := names[..n], names[n];
    var all := before + init;
    hide Together;
    if NamesTogether(fold, before, names) && Alone(fold, names) {
      forall i | 0 <= i < |all|
        ensures Together(fold, all[i], [last][0])
      {
        if i < |before| { assert all[i] == before[i]; } else { assert all[i] == names[i - |before|]; }
        assert names[n] == last;
      }
    }
    if NamesTogether(fold, before, init) && Alone(fold, init) && NamesTogether(fold, all, [last]) {
      forall i, j | 0 <= i < |before| && 0 <= j < |names|
        ensures Together(fold, before[i], names[j])
      {
        if j < n { assert names[j] == init[j]; } else { assert all[i] == before[i] && [last][0] == names[j]; }
      }
      forall i, j | 0 <= i < j < |names|
        ensures Together(fold, names[i], names[j])
      {
        if j < n { assert names[i] == init[i] && names[j] == init[j]; }
        else { assert all[|before| + i] == names[i] && [last][0] == names[j]; }
      }
    }
  }

  /** Adding names to an index of others succeeds exactly when they live together with
      those and among themselves. */
  lemma {:induction false} AddNamesMeans(fold: string -> string, index: Index, before: seq<Named>, names: seq<Named>)
    requires Holds(fold, index, before)
    ensures AddNames(fold, index, names).Ok? <==> NamesTogether(fold, before, names) && Alone(fold, names)
    ensures AddNames(fold, index, names).Ok? ==> Holds(fold, AddNames(fold, index, names).value, before + names)
  {
    hide Holds, AddName, Together;
    if names == [] {
      assert before + names == before;
    } else {
      var init, last := names[..|names| - 1], names[|names| - 1];
      AddNamesMeans(fold, index, before, init);
      OneMoreName(fold, before, names);
      if AddNames(fold, index, init).Ok? {
        AddNameMeans(fold, AddNames(fold, index, init).value, before + init, last);
        assert before + init + [last] == before + names;
      }
    }
  }

  /** All the names of a list, entry by entry. */
  function Flat(entries: seq<Entry>): seq<Named> {
    if entries == [] then [] else Flat(entries[..|entries| - 1]) + NamesOf(entries[|entries| - 1])
  }

  lemma {:induction false} FlatTogether(fold: string -> string, entries: seq<Entry>, names: seq<Named>)
    ensures NamesTogether(fold, Flat(entries), names) <==> forall i | 0 <= i < |entries| ::
        NamesTogether(fold, NamesOf(entries[i]), names)
  {
    hide Together;
    if entries != [] {
      var init, last := entries[..|entries| - 1], entries[|entries| - 1];
      FlatTogether(fold, init, names);
      assert forall i | 0 <= i < |init| :: init[i] == entries[i];
      AppendTogether(fold, Flat(init), NamesOf(last), names);
    }
  }

  lemma AppendTogether(fold: string -> string, a: seq<Named>, b: seq<Named>, names: seq<Named>)
    ensures NamesTogether(fold, a + b, names) <==> NamesTogether(fold, a, names) && NamesTogether(fold, b, names)
  {
    hide Together;
    if NamesTogether(fold, a + b, names) {
      forall i, j | 0 <= i < |b| && 0 <= j < |names|
        ensures Together(fold, b[i], names[j])
      {
        assert (a + b)[|a| + i] == b[i];
      }
      forall i, j | 0 <= i < |a| && 0 <= j < |names|
        ensures Together(fold, a[i], names[j])
      {
        assert (a + b)[i] == a[i];
      }
    }
  }

  /** A list of entries is accepted exactly when it is consistent. */
  lemma {:induction false} AcceptedIsConsistent(fold: string -> string, entries: seq<Entry>)
    ensures AddEntries(fold, entries).Ok? <==> Consistent(fold, entries)
    ensures AddEntries(fold, entries).Ok? ==> Holds(fold, AddEntries(fold, entries).value, Flat(entries))
  {
    hide Holds, AddNames, Together, NamesTogether, Alone;
    if entries == [] {
      EmptyHolds(fold);
    } else {
      var n := |entries| - 1;
      var init, last := entries[..n], entries[n];
      AcceptedIsConsistent(fold, init);
      OneMoreEntry(fold, entries);
      if AddEntries(fold, init).Ok? {
        AddNamesMeans(fold, AddEntries(fold, init).value, Flat(init), NamesOf(last));
      }
    }
  }

  lemma EmptyHolds(fold: string -> string)
    ensures Holds(fold, map[], [])
  {
  }

  lemma OneMoreEntry(fold: string -> string, entries: seq<Entry>)
    requires entries != []
    ensures var init, last := entries[..|entries| - 1], entries[|entries| - 1];
            Consistent(fold, entries)
            <==> Consistent(fold, init) && Alone(fold, NamesOf(last)) && NamesTogether(fold, Flat(init), NamesOf(last))
  {
    hide NamesTogether, Alone;
    var n := |entries| - 1;
    var init, last := entries[..n], entries[n];
    assert forall i | 0 <= i < n :: init[i] == entries[i];
    FlatTogether(fold, init, NamesOf(last));
  }

  // ---------- the order does not matter ----------

  lemma TogetherIsSymmetric(fold: string -> string, a: seq<Named>, b: seq<Named>)
    ensures NamesTogether(fold, a, b) ==> NamesTogether(fold, b, a)
  {
  }

  /** Consistency by content: each entry alone, different entries together, and no entry
      twice that cannot live beside itself. */
  ghost predicate ConsistentBag(fold: string -> string, bag: multiset<Entry>) {
    && (forall a | a in bag :: Alone(fold, NamesOf(a)))
    && (forall a, b | a in bag && b in bag && a != b :: NamesTogether(fold, NamesOf(a), NamesOf(b)))
    && (forall a | a in bag && bag[a] > 1 :: NamesTogether(fold, NamesOf(a), NamesOf(a)))
  }

  lemma {:induction false} Occurs(entries: seq<Entry>, a: Entry)
    ensures a in multiset(entries) <==> a in entries
    ensures multiset(entries)[a] > 1 <==> exists i, j :: 0 <= i < j < |entries| && entries[i] == a && entries[j] == a
  {
    if entries != [] {
      var n := |entries| - 1;
      var init := entries[..n];
      Occurs(init, a);
      assert entries == init + [entries[n]];
      if multiset(entries)[a] > 1 && multiset(init)[a] <= 1 {
        assert entries[n] == a && a in init;
        var i :| 0 <= i < n && init[i] == a;
        assert entries[i] == a && entries[n] == a;
      }
      if i, j :| 0 <= i < j < |entries| && entries[i] == a && entries[j] == a {
        assert a in init by { assert init[i] == a; }
        if j < n { assert init[i] == a && init[j] == a; }
      }
    }
  }

  lemma ConsistentByContent(fold: string -> string, entries: seq<Entry>)
    ensures Consistent(fold, entries) <==> ConsistentBag(fold, multiset(entries))
  {
    hide NamesTogether, Alone;
    var bag := multiset(entries);
    forall a
      ensures a in bag <==> a in entries
    {
      Occurs(entries, a);
    }
    if Consistent(fold, entries) {
      forall a, b | a in bag && b in bag && (a != b || bag[a] > 1)
        ensures NamesTogether(fold, NamesOf(a), NamesOf(b))
      {
        Occurs(entries, a);
        var i, j :| 0 <= i < |entries| && 0 <= j < |entries| && i != j && entries[i] == a && entries[j] == b;
        if j < i { TogetherIsSymmetric(fold, NamesOf(b), NamesOf(a)); }
      }
    }
    if ConsistentBag(fold, bag) {
      forall i, j | 0 <= i < j < |entries|
        ensures NamesTogether(fold, NamesOf(entries[i]), NamesOf(entries[j]))
      {
        Occurs(entries, entries[i]);
        assert entries[i] in bag && entries[j] in bag;
      }
    }
  }

  /** Acceptance is independent of the order of the entries. */
  lemma AcceptanceIgnoresOrder(fold: string -> string, a: seq<Entry>, b: seq<Entry>)
    requires multiset(a) == multiset(b)
    ensures AddEntries(fold, a).Ok? <==> AddEntries(fold, b).Ok?
  {
    AcceptedIsConsistent(fold, a);
    AcceptedIsConsistent(fold, b);
    ConsistentByContent(fold, a);
    ConsistentByContent(fold, b);
  }

  // ---------- the index as it is built ----------

  predicate Sound(raw: Raw) { Contained(raw.name).Some? && (raw.kind.Regular? || raw.kind.Directory?) }

  function EntryOf(raw: Raw): Entry {
    Entry(if Contained(raw.name).Some? then Contained(raw.name).value else [], raw.kind.Directory?)
  }

  function EntriesOf(raws: seq<Raw>): seq<Entry> {
    seq(|raws|, i requires 0 <= i < |raws| => EntryOf(raws[i]))
  }

  class PathSet {
    const fold: string -> string
    var index: Index

    constructor (f: string -> string)
      ensures fold == f && index == map[]
    {
      fold, index := f, map[];
    }

    /** internal/domain/archive.go:154-175: an entry and each of its ancestors. */
    method Add(path: seq<string>, isDir: bool) returns (r: Check)
      modifies this
      ensures match AddNames(fold, old(index), NamesOf(Entry(path, isDir)))
              case Ok(next) => r == Pass && index == next
              case Err(e) => r == Fail(e)
    {
      hide AddNames;
      ghost var names := NamesOf(Entry(path, isDir));
      assert AddNames(fold, index, names[..0]) == Ok(index) by { AddNoNames(fold, index); }
      for i := 0 to |path|
        invariant AddNames(fold, old(index), names[..i]) == Ok(index)
      {
        OneMore(fold, old(index), names, i);
        var p := Join(path[..i + 1]);
        var dir := i < |path| - 1 || isDir;
        var folded := fold(p);
        if folded !in index {
          index := index[folded := Named(p, dir)];
        } else if index[folded].spelling != p || index[folded].dir != dir || !dir {
          AddNamesStops(fold, old(index), names, i + 1);
          return Fail(Invalid);
        }
      }
      assert names[..|path|] == names;
      return Pass;
    }
  }

  lemma AddNoNames(fold: string -> string, index: Index)
    ensures AddNames(fold, index, []) == Ok(index)
  {
  }

  lemma OneMore(fold: string -> string, index: Index, names: seq<Named>, i: nat)
    requires i < |names| && AddNames(fold, index, names[..i]).Ok?
    ensures AddNames(fold, index, names[..i + 1]) == AddName(fold, AddNames(fold, index, names[..i]).value, names[i])
  {
    assert names[..i + 1][..i] == names[..i] && names[..i + 1][i] == names[i];
  }

  /** A name that is refused refuses the rest. */
  lemma {:induction false} AddNamesStops(fold: string -> string, index: Index, names: seq<Named>, i: nat)
    requires i <= |names| && AddNames(fold, index, names[..i]) == Err(Invalid)
    ensures AddNames(fold, index, names) == Err(Invalid)
    decreases |names|
  {
    if i == |names| {
      assert names[..i] == names;
    } else {
      assert names[..|names| - 1][..i] == names[..i];
      AddNamesStops(fold, index, names[..|names| - 1], i);
    }
  }

  lemma ConsistentPrefix(fold: string -> string, entries: seq<Entry>, n: nat)
    requires n <= |entries| && Consistent(fold, entries)
    ensures Consistent(fold, entries[..n])
  {
    hide Alone, NamesTogether;
  }

  /** The entry loop of a zip or tar listing (internal/domain/archive.go:177-254): it
      passes exactly when every name is contained, none is a link or a special file, and
      the entries are consistent. */
  method CheckEntries(fold: string -> string, raws: seq<Raw>) returns (r: Check)
    ensures r.Pass? <==> (forall i | 0 <= i < |raws| :: Sound(raws[i])) && Consistent(fold, EntriesOf(raws))
    ensures r.Pass? || r == Fail(Invalid)
  {
    hide Consistent, AddNames, Contained, NamesOf;
    var seen := new PathSet(fold);
    ghost var entries := EntriesOf(raws);
    for i := 0 to |raws|
      invariant forall j | 0 <= j < i :: Sound(raws[j])
      invariant fresh(seen) && seen.fold == fold && AddEntries(fold, entries[..i]) == Ok(seen.index)
    {
      var clean := Contained(raws[i].name);
      if clean.None? { return Fail(Invalid); }
      if raws[i].kind.Link? || raws[i].kind.Special? { return Fail(Invalid); }
      assert entries[..i + 1][..i] == entries[..i] && entries[..i + 1][i] == EntryOf(raws[i]);
      r := seen.Add(clean.value, raws[i].kind.Directory?);
      if r.Fail? {
        AcceptedIsConsistent(fold, entries[..i + 1]);
        if Consistent(fold, entries) { ConsistentPrefix(fold, entries, i + 1); }
        AlwaysInvalid(fold, entries[..i + 1]);
        return;
      }
    }
    assert entries[..|raws|] == entries;
    AcceptedIsConsistent(fold, entries);
    r := Pass;
  }

  lemma {:induction false} NamesInvalid(fold: string -> string, index: Index, names: seq<Named>)
    ensures AddNames(fold, index, names).Err? ==> AddNames(fold, index, names) == Err(Invalid)
  {
    if names != [] { NamesInvalid(fold, index, names[..|names| - 1]); }
  }

  lemma {:induction false} AlwaysInvalid(fold: string -> string, entries: seq<Entry>)
    ensures AddEntries(fold, entries).Err? ==> AddEntries(fold, entries) == Err(Invalid)
  {
    if entries != [] {
      var init := entries[..|entries| - 1];
      AlwaysInvalid(fold, init);
      if AddEntries(fold, init).Ok? {
        NamesInvalid(fold, AddEntries(fold, init).value, NamesOf(entries[|entries| - 1]));
      }
    }
  }
}
