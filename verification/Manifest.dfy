/**
 * Parameter manifests (checkpoint/checkpoint_engine_manager.py): validation, the name-sorted canonical form behind the
 * digest, and the mismatch report against the actor's source manifest.
 */
module Manifest {
  import opened Contracts

  /** Python's list and tuple: equal contents of different kinds are not equal. */
  datatype Shape = List(sizes: seq<int>) | Tuple(sizes: seq<int>)

  datatype Entry = Entry(name: string, shape: Shape, dtype: string, numel: int, sha256: string)

  datatype Report = Report(complete: bool, parameters: seq<Entry>, parameterCount: int, totalNumel: int, steps: int)

  /** An entry of the canonical form; the digest is taken to be injective on lists of these. */
  datatype Canon = Canon(name: string, sizes: seq<int>, dtype: string, numel: int, sha256: string)

  function CanonOf(x: Entry): Canon {
    Canon(x.name, x.shape.sizes, x.dtype, x.numel, x.sha256)
  }

  // ---------------------------------------------------------------- order of names

  predicate Less(a: string, b: string) {
    b != "" && (a == "" || a[0] < b[0] || (a[0] == b[0] && Less(a[1..], b[1..])))
  }

  lemma {:induction false} LessIrreflexive(a: string)
    ensures !Less(a, a)
  {
    if a != "" { LessIrreflexive(a[1..]); }
  }

  lemma {:induction false} LessTransitive(a: string, b: string, c: string)
    requires Less(a, b) && Less(b, c)
    ensures Less(a, c)
  {
    if a != "" && a[0] == b[0] && b[0] == c[0] { LessTransitive(a[1..], b[1..], c[1..]); }
  }

  lemma {:induction false} LessTotal(a: string, b: string)
    ensures Less(a, b) || a == b || Less(b, a)
  {
    if a != "" && b != "" && a[0] == b[0] {
      LessTotal(a[1..], b[1..]);
      assert a == [a[0]] + a[1..] && b == [b[0]] + b[1..];
    }
  }

  // ---------------------------------------------------------------- validation

  function Product(sizes: seq<int>): int {
    if sizes == [] then 1 else Product(sizes[..|sizes| - 1]) * sizes[|sizes| - 1]
  }

  function Total(entries: seq<Entry>): int {
    if entries == [] then 0 else Total(entries[..|entries| - 1]) + entries[|entries| - 1].numel
  }

  predicate ValidEntry(x: Entry) {
    x.name != "" && x.dtype != "" && x.sha256 != "" && x.numel >= 0 && (forall d | d in x.shape.sizes :: d >= 0)
    && x.numel == Product(x.shape.sizes)
  }

  predicate UniqueNames(entries: seq<Entry>) {
    forall i, j | 0 <= i < j < |entries| :: entries[i].name != entries[j].name
  }

  predicate Valid(m: Report) {
    && m.complete && m.parameters != [] && UniqueNames(m.parameters)
    && (forall x | x in m.parameters :: ValidEntry(x))
    && m.parameterCount == |m.parameters| && m.totalNumel == Total(m.parameters)
  }

  method ValidateEntry(x: Entry) returns (ok: bool)
    ensures ok <==> ValidEntry(x)
  {
    if x.name == "" || x.dtype == "" || x.sha256 == "" || x.numel < 0 { return false; }
    var sizes, expected := x.shape.sizes, 1;
    for i := 0 to |sizes|
      invariant forall d | d in sizes[..i] :: d >= 0
    {
      assert sizes[i] in x.shape.sizes;
      if sizes[i] < 0 { return false; }
      assert sizes[..i + 1] == sizes[..i] + [sizes[i]];
    }
    assert sizes[..|sizes|] == sizes;
    for i := 0 to |sizes|
      invariant expected == Product(sizes[..i])
    {
      expected := expected * sizes[i];
      assert sizes[..i + 1][..i] == sizes[..i];
    }
    ok := x.numel == expected;
  }

  /** A manifest is accepted exactly when it is complete, uniquely named and its counts add up. */
  method ValidateManifest(m: Report) returns (ok: bool)
    ensures ok <==> Valid(m)
  {
    if !m.complete || m.parameters == [] { return false; }
    var entries, names, total := m.parameters, {}, 0;
    for i := 0 to |entries|
      invariant forall n :: n in names <==> exists j :: 0 <= j < i && entries[j].name == n
      invariant UniqueNames(entries[..i])
      invariant forall j | 0 <= j < i :: ValidEntry(entries[j])
      invariant total == Total(entries[..i])
    {
      var x := entries[i];
      assert x in entries;
      if x.name in names { return false; }
      var good := ValidateEntry(x);
      if !good { return false; }
      OneMoreName(entries, i);
      names, total := names + {x.name}, total + x.numel;
    }
    assert entries[..|entries|] == entries;
    ok := m.parameterCount == |entries| && m.totalNumel == total;
  }

  lemma OneMoreName(entries: seq<Entry>, i: nat)
    requires i < |entries| && UniqueNames(entries[..i]) && forall j | 0 <= j < i :: entries[j].name != entries[i].name
    ensures UniqueNames(entries[..i + 1]) && Total(entries[..i + 1]) == Total(entries[..i]) + entries[i].numel
  {
    assert entries[..i + 1][..i] == entries[..i];
    var more, fewer := entries[..i + 1], entries[..i];
    forall j, k | 0 <= j < k < |more| ensures more[j].name != more[k].name {
      if k < i { assert more[j] == fewer[j] && more[k] == fewer[k]; }
    }
  }

  // ---------------------------------------------------------------- canonical form

  /** Stable insertion by name. */
  function Insert(s: seq<Canon>, x: Canon): (r: seq<Canon>)
    ensures forall y :: y in r <==> y == x || y in s
  {
    if s == [] || !Less(x.name, s[|s| - 1].name) then s + [x] else Insert(s[..|s| - 1], x) + [s[|s| - 1]]
  }

  function Sorted(entries: seq<Entry>): (r: seq<Canon>)
    ensures forall y :: y in r <==> exists x :: x in entries && CanonOf(x) == y
  {
    if entries == [] then []
    else
      var last := entries[|entries| - 1];
      assert entries == entries[..|entries| - 1] + [last];
      Insert(Sorted(entries[..|entries| - 1]), CanonOf(last))
  }

  function Canonical(m: Report): seq<Canon> {
    Sorted(m.parameters)
  }

  method CanonicalForm(m: Report) returns (canonical: seq<Canon>)
    ensures canonical == Canonical(m)
  {
    canonical := [];
    for i := 0 to |m.parameters|
      invariant canonical == Sorted(m.parameters[..i])
    {
      assert m.parameters[..i + 1][..i] == m.parameters[..i];
      canonical := Insert(canonical, CanonOf(m.parameters[i]));
    }
    assert m.parameters[..|m.parameters|] == m.parameters;
  }

  ghost predicate Ascending(s: seq<Canon>) {
    forall i, j | 0 <= i < j < |s| :: Less(s[i].name, s[j].name)
  }

  lemma {:induction false} InsertAscends(s: seq<Canon>, x: Canon)
    requires Ascending(s) && forall y | y in s :: y.name != x.name
    ensures Ascending(Insert(s, x))
  {
    if s != [] {
      var n := |s| - 1;
      assert s[n] in s;
      LessTotal(x.name, s[n].name);
      if Less(x.name, s[n].name) {
        InsertAscends(s[..n], x);
        forall y | y in Insert(s[..n], x) ensures Less(y.name, s[n].name) {
          if y in s[..n] { var i :| 0 <= i < n && s[..n][i] == y; }
        }
      } else {
        forall i | 0 <= i < |s| ensures Less(s[i].name, x.name) {
          if i < n { LessTransitive(s[i].name, s[n].name, x.name); }
        }
      }
    }
  }

  lemma {:induction false} SortedAscends(entries: seq<Entry>)
    requires UniqueNames(entries)
    ensures Ascending(Sorted(entries))
  {
    if entries != [] {
      var n := |entries| - 1;
      SortedAscends(entries[..n]);
      forall y | y in Sorted(entries[..n]) ensures y.name != entries[n].name {
        var x :| x in entries[..n] && CanonOf(x) == y;
      }
      InsertAscends(Sorted(entries[..n]), CanonOf(entries[n]));
    }
  }

  lemma HasElement(s: seq<Canon>)
    ensures s != [] ==> exists y :: y in s
  {
    if s != [] { assert s[0] in s; }
  }

  /** An ascending list is determined by its elements. */
  lemma {:induction false} AscendingIsUnique(s: seq<Canon>, t: seq<Canon>)
    requires Ascending(s) && Ascending(t) && forall y :: y in s <==> y in t
    ensures s == t
  {
    if s == [] || t == [] {
      HasElement(s);
      HasElement(t);
    } else {
      SameHead(s, t);
      assert forall y :: y in s[1..] <==> y in t[1..] by {
        TailElements(s);
        TailElements(t);
      }
      AscendingIsUnique(s[1..], t[1..]);
      assert s == [s[0]] + s[1..] && t == [t[0]] + t[1..];
    }
  }

  lemma TailElements(s: seq<Canon>)
    requires s != [] && Ascending(s)
    ensures forall y :: y in s[1..] <==> y in s && y != s[0]
  {
    forall y | y in s[1..] ensures y != s[0] {
      var i :| 0 <= i < |s| - 1 && s[1..][i] == y;
      assert Less(s[0].name, s[i + 1].name);
      LessIrreflexive(s[0].name);
    }
    forall y | y in s && y != s[0] ensures y in s[1..] {
      var i :| 0 <= i < |s| && s[i] == y;
      assert s[1..][i - 1] == y;
    }
  }

  lemma SameHead(s: seq<Canon>, t: seq<Canon>)
    requires s != [] && t != [] && Ascending(s) && Ascending(t) && forall y :: y in s <==> y in t
    ensures s[0] == t[0]
  {
    assert s[0] in t && t[0] in s;
    var i :| 0 <= i < |t| && t[i] == s[0];
    var j :| 0 <= j < |s| && s[j] == t[0];
    if i > 0 && j > 0 {
      LessTransitive(s[0].name, t[0].name, s[0].name);
      LessIrreflexive(s[0].name);
    }
  }

  // ---------------------------------------------------------------- mismatches

  datatype Mismatch = Absent(name: string, source: Option<Entry>, received: Option<Entry>)
                    | Differs(name: string, wanted: Entry, got: Entry)

  /** The dictionary lookup: the last entry of that name. */
  function Lookup(entries: seq<Entry>, name: string): (r: Option<Entry>)
    ensures r.Some? ==> r.value in entries && r.value.name == name
    ensures r.None? ==> forall x | x in entries :: x.name != name
  {
    if entries == [] then None
    else
      var last := entries[|entries| - 1];
      assert entries == entries[..|entries| - 1] + [last];
      if last.name == name then Some(last) else Lookup(entries[..|entries| - 1], name)
  }

  function Compare(e: Report, a: Report, name: string): Option<Mismatch> {
    var s, r := Lookup(e.parameters, name), Lookup(a.parameters, name);
    if s.None? || r.None? then Some(Absent(name, s, r))
    else if s.value.shape != r.value.shape || s.value.dtype != r.value.dtype || s.value.numel != r.value.numel
            || s.value.sha256 != r.value.sha256 then Some(Differs(name, s.value, r.value))
    else None
  }

  function InsertName(s: seq<string>, x: string): (r: seq<string>)
    ensures forall y :: y in r <==> y == x || y in s
  {
    if s == [] || Less(s[|s| - 1], x) then s + [x]
    else if s[|s| - 1] == x then s
    else
      assert s == s[..|s| - 1] + [s[|s| - 1]];
      InsertName(s[..|s| - 1], x) + [s[|s| - 1]]
  }

  /** sorted(set(...)) of the names of some entries, on top of names already sorted. */
  function SortedNames(known: seq<string>, entries: seq<Entry>): (r: seq<string>)
    ensures forall y :: y in r <==> y in known || exists x :: x in entries && x.name == y
  {
    if entries == [] then known
    else
      var last := entries[|entries| - 1];
      assert entries == entries[..|entries| - 1] + [last];
      InsertName(SortedNames(known, entries[..|entries| - 1]), last.name)
  }

  function AllNames(e: Report, a: Report): seq<string> {
    SortedNames(SortedNames([], e.parameters), a.parameters)
  }

  /** Every mismatch, in name order. */
  function AllMismatches(e: Report, a: Report, names: seq<string>): seq<Mismatch> {
    if names == [] then []
    else
      var rest, last := AllMismatches(e, a, names[..|names| - 1]), Compare(e, a, names[|names| - 1]);
      if last.None? then rest else rest + [last.value]
  }

  function FirstOf<T>(s: seq<T>, limit: nat): seq<T> {
    if |s| <= limit then s else s[..limit]
  }

  lemma {:induction false} MismatchesGrow(e: Report, a: Report, names: seq<string>, i: nat)
    requires i <= |names|
    ensures AllMismatches(e, a, names[..i]) <= AllMismatches(e, a, names)
    decreases |names| - i
  {
    if i == |names| {
      assert names[..i] == names;
    } else {
      assert names[..i + 1][..i] == names[..i];
      MismatchesGrow(e, a, names, i + 1);
    }
  }

  lemma StopsEarly(e: Report, a: Report, names: seq<string>, i: nat, limit: nat)
    requires i <= |names| && |AllMismatches(e, a, names[..i])| == limit
    ensures FirstOf(AllMismatches(e, a, names), limit) == AllMismatches(e, a, names[..i])
  {
    MismatchesGrow(e, a, names, i);
  }

  lemma OneMoreMismatch(e: Report, a: Report, names: seq<string>, i: nat)
    requires i < |names|
    ensures AllMismatches(e, a, names[..i + 1]) ==
              AllMismatches(e, a, names[..i]) + (if Compare(e, a, names[i]).Some? then [Compare(e, a, names[i]).value]
                                                 else [])
  {
    assert names[..i + 1][..i] == names[..i];
  }

  method CollectNames(known: seq<string>, entries: seq<Entry>) returns (names: seq<string>)
    ensures names == SortedNames(known, entries)
  {
    names := known;
    for i := 0 to |entries|
      invariant names == SortedNames(known, entries[..i])
    {
      assert entries[..i + 1][..i] == entries[..i];
      names := InsertName(names, entries[i].name);
    }
    assert entries[..|entries|] == entries;
  }

  /** The report is the first `limit` mismatches in name order. */
  method Mismatches(e: Report, a: Report, limit: nat) returns (r: seq<Mismatch>)
    requires limit >= 1
    ensures r == FirstOf(AllMismatches(e, a, AllNames(e, a)), limit)
  {
    var names := CollectNames([], e.parameters);
    names := CollectNames(names, a.parameters);
    r := [];
    for i := 0 to |names|
      invariant r == AllMismatches(e, a, names[..i]) && |r| < limit
    {
      OneMoreMismatch(e, a, names, i);
      var c := Compare(e, a, names[i]);
      if c.Some? { r := r + [c.value]; }
      if |r| >= limit {
        StopsEarly(e, a, names, i + 1, limit);
        return;
      }
    }
    assert names[..|names|] == names;
  }

  lemma {:induction false} NoMismatches(e: Report, a: Report, names: seq<string>)
    ensures AllMismatches(e, a, names) == [] <==> forall n | n in names :: Compare(e, a, n).None?
  {
    if names != [] {
      NoMismatches(e, a, names[..|names| - 1]);
      assert names == names[..|names| - 1] + [names[|names| - 1]];
    }
  }

  lemma {:induction false} UniqueLookup(entries: seq<Entry>, x: Entry)
    requires UniqueNames(entries) && x in entries
    ensures Lookup(entries, x.name) == Some(x)
  {
    var y := Lookup(entries, x.name).value;
    var i :| 0 <= i < |entries| && entries[i] == x;
    var j :| 0 <= j < |entries| && entries[j] == y;
  }

  /** Nothing to report means that both manifests have the very same entries. */
  lemma {:induction false} SilentMeansSameEntries(e: Report, a: Report)
    requires UniqueNames(e.parameters) && UniqueNames(a.parameters)
    ensures AllMismatches(e, a, AllNames(e, a)) == [] <==> forall x :: x in e.parameters <==> x in a.parameters
  {
    var names := AllNames(e, a);
    NoMismatches(e, a, names);
    if forall n | n in names :: Compare(e, a, n).None? {
      forall x ensures x in e.parameters <==> x in a.parameters {
        if x in e.parameters { UniqueLookup(e.parameters, x); assert x.name in names; }
        if x in a.parameters { UniqueLookup(a.parameters, x); assert x.name in names; }
      }
    }
    if forall x :: x in e.parameters <==> x in a.parameters {
      forall n | n in names ensures Compare(e, a, n).None? {
        var x :| (x in e.parameters || x in a.parameters) && x.name == n;
        UniqueLookup(e.parameters, x);
        UniqueLookup(a.parameters, x);
      }
    }
  }

  /** Entries of one name write their shape in the same kind of container. */
  ghost predicate SameContainers(e: Report, a: Report) {
    forall x, y | x in e.parameters && y in a.parameters && x.name == y.name :: x.shape.List? == y.shape.List?
  }

  lemma {:induction false} SameEntriesSameForm(e: Report, a: Report)
    requires UniqueNames(e.parameters) && UniqueNames(a.parameters)
             && forall x :: x in e.parameters <==> x in a.parameters
    ensures Canonical(e) == Canonical(a) && SameContainers(e, a)
  {
    SortedAscends(e.parameters);
    SortedAscends(a.parameters);
    AscendingIsUnique(Canonical(e), Canonical(a));
    forall x, y | x in e.parameters && y in a.parameters && x.name == y.name ensures x == y {
      UniqueLookup(e.parameters, x);
      UniqueLookup(e.parameters, y);
    }
  }

  lemma SameFormSubset(e: Report, a: Report, x: Entry)
    requires Canonical(e) == Canonical(a) && SameContainers(e, a) && x in e.parameters
    ensures x in a.parameters
  {
    assert CanonOf(x) in Canonical(e);
    var y :| y in a.parameters && CanonOf(y) == CanonOf(x);
    assert x.shape.List? == y.shape.List?;
    assert x == y;
  }

  /**
   * The mismatch list of two validated manifests is empty, at any limit of at least one, exactly when their canonical
   * forms are equal and their shapes are written in the same kind of container, whatever the order of the entries.
   */
  lemma {:induction false} SilentExactlyWhenCanonicalAgrees(e: Report, a: Report, limit: nat)
    requires Valid(e) && Valid(a) && limit >= 1
    ensures FirstOf(AllMismatches(e, a, AllNames(e, a)), limit) == [] <==>
            Canonical(e) == Canonical(a) && SameContainers(e, a)
  {
    SilentMeansSameEntries(e, a);
    if forall x :: x in e.parameters <==> x in a.parameters { SameEntriesSameForm(e, a); }
    if Canonical(e) == Canonical(a) && SameContainers(e, a) {
      forall x ensures x in e.parameters <==> x in a.parameters {
        if x in e.parameters { SameFormSubset(e, a, x); }
        if x in a.parameters {
          assert SameContainers(a, e);
          SameFormSubset(a, e, x);
        }
      }
    }
  }

  /** The container matters: equal canonical forms, and so equal digests, of a list and a tuple are still reported. */
  lemma ListAndTupleDiffer()
    ensures var e := Report(true, [Entry("w", List([2]), "f", 2, "h")], 1, 2, 0);
      var a := Report(true, [Entry("w", Tuple([2]), "f", 2, "h")], 1, 2, 0);
      Valid(e) && Valid(a) && Canonical(e) == Canonical(a) && !SameContainers(e, a)
        && AllMismatches(e, a, AllNames(e, a)) != []
  {
    var x, y := Entry("w", List([2]), "f", 2, "h"), Entry("w", Tuple([2]), "f", 2, "h");
    var e, a := Report(true, [x], 1, 2, 0), Report(true, [y], 1, 2, 0);
    assert [2][..0] == [] && Product([2]) == 2;
    assert [x][..0] == [] && [y][..0] == [];
    assert x in e.parameters && y in a.parameters;
    assert Total(e.parameters) == 2 && Total(a.parameters) == 2;
    SilentExactlyWhenCanonicalAgrees(e, a, 1);
  }

  /** The order of the entries never matters. */
  lemma {:induction false} OrderIsIrrelevant(e: Report, a: Report)
    requires UniqueNames(e.parameters) && UniqueNames(a.parameters)
             && forall x :: x in e.parameters <==> x in a.parameters
    ensures Canonical(e) == Canonical(a) && AllMismatches(e, a, AllNames(e, a)) == []
  {
    SameEntriesSameForm(e, a);
    SilentMeansSameEntries(e, a);
  }

  // ---------------------------------------------------------------- the whole check

  /** What validate_parameter_sync demands of the receivers' manifests. */
  ghost predicate Accepts(manifests: seq<Report>, version: Option<int>, source: Option<Report>) {
    && manifests != [] && (forall m | m in manifests :: Valid(m) && (version.Some? ==> m.steps == version.value))
    && (source.Some? ==> Valid(source.value) && (version.Some? ==> source.value.steps == version.value)
                         && forall m | m in manifests ::
                              Canonical(m) == Canonical(source.value) && SameContainers(source.value, m))
    && (forall m, n | m in manifests && n in manifests :: Canonical(m) == Canonical(n))
  }

  /** The receivers are accepted exactly when all of this holds; with a source, all receivers carry its parameters. */
  method ValidateParameterSync(manifests: seq<Report>, version: Option<int>, source: Option<Report>) returns (ok: bool)
    ensures ok <==> Accepts(manifests, version, source)
  {
    hide Valid;
    hide Canonical;
    hide SameContainers;
    if manifests == [] { return false; }
    for i := 0 to |manifests|
      invariant forall m | m in manifests[..i] :: Valid(m)
    {
      assert manifests[i] in manifests && manifests[..i + 1] == manifests[..i] + [manifests[i]];
      var good := ValidateManifest(manifests[i]);
      if !good { return false; }
    }
    assert manifests[..|manifests|] == manifests;
    for i := 0 to |manifests|
      invariant forall m | m in manifests[..i] :: version.Some? ==> m.steps == version.value
    {
      assert manifests[i] in manifests && manifests[..i + 1] == manifests[..i] + [manifests[i]];
      if version.Some? && manifests[i].steps != version.value { return false; }
    }
    if source.Some? {
      var good := ValidateManifest(source.value);
      if !good || (version.Some? && source.value.steps != version.value) { return false; }
      for i := 0 to |manifests|
        invariant forall m | m in manifests[..i] ::
                  Canonical(m) == Canonical(source.value) && SameContainers(source.value, m)
      {
        assert manifests[i] in manifests && manifests[..i + 1] == manifests[..i] + [manifests[i]];
        var mismatches := Mismatches(source.value, manifests[i], 8);
        SilentExactlyWhenCanonicalAgrees(source.value, manifests[i], 8);
        if mismatches != [] { return false; }
      }
    }
    var first := CanonicalForm(manifests[0]);
    for i := 0 to |manifests|
      invariant forall m | m in manifests[..i] :: Canonical(m) == first
    {
      assert manifests[i] in manifests && manifests[0] in manifests
             && manifests[..i + 1] == manifests[..i] + [manifests[i]];
      var form := CanonicalForm(manifests[i]);
      if form != first { return false; }
    }
    ok := true;
  }

  /** After the source check the digest check cannot fail: passing it already makes all receivers' forms equal. */
  lemma {:induction false} SourceCheckSettlesDigests(manifests: seq<Report>, source: Report, m: Report, n: Report)
    requires Valid(source) && (forall x | x in manifests :: Valid(x))
    requires forall x | x in manifests :: FirstOf(AllMismatches(source, x, AllNames(source, x)), 8) == []
    requires m in manifests && n in manifests
    ensures Canonical(m) == Canonical(n) == Canonical(source)
  {
    SilentExactlyWhenCanonicalAgrees(source, m, 8);
    SilentExactlyWhenCanonicalAgrees(source, n, 8);
  }
}
