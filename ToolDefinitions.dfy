/**
 * The list logic of the laser tool-definition actions: duplicating a whole
 * material category under a fresh name, removing a category, renaming a
 * category or a single definition, and replacing or removing one definition.
 * The calls into the definition manager (which persist definitions) are left
 * out; each list is handled as a value.
 */
module ToolDefinitions {
  import opened Wrappers

  /** The settings of a definition, carried along unchanged. */
  type Settings = map<string, string>

  datatype ToolDefinition = ToolDefinition(
    definitionId: string,
    name: string,
    category: string,
    i18nCategory: string,
    settings: Option<Settings>)

  // ---------------------------------------------------------------------------
  // Array built-ins

  /** `s.filter(keep)`. */
  function Filter(s: seq<ToolDefinition>, keep: ToolDefinition -> bool): (r: seq<ToolDefinition>)
    ensures |r| <= |s|
    ensures forall i :: 0 <= i < |r| ==> keep(r[i]) && r[i] in s
    ensures forall x :: multiset(r)[x] == if keep(x) then multiset(s)[x] else 0
  {
    if s == [] then []
    else
      assert s == [s[0]] + s[1..];
      (if keep(s[0]) then [s[0]] else []) + Filter(s[1..], keep)
  }

  /** `filter` on one element keeps it exactly when it passes. */
  lemma FilterSingle(x: ToolDefinition, keep: ToolDefinition -> bool)
    ensures Filter([x], keep) == if keep(x) then [x] else []
  {
    assert [x][1..] == [];
  }

  lemma ConcatAssociative<T>(p: seq<T>, q: seq<T>, r: seq<T>)
    ensures p + (q + r) == (p + q) + r
  {
  }

  /** `filter` on an array with a first element. */
  lemma FilterCons(x: ToolDefinition, t: seq<ToolDefinition>, keep: ToolDefinition -> bool)
    ensures Filter([x] + t, keep) == (if keep(x) then [x] else []) + Filter(t, keep)
  {
    assert ([x] + t)[0] == x && ([x] + t)[1..] == t;
  }

  /** `filter` goes through the array in order: filtering a concatenation is
      concatenating the filtered parts. */
  lemma {:induction false} FilterAppend(a: seq<ToolDefinition>, b: seq<ToolDefinition>, keep: ToolDefinition -> bool)
    ensures Filter(a + b, keep) == Filter(a, keep) + Filter(b, keep)
  {
    if a == [] {
      assert a + b == b;
    } else {
      var x, t := a[0], a[1..];
      assert a == [x] + t;
      assert a + b == [x] + (t + b);
      var head := if keep(x) then [x] else [];
      FilterCons(x, t, keep);
      FilterCons(x, t + b, keep);
      FilterAppend(t, b, keep);
      var ft, fb := Filter(t, keep), Filter(b, keep);
      assert Filter(a + b, keep) == head + (ft + fb);
      assert Filter(a, keep) == head + ft;
      ConcatAssociative(head, ft, fb);
    }
  }

  /** `s.findIndex(d => d.definitionId === id)`: the first match, or -1. */
  function FindIndex(s: seq<ToolDefinition>, id: string): (r: int)
    ensures -1 <= r < |s|
    ensures r >= 0 ==> s[r].definitionId == id
    ensures forall j :: 0 <= j < |s| && (r == -1 || j < r) ==> s[j].definitionId != id
  {
    if s == [] then -1
    else if s[0].definitionId == id then 0
    else
      var k := FindIndex(s[1..], id);
      if k == -1 then -1 else k + 1
  }

  /** `s.splice(start, deleteCount, ...items)`, returning the array it leaves
      behind; a negative start counts from the end. */
  function Splice<T>(s: seq<T>, start: int, deleteCount: int, items: seq<T>): seq<T> {
    var from := SpliceStart(|s|, start);
    s[..from] + items + s[from + SpliceCount(|s|, from, deleteCount)..]
  }

  /** Where `splice` starts: a negative start counts from the end, and the
      result is clamped to the array. */
  function SpliceStart(length: nat, start: int): (from: nat)
    ensures from <= length
  {
    if start < 0 then (if length + start < 0 then 0 else length + start)
    else if start > length then length else start
  }

  /** How many elements `splice` removes from `from` on. */
  function SpliceCount(length: nat, from: nat, deleteCount: int): (count: nat)
    requires from <= length
    ensures from + count <= length
  {
    if deleteCount < 0 then 0
    else if deleteCount > length - from then length - from else deleteCount
  }

  lemma MultisetOfConcat<T>(p: seq<T>, q: seq<T>, r: seq<T>)
    ensures multiset(p + q + r) == multiset(p) + multiset(q) + multiset(r)
  {
  }

  /** `splice` only removes elements and inserts `items`. */
  lemma SpliceMultiset<T>(s: seq<T>, start: int, deleteCount: int, items: seq<T>)
    ensures multiset(Splice(s, start, deleteCount, items)) <= multiset(s) + multiset(items)
  {
    var from := SpliceStart(|s|, start);
    var count := SpliceCount(|s|, from, deleteCount);
    var front, gone, back := s[..from], s[from..from + count], s[from + count..];
    assert s == front + gone + back;
    MultisetOfConcat(front, gone, back);
    assert Splice(s, start, deleteCount, items) == front + items + back;
    MultisetOfConcat(front, items, back);
  }

  lemma SpliceReplaces<T>(s: seq<T>, i: int, x: T)
    requires 0 <= i < |s|
    ensures Splice(s, i, 1, [x]) == s[i := x]
  {
  }

  /** Splicing at -1, the index findIndex reports for a missing definition,
      touches the LAST element. */
  lemma SpliceAtMinusOne<T>(s: seq<T>, items: seq<T>)
    requires |s| > 0
    ensures Splice(s, -1, 1, items) == s[..|s| - 1] + items
  {
  }

  // ---------------------------------------------------------------------------
  // Categories

  /** `defs.find(d => d.category === c)` is truthy. */
  predicate HasCategory(defs: seq<ToolDefinition>, c: string) {
    exists i :: 0 <= i < |defs| && defs[i].category == c
  }

  /** The definitions of a category. */
  function InCategory(defs: seq<ToolDefinition>, c: string): seq<ToolDefinition> {
    Filter(defs, (d: ToolDefinition) => d.category == c)
  }

  /** The definitions of all other categories. */
  function OutsideCategory(defs: seq<ToolDefinition>, c: string): seq<ToolDefinition> {
    Filter(defs, (d: ToolDefinition) => d.category != c)
  }

  function MaxCategoryLength(defs: seq<ToolDefinition>): nat {
    if defs == [] then 0
    else
      var rest := MaxCategoryLength(defs[1..]);
      if |defs[0].category| > rest then |defs[0].category| else rest
  }

  lemma {:induction false} CategoryLengthBound(defs: seq<ToolDefinition>, c: string)
    requires HasCategory(defs, c)
    ensures |c| <= MaxCategoryLength(defs)
  {
    if defs[0].category != c {
      var i :| 0 <= i < |defs| && defs[i].category == c;
      assert defs[1..][i - 1].category == c;
      CategoryLengthBound(defs[1..], c);
    }
  }

  /** A string of k '#' characters. */
  function Hashes(k: nat): string {
    seq(k, _ => '#')
  }

  /** The first of `c`, `#c`, `##c`, ... that names no category in `defs`. */
  function FreeCategoryName(defs: seq<ToolDefinition>, c: string): string
    decreases MaxCategoryLength(defs) + 1 - |c|
  {
    if HasCategory(defs, c) then
      CategoryLengthBound(defs, c);
      FreeCategoryName(defs, "#" + c)
    else c
  }

  lemma {:induction false} FreeCategoryNameFrom(defs: seq<ToolDefinition>, c: string, k: nat)
    requires forall j :: 0 <= j < k ==> HasCategory(defs, Hashes(j) + c)
    ensures var n := FreeCategoryName(defs, Hashes(k) + c);
      && |n| >= k + |c|
      && n == Hashes(|n| - |c|) + c
      && !HasCategory(defs, n)
      && forall j :: 0 <= j < |n| - |c| ==> HasCategory(defs, Hashes(j) + c)
    decreases MaxCategoryLength(defs) + 1 - (k + |c|)
  {
    var name := Hashes(k) + c;
    if HasCategory(defs, name) {
      CategoryLengthBound(defs, name);
      assert "#" + name == Hashes(k + 1) + c;
      FreeCategoryNameFrom(defs, c, k + 1);
    }
  }

  /** The name chosen is `'#' * k + c` for the least k that no category uses. */
  lemma FreeCategoryNameSpec(defs: seq<ToolDefinition>, c: string)
    ensures var n := FreeCategoryName(defs, c);
      && |n| >= |c|
      && n == Hashes(|n| - |c|) + c
      && !HasCategory(defs, n)
      && forall j :: 0 <= j < |n| - |c| ==> HasCategory(defs, Hashes(j) + c)
  {
    assert Hashes(0) + c == c;
    FreeCategoryNameFrom(defs, c, 0);
  }

  /** The `while` loop of duplicateToolCategoryDefinition: prefix '#' until the name is unused. */
  method UniqueCategoryName(defs: seq<ToolDefinition>, category: string) returns (name: string)
    ensures name == FreeCategoryName(defs, category)
    ensures |name| >= |category| && name == Hashes(|name| - |category|) + category
    ensures !HasCategory(defs, name)
    ensures forall j :: 0 <= j < |name| - |category| ==> HasCategory(defs, Hashes(j) + category)
  {
    name := category;
    while HasCategory(defs, name)
      invariant FreeCategoryName(defs, name) == FreeCategoryName(defs, category)
      decreases MaxCategoryLength(defs) + 1 - |name|
    {
      CategoryLengthBound(defs, name);
      name := "#" + name;
    }
    FreeCategoryNameSpec(defs, category);
  }

  /** A copy of a definition moved into `category`, with a new id. */
  function Duplicate(d: ToolDefinition, category: string, stamp: string): ToolDefinition {
    d.(category := category, i18nCategory := "", definitionId := d.definitionId + stamp)
  }

  /** The definitions duplicateToolCategoryDefinition copies: a default
      material built from the active list when creating, else the old category. */
  function DuplicationSources(defs: seq<ToolDefinition>, activeToolList: ToolDefinition, isCreate: bool,
                              oldCategory: string, defaultMaterialName: string): seq<ToolDefinition> {
    if isCreate then
      [activeToolList.(name := defaultMaterialName, settings := if |defs| > 0 then defs[0].settings else None)]
    else InCategory(defs, oldCategory)
  }

  /** The `for` loop of duplicateToolCategoryDefinition: one copy per source, in order. */
  method DuplicateInto(sources: seq<ToolDefinition>, category: string, stamp: nat -> string)
    returns (duplicates: seq<ToolDefinition>)
    ensures |duplicates| == |sources|
    ensures forall i :: 0 <= i < |sources| ==> duplicates[i] == Duplicate(sources[i], category, stamp(i))
  {
    duplicates := [];
    for i := 0 to |sources|
      invariant |duplicates| == i
      invariant forall j :: 0 <= j < i ==> duplicates[j] == Duplicate(sources[j], category, stamp(j))
    {
      var newDefinition := Duplicate(sources[i], category, stamp(i));
      duplicates := duplicates + [newDefinition];
    }
  }

  /** duplicateToolCategoryDefinition: appends a copy of each source in a fresh
      category and returns the new list and the first copy (`undefined` when none).
      `stamp(i)` is the timestamp read in iteration i; creating a definition is
      taken to return it. */
  method DuplicateToolCategoryDefinition(defs: seq<ToolDefinition>, activeToolList: ToolDefinition,
                                         isCreate: bool, oldCategory: string,
                                         defaultMaterialName: string, stamp: nat -> string)
    returns (newDefs: seq<ToolDefinition>, first: Option<ToolDefinition>)
    ensures var sources := DuplicationSources(defs, activeToolList, isCreate, oldCategory, defaultMaterialName);
      var category := FreeCategoryName(defs, activeToolList.category);
      && |newDefs| == |defs| + |sources|
      && newDefs[..|defs|] == defs
      && (forall i :: 0 <= i < |sources| ==> newDefs[|defs| + i] == Duplicate(sources[i], category, stamp(i)))
      && first == (if |sources| == 0 then None else Some(newDefs[|defs|]))
    ensures forall i :: |defs| <= i < |newDefs| ==> !HasCategory(defs, newDefs[i].category)
  {
    var newCategoryName := UniqueCategoryName(defs, activeToolList.category);
    var sources := DuplicationSources(defs, activeToolList, isCreate, oldCategory, defaultMaterialName);
    var duplicates := DuplicateInto(sources, newCategoryName, stamp);
    newDefs := defs + duplicates;
    assert newDefs[..|defs|] == defs;
    forall i | 0 <= i < |sources|
      ensures newDefs[|defs| + i] == Duplicate(sources[i], newCategoryName, stamp(i))
    {
      assert newDefs[|defs| + i] == duplicates[i];
    }
    forall i | |defs| <= i < |newDefs|
      ensures !HasCategory(defs, newDefs[i].category)
    {
      assert newDefs[i] == duplicates[i - |defs|];
    }
    first := if |duplicates| == 0 then None else Some(duplicates[0]);
  }

  /** removeToolCategoryDefinition: the list without the category. */
  function RemoveToolCategoryDefinition(defs: seq<ToolDefinition>, category: string): (r: seq<ToolDefinition>)
    ensures !HasCategory(r, category)
    ensures forall i :: 0 <= i < |defs| && defs[i].category != category ==> defs[i] in r
  {
    var r := OutsideCategory(defs, category);
    forall i | 0 <= i < |defs| && defs[i].category != category
      ensures defs[i] in r
    {
      assert defs[i] in multiset(defs);
    }
    r
  }

  /** The kept definitions stay in their original order: removing from a
      concatenation removes from each part, and a single definition is kept
      exactly when it is of another category. */
  lemma RemoveCategoryKeepsOrder(a: seq<ToolDefinition>, b: seq<ToolDefinition>, d: ToolDefinition, category: string)
    ensures RemoveToolCategoryDefinition(a + b, category)
         == RemoveToolCategoryDefinition(a, category) + RemoveToolCategoryDefinition(b, category)
    ensures RemoveToolCategoryDefinition([d], category) == if d.category != category then [d] else []
  {
    FilterAppend(a, b, (x: ToolDefinition) => x.category != category);
    FilterSingle(d, (x: ToolDefinition) => x.category != category);
  }

  /** The removed definitions and the kept ones together are the old list. */
  lemma RemoveCategoryPartitions(defs: seq<ToolDefinition>, category: string)
    ensures multiset(RemoveToolCategoryDefinition(defs, category)) + multiset(InCategory(defs, category))
         == multiset(defs)
  {
    var kept := RemoveToolCategoryDefinition(defs, category);
    var removed := InCategory(defs, category);
    forall d ensures (multiset(kept) + multiset(removed))[d] == multiset(defs)[d] {
    }
  }

  // ---------------------------------------------------------------------------
  // Replacing, removing and renaming definitions

  /** updateToolListDefinition: the definition with the same id is replaced. */
  function UpdateToolListDefinition(defs: seq<ToolDefinition>, active: ToolDefinition): (r: seq<ToolDefinition>)
    ensures |r| == if defs == [] then 1 else |defs|
    ensures active in r
    ensures forall x :: multiset(r)[x] <= multiset(defs)[x] + (if x == active then 1 else 0)
  {
    SpliceMultiset(defs, FindIndex(defs, active.definitionId), 1, [active]);
    Splice(defs, FindIndex(defs, active.definitionId), 1, [active])
  }

  /** removeToolListDefinition: the definition with the same id is removed. */
  function RemoveToolListDefinition(defs: seq<ToolDefinition>, active: ToolDefinition): (r: seq<ToolDefinition>)
    ensures |r| == if defs == [] then 0 else |defs| - 1
    ensures multiset(r) <= multiset(defs)
  {
    SpliceMultiset(defs, FindIndex(defs, active.definitionId), 1, []);
    Splice(defs, FindIndex(defs, active.definitionId), 1, [])
  }

  /** A present id is replaced in place; a missing id overwrites the last definition. */
  lemma UpdateToolListDefinitionCases(defs: seq<ToolDefinition>, active: ToolDefinition)
    ensures var i := FindIndex(defs, active.definitionId);
      && (i >= 0 ==> UpdateToolListDefinition(defs, active) == defs[i := active])
      && (i == -1 && |defs| > 0 ==> UpdateToolListDefinition(defs, active) == defs[|defs| - 1 := active])
      && (defs == [] ==> UpdateToolListDefinition(defs, active) == [active])
  {
    var i := FindIndex(defs, active.definitionId);
    if i >= 0 {
      SpliceReplaces(defs, i, active);
    } else if |defs| > 0 {
      SpliceAtMinusOne(defs, [active]);
    } else {
      assert SpliceStart(0, -1) == 0 && SpliceCount(0, 0, 1) == 0;
    }
  }

  /** A present id is removed; a missing id removes the last definition. */
  lemma RemoveToolListDefinitionCases(defs: seq<ToolDefinition>, active: ToolDefinition)
    ensures var i := FindIndex(defs, active.definitionId);
      && (i >= 0 ==> RemoveToolListDefinition(defs, active) == defs[..i] + defs[i + 1..])
      && (i == -1 && |defs| > 0 ==> RemoveToolListDefinition(defs, active) == defs[..|defs| - 1])
  {
    var i := FindIndex(defs, active.definitionId);
    if i == -1 && |defs| > 0 {
      SpliceAtMinusOne(defs, []);
    }
  }

  /** The characters String.prototype.trim removes: white space and line terminators. */
  predicate IsJsWhitespace(c: char) {
    c == ' ' || c == '\t' || c == '\n' || c == '\r' || c == '\U{B}' || c == '\U{C}'
    || c == '\U{A0}' || c == '\U{1680}' || ('\U{2000}' <= c <= '\U{200A}')
    || c == '\U{2028}' || c == '\U{2029}' || c == '\U{202F}' || c == '\U{205F}'
    || c == '\U{3000}' || c == '\U{FEFF}'
  }

  /** `!newName || newName.trim().length === 0`. */
  predicate IsBlank(s: string) {
    forall i :: 0 <= i < |s| ==> IsJsWhitespace(s[i])
  }

  predicate UniqueIds(defs: seq<ToolDefinition>) {
    forall i, j :: 0 <= i < j < |defs| ==> defs[i].definitionId != defs[j].definitionId
  }

  function RenamedCategory(d: ToolDefinition, oldName: string, newName: string): ToolDefinition {
    if d.category == oldName then d.(category := newName, i18nCategory := "") else d
  }

  /** Every definition of category `oldName` moved to `newName`, in place. */
  function RenameCategory(defs: seq<ToolDefinition>, oldName: string, newName: string): seq<ToolDefinition> {
    seq(|defs|, i requires 0 <= i < |defs| => RenamedCategory(defs[i], oldName, newName))
  }

  /** Some definition of `category` is already called `name`. */
  predicate NameTakenInCategory(defs: seq<ToolDefinition>, category: string, name: string) {
    exists i :: 0 <= i < |defs| && defs[i].category == category && defs[i].name == name
  }

  /** A definition of the filtered list of a category is a definition of the whole list. */
  lemma FilteredNameTaken(defs: seq<ToolDefinition>, category: string, name: string, k: int)
    requires var same := InCategory(defs, category); 0 <= k < |same| && same[k].name == name
    ensures NameTakenInCategory(defs, category, name)
  {
    var d := InCategory(defs, category)[k];
    assert d in defs;
    var i :| 0 <= i < |defs| && defs[i] == d;
  }

  /** A definition of a category in the whole list is in that category's filtered list. */
  lemma NameTakenFiltered(defs: seq<ToolDefinition>, category: string, name: string, i: int)
    requires 0 <= i < |defs| && defs[i].category == category && defs[i].name == name
    ensures var same := InCategory(defs, category);
      exists k :: 0 <= k < |same| && same[k].name == name
  {
    var same := InCategory(defs, category);
    var d := defs[i];
    assert multiset(same)[d] == multiset(defs)[d] > 0;
    assert d in same;
    var k :| 0 <= k < |same| && same[k] == d;
  }

  /** Looking the name up among the filtered definitions of a category is the
      same as looking it up in that category of the whole list. */
  lemma SameCategoryNameTaken(defs: seq<ToolDefinition>, category: string, name: string)
    ensures var same := InCategory(defs, category);
      (exists k :: 0 <= k < |same| && same[k].name == name) <==> NameTakenInCategory(defs, category, name)
  {
    var same := InCategory(defs, category);
    if exists k :: 0 <= k < |same| && same[k].name == name {
      var k :| 0 <= k < |same| && same[k].name == name;
      FilteredNameTaken(defs, category, name, k);
    }
    if NameTakenInCategory(defs, category, name) {
      var i :| 0 <= i < |defs| && defs[i].category == category && defs[i].name == name;
      NameTakenFiltered(defs, category, name, i);
    }
  }

  /** With unique ids, the position of a definition's id is the definition's own. */
  lemma FindIndexOfUniqueId(out: seq<ToolDefinition>, defs: seq<ToolDefinition>, i: int)
    requires |out| == |defs| && 0 <= i < |out| && UniqueIds(defs)
    requires forall j :: 0 <= j < |out| ==> out[j].definitionId == defs[j].definitionId
    ensures FindIndex(out, out[i].definitionId) == i
  {
  }

  /** One step of that branch: the definition at `i` is changed in place, then
      spliced back at the index findIndex reports for its id. */
  method SpliceBackRenamed(out: seq<ToolDefinition>, i: int, definition: ToolDefinition)
    returns (next: seq<ToolDefinition>)
    requires 0 <= i < |out| && out[i].definitionId == definition.definitionId
    ensures var index := FindIndex(out[i := definition], definition.definitionId);
      0 <= index <= i && next == out[i := definition][index := definition]
  {
    var changed := out[i := definition];   // the definition object is changed in place
    var index := FindIndex(changed, definition.definitionId);
    assert changed[i].definitionId == definition.definitionId;
    SpliceReplaces(changed, index, definition);
    next := Splice(changed, index, 1, [definition]);
  }

  /** What the category branch has established after visiting the first `i` definitions. */
  predicate RenameProgress(out: seq<ToolDefinition>, defs: seq<ToolDefinition>, i: int, oldName: string, newName: string) {
    && 0 <= i <= |defs| && |out| == |defs|
    && (forall j :: 0 <= j < |out| ==> out[j].definitionId == defs[j].definitionId)
    && (forall j :: 0 <= j < i ==> out[j].category != oldName)
    && (forall j :: i <= j < |out| ==> out[j] == defs[j])
    && (UniqueIds(defs) ==> forall j :: 0 <= j < i ==> out[j] == RenamedCategory(defs[j], oldName, newName))
  }

  /** Renaming the definition at `i` and splicing it back at or before `i` keeps the progress. */
  lemma RenameStepKeepsProgress(out: seq<ToolDefinition>, defs: seq<ToolDefinition>, i: int,
                                oldName: string, newName: string, index: int)
    requires RenameProgress(out, defs, i, oldName, newName) && i < |defs|
    requires defs[i].category == oldName && newName != oldName
    requires 0 <= index <= i && defs[index].definitionId == defs[i].definitionId
    requires UniqueIds(defs) ==> index == i
    ensures var d := RenamedCategory(defs[i], oldName, newName);
      RenameProgress(out[i := d][index := d], defs, i + 1, oldName, newName)
  {
    var d := RenamedCategory(defs[i], oldName, newName);
    var next := out[i := d][index := d];
    forall j | 0 <= j < i + 1
      ensures next[j].category != oldName
    {
      if j != index && j != i {
        assert next[j] == out[j];
      }
    }
    if UniqueIds(defs) {
      assert next == out[i := d];
    }
  }

  /** Passing over a definition of another category keeps the progress. */
  lemma RenameSkipKeepsProgress(out: seq<ToolDefinition>, defs: seq<ToolDefinition>, i: int,
                                oldName: string, newName: string)
    requires RenameProgress(out, defs, i, oldName, newName) && i < |defs|
    requires defs[i].category != oldName
    ensures RenameProgress(out, defs, i + 1, oldName, newName)
  {
  }

  /** The category branch of updateToolDefinitionName: each definition of
      `oldName` is changed in place, then spliced back at the index findIndex
      reports for its id. */
  method RenameCategoryDefinitions(defs: seq<ToolDefinition>, oldName: string, newName: string)
    returns (out: seq<ToolDefinition>)
    requires !HasCategory(defs, newName)
    ensures |out| == |defs|
    ensures forall i :: 0 <= i < |defs| ==> out[i].definitionId == defs[i].definitionId
    ensures !HasCategory(out, oldName)
    ensures UniqueIds(defs) ==> out == RenameCategory(defs, oldName, newName)
  {
    out := defs;
    var i := 0;
    while i < |defs|
      invariant RenameProgress(out, defs, i, oldName, newName)
    {
      if defs[i].category == oldName {
        assert newName != oldName;
        var definition := defs[i].(category := newName, i18nCategory := "");
        assert definition == RenamedCategory(defs[i], oldName, newName);
        ghost var index := FindIndex(out[i := definition], definition.definitionId);
        if UniqueIds(defs) {
          FindIndexOfUniqueId(out[i := definition], defs, i);
        }
        ghost var prev := out;
        out := SpliceBackRenamed(out, i, definition);
        RenameStepKeepsProgress(prev, defs, i, oldName, newName, index);
      } else {
        RenameSkipKeepsProgress(out, defs, i, oldName, newName);
      }
      i := i + 1;
    }
  }

  datatype RenameError = EmptyName | NameAlreadyExists | DefinitionNotFound

  /** updateToolDefinitionName: renames a category (isCategorySelected) or the
      definition `definitionId`.  DefinitionNotFound stands for the TypeError
      the source raises when renaming a definition that is not in the list. */
  method UpdateToolDefinitionName(defs: seq<ToolDefinition>, isCategorySelected: bool, definitionId: string,
                                  oldName: string, newName: string)
    returns (r: Result<seq<ToolDefinition>, RenameError>)
    ensures IsBlank(newName) ==> r == Err(EmptyName)
    ensures !IsBlank(newName) && isCategorySelected && HasCategory(defs, newName) ==> r == Err(NameAlreadyExists)
    ensures !IsBlank(newName) && isCategorySelected && !HasCategory(defs, newName) ==>
      && r.Ok? && |r.value| == |defs|
      && (forall i :: 0 <= i < |defs| ==> r.value[i].definitionId == defs[i].definitionId)
      && !HasCategory(r.value, oldName)
      && (UniqueIds(defs) ==> r.value == RenameCategory(defs, oldName, newName))
    ensures !IsBlank(newName) && !isCategorySelected && FindIndex(defs, definitionId) == -1 ==>
      r == Err(DefinitionNotFound)
    ensures !IsBlank(newName) && !isCategorySelected && FindIndex(defs, definitionId) >= 0 ==>
      var i := FindIndex(defs, definitionId);
      if NameTakenInCategory(defs, defs[i].category, newName) then r == Err(NameAlreadyExists)
      else r == Ok(defs[i := defs[i].(name := newName)])
  {
    var activeIndex := FindIndex(defs, definitionId);
    if IsBlank(newName) {
      return Err(EmptyName);
    }
    if isCategorySelected {
      if HasCategory(defs, newName) {
        return Err(NameAlreadyExists);
      }
      var out := RenameCategoryDefinitions(defs, oldName, newName);
      return Ok(out);
    }
    if activeIndex == -1 {
      return Err(DefinitionNotFound);
    }
    var activeDefinition := defs[activeIndex];
    var sameCategory := InCategory(defs, activeDefinition.category);
    SameCategoryNameTaken(defs, activeDefinition.category, newName);
    if exists k :: 0 <= k < |sameCategory| && sameCategory[k].name == newName {
      return Err(NameAlreadyExists);
    }
    var renamed := activeDefinition.(name := newName);
    var index := FindIndex(defs, renamed.definitionId);
    SpliceReplaces(defs, index, renamed);
    return Ok(Splice(defs, index, 1, [renamed]));
  }
}
