/** The files of a listing: filtering them and putting them in order. */
module FileLibrary {
  import opened Wrappers
  import opened Sorting

  type UUID = string

  const NIL: UUID := "00000000-0000-0000-0000-000000000000"

  datatype Target = Target(kind: string, id: UUID, name: string)

  /** A file as the viewer sees it; its category is derived from type and extension. */
  datatype File = File(
    id: UUID, user: UUID, workspace: UUID, filename: string, category: string,
    size: int, createdAt: int, starred: bool, sharedWith: seq<Target>)

  predicate DistinctIDs(files: seq<File>) {
    forall i, j :: 0 <= i < j < |files| ==> files[i].id != files[j].id
  }

  // ---- Filtering ----

  datatype Scope = All | Mine | Shared | Favorites

  function NormalizeScope(value: string): (s: Scope) {
    if value == "mine" then Mine
    else if value == "shared" then Shared
    else if value == "favorites" then Favorites
    else All
  }

  const CATEGORIES := {"image", "document", "archive", "video", "audio", "code"}

  /** An unknown category asks for everything. */
  function NormalizeCategory(value: string): (c: string)
    ensures c == "" || c in CATEGORIES
  {
    if value in CATEGORIES then value else ""
  }

  /** Who asks, and for what; an empty query or category asks for everything. `lower` is
      the lower-case mapping. */
  datatype Query = Query(
    workspace: UUID, viewer: UUID, text: string, scope: Scope, chat: Option<UUID>, category: string,
    lower: string -> string)

  predicate OccursAt(s: string, part: string, i: nat) {
    i + |part| <= |s| && s[i..i + |part|] == part
  }

  predicate Contains(s: string, part: string) {
    exists i :: 0 <= i <= |s| && OccursAt(s, part, i)
  }

  predicate SharedWithChat(f: File, chat: UUID) {
    exists i :: 0 <= i < |f.sharedWith| && f.sharedWith[i].id == chat
  }

  predicate Matches(f: File, q: Query) {
    && f.workspace == q.workspace
    && (q.lower(q.text) == "" || Contains(q.lower(f.filename), q.lower(q.text)))
    && (q.scope == Mine ==> f.user == q.viewer)
    && (q.scope == Shared ==> f.user != q.viewer)
    && (q.scope == Favorites ==> f.starred)
    && (q.chat != None ==> SharedWithChat(f, q.chat.value))
    && (q.category == "" || f.category == q.category)
  }

  function Filtered(files: seq<File>, q: Query): (r: seq<File>) {
    if |files| == 0 then []
    else
      var upto, last := files[..|files| - 1], files[|files| - 1];
      if Matches(last, q) then Filtered(upto, q) + [last] else Filtered(upto, q)
  }

  /** Filtering keeps exactly the matching files, as often as they occur. */
  lemma {:induction false} FilteredExactly(files: seq<File>, q: Query, f: File)
    ensures multiset(Filtered(files, q))[f] == if Matches(f, q) then multiset(files)[f] else 0
  {
    if |files| > 0 {
      FilteredExactly(files[..|files| - 1], q, f);
      assert files == files[..|files| - 1] + [files[|files| - 1]];
    }
  }

  lemma {:induction false} FilteredDistinct(files: seq<File>, q: Query)
    requires DistinctIDs(files)
    ensures DistinctIDs(Filtered(files, q))
    ensures forall f :: f in Filtered(files, q) ==> f in files
  {
    if |files| > 0 {
      var upto := files[..|files| - 1];
      FilteredDistinct(upto, q);
      assert forall f :: f in upto ==> f.id != files[|files| - 1].id;
    }
  }

  method FilterLibraryFiles(files: seq<File>, q: Query) returns (filtered: seq<File>)
    ensures filtered == Filtered(files, q)
  {
    var lowerQuery := q.lower(q.text);
    filtered := [];
    for i := 0 to |files|
      invariant filtered == Filtered(files[..i], q)
    {
      var f := files[i];
      assert files[..i + 1][..i] == files[..i];
      if f.workspace != q.workspace {
        continue;
      }
      if lowerQuery != "" && !Contains(q.lower(f.filename), lowerQuery) {
        continue;
      }
      if q.scope == Mine && f.user != q.viewer {
        continue;
      }
      if q.scope == Shared && f.user == q.viewer {
        continue;
      }
      if q.scope == Favorites && !f.starred {
        continue;
      }
      if q.chat != None && !SharedWithChat(f, q.chat.value) {
        continue;
      }
      if q.category != "" && f.category != q.category {
        continue;
      }
      filtered := filtered + [f];
    }
    assert files[..|files|] == files;
  }

  // ---- Sorting ----

  datatype SortKey = ByName | BySize | ByDate

  datatype Order = Order(key: SortKey, descending: bool, lower: string -> string)

  function NormalizeSort(value: string): (k: SortKey) {
    if value == "name" then ByName else if value == "size" then BySize else ByDate
  }

  /** Whether the listing is descending: names ascend unless asked, the rest descend. */
  function NormalizeDir(value: string, key: SortKey): (descending: bool) {
    if value == "asc" then false else if value == "desc" then true else key != ByName
  }

  predicate Older(a: File, b: File) {
    if a.createdAt != b.createdAt then a.createdAt < b.createdAt else TextLess(a.id, b.id)
  }

  predicate Less(o: Order, a: File, b: File) {
    match o.key
    case ByName =>
      if o.lower(a.filename) != o.lower(b.filename) then TextLess(o.lower(a.filename), o.lower(b.filename))
      else Older(a, b)
    case BySize =>
      if a.size != b.size then a.size < b.size else Older(a, b)
    case ByDate => Older(a, b)
  }

  /** The comparison the sort is given. */
  predicate Before(o: Order, a: File, b: File) {
    if o.descending then !Less(o, a, b) && a.id != b.id else Less(o, a, b)
  }

  function Comparator(o: Order): (before: (File, File) -> bool) {
    (a, b) => Before(o, a, b)
  }

  lemma {:induction false} LessIsStrict(o: Order, a: File, b: File)
    ensures a.id == b.id && a == b ==> !Less(o, a, b)
    ensures a.id != b.id ==> (Less(o, a, b) <==> !Less(o, b, a))
  {
    TextLessIrreflexive(a.id);
    OnlyOneLess(a.id, b.id);
    OnlyOneLess(o.lower(a.filename), o.lower(b.filename));
  }

  lemma {:induction false} OnlyOneLess(s: string, t: string)
    ensures s != t ==> (TextLess(s, t) <==> !TextLess(t, s))
  {
    TextLessTotal(s, t);
    TextLessIrreflexive(s);
    if TextLess(s, t) && TextLess(t, s) {
      TextLessTransitive(s, t, s);
    }
  }

  lemma {:induction false} LessIsTransitive(o: Order, a: File, b: File, c: File)
    requires Less(o, a, b) && Less(o, b, c)
    ensures Less(o, a, c)
  {
    if TextLess(a.id, b.id) && TextLess(b.id, c.id) {
      TextLessTransitive(a.id, b.id, c.id);
    }
    var la, lb, lc := o.lower(a.filename), o.lower(b.filename), o.lower(c.filename);
    if TextLess(la, lb) && TextLess(lb, lc) {
      TextLessTransitive(la, lb, lc);
    }
    TextLessIrreflexive(la);
    OnlyOneLess(la, lb);
  }

  /** On files with different IDs, descending is exactly ascending reversed. */
  lemma {:induction false} DescendingReverses(key: SortKey, lower: string -> string, a: File, b: File)
    requires a.id != b.id
    ensures Before(Order(key, true, lower), a, b) <==> Before(Order(key, false, lower), b, a)
  {
    LessIsStrict(Order(key, true, lower), a, b);
    assert Less(Order(key, true, lower), a, b) <==> Less(Order(key, false, lower), a, b);
    LessIsStrict(Order(key, false, lower), a, b);
  }

  lemma {:induction false} BeforeIsTransitive(o: Order, a: File, b: File, c: File)
    requires Before(o, a, b) && Before(o, b, c)
    requires a.id == c.id ==> a == c
    ensures Before(o, a, c)
  {
    LessIsStrict(o, a, b);
    LessIsStrict(o, b, c);
    LessIsStrict(o, a, c);
    if !o.descending {
      LessIsTransitive(o, a, b, c);
    } else {
      LessIsTransitive(o, c, b, a);
      LessIsStrict(o, a, a);
    }
  }

  /** Every sort key in both directions is a strict total order on distinct files. */
  lemma {:induction false} ComparatorIsStrictTotal(o: Order, files: seq<File>)
    requires DistinctIDs(files)
    ensures StrictTotal(files, Comparator(o))
  {
    forall a | a in files
      ensures !Before(o, a, a)
    {
      LessIsStrict(o, a, a);
    }
    forall a, b, c | a in files && b in files && c in files && Comparator(o)(a, b) && Comparator(o)(b, c)
      ensures Comparator(o)(a, c)
    {
      BeforeIsTransitive(o, a, b, c);
    }
    forall a, b | a in files && b in files && a != b
      ensures Comparator(o)(a, b) || Comparator(o)(b, a)
    {
      LessIsStrict(o, a, b);
    }
  }

  /** The files a request is about, in the order it asks for. */
  function Selected(files: seq<File>, q: Query, o: Order): (list: seq<File>) {
    Sorted(Filtered(files, q), Comparator(o))
  }

  /** The full listing: ordered, and exactly the matching files. */
  lemma {:induction false} SelectedIsOrderedFilter(files: seq<File>, q: Query, o: Order)
    requires DistinctIDs(files)
    ensures Ordered(Selected(files, q, o), Comparator(o))
    ensures DistinctIDs(Selected(files, q, o))
    ensures forall f :: f in Selected(files, q, o) <==> f in files && Matches(f, q)
  {
    var kept := Filtered(files, q);
    var list := Selected(files, q, o);
    FilteredDistinct(files, q);
    ComparatorIsStrictTotal(o, kept);
    SortedIsOrdered(kept, kept, Comparator(o));
    SortedPermutes(kept, Comparator(o));
    forall i, j | 0 <= i < j < |list|
      ensures list[i].id != list[j].id
    {
      assert Comparator(o)(list[i], list[j]);
      SameElements(list, kept, list[i]);
      SameElements(list, kept, list[j]);
      LessIsStrict(o, list[i], list[i]);
    }
    forall f
      ensures f in list <==> f in files && Matches(f, q)
    {
      SameElements(list, kept, f);
      FilteredExactly(files, q, f);
      assert f in kept <==> multiset(kept)[f] > 0;
      assert f in files <==> multiset(files)[f] > 0;
    }
  }

  /** The listing does not depend on the order the files were loaded in. */
  lemma {:induction false} LoadOrderDoesNotMatter(files: seq<File>, files': seq<File>, q: Query, o: Order)
    requires DistinctIDs(files) && DistinctIDs(files') && multiset(files) == multiset(files')
    ensures Selected(files, q, o) == Selected(files', q, o)
  {
    var kept, kept' := Filtered(files, q), Filtered(files', q);
    forall f
      ensures multiset(kept)[f] == multiset(kept')[f]
    {
      FilteredExactly(files, q, f);
      FilteredExactly(files', q, f);
    }
    SelectedIsOrderedFilter(files, q, o);
    SelectedIsOrderedFilter(files', q, o);
    SortedPermutes(kept, Comparator(o));
    SortedPermutes(kept', Comparator(o));
    FilteredDistinct(files, q);
    ComparatorIsStrictTotal(o, kept);
    forall f | f in Selected(files, q, o)
      ensures f in kept
    {
      SameElements(Selected(files, q, o), kept, f);
    }
    OrderedIsUnique(Selected(files, q, o), Selected(files', q, o), kept, Comparator(o));
  }
}
