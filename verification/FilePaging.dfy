/** Paging through a listing with cursors, and the request that ties it all together. */
module FilePaging {
  import opened Wrappers
  import opened Arithmetic
  import opened Sorting
  import opened FileLibrary
  import opened FileFacets

  /** A decoded cursor: none given, one that does not decode, or the last file seen. */
  datatype Cursor = First | Malformed | After(id: UUID)

  /** A listing request as it comes in: scope, category, sort key and direction are
      still text. */
  datatype Request = Request(
    workspace: UUID, viewer: UUID, text: string, scope: string, chat: Option<UUID>, category: string,
    sortBy: string, dir: string, limit: int, cursor: Cursor)
  {
    function Query(lower: string -> string): (q: FileLibrary.Query) {
      FileLibrary.Query(workspace, viewer, text, NormalizeScope(scope), chat, NormalizeCategory(category), lower)
    }

    function Order(lower: string -> string): (o: FileLibrary.Order) {
      FileLibrary.Order(NormalizeSort(sortBy), NormalizeDir(dir, NormalizeSort(sortBy)), lower)
    }
  }

  datatype Page = Page(files: seq<File>, next: Option<UUID>)

  datatype ListResult =
    | InvalidCursor
    | Listing(page: Page, totalCount: nat, totalBytes: int, facets: Facets)

  function EffectiveLimit(limit: int): (n: nat)
    ensures 1 <= n <= 100
  {
    if limit <= 0 || limit > 100 then 50 else limit
  }

  /** The first position of an ID at or after `i`. */
  function Find(list: seq<File>, id: UUID, i: nat): (k: Option<nat>)
    requires i <= |list|
    ensures k.Some? ==> i <= k.value < |list| && list[k.value].id == id
    ensures k == None ==> forall j :: i <= j < |list| ==> list[j].id != id
    decreases |list| - i
  {
    if i == |list| then None else if list[i].id == id then Some(i) else Find(list, id, i + 1)
  }

  /** Where a cursor's page begins; a cursor to a file not in the listing is refused. */
  function Start(list: seq<File>, cursor: Cursor): (k: Option<nat>)
    ensures k.Some? ==> k.value <= |list|
  {
    match cursor
    case First => Some(0)
    case Malformed => None
    case After(id) =>
      match Find(list, id, 0)
      case None => None
      case Some(i) => Some(i + 1)
  }

  function PageAt(list: seq<File>, limit: nat, start: nat): (p: Page)
    requires start <= |list|
  {
    var end := if start + limit > |list| then |list| else start + limit;
    Page(list[start..end], if end < |list| && end > start then Some(list[end - 1].id) else None)
  }

  function Bytes(files: seq<File>): (n: int) {
    if |files| == 0 then 0 else Bytes(files[..|files| - 1]) + files[|files| - 1].size
  }

  /** A listing request over the files the viewer may see. */
  method ListFiles(files: seq<File>, req: Request, lower: string -> string) returns (r: ListResult)
    ensures var list := Selected(files, req.Query(lower), req.Order(lower));
      && (r.InvalidCursor? <==>
            req.cursor == Malformed || (req.cursor.After? && forall f :: f in list ==> f.id != req.cursor.id))
      && (r.Listing? ==>
            && Start(list, req.cursor).Some?
            && r.page
              == PageAt(list, if 1 <= req.limit <= 100 then req.limit else 50, Start(list, req.cursor).value)
            && r.totalCount == |list| && r.totalBytes == Bytes(list)
            && TypesExact(r.facets.types, list) && ChatsExact(r.facets.chats, list))
  {
    var size := EffectiveLimit(req.limit);
    var filtered := FilterLibraryFiles(files, req.Query(lower));
    filtered := Sorted(filtered, Comparator(req.Order(lower)));
    var totalBytes := TotalBytes(filtered);
    var facets := BuildFileFacets(filtered);
    var start := Locate(filtered, req.cursor);
    if start == None {
      return InvalidCursor;
    }
    var page := CutPage(filtered, size, start.value);
    r := Listing(page, |filtered|, totalBytes, facets);
  }

  method TotalBytes(files: seq<File>) returns (n: int)
    ensures n == Bytes(files)
  {
    n := 0;
    for i := 0 to |files|
      invariant n == Bytes(files[..i])
    {
      assert files[..i + 1][..i] == files[..i];
      n := n + files[i].size;
    }
    assert files[..|files|] == files;
  }

  method Locate(list: seq<File>, cursor: Cursor) returns (start: Option<nat>)
    ensures start == Start(list, cursor)
  {
    if cursor == First {
      return Some(0);
    }
    if cursor == Malformed {
      return None;
    }
    for i := 0 to |list|
      invariant Find(list, cursor.id, 0) == Find(list, cursor.id, i)
    {
      if list[i].id == cursor.id {
        return Some(i + 1);
      }
    }
    start := None;
  }

  method CutPage(list: seq<File>, size: nat, start: nat) returns (p: Page)
    requires start <= |list|
    ensures p == PageAt(list, size, start)
  {
    var end := start + size;
    if end > |list| {
      end := |list|;
    }
    var page := list[start..end];
    var next := None;
    if end < |list| && |page| > 0 {
      next := Some(page[|page| - 1].id);
    }
    p := Page(page, next);
  }

  // ---- Following the cursors ----

  lemma {:induction false} FindsItsOwn(list: seq<File>, k: nat)
    requires DistinctIDs(list) && k < |list|
    ensures Start(list, After(list[k].id)) == Some(k + 1)
  {
  }

  /** All the pages a client sees by following each page's next cursor. */
  ghost function Pages(list: seq<File>, limit: nat, cursor: Cursor): (ps: seq<Page>)
    requires DistinctIDs(list) && limit > 0 && Start(list, cursor).Some?
    decreases |list| - Start(list, cursor).value
  {
    var p := PageAt(list, limit, Start(list, cursor).value);
    if p.next == None then [p]
    else
      var last := Start(list, cursor).value + |p.files| - 1;
      FindsItsOwn(list, last);
      [p] + Pages(list, limit, After(p.next.value))
  }

  ghost function Concatenated(ps: seq<Page>): (files: seq<File>) {
    if |ps| == 0 then [] else ps[0].files + Concatenated(ps[1..])
  }

  /** Pages of a given size for n files; an empty listing still has one page. */
  function PageCount(n: nat, limit: nat): (k: nat)
    requires limit > 0
  {
    if n <= limit then 1 else 1 + PageCount(n - limit, limit)
  }

  /** For n > 0 that is n divided by the size, rounded up. */
  lemma {:induction false} PageCountIsCeiling(n: nat, limit: nat)
    requires limit > 0 && n > 0
    ensures var k := PageCount(n, limit);
      (k - 1) * limit < n <= k * limit
  {
    if n > limit {
      PageCountIsCeiling(n - limit, limit);
      var k := PageCount(n - limit, limit);
      OneMoreTimes(limit, k - 1, k);
      OneMoreTimes(limit, k, k + 1);
    }
  }

  lemma {:induction false} PagesStep(list: seq<File>, limit: nat, cursor: Cursor, s: nat)
    requires DistinctIDs(list) && limit > 0 && Start(list, cursor) == Some(s)
    ensures var p := PageAt(list, limit, s);
      if |list| - s <= limit then Pages(list, limit, cursor) == [p] && p.files == list[s..]
      else
        var next := After(list[s + limit - 1].id);
        && Start(list, next) == Some(s + limit)
        && Pages(list, limit, cursor) == [p] + Pages(list, limit, next)
        && list[s..] == p.files + list[s + limit..]
  {
    PageMeaning(list, limit, s);
    if |list| - s > limit {
      FindsItsOwn(list, s + limit - 1);
    }
  }

  lemma {:induction false} PagesCoverTheRest(list: seq<File>, limit: nat, cursor: Cursor, s: nat)
    requires DistinctIDs(list) && limit > 0 && Start(list, cursor) == Some(s)
    ensures Concatenated(Pages(list, limit, cursor)) == list[s..]
    decreases |list| - s
  {
    var p := PageAt(list, limit, s);
    PagesStep(list, limit, cursor, s);
    if |list| - s <= limit {
      OnePage(p);
    } else {
      var next := After(list[s + limit - 1].id);
      PagesCoverTheRest(list, limit, next, s + limit);
      OnePageMore(p, Pages(list, limit, next));
    }
  }

  lemma {:induction false} PagesAreCounted(list: seq<File>, limit: nat, cursor: Cursor, s: nat)
    requires DistinctIDs(list) && limit > 0 && Start(list, cursor) == Some(s)
    ensures |Pages(list, limit, cursor)| == PageCount(|list| - s, limit)
    decreases |list| - s
  {
    PagesStep(list, limit, cursor, s);
    if |list| - s > limit {
      PagesAreCounted(list, limit, After(list[s + limit - 1].id), s + limit);
    }
  }

  lemma {:induction false} OnePage(p: Page)
    ensures Concatenated([p]) == p.files
  {
    assert Concatenated([p]) == p.files + Concatenated([]);
  }

  lemma {:induction false} PageMeaning(list: seq<File>, limit: nat, s: nat)
    requires limit > 0 && s <= |list|
    ensures var p := PageAt(list, limit, s);
      if |list| - s <= limit then p.next == None && p.files == list[s..]
      else p.next == Some(list[s + limit - 1].id) && list[s..] == p.files + list[s + limit..]
  {
  }

  lemma {:induction false} OnePageMore(p: Page, rest: seq<Page>)
    ensures Concatenated([p] + rest) == p.files + Concatenated(rest)
  {
    assert ([p] + rest)[1..] == rest;
  }

  /** The number of pages is n divided by the size, rounded up; one if there is nothing. */
  ghost predicate RoundedUp(k: nat, n: nat, limit: nat) {
    if n == 0 then k == 1 else (k - 1) * limit < n <= k * limit
  }

  lemma {:induction false} PagesFromStart(list: seq<File>, limit: nat)
    requires DistinctIDs(list) && limit > 0
    ensures Concatenated(Pages(list, limit, First)) == list
    ensures RoundedUp(|Pages(list, limit, First)|, |list|, limit)
  {
    PagesCoverTheRest(list, limit, First, 0);
    PagesAreCounted(list, limit, First, 0);
    assert list[0..] == list;
    if |list| > 0 {
      PageCountIsCeiling(|list|, limit);
    }
  }

  /** Paging refines the full listing: from the start, the pages together are exactly the
      matching files, each once and in order, on ceil(n / limit) pages for n > 0. */
  lemma {:induction false} PagingRefinesListing(files: seq<File>, q: Query, o: Order, limit: int)
    requires DistinctIDs(files)
    ensures var list := Selected(files, q, o);
      && DistinctIDs(list) && Ordered(list, Comparator(o))
      && (forall f :: f in list <==> f in files && Matches(f, q))
      && Concatenated(Pages(list, EffectiveLimit(limit), First)) == list
      && RoundedUp(|Pages(list, EffectiveLimit(limit), First)|, |list|, EffectiveLimit(limit))
  {
    SelectedIsOrderedFilter(files, q, o);
    PagesFromStart(Selected(files, q, o), EffectiveLimit(limit));
  }

  /** Two requests of one browse agree: whatever cursor each carries and whatever order
      the database returned the same files in, they report the same totals and facets, and
      the category facets sum to the total count. */
  lemma {:induction false} TotalsAgree(files: seq<File>, files': seq<File>, q: Query, o: Order, facets: Facets,
                                       facets': Facets)
    requires DistinctIDs(files) && DistinctIDs(files') && multiset(files) == multiset(files')
    requires TypesExact(facets.types, Selected(files, q, o)) && ChatsExact(facets.chats, Selected(files, q, o))
    requires TypesExact(facets'.types, Selected(files', q, o)) && ChatsExact(facets'.chats, Selected(files', q, o))
    ensures |Selected(files, q, o)| == |Selected(files', q, o)|
    ensures Bytes(Selected(files, q, o)) == Bytes(Selected(files', q, o))
    ensures facets == facets' && Total(facets.types) == |Selected(files, q, o)|
  {
    var list := Selected(files, q, o);
    LoadOrderDoesNotMatter(files, files', q, o);
    TypeFacetsAreDetermined(facets.types, facets'.types, list);
    ChatFacetsAreDetermined(facets.chats, facets'.chats, list);
    TypeFacetsSumToTotal(facets.types, list);
  }
}
