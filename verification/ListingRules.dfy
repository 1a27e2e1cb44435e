/** What a listing request gets, in terms of the request as it comes in: which files, in
    which order, and what the facets count. */
module ListingRules {
  import opened Wrappers
  import opened Sorting
  import opened FileLibrary
  import opened FileFacets
  import opened FilePaging

  // ---- Which files ----

  /** A name contains a text exactly when the text stands somewhere in it. */
  lemma {:induction false} ContainsMiddle(a: string, part: string, b: string)
    ensures Contains(a + part + b, part)
  {
    assert (a + part + b)[|a|..|a| + |part|] == part;
    assert OccursAt(a + part + b, part, |a|);
  }

  lemma {:induction false} ContainedSplits(s: string, part: string) returns (a: string, b: string)
    requires Contains(s, part)
    ensures s == a + part + b
  {
    var i :| 0 <= i <= |s| && OccursAt(s, part, i);
    a, b := s[..i], s[i + |part|..];
  }

  /** A request lists exactly the files of its workspace that match the text, the scope, the
      chat and the category it names; an unknown scope or category asks for everything. */
  lemma {:induction false} RequestSelectsExactly(files: seq<File>, req: Request, lower: string -> string, f: File)
    requires DistinctIDs(files)
    ensures f in Selected(files, req.Query(lower), req.Order(lower)) <==>
      && f in files && f.workspace == req.workspace
      && (lower(req.text) == "" || Contains(lower(f.filename), lower(req.text)))
      && (req.scope == "mine" ==> f.user == req.viewer)
      && (req.scope == "shared" ==> f.user != req.viewer)
      && (req.scope == "favorites" ==> f.starred)
      && (req.chat.Some? ==> exists t :: t in f.sharedWith && t.id == req.chat.value)
      && (req.category in {"image", "document", "archive", "video", "audio", "code"} ==> f.category == req.category)
  {
    SelectedIsOrderedFilter(files, req.Query(lower), req.Order(lower));
    if req.chat.Some? {
      SharedMeaning(f, req.chat.value);
    }
  }

  lemma {:induction false} SharedMeaning(f: File, chat: UUID)
    ensures SharedWithChat(f, chat) <==> exists t :: t in f.sharedWith && t.id == chat
  {
    if t :| t in f.sharedWith && t.id == chat {
      var i :| 0 <= i < |f.sharedWith| && f.sharedWith[i] == t;
      assert f.sharedWith[i].id == chat;
    }
  }

  // ---- In which order ----

  /** Two different files as a listing by some key puts them, apart from that key: the older
      first, and by identifier if they are of the same instant. */
  predicate InTimeOrder(a: File, b: File) {
    a.createdAt <= b.createdAt && (a.createdAt == b.createdAt ==> TextLess(a.id, b.id))
  }

  /** By name and size ties are broken by time; anything else asks for time. Names ascend
      unless the request says otherwise, everything else descends, and descending is the
      whole order reversed, ties included. */
  lemma {:induction false} RequestOrdersExactly(files: seq<File>, req: Request, lower: string -> string, i: nat, j: nat)
    requires DistinctIDs(files) && i < j < |Selected(files, req.Query(lower), req.Order(lower))|
    ensures var list := Selected(files, req.Query(lower), req.Order(lower));
      var descends := req.dir == "desc" || (req.dir != "asc" && req.sortBy != "name");
      var a, b := if descends then list[j] else list[i], if descends then list[i] else list[j];
      if req.sortBy == "name" then
        || TextLess(lower(a.filename), lower(b.filename))
        || (lower(a.filename) == lower(b.filename) && InTimeOrder(a, b))
      else if req.sortBy == "size" then a.size < b.size || (a.size == b.size && InTimeOrder(a, b))
      else InTimeOrder(a, b)
  {
    var list := Selected(files, req.Query(lower), req.Order(lower));
    SelectedIsOrderedFilter(files, req.Query(lower), req.Order(lower));
    assert Comparator(req.Order(lower))(list[i], list[j]);
    assert list[i].id != list[j].id;
    LessIsStrict(req.Order(lower), list[i], list[j]);
  }

  // ---- What the facets count ----

  function CategoryPlaces(files: seq<File>, category: string): (places: set<nat>) {
    set i: nat | i < |files| && files[i].category == category
  }

  function ChatPlaces(files: seq<File>, chat: UUID): (places: set<nat>) {
    set i: nat | i < |files| && exists t :: t in files[i].sharedWith && t.id == chat
  }

  lemma {:induction false} OneMoreOfCategory(upto: seq<File>, f: File, category: string)
    ensures |CategoryPlaces(upto + [f], category)|
      == |CategoryPlaces(upto, category)| + if f.category == category then 1 else 0
  {
    assert CategoryPlaces(upto + [f], category)
        == CategoryPlaces(upto, category) + (if f.category == category then {|upto|} else {});
  }

  lemma {:induction false} OneMoreInChat(upto: seq<File>, f: File, chat: UUID)
    ensures |ChatPlaces(upto + [f], chat)| == |ChatPlaces(upto, chat)| + if SharedWithChat(f, chat) then 1 else 0
  {
    SharedMeaning(f, chat);
    assert ChatPlaces(upto + [f], chat)
        == ChatPlaces(upto, chat) + (if SharedWithChat(f, chat) then {|upto|} else {});
  }

  /** A category facet counts the files of that category. */
  lemma {:induction false} CategoryCountMeaning(files: seq<File>, category: string)
    ensures CategoryCount(files, category) == |CategoryPlaces(files, category)|
  {
    if |files| > 0 {
      var upto := files[..|files| - 1];
      CategoryCountMeaning(upto, category);
      OneMoreOfCategory(upto, files[|files| - 1], category);
      assert files == upto + [files[|files| - 1]];
    }
  }

  /** A chat facet counts the files shared with that chat, each once. */
  lemma {:induction false} ChatCountMeaning(files: seq<File>, chat: UUID)
    ensures ChatCount(files, chat) == |ChatPlaces(files, chat)|
  {
    if |files| > 0 {
      var upto := files[..|files| - 1];
      ChatCountMeaning(upto, chat);
      OneMoreInChat(upto, files[|files| - 1], chat);
      assert files == upto + [files[|files| - 1]];
    }
  }

  /** A chat is described as where it is mentioned first. */
  lemma {:induction false} DescribedByFirstMention(files: seq<File>, i: nat, j: nat, n: nat)
    requires i < n <= |files| && j < |files[i].sharedWith| && files[i].sharedWith[j].id != NIL
    requires forall k :: 0 <= k < i ==> !SharedWithChat(files[k], files[i].sharedWith[j].id)
    requires forall k :: 0 <= k < j ==> files[i].sharedWith[k].id != files[i].sharedWith[j].id
    ensures Description(files[..n], files[i].sharedWith[j].id) == Some(files[i].sharedWith[j])
  {
    var chat := files[i].sharedWith[j].id;
    assert files[..n][..n - 1] == files[..n - 1];
    if n == i + 1 {
      NotDescribedYet(files, chat, i);
      FirstInIsFirst(files[i].sharedWith, j, |files[i].sharedWith|);
      assert files[i].sharedWith[..|files[i].sharedWith|] == files[i].sharedWith;
    } else {
      DescribedByFirstMention(files, i, j, n - 1);
    }
  }

  lemma {:induction false} NotDescribedYet(files: seq<File>, chat: UUID, n: nat)
    requires n <= |files| && forall k :: 0 <= k < n ==> !SharedWithChat(files[k], chat)
    ensures Description(files[..n], chat) == None
  {
    if n > 0 {
      NotDescribedYet(files, chat, n - 1);
      FirstInMeaning(files[n - 1].sharedWith, chat);
      assert files[..n][..n - 1] == files[..n - 1];
    }
  }

  lemma {:induction false} FirstInIsFirst(targets: seq<Target>, j: nat, n: nat)
    requires j < n <= |targets| && forall k :: 0 <= k < j ==> targets[k].id != targets[j].id
    ensures FirstIn(targets[..n], targets[j].id) == Some(targets[j])
  {
    assert targets[..n][..n - 1] == targets[..n - 1];
    if n == j + 1 {
      FirstInMeaning(targets[..j], targets[j].id);
    } else {
      FirstInIsFirst(targets, j, n - 1);
    }
  }

  /** The nil ID, alone, is described as by the last file that is shared with it. */
  lemma {:induction false} NilDescribedByLastFile(files: seq<File>, i: nat, j: nat, n: nat)
    requires i < n <= |files| && j < |files[i].sharedWith| && files[i].sharedWith[j].id == NIL
    requires forall k :: i < k < n ==> !SharedWithChat(files[k], NIL)
    requires forall k :: 0 <= k < j ==> files[i].sharedWith[k].id != NIL
    ensures Description(files[..n], NIL) == Some(files[i].sharedWith[j])
  {
    assert files[..n][..n - 1] == files[..n - 1];
    if n == i + 1 {
      FirstInIsFirst(files[i].sharedWith, j, |files[i].sharedWith|);
      assert files[i].sharedWith[..|files[i].sharedWith|] == files[i].sharedWith;
    } else {
      NilDescribedByLastFile(files, i, j, n - 1);
      FirstInMeaning(files[n - 1].sharedWith, NIL);
      assert !SharedWithChat(files[n - 1], NIL);
    }
  }

  // ---- What the totals add up ----

  /** The bytes of a list are those of its parts, and of one file its size. */
  lemma {:induction false} BytesAddUp(a: seq<File>, b: seq<File>)
    ensures Bytes(a + b) == Bytes(a) + Bytes(b)
    ensures |b| == 1 ==> Bytes(b) == b[0].size
  {
    if |b| == 0 {
      assert a + b == a;
    } else {
      var upto := b[..|b| - 1];
      BytesAddUp(a, upto);
      assert (a + b)[..|a + b| - 1] == a + upto;
      assert |b| == 1 ==> Bytes(upto) == 0;
    }
  }

  function BytesOfPages(ps: seq<Page>): (n: int) {
    if |ps| == 0 then 0 else Bytes(ps[0].files) + BytesOfPages(ps[1..])
  }

  lemma {:induction false} PagesAddUp(ps: seq<Page>)
    ensures BytesOfPages(ps) == Bytes(Concatenated(ps))
  {
    if |ps| > 0 {
      PagesAddUp(ps[1..]);
      BytesAddUp(ps[0].files, Concatenated(ps[1..]));
    }
  }

  /** The total every page reports is what all the pages together hold. */
  lemma {:induction false} TotalIsOnThePages(list: seq<File>, limit: int)
    requires DistinctIDs(list)
    ensures BytesOfPages(Pages(list, if 1 <= limit <= 100 then limit else 50, First)) == Bytes(list)
  {
    var size := if 1 <= limit <= 100 then limit else 50;
    PagesFromStart(list, size);
    PagesAddUp(Pages(list, size, First));
  }

  /** Category facets come in the order of their names, chat facets by kind, then name, then
      identifier. */
  lemma {:induction false} FacetsOrderedExactly(files: seq<File>, facets: Facets, i: nat, j: nat)
    requires TypesExact(facets.types, files) && ChatsExact(facets.chats, files) && i < j
    ensures j < |facets.types| ==> TextLess(facets.types[i].category, facets.types[j].category)
    ensures j < |facets.chats| ==>
      var a, b := facets.chats[i].target, facets.chats[j].target;
      || TextLess(a.kind, b.kind)
      || (a.kind == b.kind && (TextLess(a.name, b.name) || (a.name == b.name && TextLess(a.id, b.id))))
  {
    if j < |facets.types| {
      assert TypeBefore(facets.types[i], facets.types[j]);
    }
    if j < |facets.chats| {
      assert ChatBefore(facets.chats[i], facets.chats[j]);
    }
  }
}
