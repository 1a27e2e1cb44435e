/** Facet counts over the files of a listing: how many per category, how many per chat. */
module FileFacets {
  import opened Wrappers
  import opened Sorting
  import opened FileLibrary

  datatype TypeFacet = TypeFacet(category: string, count: nat)

  datatype ChatFacet = ChatFacet(target: Target, count: nat)

  datatype Facets = Facets(types: seq<TypeFacet>, chats: seq<ChatFacet>)

  // ---- What the facets mean ----

  function CategoryCount(files: seq<File>, category: string): (n: nat) {
    if |files| == 0 then 0
    else CategoryCount(files[..|files| - 1], category) + if files[|files| - 1].category == category then 1 else 0
  }

  /** How many files are shared with a chat, however often each is shared. */
  function ChatCount(files: seq<File>, chat: UUID): (n: nat) {
    if |files| == 0 then 0
    else ChatCount(files[..|files| - 1], chat) + if SharedWithChat(files[|files| - 1], chat) then 1 else 0
  }

  function FirstIn(targets: seq<Target>, chat: UUID): (t: Option<Target>) {
    if |targets| == 0 then None
    else
      FirstOf(FirstIn(targets[..|targets| - 1], chat), targets[|targets| - 1], chat)
  }

  function FirstOf(before: Option<Target>, t: Target, chat: UUID): (r: Option<Target>) {
    if before == None && t.id == chat then Some(t) else before
  }

  lemma {:induction false} FirstInMeaning(targets: seq<Target>, chat: UUID)
    ensures FirstIn(targets, chat) != None <==> exists i :: 0 <= i < |targets| && targets[i].id == chat
    ensures FirstIn(targets, chat) != None ==> FirstIn(targets, chat).value.id == chat
  {
    if |targets| > 0 {
      var upto := targets[..|targets| - 1];
      FirstInMeaning(upto, chat);
      assert forall i :: 0 <= i < |upto| ==> upto[i] == targets[i];
    }
  }

  /** A chat's description once one more file has mentioned it, or not. */
  function Redescribed(before: Option<Target>, here: Option<Target>, chat: UUID): (t: Option<Target>) {
    if before == None || (chat == NIL && here != None) then here else before
  }

  /** How the listing describes a chat: as its first mention does. Only the nil ID, which
      the counting takes for a missing entry, is described again by every file. */
  function Description(files: seq<File>, chat: UUID): (t: Option<Target>) {
    if |files| == 0 then None
    else
      var before, here := Description(files[..|files| - 1], chat), FirstIn(files[|files| - 1].sharedWith, chat);
      Redescribed(before, here, chat)
  }

  predicate TypeBefore(a: TypeFacet, b: TypeFacet) {
    TextLess(a.category, b.category)
  }

  predicate ChatBefore(a: ChatFacet, b: ChatFacet) {
    if a.target.kind != b.target.kind then TextLess(a.target.kind, b.target.kind)
    else if a.target.name != b.target.name then TextLess(a.target.name, b.target.name)
    else TextLess(a.target.id, b.target.id)
  }

  /** One facet per category that occurs, with its count, in order. */
  ghost predicate TypesExact(types: seq<TypeFacet>, files: seq<File>) {
    && Ordered(types, TypeBefore)
    && (forall t :: t in types <==> t.count > 0 && t.count == CategoryCount(files, t.category))
  }

  predicate HasChat(chats: seq<ChatFacet>, chat: UUID) {
    exists i :: 0 <= i < |chats| && chats[i].target.id == chat
  }

  /** One facet per chat some file is shared with, with its count, in order, described
      as the listing does. */
  ghost predicate ChatsExact(chats: seq<ChatFacet>, files: seq<File>) {
    && Ordered(chats, ChatBefore)
    && (forall i, j :: 0 <= i < j < |chats| ==> chats[i].target.id != chats[j].target.id)
    && (forall i :: 0 <= i < |chats| ==> chats[i].count == ChatCount(files, chats[i].target.id) > 0)
    && (forall chat :: ChatCount(files, chat) > 0 ==> HasChat(chats, chat))
    && (forall i :: 0 <= i < |chats| ==> Description(files, chats[i].target.id) == Some(chats[i].target))
  }

  // ---- Counting ----

  ghost predicate TypeCountsOf(counts: map<string, nat>, files: seq<File>) {
    && (forall c :: c in counts <==> CategoryCount(files, c) > 0)
    && (forall c :: c in counts ==> counts[c] == CategoryCount(files, c))
  }

  function CountIn(counts: map<UUID, ChatFacet>, chat: UUID): (n: nat) {
    if chat in counts then counts[chat].count else 0
  }

  /** Each entry is filed under its own chat and counts at least one file. */
  predicate WellFiled(counts: map<UUID, ChatFacet>) {
    forall c :: c in counts ==> counts[c].target.id == c && counts[c].count > 0
  }

  function TargetIn(counts: map<UUID, ChatFacet>, chat: UUID): (t: Option<Target>) {
    if chat in counts then Some(counts[chat].target) else None
  }

  ghost predicate ChatCountsOf(counts: map<UUID, ChatFacet>, files: seq<File>) {
    && WellFiled(counts)
    && (forall c :: CountIn(counts, c) == ChatCount(files, c))
    && (forall c :: TargetIn(counts, c) == Description(files, c))
  }

  /** Count one mention; an entry that is missing, or filed under nil, is described anew. */
  method CountTarget(counts: map<UUID, ChatFacet>, target: Target) returns (counts': map<UUID, ChatFacet>)
    requires WellFiled(counts)
    ensures WellFiled(counts')
    ensures forall c :: CountIn(counts', c) == CountIn(counts, c) + if c == target.id then 1 else 0
    ensures forall c :: c != target.id ==> TargetIn(counts', c) == TargetIn(counts, c)
    ensures TargetIn(counts', target.id) == Redescribed(TargetIn(counts, target.id), Some(target), target.id)
  {
    var facet := if target.id in counts then counts[target.id] else ChatFacet(Target("", NIL, ""), 0);
    if facet.target.id == NIL {
      facet := facet.(target := target);
    }
    counts' := counts[target.id := facet.(count := facet.count + 1)];
  }

  /** Count one file once for every chat it is shared with. */
  method CountChats(counts: map<UUID, ChatFacet>, f: File) returns (counts': map<UUID, ChatFacet>)
    requires WellFiled(counts)
    ensures WellFiled(counts')
    ensures forall c :: CountIn(counts', c) == CountIn(counts, c) + if SharedWithChat(f, c) then 1 else 0
    ensures forall c :: TargetIn(counts', c) == Redescribed(TargetIn(counts, c), FirstIn(f.sharedWith, c), c)
  {
    counts' := counts;
    var seen := {};
    for j := 0 to |f.sharedWith|
      invariant WellFiled(counts')
      invariant forall c :: c in seen <==> FirstIn(f.sharedWith[..j], c) != None
      invariant forall c :: CountIn(counts', c) == CountIn(counts, c) + if c in seen then 1 else 0
      invariant forall c :: TargetIn(counts', c) == Redescribed(TargetIn(counts, c), FirstIn(f.sharedWith[..j], c), c)
    {
      var target := f.sharedWith[j];
      assert forall c :: FirstIn(f.sharedWith[..j + 1], c) == FirstOf(FirstIn(f.sharedWith[..j], c), target, c) by {
        assert f.sharedWith[..j + 1][..j] == f.sharedWith[..j];
      }
      if target.id in seen {
        continue;
      }
      seen := seen + {target.id};
      counts' := CountTarget(counts', target);
    }
    assert f.sharedWith[..|f.sharedWith|] == f.sharedWith;
    forall c
      ensures FirstIn(f.sharedWith, c) != None <==> SharedWithChat(f, c)
    {
      FirstInMeaning(f.sharedWith, c);
    }
  }

  method CountFacets(files: seq<File>) returns (types: map<string, nat>, chats: map<UUID, ChatFacet>)
    ensures TypeCountsOf(types, files) && ChatCountsOf(chats, files)
  {
    types, chats := map[], map[];
    for i := 0 to |files|
      invariant TypeCountsOf(types, files[..i]) && ChatCountsOf(chats, files[..i])
    {
      var f := files[i];
      assert files[..i + 1][..i] == files[..i];
      types := types[f.category := (if f.category in types then types[f.category] else 0) + 1];
      chats := CountChats(chats, f);
    }
    assert files[..|files|] == files;
  }

  method BuildFileFacets(files: seq<File>) returns (facets: Facets)
    ensures TypesExact(facets.types, files) && ChatsExact(facets.chats, files)
  {
    var typeCounts, chatCounts := CountFacets(files);
    var types := ListTypes(typeCounts);
    var chats := ListChats(chatCounts);
    SortedTypesAreExact(types, typeCounts, files);
    SortedChatsAreExact(chats, chatCounts, files);
    facets := Facets(Sorted(types, TypeBefore), Sorted(chats, ChatBefore));
  }

  /** The entries of a count map, in no particular order. */
  ghost predicate ListsTypes(types: seq<TypeFacet>, counts: map<string, nat>) {
    && (forall i, j :: 0 <= i < j < |types| ==> types[i].category != types[j].category)
    && (forall t :: t in types <==> t.category in counts && t.count == counts[t.category])
  }

  method ListTypes(counts: map<string, nat>) returns (types: seq<TypeFacet>)
    ensures ListsTypes(types, counts)
  {
    types := [];
    var todo := counts.Keys;
    while todo != {}
      invariant todo <= counts.Keys
      invariant forall i, j :: 0 <= i < j < |types| ==> types[i].category != types[j].category
      invariant forall t :: t in types <==> t.category in counts && t.category !in todo && t.count == counts[t.category]
      decreases |todo|
    {
      var c :| c in todo;
      assert forall i :: 0 <= i < |types| ==> types[i] in types && types[i].category != c;
      types := types + [TypeFacet(c, counts[c])];
      todo := todo - {c};
    }
  }

  ghost predicate ListsChats(chats: seq<ChatFacet>, counts: map<UUID, ChatFacet>) {
    && (forall i, j :: 0 <= i < j < |chats| ==> chats[i].target.id != chats[j].target.id)
    && (forall f :: f in chats <==> f.target.id in counts && f == counts[f.target.id])
  }

  method ListChats(counts: map<UUID, ChatFacet>) returns (chats: seq<ChatFacet>)
    requires WellFiled(counts)
    ensures ListsChats(chats, counts)
  {
    chats := [];
    var todo := counts.Keys;
    while todo != {}
      invariant todo <= counts.Keys
      invariant forall i, j :: 0 <= i < j < |chats| ==> chats[i].target.id != chats[j].target.id
      invariant forall f :: f in chats <==> f.target.id in counts && f.target.id !in todo && f == counts[f.target.id]
      decreases |todo|
    {
      var c :| c in todo;
      assert forall i :: 0 <= i < |chats| ==> chats[i] in chats && chats[i].target.id != c;
      chats := chats + [counts[c]];
      todo := todo - {c};
    }
  }

  // ---- The sorted facets ----

  lemma {:induction false} TypeBeforeIsStrictTotal(types: seq<TypeFacet>)
    requires forall i, j :: 0 <= i < j < |types| ==> types[i].category != types[j].category
    ensures StrictTotal(types, TypeBefore)
  {
    forall a | a in types
      ensures !TypeBefore(a, a)
    {
      TextLessIrreflexive(a.category);
    }
    forall a, b, c | a in types && b in types && c in types && TypeBefore(a, b) && TypeBefore(b, c)
      ensures TypeBefore(a, c)
    {
      TextLessTransitive(a.category, b.category, c.category);
    }
    forall a, b | a in types && b in types && a != b
      ensures TypeBefore(a, b) || TypeBefore(b, a)
    {
      TextLessTotal(a.category, b.category);
    }
  }

  lemma {:induction false} SortedTypesAreExact(types: seq<TypeFacet>, counts: map<string, nat>, files: seq<File>)
    requires ListsTypes(types, counts) && TypeCountsOf(counts, files)
    ensures TypesExact(Sorted(types, TypeBefore), files)
  {
    var sorted := Sorted(types, TypeBefore);
    TypeBeforeIsStrictTotal(types);
    SortedIsOrdered(types, types, TypeBefore);
    SortedPermutes(types, TypeBefore);
    forall t
      ensures t in sorted <==> t in types
    {
      SameElements(sorted, types, t);
    }
  }

  lemma {:induction false} ChatBeforeIsTransitive(a: ChatFacet, b: ChatFacet, c: ChatFacet)
    requires ChatBefore(a, b) && ChatBefore(b, c)
    ensures ChatBefore(a, c)
  {
    TextOrder(a.target.kind, b.target.kind, c.target.kind);
    TextOrder(a.target.name, b.target.name, c.target.name);
    TextOrder(a.target.id, b.target.id, c.target.id);
  }

  lemma {:induction false} TextOrder(a: string, b: string, c: string)
    ensures TextLess(a, b) && TextLess(b, c) ==> TextLess(a, c) && a != c
  {
    if TextLess(a, b) && TextLess(b, c) {
      TextLessTransitive(a, b, c);
      TextLessIrreflexive(a);
    }
  }

  lemma {:induction false} ChatBeforeIsStrictTotal(chats: seq<ChatFacet>)
    requires forall i, j :: 0 <= i < j < |chats| ==> chats[i].target.id != chats[j].target.id
    ensures StrictTotal(chats, ChatBefore)
  {
    forall a | a in chats
      ensures !ChatBefore(a, a)
    {
      TextLessIrreflexive(a.target.id);
    }
    forall a, b, c | a in chats && b in chats && c in chats && ChatBefore(a, b) && ChatBefore(b, c)
      ensures ChatBefore(a, c)
    {
      ChatBeforeIsTransitive(a, b, c);
    }
    forall a, b | a in chats && b in chats && a != b
      ensures ChatBefore(a, b) || ChatBefore(b, a)
    {
      TextLessTotal(a.target.kind, b.target.kind);
      TextLessTotal(a.target.name, b.target.name);
      TextLessTotal(a.target.id, b.target.id);
    }
  }

  lemma {:induction false} SortedChatsAreExact(chats: seq<ChatFacet>, counts: map<UUID, ChatFacet>, files: seq<File>)
    requires ListsChats(chats, counts) && ChatCountsOf(counts, files)
    ensures ChatsExact(Sorted(chats, ChatBefore), files)
  {
    var sorted := Sorted(chats, ChatBefore);
    ChatBeforeIsStrictTotal(chats);
    SortedIsOrdered(chats, chats, ChatBefore);
    SortedPermutes(chats, ChatBefore);
    forall i | 0 <= i < |sorted|
      ensures sorted[i] in chats && !ChatBefore(sorted[i], sorted[i])
    {
      SameElements(sorted, chats, sorted[i]);
    }
    forall i, j | 0 <= i < j < |sorted|
      ensures sorted[i].target.id != sorted[j].target.id
    {
      assert ChatBefore(sorted[i], sorted[j]) && sorted[i] != sorted[j];
    }
    forall i | 0 <= i < |sorted|
      ensures sorted[i].count == ChatCount(files, sorted[i].target.id) > 0
    {
      assert CountIn(counts, sorted[i].target.id) == ChatCount(files, sorted[i].target.id);
    }
    forall i | 0 <= i < |sorted|
      ensures Description(files, sorted[i].target.id) == Some(sorted[i].target)
    {
      assert TargetIn(counts, sorted[i].target.id) == Some(sorted[i].target);
    }
    forall c | ChatCount(files, c) > 0
      ensures HasChat(sorted, c)
    {
      assert CountIn(counts, c) > 0;
      SameElements(sorted, chats, counts[c]);
    }
  }

  // ---- Facets and totals agree ----

  function Total(types: seq<TypeFacet>): (n: nat) {
    if |types| == 0 then 0 else Total(types[..|types| - 1]) + types[|types| - 1].count
  }

  predicate Listed(types: seq<TypeFacet>, category: string) {
    exists i :: 0 <= i < |types| && types[i].category == category
  }

  function ListedFiles(files: seq<File>, types: seq<TypeFacet>): (n: nat) {
    if |files| == 0 then 0
    else ListedFiles(files[..|files| - 1], types) + if Listed(types, files[|files| - 1].category) then 1 else 0
  }

  lemma {:induction false} ListedOneMore(files: seq<File>, types: seq<TypeFacet>, t: TypeFacet)
    requires !Listed(types, t.category)
    ensures ListedFiles(files, types + [t]) == ListedFiles(files, types) + CategoryCount(files, t.category)
    decreases |files|
  {
    if |files| > 0 {
      ListedOneMore(files[..|files| - 1], types, t);
      var more, c := types + [t], files[|files| - 1].category;
      assert more[|types|] == t && forall i :: 0 <= i < |types| ==> more[i] == types[i];
      assert Listed(more, c) <==> Listed(types, c) || t.category == c;
    }
  }

  lemma {:induction false} NothingListed(files: seq<File>)
    ensures ListedFiles(files, []) == 0
  {
    if |files| > 0 {
      NothingListed(files[..|files| - 1]);
    }
  }

  lemma {:induction false} TotalIsListed(types: seq<TypeFacet>, files: seq<File>)
    requires forall i, j :: 0 <= i < j < |types| ==> types[i].category != types[j].category
    requires forall i :: 0 <= i < |types| ==> types[i].count == CategoryCount(files, types[i].category)
    ensures Total(types) == ListedFiles(files, types)
    decreases |types|
  {
    if |types| == 0 {
      NothingListed(files);
    } else {
      var upto, last := types[..|types| - 1], types[|types| - 1];
      assert types == upto + [last];
      TotalIsListed(upto, files);
      ListedOneMore(files, upto, last);
    }
  }

  lemma {:induction false} AllListed(files: seq<File>, types: seq<TypeFacet>)
    requires forall i :: 0 <= i < |files| ==> Listed(types, files[i].category)
    ensures ListedFiles(files, types) == |files|
    decreases |files|
  {
    if |files| > 0 {
      AllListed(files[..|files| - 1], types);
    }
  }

  lemma {:induction false} OccursMeansCounted(files: seq<File>, i: nat)
    requires i < |files|
    ensures CategoryCount(files, files[i].category) > 0
    decreases |files|
  {
    if i < |files| - 1 {
      OccursMeansCounted(files[..|files| - 1], i);
    }
  }

  /** The category facets account for every file of the listing exactly once. */
  lemma {:induction false} TypeFacetsSumToTotal(types: seq<TypeFacet>, files: seq<File>)
    requires TypesExact(types, files)
    ensures Total(types) == |files|
  {
    forall i, j | 0 <= i < j < |types|
      ensures types[i].category != types[j].category
    {
      assert TypeBefore(types[i], types[j]);
      TextLessIrreflexive(types[i].category);
    }
    forall i | 0 <= i < |types|
      ensures types[i].count == CategoryCount(files, types[i].category)
    {
      assert types[i] in types;
    }
    forall i | 0 <= i < |files|
      ensures Listed(types, files[i].category)
    {
      OccursMeansCounted(files, i);
      assert TypeFacet(files[i].category, CategoryCount(files, files[i].category)) in types;
    }
    TotalIsListed(types, files);
    AllListed(files, types);
  }

  // ---- Exact facets are determined by the listing ----

  lemma {:induction false} TypeFacetsAreDetermined(types: seq<TypeFacet>, types': seq<TypeFacet>, files: seq<File>)
    requires TypesExact(types, files) && TypesExact(types', files)
    ensures types == types'
  {
    forall i, j | 0 <= i < j < |types|
      ensures types[i].category != types[j].category
    {
      assert TypeBefore(types[i], types[j]);
      TextLessIrreflexive(types[i].category);
    }
    TypeBeforeIsStrictTotal(types);
    SameMembersSameList(types, types', TypeBefore);
  }

  lemma {:induction false} ChatFacetIsListed(chats: seq<ChatFacet>, chats': seq<ChatFacet>, files: seq<File>,
                                             f: ChatFacet)
    requires ChatsExact(chats, files) && ChatsExact(chats', files) && f in chats
    ensures f in chats'
  {
    var i :| 0 <= i < |chats| && chats[i] == f;
    assert HasChat(chats', f.target.id);
    var j :| 0 <= j < |chats'| && chats'[j].target.id == f.target.id;
    assert chats'[j] == f;
  }

  lemma {:induction false} ChatFacetsAreDetermined(chats: seq<ChatFacet>, chats': seq<ChatFacet>, files: seq<File>)
    requires ChatsExact(chats, files) && ChatsExact(chats', files)
    ensures chats == chats'
  {
    forall f
      ensures f in chats <==> f in chats'
    {
      if f in chats {
        ChatFacetIsListed(chats, chats', files, f);
      } else if f in chats' {
        ChatFacetIsListed(chats', chats, files, f);
      }
    }
    ChatBeforeIsStrictTotal(chats);
    SameMembersSameList(chats, chats', ChatBefore);
  }
}
