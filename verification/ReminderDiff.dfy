/** Replacing an event's reminders: the stored definitions are compared with the desired
    ones, and only the differences are deleted and inserted. */
module ReminderDiff {
  import opened Wrappers

  type UUID = string

  /** The all-zero identifier. */
  const NIL: UUID := "00000000-0000-0000-0000-000000000000"

  /** What makes two reminders of an event the same definition. */
  datatype Key = Key(user: UUID, offsetMinutes: int, channel: string)

  datatype Reminder = Reminder(id: UUID, key: Key)

  datatype Row = Row(event: UUID, key: Key)

  /** Reminder rows by primary key. */
  type Table = map<UUID, Row>

  /** The table's unique constraint: one row per event and definition. */
  ghost predicate Unique(rows: Table) {
    forall a, b :: a in rows && b in rows && rows[a] == rows[b] ==> a == b
  }

  predicate Has(reminders: seq<Reminder>, k: Key) {
    exists i :: 0 <= i < |reminders| && reminders[i].key == k
  }

  /** A definition that is asked for, by a real user. */
  predicate Wants(reminders: seq<Reminder>, k: Key) {
    k.user != NIL && Has(reminders, k)
  }

  /** The first reminder of each wanted definition, in the order given. */
  function Wanted(reminders: seq<Reminder>): (w: seq<Reminder>) {
    if |reminders| == 0 then []
    else
      var upto, last := reminders[..|reminders| - 1], reminders[|reminders| - 1];
      if last.key.user == NIL || Has(Wanted(upto), last.key) then Wanted(upto) else Wanted(upto) + [last]
  }

  /** Those of them that are not stored yet. */
  function Missing(wanted: seq<Reminder>, existing: map<Key, UUID>): (m: seq<Reminder>) {
    if |wanted| == 0 then []
    else
      var upto, last := wanted[..|wanted| - 1], wanted[|wanted| - 1];
      if last.key in existing then Missing(upto, existing) else Missing(upto, existing) + [last]
  }

  predicate DistinctKeys(reminders: seq<Reminder>) {
    forall i, j :: 0 <= i < j < |reminders| ==> reminders[i].key != reminders[j].key
  }

  lemma {:induction false} HasOneMore(rs: seq<Reminder>, r: Reminder, k: Key)
    ensures Has(rs + [r], k) <==> Has(rs, k) || r.key == k
  {
    var more := rs + [r];
    assert more[|rs|] == r && forall i :: 0 <= i < |rs| ==> more[i] == rs[i];
  }

  lemma {:induction false} WantedMeaning(reminders: seq<Reminder>)
    ensures DistinctKeys(Wanted(reminders))
    ensures forall k :: Has(Wanted(reminders), k) <==> Wants(reminders, k)
  {
    if |reminders| > 0 {
      var upto, last := reminders[..|reminders| - 1], reminders[|reminders| - 1];
      WantedMeaning(upto);
      assert reminders == upto + [last];
      forall k
        ensures Has(Wanted(reminders), k) <==> Wants(reminders, k)
      {
        HasOneMore(upto, last, k);
        HasOneMore(Wanted(upto), last, k);
      }
    }
  }

  lemma {:induction false} MissingMeaning(wanted: seq<Reminder>, existing: map<Key, UUID>)
    requires DistinctKeys(wanted)
    ensures DistinctKeys(Missing(wanted, existing))
    ensures forall k :: Has(Missing(wanted, existing), k) <==> Has(wanted, k) && k !in existing
  {
    if |wanted| > 0 {
      var upto, last := wanted[..|wanted| - 1], wanted[|wanted| - 1];
      MissingMeaning(upto, existing);
      assert wanted == upto + [last];
      forall k
        ensures Has(Missing(wanted, existing), k) <==> Has(wanted, k) && k !in existing
      {
        HasOneMore(upto, last, k);
        HasOneMore(Missing(upto, existing), last, k);
      }
      assert !Has(upto, last.key);
      assert !Has(Missing(upto, existing), last.key);
    }
  }

  /** The identifiers of stored definitions nobody wants any more. */
  ghost predicate IsRemoved(existing: map<Key, UUID>, reminders: seq<Reminder>, id: UUID) {
    exists k :: k in existing && existing[k] == id && !Wants(reminders, k)
  }

  predicate Indexed(desired: map<Key, Reminder>, k: Key, r: Reminder) {
    k == r.key && k in desired && desired[k] == r
  }

  method IndexDesired(reminders: seq<Reminder>) returns (desired: map<Key, Reminder>, ordered: seq<Key>)
    ensures forall k :: k in desired <==> Wants(reminders, k)
    ensures |ordered| == |Wanted(reminders)|
    ensures forall j :: 0 <= j < |ordered| ==> Indexed(desired, ordered[j], Wanted(reminders)[j])
  {
    desired, ordered := map[], [];
    for i := 0 to |reminders|
      invariant forall k :: k in desired <==> Has(Wanted(reminders[..i]), k)
      invariant |ordered| == |Wanted(reminders[..i])|
      invariant forall j :: 0 <= j < |ordered| ==> Indexed(desired, ordered[j], Wanted(reminders[..i])[j])
    {
      var r := reminders[i];
      assert reminders[..i + 1][..i] == reminders[..i];
      if r.key.user != NIL && r.key !in desired {
        desired := desired[r.key := r];
        ordered := ordered + [r.key];
      }
      forall k
        ensures k in desired <==> Has(Wanted(reminders[..i + 1]), k)
      {
        HasOneMore(Wanted(reminders[..i]), r, k);
      }
    }
    assert reminders[..|reminders|] == reminders;
    WantedMeaning(reminders);
  }

  /** The difference: which rows to delete and which reminders to insert, in order. */
  method DiffReminderDefinitions(existing: map<Key, UUID>, reminders: seq<Reminder>)
    returns (removed: seq<UUID>, added: seq<Reminder>)
    ensures forall id :: id in removed <==> IsRemoved(existing, reminders, id)
    ensures added == Missing(Wanted(reminders), existing)
  {
    var desired, ordered := IndexDesired(reminders);
    removed := [];
    var todo := existing.Keys;
    while todo != {}
      invariant todo <= existing.Keys
      invariant forall id :: id in removed <==>
        exists k :: k in existing && k !in todo && existing[k] == id && !Wants(reminders, k)
      decreases |todo|
    {
      var key :| key in todo;
      if key !in desired {
        removed := removed + [existing[key]];
      }
      todo := todo - {key};
    }
    added := [];
    ghost var w := Wanted(reminders);
    for j := 0 to |ordered|
      invariant added == Missing(w[..j], existing)
    {
      var key := ordered[j];
      assert w[..j + 1][..j] == w[..j];
      if key !in existing {
        added := added + [desired[key]];
      }
    }
    assert w[..|ordered|] == w;
  }

  // ---- Applying the difference ----

  /** The index of an event's definitions read from the table. */
  ghost predicate Loaded(rows: Table, event: UUID, existing: map<Key, UUID>) {
    && (forall k :: k in existing ==> existing[k] in rows && rows[existing[k]] == Row(event, k))
    && (forall id :: id in rows && rows[id].event == event ==> rows[id].key in existing && existing[rows[id].key] == id)
  }

  /** An event's stored definitions and the rows they are in. */
  ghost function Existing(rows: Table, event: UUID): (existing: map<Key, UUID>)
    requires Unique(rows)
    ensures Loaded(rows, event, existing)
  {
    map id | id in rows && rows[id].event == event :: rows[id].key := id
  }

  lemma {:induction false} LoadedIsExisting(rows: Table, event: UUID, existing: map<Key, UUID>)
    requires Unique(rows) && Loaded(rows, event, existing)
    ensures existing == Existing(rows, event)
  {
    var e := Existing(rows, event);
    assert forall k :: k in existing ==> rows[existing[k]].key == k;
    assert forall k :: k in e ==> rows[e[k]].key == k;
  }

  /** Reminders that come without an identifier get a new one. */
  function Assigned(rs: seq<Reminder>, newIDs: seq<UUID>): (a: seq<Reminder>)
    requires |rs| <= |newIDs|
    ensures |a| == |rs|
    ensures forall i :: 0 <= i < |rs| ==> a[i] == Reminder(if rs[i].id == NIL then newIDs[i] else rs[i].id, rs[i].key)
  {
    seq(|rs|, i requires 0 <= i < |rs| => Reminder(if rs[i].id == NIL then newIDs[i] else rs[i].id, rs[i].key))
  }

  predicate HasRow(rows: Table, event: UUID, k: Key) {
    exists id :: id in rows && rows[id] == Row(event, k)
  }

  /** One insert: a definition that is already there is left alone; a clash of primary
      keys or a definition the table's other constraints refuse is an error. */
  function Insert(rows: Table, event: UUID, r: Reminder, admits: Key -> bool): (t: Option<Table>) {
    if r.key.user == NIL then Some(rows)
    else if !admits(r.key) then None
    else if HasRow(rows, event, r.key) then Some(rows)
    else if r.id in rows then None
    else Some(rows[r.id := Row(event, r.key)])
  }

  function InsertAll(rows: Table, event: UUID, rs: seq<Reminder>, admits: Key -> bool): (t: Option<Table>) {
    if |rs| == 0 then Some(rows)
    else
      match InsertAll(rows, event, rs[..|rs| - 1], admits)
      case None => None
      case Some(t) => Insert(t, event, rs[|rs| - 1], admits)
  }

  function Survivors(rows: Table, event: UUID, reminders: seq<Reminder>): (t: Table) {
    map id | id in rows && (rows[id].event != event || Wants(reminders, rows[id].key)) :: rows[id]
  }

  /** The reminders a replacement inserts. */
  ghost function Incoming(rows: Table, event: UUID, reminders: seq<Reminder>, newIDs: seq<UUID>): (a: seq<Reminder>)
    requires Unique(rows) && |reminders| <= |newIDs|
  {
    var existing := Existing(rows, event);
    MissingShorter(reminders, existing);
    Assigned(Missing(Wanted(reminders), existing), newIDs)
  }

  lemma {:induction false} MissingLength(wanted: seq<Reminder>, existing: map<Key, UUID>)
    ensures |Missing(wanted, existing)| <= |wanted|
  {
    if |wanted| > 0 {
      MissingLength(wanted[..|wanted| - 1], existing);
    }
  }

  lemma {:induction false} WantedLength(reminders: seq<Reminder>)
    ensures |Wanted(reminders)| <= |reminders|
  {
    if |reminders| > 0 {
      WantedLength(reminders[..|reminders| - 1]);
    }
  }

  lemma {:induction false} MissingShorter(reminders: seq<Reminder>, existing: map<Key, UUID>)
    ensures |Missing(Wanted(reminders), existing)| <= |reminders|
  {
    MissingLength(Wanted(reminders), existing);
    WantedLength(reminders);
  }

  /** The table after a replacement, if the database accepts every insert. */
  ghost function Replaced(rows: Table, event: UUID, reminders: seq<Reminder>, newIDs: seq<UUID>, admits: Key -> bool)
    : (t: Option<Table>)
    requires Unique(rows) && |reminders| <= |newIDs|
  {
    InsertAll(Survivors(rows, event, reminders), event, Incoming(rows, event, reminders, newIDs), admits)
  }

  class ReminderTable {
    var rows: Table

    method LoadReminders(event: UUID) returns (existing: map<Key, UUID>)
      requires Unique(rows)
      ensures existing == Existing(rows, event)
    {
      existing := map[];
      var todo := rows.Keys;
      while todo != {}
        invariant todo <= rows.Keys
        invariant forall k :: k in existing ==>
          existing[k] in rows && existing[k] !in todo && rows[existing[k]] == Row(event, k)
        invariant forall id :: id in rows && id !in todo && rows[id].event == event ==>
          rows[id].key in existing && existing[rows[id].key] == id
        decreases |todo|
      {
        var id :| id in todo;
        if rows[id].event == event {
          existing := existing[rows[id].key := id];
        }
        todo := todo - {id};
      }
      LoadedIsExisting(rows, event, existing);
    }

    method DeleteReminders(event: UUID, ids: seq<UUID>)
      modifies this
      ensures rows == map id | id in old(rows) && !(old(rows)[id].event == event && id in ids) :: old(rows)[id]
    {
      rows := map id | id in rows && !(rows[id].event == event && id in ids) :: rows[id];
    }

    method InsertReminders(event: UUID, added: seq<Reminder>, newIDs: seq<UUID>, admits: Key -> bool) returns (ok: bool)
      requires |added| <= |newIDs|
      modifies this
      ensures ok == InsertAll(old(rows), event, Assigned(added, newIDs), admits).Some?
      ensures ok ==> rows == InsertAll(old(rows), event, Assigned(added, newIDs), admits).value
      ensures forall id :: id in old(rows) ==> id in rows && rows[id] == old(rows)[id]
    {
      ghost var incoming := Assigned(added, newIDs);
      for i := 0 to |added|
        invariant InsertAll(old(rows), event, incoming[..i], admits) == Some(rows)
        invariant forall id :: id in old(rows) ==> id in rows && rows[id] == old(rows)[id]
      {
        var r := added[i];
        assert incoming[..i + 1][..i] == incoming[..i];
        if r.key.user == NIL {
          continue;
        }
        var id := if r.id == NIL then newIDs[i] else r.id;
        var inserted := Insert(rows, event, Reminder(id, r.key), admits);
        if inserted == None {
          InsertAllStops(old(rows), event, incoming, i + 1, admits);
          return false;
        }
        rows := inserted.value;
      }
      assert incoming[..|added|] == incoming;
      ok := true;
    }

    /** Replace an event's reminders; on an error the changes so far stay, but rows of
        other events and wanted rows are untouched all the same. */
    method ReplaceReminders(event: UUID, reminders: seq<Reminder>, newIDs: seq<UUID>, admits: Key -> bool)
      returns (ok: bool)
      requires Unique(rows) && |reminders| <= |newIDs|
      modifies this
      ensures ok == Replaced(old(rows), event, reminders, newIDs, admits).Some?
      ensures ok ==> rows == Replaced(old(rows), event, reminders, newIDs, admits).value
      ensures forall id :: id in Survivors(old(rows), event, reminders) ==> id in rows && rows[id] == old(rows)[id]
    {
      var existing := LoadReminders(event);
      var removed, added := DiffReminderDefinitions(existing, reminders);
      if |removed| > 0 {
        DeleteReminders(event, removed);
      }
      DeletedExactly(old(rows), event, existing, reminders, removed);
      MissingShorter(reminders, existing);
      ok := InsertReminders(event, added, newIDs, admits);
    }
  }

  lemma {:induction false} DeletedExactly(rows: Table, event: UUID, existing: map<Key, UUID>, reminders: seq<Reminder>,
                                          removed: seq<UUID>)
    requires Loaded(rows, event, existing) && forall id :: id in removed <==> IsRemoved(existing, reminders, id)
    ensures Survivors(rows, event, reminders) ==
      map id | id in rows && !(rows[id].event == event && id in removed) :: rows[id]
    ensures |removed| == 0 ==> Survivors(rows, event, reminders) == rows
  {
    forall id | id in rows && rows[id].event == event
      ensures id in removed <==> !Wants(reminders, rows[id].key)
    {
      assert existing[rows[id].key] == id;
    }
    if |removed| == 0 {
      assert forall id :: id in rows && rows[id].event == event ==> Wants(reminders, rows[id].key);
    }
  }

  /** A refused insert ends the replacement in failure. */
  lemma {:induction false} InsertAllStops(rows: Table, event: UUID, rs: seq<Reminder>, n: nat, admits: Key -> bool)
    requires n <= |rs| && InsertAll(rows, event, rs[..n], admits) == None
    ensures InsertAll(rows, event, rs, admits) == None
    decreases |rs|
  {
    if n == |rs| {
      assert rs[..n] == rs;
    } else {
      assert rs[..|rs| - 1][..n] == rs[..n];
      InsertAllStops(rows, event, rs[..|rs| - 1], n, admits);
    }
  }

  // ---- The replacement is exact ----

  predicate DistinctIDs(rs: seq<Reminder>) {
    forall i, j :: 0 <= i < j < |rs| ==> rs[i].id != rs[j].id
  }

  /** The reminders' rows are in the table and nothing else is new. */
  ghost predicate AddsExactly(rows: Table, event: UUID, rs: seq<Reminder>, t: Table) {
    && (forall id :: id in rows ==> id in t && t[id] == rows[id])
    && (forall i :: 0 <= i < |rs| ==> rs[i].id in t && rs[i].id !in rows && t[rs[i].id] == Row(event, rs[i].key))
    && (forall id :: id in t && id !in rows ==> t[id].event == event && Reminder(id, t[id].key) in rs)
  }

  /** The database accepts these rows: constraints met, identifiers free and distinct. */
  predicate Acceptable(rows: Table, rs: seq<Reminder>, admits: Key -> bool) {
    DistinctIDs(rs) && forall i :: 0 <= i < |rs| ==> admits(rs[i].key) && rs[i].id !in rows
  }

  /** New definitions of real users go in exactly when they are acceptable. */
  lemma {:induction false} InsertAllExactly(rows: Table, event: UUID, rs: seq<Reminder>, admits: Key -> bool)
    requires DistinctKeys(rs)
    requires forall i :: 0 <= i < |rs| ==> rs[i].key.user != NIL && !HasRow(rows, event, rs[i].key)
    ensures InsertAll(rows, event, rs, admits).Some? <==> Acceptable(rows, rs, admits)
    ensures InsertAll(rows, event, rs, admits).Some? ==>
      AddsExactly(rows, event, rs, InsertAll(rows, event, rs, admits).value)
    decreases |rs|
  {
    if |rs| > 0 {
      var upto, last := rs[..|rs| - 1], rs[|rs| - 1];
      InsertAllExactly(rows, event, upto, admits);
      assert rs == upto + [last];
      if InsertAll(rows, event, upto, admits).Some? {
        var t := InsertAll(rows, event, upto, admits).value;
        LastIsNew(rows, event, upto, last, t);
        AcceptableOneMore(rows, event, upto, last, admits, t);
        if last.id !in t {
          OneMoreAdded(rows, event, upto, last, t);
        }
      } else {
        AcceptableFewer(rows, upto, last, admits);
      }
    }
  }

  lemma {:induction false} LastIsNew(rows: Table, event: UUID, upto: seq<Reminder>, last: Reminder, t: Table)
    requires AddsExactly(rows, event, upto, t) && !HasRow(rows, event, last.key)
    requires forall i :: 0 <= i < |upto| ==> upto[i].key != last.key
    ensures !HasRow(t, event, last.key)
  {
  }

  lemma {:induction false} AcceptableOneMore(rows: Table, event: UUID, upto: seq<Reminder>, last: Reminder,
                                             admits: Key -> bool, t: Table)
    requires AddsExactly(rows, event, upto, t) && Acceptable(rows, upto, admits)
    ensures Acceptable(rows, upto + [last], admits) <==> admits(last.key) && last.id !in t
  {
    var more := upto + [last];
    assert more[|upto|] == last && forall i :: 0 <= i < |upto| ==> more[i] == upto[i];
  }

  lemma {:induction false} AcceptableFewer(rows: Table, upto: seq<Reminder>, last: Reminder, admits: Key -> bool)
    ensures Acceptable(rows, upto + [last], admits) ==> Acceptable(rows, upto, admits)
  {
    var more := upto + [last];
    assert forall i :: 0 <= i < |upto| ==> more[i] == upto[i];
  }

  lemma {:induction false} OneMoreAdded(rows: Table, event: UUID, upto: seq<Reminder>, last: Reminder, t: Table)
    requires AddsExactly(rows, event, upto, t) && last.id !in t
    ensures AddsExactly(rows, event, upto + [last], t[last.id := Row(event, last.key)])
  {
  }

  lemma {:induction false} IncomingMeaning(rows: Table, event: UUID, reminders: seq<Reminder>, newIDs: seq<UUID>)
    requires Unique(rows) && |reminders| <= |newIDs|
    ensures DistinctKeys(Incoming(rows, event, reminders, newIDs))
    ensures forall k :: Has(Incoming(rows, event, reminders, newIDs), k) <==>
      Wants(reminders, k) && !HasRow(rows, event, k)
  {
    var existing := Existing(rows, event);
    var missing := Missing(Wanted(reminders), existing);
    var incoming := Incoming(rows, event, reminders, newIDs);
    WantedMeaning(reminders);
    MissingMeaning(Wanted(reminders), existing);
    MissingShorter(reminders, existing);
    assert |incoming| == |missing| && forall i :: 0 <= i < |missing| ==> incoming[i].key == missing[i].key;
    forall k
      ensures Has(incoming, k) <==> Wants(reminders, k) && !HasRow(rows, event, k)
    {
      assert Has(incoming, k) <==> Has(missing, k);
      assert k in existing <==> HasRow(rows, event, k);
    }
  }

  /** A replacement goes through exactly when the database accepts the incoming rows. */
  lemma {:induction false} ReplacementSucceedsExactly(rows: Table, event: UUID, reminders: seq<Reminder>,
                                                      newIDs: seq<UUID>, admits: Key -> bool)
    requires Unique(rows) && |reminders| <= |newIDs|
    ensures Replaced(rows, event, reminders, newIDs, admits).Some? <==>
      Acceptable(Survivors(rows, event, reminders), Incoming(rows, event, reminders, newIDs), admits)
    ensures Replaced(rows, event, reminders, newIDs, admits).Some? ==>
      AddsExactly(Survivors(rows, event, reminders), event, Incoming(rows, event, reminders, newIDs),
                  Replaced(rows, event, reminders, newIDs, admits).value)
  {
    var survivors := Survivors(rows, event, reminders);
    var incoming := Incoming(rows, event, reminders, newIDs);
    IncomingMeaning(rows, event, reminders, newIDs);
    forall i | 0 <= i < |incoming|
      ensures incoming[i].key.user != NIL && !HasRow(survivors, event, incoming[i].key)
    {
      assert Has(incoming, incoming[i].key);
    }
    InsertAllExactly(survivors, event, incoming, admits);
  }

  /** Exactness: the event is left with precisely the wanted definitions, each once;
      every wanted definition that was stored keeps its row, and so does every row of
      another event. */
  lemma {:induction false} ReplacementIsExact(rows: Table, event: UUID, reminders: seq<Reminder>, newIDs: seq<UUID>,
                                              admits: Key -> bool)
    requires Unique(rows) && |reminders| <= |newIDs|
    requires Replaced(rows, event, reminders, newIDs, admits).Some?
    ensures var t := Replaced(rows, event, reminders, newIDs, admits).value;
      && Unique(t)
      && (forall k :: HasRow(t, event, k) <==> Wants(reminders, k))
      && (forall id :: id in rows && (rows[id].event != event || Wants(reminders, rows[id].key)) ==>
            id in t && t[id] == rows[id])
      && (forall id :: id in t && t[id].event != event ==> id in rows && rows[id] == t[id])
  {
    var t := Replaced(rows, event, reminders, newIDs, admits).value;
    var survivors := Survivors(rows, event, reminders);
    var incoming := Incoming(rows, event, reminders, newIDs);
    IncomingMeaning(rows, event, reminders, newIDs);
    ReplacementSucceedsExactly(rows, event, reminders, newIDs, admits);
    forall k
      ensures HasRow(t, event, k) <==> Wants(reminders, k)
    {
      DefinitionsAfter(rows, event, reminders, incoming, t, k);
    }
    UniqueAfter(rows, event, reminders, incoming, t);
  }

  lemma {:induction false} DefinitionsAfter(rows: Table, event: UUID, reminders: seq<Reminder>, incoming: seq<Reminder>,
                                            t: Table, k: Key)
    requires AddsExactly(Survivors(rows, event, reminders), event, incoming, t)
    requires Has(incoming, k) <==> Wants(reminders, k) && !HasRow(rows, event, k)
    ensures HasRow(t, event, k) <==> Wants(reminders, k)
  {
    var survivors := Survivors(rows, event, reminders);
    if id :| id in t && t[id] == Row(event, k) {
      if id !in survivors {
        assert Reminder(id, k) in incoming;
        assert Has(incoming, k);
      }
    }
    if Wants(reminders, k) {
      if id :| id in rows && rows[id] == Row(event, k) {
        assert id in survivors && t[id] == Row(event, k);
      } else {
        var i :| 0 <= i < |incoming| && incoming[i].key == k;
        assert t[incoming[i].id] == Row(event, k);
      }
    }
  }

  lemma {:induction false} UniqueAfter(rows: Table, event: UUID, reminders: seq<Reminder>, incoming: seq<Reminder>,
                                       t: Table)
    requires Unique(rows) && AddsExactly(Survivors(rows, event, reminders), event, incoming, t)
    requires DistinctKeys(incoming)
    requires forall k :: Has(incoming, k) ==> !HasRow(rows, event, k)
    ensures Unique(t)
  {
    var survivors := Survivors(rows, event, reminders);
    forall a, b | a in t && b in t && t[a] == t[b]
      ensures a == b
    {
      assert a !in survivors ==> Reminder(a, t[a].key) in incoming && Has(incoming, t[a].key);
      assert b !in survivors ==> Reminder(b, t[b].key) in incoming && Has(incoming, t[b].key);
    }
  }

  /** A table that holds exactly the wanted definitions needs no change. */
  lemma {:induction false} NothingToDo(t: Table, event: UUID, reminders: seq<Reminder>)
    requires Unique(t) && forall k :: HasRow(t, event, k) <==> Wants(reminders, k)
    ensures Missing(Wanted(reminders), Existing(t, event)) == []
    ensures forall id :: !IsRemoved(Existing(t, event), reminders, id)
    ensures Survivors(t, event, reminders) == t
  {
    var existing := Existing(t, event);
    var missing := Missing(Wanted(reminders), existing);
    WantedMeaning(reminders);
    MissingMeaning(Wanted(reminders), existing);
    forall k
      ensures k in existing <==> Wants(reminders, k)
    {
      assert HasRow(t, event, k) <==> k in existing;
    }
    assert |missing| > 0 ==> Has(missing, missing[0].key);
    forall id | id in t && t[id].event == event
      ensures Wants(reminders, t[id].key)
    {
      assert t[id] == Row(event, t[id].key);
      assert HasRow(t, event, t[id].key);
    }
  }

  /** Idempotence: against the result, the same reminders leave nothing to remove and
      nothing to add. */
  lemma {:induction false} SecondDiffIsEmpty(rows: Table, event: UUID, reminders: seq<Reminder>, newIDs: seq<UUID>,
                                             admits: Key -> bool)
    requires Unique(rows) && |reminders| <= |newIDs|
    requires Replaced(rows, event, reminders, newIDs, admits).Some?
    ensures var t := Replaced(rows, event, reminders, newIDs, admits).value;
      && Unique(t)
      && Missing(Wanted(reminders), Existing(t, event)) == []
      && (forall id :: !IsRemoved(Existing(t, event), reminders, id))
      && Replaced(t, event, reminders, newIDs, admits) == Some(t)
  {
    ReplacementIsExact(rows, event, reminders, newIDs, admits);
    NothingToDo(Replaced(rows, event, reminders, newIDs, admits).value, event, reminders);
  }

  // ---- Any inserts at all ----

  lemma {:induction false} InsertKeepsUnique(rows: Table, event: UUID, r: Reminder, admits: Key -> bool)
    requires Unique(rows) && Insert(rows, event, r, admits).Some?
    ensures var t := Insert(rows, event, r, admits).value;
      && Unique(t)
      && (forall id :: id in rows ==> id in t && t[id] == rows[id])
      && (forall id :: id in t && id !in rows ==> t[id].event == event && t[id].key.user != NIL && admits(t[id].key))
      && (r.key.user != NIL ==> HasRow(t, event, r.key))
  {
    var t := Insert(rows, event, r, admits).value;
    if t != rows {
      assert r.id in t && t[r.id] == Row(event, r.key);
    }
  }

  /** Inserting any reminders keeps one row per definition and every row there was, adds rows
      of this event and of real users only, and leaves every definition it was given, of a
      real user, in the table. */
  lemma {:induction false} InsertsKeepUnique(rows: Table, event: UUID, rs: seq<Reminder>, admits: Key -> bool)
    requires Unique(rows) && InsertAll(rows, event, rs, admits).Some?
    ensures var t := InsertAll(rows, event, rs, admits).value;
      && Unique(t)
      && (forall id :: id in rows ==> id in t && t[id] == rows[id])
      && (forall id :: id in t && id !in rows ==> t[id].event == event && t[id].key.user != NIL && admits(t[id].key))
      && (forall k :: Wants(rs, k) ==> HasRow(t, event, k))
  {
    if |rs| > 0 {
      var upto, last := rs[..|rs| - 1], rs[|rs| - 1];
      var before := InsertAll(rows, event, upto, admits).value;
      InsertsKeepUnique(rows, event, upto, admits);
      InsertKeepsUnique(before, event, last, admits);
      assert rs == upto + [last];
      forall k | Wants(rs, k)
        ensures HasRow(InsertAll(rows, event, rs, admits).value, event, k)
      {
        HasOneMore(upto, last, k);
        if k != last.key {
          assert Wants(upto, k);
          var id :| id in before && before[id] == Row(event, k);
        }
      }
    }
  }

  // ---- Which mention counts, and under which identifier ----

  /** The first reminder of its definition, for a real user. */
  predicate FirstMention(reminders: seq<Reminder>, i: nat) {
    && i < |reminders| && reminders[i].key.user != NIL
    && forall j :: 0 <= j < i ==> reminders[j].key != reminders[i].key
  }

  predicate IsFirstMention(reminders: seq<Reminder>, r: Reminder) {
    exists i :: 0 <= i < |reminders| && FirstMention(reminders, i) && reminders[i] == r
  }

  /** Of several reminders with one definition the first is wanted. */
  lemma {:induction false} WantedAreFirstMentions(reminders: seq<Reminder>, r: Reminder)
    ensures r in Wanted(reminders) <==> IsFirstMention(reminders, r)
  {
    if |reminders| > 0 {
      var upto, last := reminders[..|reminders| - 1], reminders[|reminders| - 1];
      WantedAreFirstMentions(upto, r);
      WantedMeaning(upto);
      FirstMentionOneMore(upto, last, r);
      assert reminders == upto + [last];
    }
  }

  lemma {:induction false} FirstMentionOneMore(upto: seq<Reminder>, last: Reminder, r: Reminder)
    ensures IsFirstMention(upto + [last], r) <==>
      IsFirstMention(upto, r) || (r == last && last.key.user != NIL && !Has(upto, last.key))
  {
    var more := upto + [last];
    assert forall j :: 0 <= j < |upto| ==> more[j] == upto[j];
    if i: nat :| FirstMention(upto, i) && upto[i] == r {
      assert FirstMention(more, i);
    }
    if r == last && last.key.user != NIL && !Has(upto, last.key) {
      assert FirstMention(more, |upto|);
    }
    if i: nat :| FirstMention(more, i) && more[i] == r {
      assert i < |upto| ==> FirstMention(upto, i);
    }
  }

  /** Mentions that come later add to the end, so the given order is kept. */
  lemma {:induction false} WantedGrowsAtTheEnd(reminders: seq<Reminder>, existing: map<Key, UUID>, n: nat)
    requires n <= |reminders|
    ensures Wanted(reminders[..n]) <= Wanted(reminders)
    ensures Missing(reminders[..n], existing) <= Missing(reminders, existing)
    decreases |reminders| - n
  {
    if n == |reminders| {
      assert reminders[..n] == reminders;
    } else {
      WantedGrowsAtTheEnd(reminders, existing, n + 1);
      assert reminders[..n + 1][..n] == reminders[..n];
    }
  }

  lemma {:induction false} MissingAreNotStored(wanted: seq<Reminder>, existing: map<Key, UUID>, r: Reminder)
    ensures r in Missing(wanted, existing) <==> r in wanted && r.key !in existing
  {
    if |wanted| > 0 {
      var upto := wanted[..|wanted| - 1];
      MissingAreNotStored(upto, existing, r);
      assert wanted == upto + [wanted[|wanted| - 1]];
    }
  }

  /** A definition that was not stored goes in under the identifier of its first mention, or
      under a new one if that has none. */
  lemma {:induction false} NewRowsIdentified(rows: Table, event: UUID, reminders: seq<Reminder>, newIDs: seq<UUID>,
                                             admits: Key -> bool, i: nat)
    requires Unique(rows) && |reminders| <= |newIDs|
    requires Replaced(rows, event, reminders, newIDs, admits).Some?
    requires FirstMention(reminders, i) && !HasRow(rows, event, reminders[i].key)
    ensures var t := Replaced(rows, event, reminders, newIDs, admits).value;
      exists id :: id in t && t[id] == Row(event, reminders[i].key) && id !in Survivors(rows, event, reminders)
                   && if reminders[i].id != NIL then id == reminders[i].id else id in newIDs
  {
    var existing := Existing(rows, event);
    var missing := Missing(Wanted(reminders), existing);
    var incoming := Incoming(rows, event, reminders, newIDs);
    ReplacementSucceedsExactly(rows, event, reminders, newIDs, admits);
    assert IsFirstMention(reminders, reminders[i]);
    WantedAreFirstMentions(reminders, reminders[i]);
    MissingAreNotStored(Wanted(reminders), existing, reminders[i]);
    MissingShorter(reminders, existing);
    var m :| 0 <= m < |missing| && missing[m] == reminders[i];
    var id := if reminders[i].id == NIL then newIDs[m] else reminders[i].id;
    assert incoming[m] == Reminder(id, reminders[i].key);
  }
}
