/** Combining a backup into a store, and taking it back when that fails half way. */
module Rollback {
  import opened Common
  import opened Stages
  import opened Definitions
  import opened Backup

  // ----- what holds from the snapshot on, whatever was written since -----

  /** Every definition of the snapshot is still there, under a name that is the same but
      for its case. */
  predicate NamesKept(before: Defs, defs: Defs) {
    && UniqueNames(defs)
    && forall id | id in before :: id in defs && Fold(defs[id].name) == Fold(before[id].name)
  }

  /** Events and history belong to automations. */
  predicate Referential(t: Tables) {
    t.events.Keys <= t.automations.Keys && HistoryOwned(t.history, t.automations.Keys)
  }

  predicate HistoryOwned(history: map<nat, Id>, automations: set<Id>) {
    forall h | h in history :: history[h] in automations
  }

  predicate Recoverable(snapshot: Tables, t: Tables) {
    && NamesKept(snapshot.conditions, t.conditions) && NamesKept(snapshot.actions, t.actions)
    && UniqueNames(snapshot.conditions) && UniqueNames(snapshot.actions)
    && snapshot.automations.Keys <= t.automations.Keys
    && Referential(t) && Referential(snapshot)
  }

  predicate HistoryKept(before: map<nat, Id>, after: map<nat, Id>) {
    forall h | h in before :: h in after && after[h] == before[h]
  }

  /** The columns that define an automation, as opposed to those of its run time. */
  predicate SameDesign(row: AutomationRow, row': AutomationRow) {
    row.name == row'.name && row.settings == row'.settings && row.conditionIds == row'.conditionIds && row.stages == row'.stages
  }

  predicate DesignKept(before: Rows, after: Rows) {
    after.Keys == before.Keys && forall id | id in before :: SameDesign(before[id], after[id])
  }

  lemma DesignsStay(first: Rows, second: Rows, third: Rows)
    requires DesignKept(first, second) && DesignKept(second, third)
    ensures DesignKept(first, third)
  {
  }

  lemma PausingKeepsDesign(rows: Rows, users: set<Id>, now: Time)
    ensures DesignKept(rows, rows) && DesignKept(rows, PauseUsers(rows, users, now))
  {
  }

  /** Switched off, with nothing awaited. */
  predicate Resting(row: AutomationRow) {
    !row.runtime.enabled && row.runtime.nextCheckAt.None? && row.runtime.pendingAt.None?
  }

  predicate RestKept(before: Rows, after: Rows) {
    forall id | id in before && Resting(before[id]) :: id in after && Resting(after[id])
  }

  /** The automations that use a definition some record was saved over are resting. */
  ghost predicate SourceUsersRest(before: Defs, rows: Rows, records: seq<Record>) {
    forall a, c | a in rows && c in rows[a].conditionIds && c in before && !Unnamed(before[c].name, records) :: Resting(rows[a])
  }

  ghost predicate ActionUsersRest(before: Defs, rows: Rows, records: seq<Record>) {
    forall a, x | a in rows && x in before && UsesAction(rows[a], x) && !Unnamed(before[x].name, records) :: Resting(rows[a])
  }

  /** The automations some record was saved as are resting. */
  ghost predicate NamedRest(rows: Rows, records: seq<Record>) {
    forall a | a in rows && !Unnamed(rows[a].name, records) :: Resting(rows[a])
  }

  lemma RestsStay(conditions: Defs, actions: Defs, rows: Rows, rows': Rows, sources: seq<Record>, wanted: seq<Record>, saved: seq<Record>)
    requires DesignKept(rows, rows') && RestKept(rows, rows')
    ensures SourceUsersRest(conditions, rows, sources) ==> SourceUsersRest(conditions, rows', sources)
    ensures ActionUsersRest(actions, rows, wanted) ==> ActionUsersRest(actions, rows', wanted)
    ensures NamedRest(rows, saved) ==> NamedRest(rows', saved)
  {
    hide Unnamed;
    forall a | a in rows'
      ensures SameDesign(rows[a], rows'[a]) && forall x :: UsesAction(rows'[a], x) <==> UsesAction(rows[a], x)
    {
    }
  }

  lemma RestStays(first: Rows, second: Rows, third: Rows)
    ensures RestKept(first, first)
    ensures RestKept(first, second) && RestKept(second, third) ==> RestKept(first, third)
  {
  }

  lemma DesignHasSameKeys(rows: Rows, rows': Rows)
    requires DesignKept(rows, rows')
    ensures rows'.Keys == rows.Keys
  {
  }

  lemma PausedRest(rows: Rows, users: set<Id>, now: Time)
    ensures RestKept(rows, PauseUsers(rows, users, now))
    ensures forall a | a in rows && a in users :: Resting(PauseUsers(rows, users, now)[a])
  {
  }

  /** Saving a source puts the users of the one it was saved over to rest. */
  lemma SourceUsersRestNow(before: Defs, rows: Rows, records: seq<Record>, r: Record, own: Option<Id>, now: Time)
    requires SourceUsersRest(before, rows, records) && UniqueNames(before)
    requires if own.Some? then own.value in before && Fold(before[own.value].name) == Fold(r.name)
             else forall id | id in before :: Fold(before[id].name) != Fold(r.name)
    ensures var rows' := if own.Some? then PauseUsers(rows, ConditionUsers(rows, own.value), now) else rows;
      SourceUsersRest(before, rows', records + [r])
  {
    hide Unnamed;
    var rows' := if own.Some? then PauseUsers(rows, ConditionUsers(rows, own.value), now) else rows;
    forall a, c | a in rows' && c in rows'[a].conditionIds && c in before && !Unnamed(before[c].name, records + [r])
      ensures Resting(rows'[a])
    {
      UnnamedMore(before[c].name, records, r);
      assert rows'[a].conditionIds == rows[a].conditionIds;
      assert Unnamed(before[c].name, records) ==> own == Some(c);
    }
  }

  lemma ActionUsersRestNow(before: Defs, rows: Rows, records: seq<Record>, r: Record, own: Option<Id>, now: Time)
    requires ActionUsersRest(before, rows, records) && UniqueNames(before)
    requires if own.Some? then own.value in before && Fold(before[own.value].name) == Fold(r.name)
             else forall id | id in before :: Fold(before[id].name) != Fold(r.name)
    ensures var rows' := if own.Some? then PauseUsers(rows, ActionUsers(rows, own.value), now) else rows;
      ActionUsersRest(before, rows', records + [r])
  {
    hide Unnamed;
    var rows' := if own.Some? then PauseUsers(rows, ActionUsers(rows, own.value), now) else rows;
    forall a, x | a in rows' && x in before && UsesAction(rows'[a], x) && !Unnamed(before[x].name, records + [r])
      ensures Resting(rows'[a])
    {
      UnnamedMore(before[x].name, records, r);
      assert rows'[a].stages == rows[a].stages && UsesAction(rows[a], x);
      assert Unnamed(before[x].name, records) ==> own == Some(x);
    }
  }

  /** A row that is put in resting leaves all of this as it was, and its own record counts
      from then on. */
  lemma RestsAfterSave(conditions: Defs, actions: Defs, rows: Rows, sources: seq<Record>, wanted: seq<Record>, saved: seq<Record>,
                       r: Record, id: Id, row: AutomationRow)
    requires Resting(row)
    requires forall other | other in rows && other != id :: Fold(rows[other].name) != Fold(r.name)
    ensures SourceUsersRest(conditions, rows, sources) ==> SourceUsersRest(conditions, rows[id := row], sources)
    ensures ActionUsersRest(actions, rows, wanted) ==> ActionUsersRest(actions, rows[id := row], wanted)
    ensures NamedRest(rows, saved) ==> NamedRest(rows[id := row], saved + [r])
  {
    hide Unnamed, UsesAction;
    forall a | a in rows && a != id
      ensures Unnamed(rows[a].name, saved + [r]) <==> Unnamed(rows[a].name, saved)
    {
      UnnamedMore(rows[a].name, saved, r);
    }
  }

  lemma NoneNamed(conditions: Defs, actions: Defs, rows: Rows)
    ensures SourceUsersRest(conditions, rows, []) && ActionUsersRest(actions, rows, []) && NamedRest(rows, [])
  {
  }

  /** What others may write meanwhile. The scheduler writes runtime columns, times of
      change, events and new history, and leaves an automation at rest that is switched off
      with nothing awaited; only an operator switches such a one on. */
  method OthersWrite(store: DefinitionStore, ghost snapshot: Tables, operators: bool)
    requires store.Valid() && Recoverable(snapshot, store.Contents())
    modifies store
    ensures store.Valid() && Recoverable(snapshot, store.Contents())
    ensures store.conditions == old(store.conditions) && store.actions == old(store.actions)
    ensures DesignKept(old(store.automations), store.automations)
    ensures !operators ==> RestKept(old(store.automations), store.automations)
    ensures HistoryKept(old(store.history), store.history)
  {
    var rows: Rows :| rows.Keys == store.automations.Keys
      && (forall id | id in rows :: rows[id] == store.automations[id].(runtime := rows[id].runtime, updatedAt := rows[id].updatedAt))
      && (operators || RestKept(store.automations, rows));
    var events: map<Id, string> :| events.Keys <= store.automations.Keys;
    assert HistoryKept(store.history, store.history) && HistoryOwned(store.history, store.automations.Keys);
    var history: map<nat, Id> :| HistoryKept(store.history, history) && HistoryOwned(history, store.automations.Keys);
    store.automations, store.events, store.history := rows, events, history;
  }

  // ----- restoring a snapshot -----

  /** The table once the rows of the given identifiers have been inserted or updated. */
  function Upserted(defs: Defs, rows: Defs, done: set<Id>): Defs {
    map id | id in defs.Keys + (rows.Keys * done) :: if id in rows && id in done then rows[id] else defs[id]
  }

  lemma UpsertOneMore(defs: Defs, rows: Defs, done: set<Id>, id: Id)
    requires id in rows
    ensures Upserted(defs, rows, done)[id := rows[id]] == Upserted(defs, rows, done + {id})
  {
  }

  lemma UpsertNone(defs: Defs, rows: Defs)
    ensures Upserted(defs, rows, {}) == defs && Upserted(defs, rows, rows.Keys) == defs + rows
  {
  }

  lemma NameIsFreeForUpsert(defs: Defs, rows: Defs, done: set<Id>, id: Id)
    requires NamesKept(rows, defs) && UniqueNames(rows) && id in rows
    ensures !Taken(Upserted(defs, rows, done), rows[id].name, Some(id))
  {
  }

  lemma UpsertKeepsUnique(defs: Defs, id: Id, row: Definition)
    requires UniqueNames(defs) && !Taken(defs, row.name, Some(id))
    ensures UniqueNames(defs[id := row])
  {
  }

  /** Inserts or updates the rows one by one, in any order; a name that another row still
      has, in any case, breaks the table's uniqueness and fails the transaction. */
  method UpsertDefinitions(defs: Defs, rows: Defs) returns (ok: bool, result: Defs)
    ensures NamesKept(rows, defs) && UniqueNames(rows) ==> ok
    ensures ok ==> result == defs + rows && (UniqueNames(defs) ==> UniqueNames(result))
  {
    hide Upserted, UniqueNames, NamesKept, Taken;
    result := defs;
    var left := rows.Keys;
    UpsertNone(defs, rows);
    assert rows.Keys - left == {};
    while left != {}
      invariant left <= rows.Keys && result == Upserted(defs, rows, rows.Keys - left)
      invariant UniqueNames(defs) ==> UniqueNames(result)
      decreases left
    {
      var id :| id in left;
      if NamesKept(rows, defs) && UniqueNames(rows) {
        NameIsFreeForUpsert(defs, rows, rows.Keys - left, id);
      }
      if Taken(result, rows[id].name, Some(id)) {
        return false, result;
      }
      UpsertOneMore(defs, rows, rows.Keys - left, id);
      if UniqueNames(result) {
        UpsertKeepsUnique(result, id, rows[id]);
      }
      result := result[id := rows[id]];
      assert rows.Keys - left + {id} == rows.Keys - (left - {id});
      left := left - {id};
    }
    assert rows.Keys - left == rows.Keys;
    ok := true;
  }

  function Restrict<V>(m: map<Id, V>, keys: set<Id>): map<Id, V> {
    map id | id in m && id in keys :: m[id]
  }

  function HistoryOf(history: map<nat, Id>, automations: set<Id>): map<nat, Id> {
    map h | h in history && history[h] in automations :: history[h]
  }

  /** The identifiers of a snapshot were handed out by the store. */
  predicate TakenFrom(snapshot: Tables, nextId: Id) {
    && (forall id | id in snapshot.conditions :: id < nextId)
    && (forall id | id in snapshot.actions :: id < nextId)
    && (forall id | id in snapshot.automations :: id < nextId)
  }

  /** What the restoring transaction leaves, given the two upserted definition tables. */
  function Rebuilt(t: Tables, snapshot: Tables, conditions: Defs, actions: Defs): Tables {
    var automations := Restrict(t.automations, snapshot.automations.Keys);
    var events := Restrict(t.events, automations.Keys);
    Tables(Restrict(conditions, snapshot.conditions.Keys), Restrict(actions, snapshot.actions.Keys),
           automations + snapshot.automations, events - snapshot.automations.Keys + snapshot.events,
           HistoryOf(t.history, automations.Keys))
  }

  lemma Overwritten<V>(m: map<Id, V>, rows: map<Id, V>)
    ensures Restrict(m + rows, rows.Keys) == rows
    ensures Restrict(m, rows.Keys) + rows == rows
  {
  }

  lemma EventsReplaced(events: map<Id, string>, automations: Rows, snapshot: Tables)
    requires automations.Keys <= snapshot.automations.Keys
    ensures Restrict(events, automations.Keys) - snapshot.automations.Keys + snapshot.events == snapshot.events
  {
    assert Restrict(events, automations.Keys) - snapshot.automations.Keys == map[];
  }

  lemma HistoryOfOld(history: map<nat, Id>, automations: Rows, keys: set<Id>)
    requires HistoryOwned(history, automations.Keys)
    ensures HistoryOf(history, Restrict(automations, keys).Keys) == HistoryOf(history, keys)
  {
  }

  lemma RebuiltIsTheSnapshot(t: Tables, snapshot: Tables)
    ensures var r := Rebuilt(t, snapshot, t.conditions + snapshot.conditions, t.actions + snapshot.actions);
      && r == snapshot.(history := r.history)
      && (Referential(t) ==> r.history == HistoryOf(t.history, snapshot.automations.Keys))
  {
    hide HistoryOf, HistoryOwned;
    Overwritten(t.automations, snapshot.automations);
    Overwritten(t.conditions, snapshot.conditions);
    Overwritten(t.actions, snapshot.actions);
    EventsReplaced(t.events, Restrict(t.automations, snapshot.automations.Keys), snapshot);
    if Referential(t) {
      HistoryOfOld(t.history, t.automations, snapshot.automations.Keys);
    }
  }

  /** One transaction. From every state the import can leave, it restores the four tables
      to the snapshot and deletes no history but that of automations the import added. */
  method Restore(store: DefinitionStore, snapshot: Tables) returns (ok: bool)
    requires store.Valid()
    requires TakenFrom(snapshot, store.nextId)
    modifies store
    ensures store.Valid()
    ensures !ok ==> store.Contents() == old(store.Contents())
    ensures Recoverable(snapshot, old(store.Contents())) ==> ok
    ensures ok && Referential(old(store.Contents())) ==>
      store.Contents() == snapshot.(history := HistoryOf(old(store.history), snapshot.automations.Keys))
  {
    hide NamesKept, UniqueNames, Restrict, HistoryOf, Referential;
    var automations := Restrict(store.automations, snapshot.automations.Keys);
    var events := Restrict(store.events, automations.Keys);
    var history := HistoryOf(store.history, automations.Keys);
    var conditions, actions;
    ok, conditions := UpsertDefinitions(store.conditions, snapshot.conditions);
    if !ok {
      return;
    }
    ok, actions := UpsertDefinitions(store.actions, snapshot.actions);
    if !ok {
      return;
    }
    RebuiltIsTheSnapshot(store.Contents(), snapshot);
    store.automations := automations + snapshot.automations;
    store.conditions := Restrict(conditions, snapshot.conditions.Keys);
    store.actions := Restrict(actions, snapshot.actions.Keys);
    events := events - snapshot.automations.Keys;
    store.events, store.history := events + snapshot.events, history;
    assert store.Contents() == Rebuilt(old(store.Contents()), snapshot, conditions, actions);
  }

  // ----- the import -----

  /** Looks a name up among the existing ones, in any case. */
  method Find(names: map<Id, string>, name: string) returns (r: Option<Id>)
    ensures r.Some? ==> r.value in names && Fold(names[r.value]) == Fold(name)
    ensures r.None? ==> forall id | id in names :: Fold(names[id]) != Fold(name)
  {
    var left := names.Keys;
    while left != {}
      invariant left <= names.Keys
      invariant forall id | id in names.Keys - left :: Fold(names[id]) != Fold(name)
      decreases left
    {
      var id :| id in left;
      left := left - {id};
      if Fold(names[id]) == Fold(name) {
        return Some(id);
      }
    }
    return None;
  }

  predicate Holding(d: Definition, r: Record) {
    !r.Automation? && d.name == r.name && d.typeId == r.typeId && d.config == r.config
  }

  /** Every record is there, under the identifier `ids` gives; what the records do not
      name is as it was; and what is new is named by a record. */
  predicate Merged(before: Defs, after: Defs, records: seq<Record>, ids: IdMap) {
    && (forall r | r in records :: r.name in ids && ids[r.name] in after && Holding(after[ids[r.name]], r))
    && (forall name | name in ids :: exists r :: r in records && r.name == name)
    && (forall id | id in before :: id in after && (Unnamed(before[id].name, records) ==> after[id] == before[id]))
    && (forall id | id in after && id !in before :: !Unnamed(after[id].name, records))
  }

  predicate Unnamed(name: string, records: seq<Record>) {
    forall r | r in records :: Fold(r.name) != Fold(name)
  }

  /** Records of one kind as validation leaves them. */
  predicate Clean(records: seq<Record>) {
    && (forall k | 0 <= k < |records| ::
          !records[k].Automation? && Collapse(records[k].name) == records[k].name && NameOk(records[k].name))
    && (forall i, j | 0 <= i < j < |records| :: Fold(records[i].name) != Fold(records[j].name))
  }

  lemma UnnamedMore(name: string, records: seq<Record>, r: Record)
    ensures Unnamed(name, records + [r]) <==> Unnamed(name, records) && Fold(r.name) != Fold(name)
  {
    assert r in records + [r] && forall s | s in records :: s in records + [r];
  }

  lemma NamedApart(name: string, records: seq<Record>, s: Record)
    requires Unnamed(name, records) && s in records
    ensures Fold(s.name) != Fold(name)
  {
  }

  lemma NamesStayKept(before: Defs, defs: Defs, r: Record, id: Id, now: Time)
    requires NamesKept(before, defs) && Collapse(r.name) == r.name && !r.Automation?
    requires id in before ==> Fold(before[id].name) == Fold(r.name)
    requires forall other | other in defs && other != id :: Fold(defs[other].name) != Fold(r.name)
    ensures NamesKept(before, Saved(defs, id, r.name, r.typeId, r.config, now))
  {
  }

  lemma MergeOneMore(before: Defs, defs: Defs, records: seq<Record>, ids: IdMap,
                     r: Record, id: Id, now: Time)
    requires Merged(before, defs, records, ids) && before.Keys <= defs.Keys
    requires !r.Automation? && Collapse(r.name) == r.name && Unnamed(r.name, records)
    requires if id in before then Fold(before[id].name) == Fold(r.name) else id !in defs
    requires id in defs ==> Fold(defs[id].name) == Fold(r.name)
    requires forall other | other in defs && other != id :: Fold(defs[other].name) != Fold(r.name)
    ensures var defs' := Saved(defs, id, r.name, r.typeId, r.config, now);
      Merged(before, defs', records + [r], ids[r.name := id])
  {
    hide Unnamed;
    var defs', records', ids' := Saved(defs, id, r.name, r.typeId, r.config, now), records + [r], ids[r.name := id];
    forall s | s in records'
      ensures s.name in ids' && ids'[s.name] in defs' && Holding(defs'[ids'[s.name]], s)
    {
      if s in records {
        NamedApart(r.name, records, s);
        assert Holding(defs[ids[s.name]], s);
      }
    }
    forall name | name in ids'
      ensures exists s :: s in records' && s.name == name
    {
      if name == r.name {
        assert r in records';
      } else {
        var s :| s in records && s.name == name;
        assert s in records';
      }
    }
    forall other | other in before
      ensures other in defs' && (Unnamed(before[other].name, records') ==> defs'[other] == before[other])
    {
      UnnamedMore(before[other].name, records, r);
    }
    forall other | other in defs' && other !in before
      ensures !Unnamed(defs'[other].name, records')
    {
      UnnamedMore(defs'[other].name, records, r);
    }
  }

  lemma NothingMerged(before: Defs)
    ensures Merged(before, before, [], map[])
  {
  }

  lemma NextIsUnnamed(records: seq<Record>, k: nat)
    requires Clean(records) && k < |records|
    ensures Unnamed(records[k].name, records[..k])
    ensures !records[k].Automation? && Collapse(records[k].name) == records[k].name && NameOk(records[k].name)
  {
  }

  /** A record can be saved under the definition its name was found at. */
  lemma NextIsSavable(before: Defs, defs: Defs, records: seq<Record>, ids: IdMap, r: Record,
                      existing: map<Id, string>, own: Option<Id>)
    requires NamesKept(before, defs) && Merged(before, defs, records, ids) && existing == Names(before)
    requires Unnamed(r.name, records) && Collapse(r.name) == r.name && NameOk(r.name)
    requires own.Some? ==> own.value in existing && Fold(existing[own.value]) == Fold(r.name)
    requires own.None? ==> forall id | id in existing :: Fold(existing[id]) != Fold(r.name)
    ensures Savable(defs, r.name, own)
    ensures forall other | other in defs && own != Some(other) :: Fold(defs[other].name) != Fold(r.name)
  {
    forall id | id in defs && Fold(defs[id].name) == Fold(r.name)
      ensures own == Some(id)
    {
      assert id !in before ==> !Unnamed(defs[id].name, records);
      assert id in existing && existing[id] == before[id].name;
    }
  }

  /** What looking a name up among the definitions of the snapshot says about those there now. */
  lemma FoundInBoth(snapshot: Defs, defs: Defs, existing: map<Id, string>, name: string, own: Option<Id>)
    requires NamesKept(snapshot, defs) && existing == Names(snapshot)
    requires own.Some? ==> own.value in existing && Fold(existing[own.value]) == Fold(name)
    requires own.None? ==> forall id | id in existing :: Fold(existing[id]) != Fold(name)
    ensures if own.Some? then own.value in snapshot && Fold(snapshot[own.value].name) == Fold(name)
                              && own.value in defs && Fold(defs[own.value].name) == Fold(name)
            else forall id | id in snapshot :: Fold(snapshot[id].name) != Fold(name)
    ensures snapshot.Keys <= defs.Keys
  {
    forall id | id in snapshot
      ensures id in existing && existing[id] == snapshot[id].name
    {
    }
  }

  /** Saves one source of a backup over the one of the same name. */
  method SaveSourceOver(store: DefinitionStore, ghost snapshot: Tables, records: seq<Record>, k: nat,
                        existing: map<Id, string>, ghost ids: IdMap, now: Time)
    returns (id: Id)
    requires store.Valid() && Recoverable(snapshot, store.Contents()) && Clean(records) && k < |records|
    requires existing == Names(snapshot.conditions) && Merged(snapshot.conditions, store.conditions, records[..k], ids)
    modifies store
    ensures store.Valid() && Recoverable(snapshot, store.Contents())
    ensures store.history == old(store.history) && store.actions == old(store.actions)
    ensures DesignKept(old(store.automations), store.automations) && RestKept(old(store.automations), store.automations)
    ensures Merged(snapshot.conditions, store.conditions, records[..k + 1], ids[records[k].name := id])
    ensures NamesSound(old(store.conditions)) ==> NamesSound(store.conditions)
    ensures old(SourceUsersRest(snapshot.conditions, store.automations, records[..k])) ==>
      SourceUsersRest(snapshot.conditions, store.automations, records[..k + 1])
  {
    hide Merged, Unnamed, Clean, UniqueNames, DesignKept, NamesSound, Savable, SourceUsersRest, ActionUsersRest, RestKept;
    hide UsesAction, SwitchedOff, OneSaved, NameIsUnused, OnlySwitchedOff, NamesKept, PauseUsers, Saved, Fold, HistoryOwned;
    var r := records[k];
    NextIsUnnamed(records, k);
    var own := Find(existing, r.name);
    ghost var before, rows := store.conditions, store.automations;
    ghost var users := if own.Some? then ConditionUsers(rows, own.value) else {};
    FoundInBoth(snapshot.conditions, before, existing, r.name, own);
    NextIsSavable(snapshot.conditions, before, records[..k], ids, r, existing, own);
    var saved := store.SaveCondition(r.name, r.typeId, r.config, own, now);
    id := saved.value;
    if NamesSound(before) {
      SavingKeepsNamesSound(before, id, r.name, r.typeId, r.config, now, own);
    }
    PausingKeepsDesign(rows, users, now);
    PausedRest(rows, users, now);
    RestStays(rows, rows, rows);
    if SourceUsersRest(snapshot.conditions, rows, records[..k]) {
      SourceUsersRestNow(snapshot.conditions, rows, records[..k], r, own, now);
    }
    DesignHasSameKeys(rows, store.automations);
    NamesStayKept(snapshot.conditions, before, r, id, now);
    MergeOneMore(snapshot.conditions, before, records[..k], ids, r, id, now);
    assert records[..k + 1] == records[..k] + [r];
  }

  /** Saves the sources of a backup over those of the same name, unless something outside
      fails before they are all saved: `outage` is the number of saves that go through. */
  method ImportSources(store: DefinitionStore, ghost snapshot: Tables, records: seq<Record>, outage: nat,
                       operators: bool, now: Time)
    returns (ok: bool, ids: IdMap)
    requires store.Valid() && Recoverable(snapshot, store.Contents()) && store.conditions == snapshot.conditions
    requires Clean(records)
    modifies store
    ensures store.Valid() && Recoverable(snapshot, store.Contents())
    ensures HistoryKept(old(store.history), store.history) && store.actions == old(store.actions)
    ensures DesignKept(old(store.automations), store.automations)
    ensures ok ==> Merged(snapshot.conditions, store.conditions, records, ids)
    ensures ok <==> |records| <= outage
    ensures NamesSound(snapshot.conditions) ==> NamesSound(store.conditions)
    ensures ok && !operators ==> SourceUsersRest(snapshot.conditions, store.automations, records)
    ensures !operators ==> RestKept(old(store.automations), store.automations)
  {
    hide Merged, Clean, UniqueNames, NamesKept, DesignKept, NamesSound, SourceUsersRest, ActionUsersRest, RestKept, Referential;
    PausingKeepsDesign(store.automations, {}, now);
    assert records[..0] == [];
    var existing := Names(store.conditions);
    ok, ids := true, map[];
    NothingMerged(store.conditions);
    NoneNamed(store.conditions, store.actions, store.automations);
    RestStays(store.automations, store.automations, store.automations);
    for k := 0 to |records|
      invariant store.Valid() && Recoverable(snapshot, store.Contents())
      invariant HistoryKept(old(store.history), store.history) && store.actions == old(store.actions)
      invariant DesignKept(old(store.automations), store.automations)
      invariant Merged(snapshot.conditions, store.conditions, records[..k], ids)
      invariant !operators ==> SourceUsersRest(snapshot.conditions, store.automations, records[..k])
      invariant !operators ==> RestKept(old(store.automations), store.automations)
      invariant k <= outage && (NamesSound(snapshot.conditions) ==> NamesSound(store.conditions))
    {
      ghost var rows0 := store.automations;
      OthersWrite(store, snapshot, operators);
      ghost var rows := store.automations;
      DesignsStay(old(store.automations), rows0, rows);
      if !operators {
        RestsStay(snapshot.conditions, snapshot.actions, rows0, rows, records[..k], records[..k], []);
        RestStays(old(store.automations), rows0, rows);
      }
      if k == outage {
        return false, ids;
      }
      var r := records[k];
      rows0 := store.automations;
      var id := SaveSourceOver(store, snapshot, records, k, existing, ids, now);
      DesignsStay(old(store.automations), rows0, store.automations);
      RestStays(old(store.automations), rows0, store.automations);
      ids := ids[r.name := id];
    }
    assert records[..|records|] == records;
  }

  /** Saves one action of a backup over the one of the same name. */
  method SaveActionOver(store: DefinitionStore, ghost snapshot: Tables, records: seq<Record>, k: nat,
                        existing: map<Id, string>, ghost ids: IdMap, now: Time)
    returns (id: Id)
    requires store.Valid() && Recoverable(snapshot, store.Contents()) && Clean(records) && k < |records|
    requires existing == Names(snapshot.actions) && Merged(snapshot.actions, store.actions, records[..k], ids)
    modifies store
    ensures store.Valid() && Recoverable(snapshot, store.Contents())
    ensures store.history == old(store.history) && store.conditions == old(store.conditions)
    ensures DesignKept(old(store.automations), store.automations) && RestKept(old(store.automations), store.automations)
    ensures Merged(snapshot.actions, store.actions, records[..k + 1], ids[records[k].name := id])
    ensures NamesSound(old(store.actions)) ==> NamesSound(store.actions)
    ensures old(ActionUsersRest(snapshot.actions, store.automations, records[..k])) ==>
      ActionUsersRest(snapshot.actions, store.automations, records[..k + 1])
  {
    hide Merged, Unnamed, Clean, UniqueNames, DesignKept, NamesSound, Savable, SourceUsersRest, ActionUsersRest, RestKept;
    hide UsesAction, SwitchedOff, OneSaved, NameIsUnused, OnlySwitchedOff, NamesKept, PauseUsers, Saved, Fold, HistoryOwned;
    var r := records[k];
    NextIsUnnamed(records, k);
    var own := Find(existing, r.name);
    ghost var before, rows := store.actions, store.automations;
    ghost var users := if own.Some? then ActionUsers(rows, own.value) else {};
    FoundInBoth(snapshot.actions, before, existing, r.name, own);
    NextIsSavable(snapshot.actions, before, records[..k], ids, r, existing, own);
    var saved := store.SaveAction(r.name, r.typeId, r.config, own, now);
    id := saved.value;
    if NamesSound(before) {
      SavingKeepsNamesSound(before, id, r.name, r.typeId, r.config, now, own);
    }
    PausingKeepsDesign(rows, users, now);
    PausedRest(rows, users, now);
    RestStays(rows, rows, rows);
    if ActionUsersRest(snapshot.actions, rows, records[..k]) {
      ActionUsersRestNow(snapshot.actions, rows, records[..k], r, own, now);
    }
    DesignHasSameKeys(rows, store.automations);
    NamesStayKept(snapshot.actions, before, r, id, now);
    MergeOneMore(snapshot.actions, before, records[..k], ids, r, id, now);
    assert records[..k + 1] == records[..k] + [r];
  }

  /** Saves the actions of a backup over those of the same name, unless something outside
      fails before. */
  method ImportActions(store: DefinitionStore, ghost snapshot: Tables, records: seq<Record>, outage: nat,
                       operators: bool, now: Time)
    returns (ok: bool, ids: IdMap)
    requires store.Valid() && Recoverable(snapshot, store.Contents()) && store.actions == snapshot.actions
    requires Clean(records)
    modifies store
    ensures store.Valid() && Recoverable(snapshot, store.Contents())
    ensures HistoryKept(old(store.history), store.history) && store.conditions == old(store.conditions)
    ensures DesignKept(old(store.automations), store.automations)
    ensures ok ==> Merged(snapshot.actions, store.actions, records, ids)
    ensures ok <==> |records| <= outage
    ensures NamesSound(snapshot.actions) ==> NamesSound(store.actions)
    ensures ok && !operators ==> ActionUsersRest(snapshot.actions, store.automations, records)
    ensures !operators ==> RestKept(old(store.automations), store.automations)
  {
    hide Merged, Clean, UniqueNames, NamesKept, DesignKept, NamesSound, SourceUsersRest, ActionUsersRest, RestKept, Referential;
    PausingKeepsDesign(store.automations, {}, now);
    assert records[..0] == [];
    var existing := Names(store.actions);
    ok, ids := true, map[];
    NothingMerged(store.actions);
    NoneNamed(store.conditions, store.actions, store.automations);
    RestStays(store.automations, store.automations, store.automations);
    for k := 0 to |records|
      invariant store.Valid() && Recoverable(snapshot, store.Contents())
      invariant HistoryKept(old(store.history), store.history) && store.conditions == old(store.conditions)
      invariant DesignKept(old(store.automations), store.automations)
      invariant Merged(snapshot.actions, store.actions, records[..k], ids)
      invariant !operators ==> ActionUsersRest(snapshot.actions, store.automations, records[..k])
      invariant !operators ==> RestKept(old(store.automations), store.automations)
      invariant k <= outage && (NamesSound(snapshot.actions) ==> NamesSound(store.actions))
    {
      ghost var rows0 := store.automations;
      OthersWrite(store, snapshot, operators);
      ghost var rows := store.automations;
      DesignsStay(old(store.automations), rows0, rows);
      if !operators {
        RestsStay(snapshot.conditions, snapshot.actions, rows0, rows, records[..k], records[..k], []);
        RestStays(old(store.automations), rows0, rows);
      }
      if k == outage {
        return false, ids;
      }
      var r := records[k];
      rows0 := store.automations;
      var id := SaveActionOver(store, snapshot, records, k, existing, ids, now);
      DesignsStay(old(store.automations), rows0, store.automations);
      RestStays(old(store.automations), rows0, store.automations);
      ids := ids[r.name := id];
    }
    assert records[..|records|] == records;
  }

  function AutomationNames(rows: Rows): map<Id, string> {
    map id | id in rows :: rows[id].name
  }

  /** The identifiers lead to the definitions of those names. */
  predicate Linked(defs: Defs, ids: IdMap) {
    forall name | name in ids :: ids[name] in defs && defs[ids[name]].name == name
  }

  /** An automation record as validation leaves it. */
  predicate Exported(r: Record) {
    r.Automation? && NameOk(r.name) && Collapse(r.name) == r.name && Fixed(r.stages)
    && r.conditionNames != [] && Distinct(r.conditionNames)
  }

  predicate AllExported(records: seq<Record>) {
    && (forall k | 0 <= k < |records| :: Exported(records[k]))
    && (forall i, j | 0 <= i < j < |records| :: Fold(records[i].name) != Fold(records[j].name))
  }

  lemma FoundAreCalled(defs: Defs, ids: IdMap, names: seq<string>)
    requires Linked(defs, ids) && forall name | name in names :: name in ids
    ensures Called(defs, Resolve(names, ids), names)
  {
    forall k | 0 <= k < |names|
      ensures names[k] in ids
    {
      assert names[k] in names;
    }
    ResolveAll(names, ids);
  }

  /** What is saved for a record is exported as that record. */
  lemma SavedIsTheRecord(conditions: Defs, actions: Defs, r: Record,
                         conditionIds: IdMap, actionIds: IdMap, runtime: Runtime, now: Time)
    requires Linked(conditions, conditionIds) && Linked(actions, actionIds) && Exported(r)
    requires (forall name | name in r.conditionNames :: name in conditionIds) && Mapped(r.stages, actionIds)
    ensures Normalized(MapRawAll(r.stages, actionIds), []).Ok?
    ensures var row := SavedRow(r.name, r.settings, Resolve(r.conditionNames, conditionIds), MapRawAll(r.stages, actionIds), runtime, now);
      row.name == r.name && AutomationRecord(conditions, actions, row) == r
  {
    var found, stages := Resolve(r.conditionNames, conditionIds), MapRawAll(r.stages, actionIds);
    FoundAreCalled(conditions, conditionIds, r.conditionNames);
    CalledAreDistinct(conditions, found, r.conditionNames);
    FixedStagesMap(r.stages, actionIds);
    assert forall name | name in actionIds :: actionIds[name] in Names(actions) && Names(actions)[actionIds[name]] == name;
    MapBack(r.stages, actionIds, Names(actions));
  }

  /** Every record is exported again from the row `ids` gives; a row no record names keeps
      its design; and what is new is named by a record. */
  ghost predicate RowsMerged(before: Rows, after: Rows, records: seq<Record>,
                             ids: IdMap, record: AutomationRow -> Record)
  {
    && (forall r | r in records :: r.name in ids && ids[r.name] in after && record(after[ids[r.name]]) == r)
    && (forall r | r in records && ids[r.name] in before :: Fold(before[ids[r.name]].name) == Fold(r.name))
    && (forall id | id in before :: id in after && (Unnamed(before[id].name, records) ==> SameDesign(before[id], after[id])))
    && (forall id | id in after && id !in before :: !Unnamed(after[id].name, records))
  }

  ghost predicate RespectsDesign(record: AutomationRow -> Record) {
    forall row, row' | SameDesign(row, row') :: record(row) == record(row')
  }

  lemma RowsStayMerged(before: Rows, after: Rows, after': Rows,
                       records: seq<Record>, ids: IdMap, record: AutomationRow -> Record)
    requires RowsMerged(before, after, records, ids, record) && DesignKept(after, after') && RespectsDesign(record)
    ensures RowsMerged(before, after', records, ids, record)
  {
    hide Unnamed;
    forall r | r in records
      ensures ids[r.name] in after' && record(after'[ids[r.name]]) == r
    {
      assert SameDesign(after[ids[r.name]], after'[ids[r.name]]);
    }
  }

  lemma RowsMergeOneMore(before: Rows, rows: Rows, records: seq<Record>, ids: IdMap,
                         record: AutomationRow -> Record, r: Record, id: Id, row: AutomationRow)
    requires RowsMerged(before, rows, records, ids, record)
    requires Unnamed(r.name, records) && record(row) == r && row.name == r.name
    requires if id in before then Fold(before[id].name) == Fold(r.name) else id !in rows
    ensures RowsMerged(before, rows[id := row], records + [r], ids[r.name := id], record)
  {
    hide Unnamed;
    var rows', records', ids' := rows[id := row], records + [r], ids[r.name := id];
    forall s | s in records'
      ensures s.name in ids' && ids'[s.name] in rows' && record(rows'[ids'[s.name]]) == s
      ensures ids'[s.name] in before ==> Fold(before[ids'[s.name]].name) == Fold(s.name)
    {
      if s in records {
        NamedApart(r.name, records, s);
      }
    }
    forall other | other in before
      ensures other in rows' && (Unnamed(before[other].name, records') ==> SameDesign(before[other], rows'[other]))
    {
      UnnamedMore(before[other].name, records, r);
    }
    forall other | other in rows' && other !in before
      ensures !Unnamed(rows'[other].name, records')
    {
      UnnamedMore(rows'[other].name, records, r);
    }
  }

  lemma NothingSaved(conditions: Defs, actions: Defs, rows: Rows, record: AutomationRow -> Record)
    ensures RowsMerged(rows, rows, [], map[], record) && RowNamesKept(rows, rows) && SavedSound(conditions, actions, rows, [], map[])
  {
  }

  lemma NextIsExported(records: seq<Record>, k: nat)
    requires AllExported(records) && k < |records|
    ensures Exported(records[k]) && Unnamed(records[k].name, records[..k])
  {
  }

  function RecordOf(conditions: Defs, actions: Defs): AutomationRow -> Record {
    (row: AutomationRow) => AutomationRecord(conditions, actions, row)
  }

  lemma RecordsRespectDesign(conditions: Defs, actions: Defs)
    ensures RespectsDesign(RecordOf(conditions, actions))
  {
  }

  /** The record names only what has been saved, and what it asks for passes the checks of
      saving. */
  predicate Importable(conditions: Defs, actions: Defs, conditionIds: IdMap, actionIds: IdMap, r: Record) {
    && r.Automation?
    && (forall name | name in r.conditionNames :: name in conditionIds) && Mapped(r.stages, actionIds)
    && PartsOk(conditions, actions, r.name, r.settings, Resolve(r.conditionNames, conditionIds), MapRawAll(r.stages, actionIds))
  }

  /** Only the one automation that had the name may have it. */
  predicate NameIsOpen(rows: Rows, existing: map<Id, string>, name: string) {
    && (forall i, j | i in existing && j in existing && Fold(existing[i]) == Fold(name) && Fold(existing[j]) == Fold(name) :: i == j)
    && (forall id | id in rows && Fold(rows[id].name) == Fold(name) :: id in existing && Fold(existing[id]) == Fold(name))
  }

  lemma OpenNameIsFree(rows: Rows, existing: map<Id, string>, name: string, own: Option<Id>)
    requires NameIsOpen(rows, existing, name)
    requires if own.Some? then own.value in existing && Fold(existing[own.value]) == Fold(name)
             else forall id | id in existing :: Fold(existing[id]) != Fold(name)
    ensures !TakenByAutomation(rows, name, own)
  {
  }

  lemma OpenIsSavable(t: Tables, existing: map<Id, string>, conditionIds: IdMap, actionIds: IdMap, r: Record, own: Option<Id>)
    requires Importable(t.conditions, t.actions, conditionIds, actionIds, r) && Collapse(r.name) == r.name
    requires NameIsOpen(t.automations, existing, r.name) && existing.Keys <= t.automations.Keys
    requires if own.Some? then own.value in existing && Fold(existing[own.value]) == Fold(r.name)
             else forall id | id in existing :: Fold(existing[id]) != Fold(r.name)
    ensures SavableAutomation(t, r.name, r.settings, Resolve(r.conditionNames, conditionIds), MapRawAll(r.stages, actionIds), own)
  {
    hide PartsOk, NameIsOpen, TakenByAutomation, Mapped;
    OpenNameIsFree(t.automations, existing, r.name, own);
  }

  lemma SavableIsFree(t: Tables, r: Record, ids: seq<Id>, stages: seq<RawStage<Id>>, own: Option<Id>)
    requires r.Automation? && SavableAutomation(t, r.name, r.settings, ids, stages, own) && Collapse(r.name) == r.name
    ensures PartsOk(t.conditions, t.actions, r.name, r.settings, ids, stages) && !TakenByAutomation(t.automations, r.name, own)
  {
    hide PartsOk, TakenByAutomation;
  }

  lemma ImportableIsNamed(conditions: Defs, actions: Defs, conditionIds: IdMap, actionIds: IdMap, r: Record)
    requires Importable(conditions, actions, conditionIds, actionIds, r)
    ensures r.Automation? && (forall name | name in r.conditionNames :: name in conditionIds) && Mapped(r.stages, actionIds)
  {
  }

  lemma UniqueNamesStay(rows: Rows, id: Id, row: AutomationRow, own: Option<Id>)
    requires AutomationNamesUnique(rows) && !TakenByAutomation(rows, row.name, own)
    requires if own.Some? then own == Some(id) else id !in rows
    ensures AutomationNamesUnique(rows[id := row])
  {
  }

  /** What importing an automation finds before it saves it. */
  lemma BeforeSave(t: Tables, existing: map<Id, string>, conditionIds: IdMap, actionIds: IdMap, r: Record,
                   own: Option<Id>, runtime: Runtime, now: Time)
    requires existing.Keys <= t.automations.Keys
    requires if own.Some? then own.value in existing && Fold(existing[own.value]) == Fold(r.name)
             else forall id | id in existing :: Fold(existing[id]) != Fold(r.name)
    requires Linked(t.conditions, conditionIds) && Linked(t.actions, actionIds) && Exported(r)
    ensures Importable(t.conditions, t.actions, conditionIds, actionIds, r) ==>
      (forall name | name in r.conditionNames :: name in conditionIds) && Mapped(r.stages, actionIds)
    ensures (forall name | name in r.conditionNames :: name in conditionIds) && Mapped(r.stages, actionIds) ==>
      && Normalized(MapRawAll(r.stages, actionIds), []).Ok?
      && var row := SavedRow(r.name, r.settings, Resolve(r.conditionNames, conditionIds), MapRawAll(r.stages, actionIds), runtime, now);
         row.name == r.name && AutomationRecord(t.conditions, t.actions, row) == r
    ensures Importable(t.conditions, t.actions, conditionIds, actionIds, r) && NameIsOpen(t.automations, existing, r.name) ==>
      SavableAutomation(t, r.name, r.settings, Resolve(r.conditionNames, conditionIds), MapRawAll(r.stages, actionIds), own)
  {
    hide PartsOk, Linked, Exported, AutomationRecord, Normalized, Fold, NameIsOpen, TakenByAutomation;
    hide SavableAutomation, Importable, Mapped, Resolve, MapRawAll, SavedRow;
    IsAutomation(r);
    if Importable(t.conditions, t.actions, conditionIds, actionIds, r) {
      ImportableIsNamed(t.conditions, t.actions, conditionIds, actionIds, r);
    }
    if (forall name | name in r.conditionNames :: name in conditionIds) && Mapped(r.stages, actionIds) {
      SavedIsTheRecord(t.conditions, t.actions, r, conditionIds, actionIds, runtime, now);
    }
    if Importable(t.conditions, t.actions, conditionIds, actionIds, r) && NameIsOpen(t.automations, existing, r.name) {
      OpenIsSavable(t, existing, conditionIds, actionIds, r, own);
    }
  }

  /** Saves one automation record over the one of the same name. */
  method ImportAutomation(store: DefinitionStore, ghost snapshot: Tables, existing: map<Id, string>, r: Record,
                          conditionIds: IdMap, actionIds: IdMap, now: Time)
    returns (ok: bool, ghost id: Id, ghost row: AutomationRow)
    requires store.Valid() && Recoverable(snapshot, store.Contents()) && existing.Keys <= store.automations.Keys
    requires Linked(store.conditions, conditionIds) && Linked(store.actions, actionIds) && Exported(r)
    modifies store
    ensures store.Valid() && Recoverable(snapshot, store.Contents())
    ensures store.history == old(store.history)
    ensures store.conditions == old(store.conditions) && store.actions == old(store.actions)
    ensures existing.Keys <= store.automations.Keys
    ensures ok ==> store.automations == old(store.automations)[id := row]
    ensures ok ==> row.name == r.name && RecordOf(store.conditions, store.actions)(row) == r
    ensures ok ==> if id in existing then Fold(existing[id]) == Fold(r.name) else id !in old(store.automations)
    ensures ok ==> RowSound(store.conditions, store.actions, row)
    ensures ok ==> Resting(row) && forall other | other in old(store.automations) && other != id :: Fold(old(store.automations)[other].name) != Fold(r.name)
    ensures ok && AutomationNamesUnique(old(store.automations)) ==> AutomationNamesUnique(store.automations)
    ensures Importable(store.conditions, store.actions, conditionIds, actionIds, r) && NameIsOpen(old(store.automations), existing, r.name) ==> ok
    ensures !ok ==> store.automations == old(store.automations)
  {
    hide PartsOk, Linked, Exported, AutomationRecord, Recoverable, Normalized, Fold, RowSound, NameIsOpen, AutomationNamesUnique, TakenByAutomation;
    hide SavableAutomation, Importable, Mapped, Resolve, MapRawAll, SavedRow, Paused, PassesChecks, OneAutomationSaved, DesignIs, PastIs, Resting;
    ok, id, row := false, 0, NO_ROW;
    IsAutomation(r);
    ghost var before := store.Contents();
    var own := Find(existing, r.name);
    ghost var runtime := if own.Some? then Paused(store.automations[own.value], now).runtime else NEW_RUNTIME;
    BeforeSave(before, existing, conditionIds, actionIds, r, own, runtime, now);
    if !(forall name | name in r.conditionNames :: name in conditionIds) || !Mapped(r.stages, actionIds) {
      return;
    }
    var saved := store.SaveAutomation(r.name, r.settings, Resolve(r.conditionNames, conditionIds),
                                      MapRawAll(r.stages, actionIds), own, now);
    ok := saved.Some?;
    if ok {
      id, row := saved.value, store.automations[saved.value];
      AfterSave(snapshot, before, r, Resolve(r.conditionNames, conditionIds), MapRawAll(r.stages, actionIds), own, id, row, runtime, now);
    }
  }

  /** What a save leaves, for one automation of a backup. */
  lemma AfterSave(snapshot: Tables, t: Tables, r: Record, found: seq<Id>, stages: seq<RawStage<Id>>, own: Option<Id>,
                  id: Id, row: AutomationRow, runtime: Runtime, now: Time)
    requires Recoverable(snapshot, t) && r.Automation? && Collapse(r.name) == r.name
    requires SavableAutomation(t, r.name, r.settings, found, stages, own) && Normalized(stages, []).Ok?
    requires row == SavedRow(r.name, r.settings, found, stages, runtime, now) && row.name == r.name
    requires if own.Some? then own == Some(id) else id !in t.automations
    requires OneAutomationSaved(t.automations, t.automations[id := row], id, now)
    ensures Recoverable(snapshot, t.(automations := t.automations[id := row],
                                     events := if own.Some? then t.events - {id} else t.events))
    ensures RowSound(t.conditions, t.actions, row) && Resting(row)
    ensures forall other | other in t.automations && other != id :: Fold(t.automations[other].name) != Fold(r.name)
    ensures AutomationNamesUnique(t.automations) ==> AutomationNamesUnique(t.automations[id := row])
  {
    hide PartsOk, Recoverable, RowSound, AutomationNamesUnique, TakenByAutomation, SavableAutomation, SavedRow, OneAutomationSaved, Normalized, Fold, Resting, Collapse;
    StillRecoverable(snapshot, t, id, row, own.Some?);
    SavableIsFree(t, r, found, stages, own);
    NameWasFree(t.automations, r.name, own, id);
    SavedRests(t.automations, t.automations[id := row], id, now);
    SavedRowIsSound(t.conditions, t.actions, r.name, r.settings, found, stages, runtime, now);
    if AutomationNamesUnique(t.automations) {
      UniqueNamesStay(t.automations, id, row, own);
    }
  }

  lemma SavedRests(was: Rows, rows: Rows, id: Id, now: Time)
    requires OneAutomationSaved(was, rows, id, now)
    ensures id in rows && Resting(rows[id])
  {
  }

  lemma NameWasFree(rows: Rows, name: string, own: Option<Id>, id: Id)
    requires !TakenByAutomation(rows, name, own)
    requires if own.Some? then own == Some(id) else id !in rows
    ensures forall other | other in rows && other != id :: Fold(rows[other].name) != Fold(name)
  {
  }

  lemma IsAutomation(r: Record)
    requires Exported(r)
    ensures r.Automation? && Collapse(r.name) == r.name
  {
  }

  lemma StillRecoverable(snapshot: Tables, t: Tables, id: Id, row: AutomationRow, own: bool)
    requires Recoverable(snapshot, t)
    ensures Recoverable(snapshot, t.(automations := t.automations[id := row],
                                     events := if own then t.events - {id} else t.events))
  {
    hide NamesKept, UniqueNames;
  }

  /** Every automation is still there under its name, but for the case. */
  predicate RowNamesKept(before: Rows, after: Rows) {
    forall id | id in before :: id in after && Fold(after[id].name) == Fold(before[id].name)
  }

  lemma RowNamesStay(before: Rows, rows: Rows, rows': Rows)
    requires RowNamesKept(before, rows) && DesignKept(rows, rows')
    ensures RowNamesKept(before, rows') && (AutomationNamesUnique(rows) ==> AutomationNamesUnique(rows'))
  {
    if AutomationNamesUnique(rows) {
      SameNames(rows, rows');
    }
  }

  lemma RowNamesStayAfterSave(before: Rows, rows: Rows, id: Id, row: AutomationRow)
    requires RowNamesKept(before, rows) && if id in before then Fold(before[id].name) == Fold(row.name) else id !in rows
    ensures RowNamesKept(before, rows[id := row])
  {
  }

  lemma NextNameIsOpen(before: Rows, rows: Rows, records: seq<Record>, ids: IdMap, record: AutomationRow -> Record, name: string)
    requires AutomationNamesUnique(before) && RowNamesKept(before, rows)
    requires RowsMerged(before, rows, records, ids, record) && Unnamed(name, records)
    ensures NameIsOpen(rows, AutomationNames(before), name)
  {
    forall id | id in rows && Fold(rows[id].name) == Fold(name)
      ensures id in before
    {
      assert id !in before ==> !Unnamed(rows[id].name, records);
    }
  }

  /** What was saved for the records meets the checks of saving. */
  ghost predicate SavedSound(conditions: Defs, actions: Defs, rows: Rows, records: seq<Record>, ids: IdMap) {
    forall r | r in records :: r.name in ids && ids[r.name] in rows && RowSound(conditions, actions, rows[ids[r.name]])
  }

  lemma SavedStaySound(conditions: Defs, actions: Defs, rows: Rows, rows': Rows, records: seq<Record>, ids: IdMap)
    requires SavedSound(conditions, actions, rows, records, ids) && DesignKept(rows, rows')
    ensures SavedSound(conditions, actions, rows', records, ids)
  {
    forall r | r in records
      ensures RowSound(conditions, actions, rows'[ids[r.name]])
    {
      assert SameDesign(rows[ids[r.name]], rows'[ids[r.name]]);
    }
  }

  lemma SavedSoundOneMore(conditions: Defs, actions: Defs, rows: Rows, records: seq<Record>, ids: IdMap, r: Record, id: Id, row: AutomationRow)
    requires SavedSound(conditions, actions, rows, records, ids) && RowSound(conditions, actions, row) && Unnamed(r.name, records)
    ensures SavedSound(conditions, actions, rows[id := row], records + [r], ids[r.name := id])
  {
    hide RowSound;
    forall s | s in records + [r] && s in records
      ensures s.name != r.name
    {
      NamedApart(r.name, records, s);
    }
  }

  predicate AllImportable(conditions: Defs, actions: Defs, conditionIds: IdMap, actionIds: IdMap, records: seq<Record>) {
    forall k | 0 <= k < |records| :: Importable(conditions, actions, conditionIds, actionIds, records[k])
  }

  /** Saves the automations of a backup over those of the same name, until one is refused
      or something outside fails. */
  method ImportAutomations(store: DefinitionStore, ghost snapshot: Tables, records: seq<Record>,
                           conditionIds: IdMap, actionIds: IdMap, ghost sources: seq<Record>, ghost wanted: seq<Record>,
                           outage: nat, operators: bool, now: Time)
    returns (ok: bool, ghost ids: IdMap)
    requires store.Valid() && Recoverable(snapshot, store.Contents()) && AllExported(records)
    requires Linked(store.conditions, conditionIds) && Linked(store.actions, actionIds)
    modifies store
    ensures store.Valid() && Recoverable(snapshot, store.Contents())
    ensures HistoryKept(old(store.history), store.history)
    ensures store.conditions == old(store.conditions) && store.actions == old(store.actions)
    ensures ok ==> RowsMerged(old(store.automations), store.automations, records, ids, RecordOf(store.conditions, store.actions))
    ensures ok ==> |records| <= outage && SavedSound(store.conditions, store.actions, store.automations, records, ids)
    ensures RowNamesKept(old(store.automations), store.automations)
    ensures AutomationNamesUnique(old(store.automations)) ==> AutomationNamesUnique(store.automations)
    ensures && AutomationNamesUnique(old(store.automations)) && |records| <= outage
            && AllImportable(store.conditions, store.actions, conditionIds, actionIds, records)
            ==> ok
    ensures ok && !operators ==> NamedRest(store.automations, records)
    ensures ok && !operators && SourceUsersRest(snapshot.conditions, old(store.automations), sources) ==>
      SourceUsersRest(snapshot.conditions, store.automations, sources)
    ensures ok && !operators && ActionUsersRest(snapshot.actions, old(store.automations), wanted) ==>
      ActionUsersRest(snapshot.actions, store.automations, wanted)
  {
    hide AllExported, Exported, Linked, RowsMerged, RecordOf, RespectsDesign, Unnamed, SameDesign, DesignKept;
    hide AutomationNamesUnique, RowNamesKept, SavedSound, RowSound, Importable, NameIsOpen, Recoverable, PartsOk;
    hide SourceUsersRest, ActionUsersRest, NamedRest, RestKept, Resting, Fold;
    var existing := AutomationNames(store.automations);
    ghost var rows, record := store.automations, RecordOf(store.conditions, store.actions);
    RecordsRespectDesign(store.conditions, store.actions);
    NothingSaved(store.conditions, store.actions, rows, record);
    NoneNamed(store.conditions, store.actions, rows);
    ok, ids := true, map[];
    for k := 0 to |records|
      invariant store.Valid() && Recoverable(snapshot, store.Contents()) && k <= outage
      invariant HistoryKept(old(store.history), store.history)
      invariant store.conditions == old(store.conditions) && store.actions == old(store.actions)
      invariant existing.Keys <= store.automations.Keys
      invariant RowsMerged(rows, store.automations, records[..k], ids, record)
      invariant RowNamesKept(rows, store.automations)
      invariant AutomationNamesUnique(rows) ==> AutomationNamesUnique(store.automations)
      invariant SavedSound(store.conditions, store.actions, store.automations, records[..k], ids)
      invariant !operators ==> NamedRest(store.automations, records[..k])
      invariant !operators && SourceUsersRest(snapshot.conditions, rows, sources) ==> SourceUsersRest(snapshot.conditions, store.automations, sources)
      invariant !operators && ActionUsersRest(snapshot.actions, rows, wanted) ==> ActionUsersRest(snapshot.actions, store.automations, wanted)
    {
      ghost var before := store.automations;
      OthersWrite(store, snapshot, operators);
      if !operators {
        RestsStay(snapshot.conditions, snapshot.actions, before, store.automations, sources, wanted, records[..k]);
      }
      RowsStayMerged(rows, before, store.automations, records[..k], ids, record);
      RowNamesStay(rows, before, store.automations);
      SavedStaySound(store.conditions, store.actions, before, store.automations, records[..k], ids);
      if k == outage {
        return false, ids;
      }
      NextIsExported(records, k);
      ghost var id, row;
      before := store.automations;
      if AutomationNamesUnique(rows) {
        NextNameIsOpen(rows, before, records[..k], ids, record, records[k].name);
      }
      ok, id, row := ImportAutomation(store, snapshot, existing, records[k], conditionIds, actionIds, now);
      if !ok {
        return;
      }
      RowsMergeOneMore(rows, before, records[..k], ids, record, records[k], id, row);
      RowNamesStayAfterSave(rows, before, id, row);
      RestsAfterSave(snapshot.conditions, snapshot.actions, before, sources, wanted, records[..k], records[k], id, row);
      SavedSoundOneMore(store.conditions, store.actions, before, records[..k], ids, records[k], id, row);
      assert records[..k + 1] == records[..k] + [records[k]];
      ids := ids[records[k].name := id];
    }
    assert records[..|records|] == records;
    ok := true;
  }

  /** The records of each kind, in their order. */
  method ByKind(records: seq<Record>) returns (sources: seq<Record>, actions: seq<Record>, automations: seq<Record>)
    requires Distinct(records)
    ensures Distinct(sources) && Distinct(actions) && Distinct(automations)
    ensures forall r :: r in sources <==> r in records && r.Source?
    ensures forall r :: r in actions <==> r in records && r.Action?
    ensures forall r :: r in automations <==> r in records && r.Automation?
    ensures |sources| + |actions| + |automations| == |records|
  {
    sources, actions, automations := [], [], [];
    for k := 0 to |records|
      invariant |sources| + |actions| + |automations| == k
      invariant Distinct(sources) && Distinct(actions) && Distinct(automations)
      invariant forall r :: r in sources <==> r in records[..k] && r.Source?
      invariant forall r :: r in actions <==> r in records[..k] && r.Action?
      invariant forall r :: r in automations <==> r in records[..k] && r.Automation?
    {
      assert records[k] !in records[..k];
      assert records[..k + 1] == records[..k] + [records[k]];
      match records[k]
      case Source(_, _, _) => sources := sources + [records[k]];
      case Action(_, _, _) => actions := actions + [records[k]];
      case Automation(_, _, _, _) => automations := automations + [records[k]];
    }
    assert records[..|records|] == records;
  }

  lemma ViewsAreClean(view: set<Record>, records: seq<Record>)
    requires WellFormed(view) && Distinct(records)
    requires forall k | 0 <= k < |records| :: records[k] in view && !records[k].Automation? && SameKind(records[k], records[0])
    ensures Clean(records)
  {
    hide Complete;
    forall i, j | 0 <= i < j < |records|
      ensures Fold(records[i].name) != Fold(records[j].name)
    {
      assert SameKind(records[i], records[j]);
    }
  }

  lemma ViewsAreExported(view: set<Record>, records: seq<Record>)
    requires WellFormed(view) && Distinct(records)
    requires forall k | 0 <= k < |records| :: records[k] in view && records[k].Automation?
    ensures AllExported(records)
  {
    forall k | 0 <= k < |records|
      ensures Exported(records[k])
    {
      assert Complete(view, records[k]);
    }
    forall i, j | 0 <= i < j < |records|
      ensures Fold(records[i].name) != Fold(records[j].name)
    {
      assert SameKind(records[i], records[j]);
    }
  }

  lemma MergedIsLinked(before: Defs, after: Defs, records: seq<Record>, ids: IdMap)
    requires Merged(before, after, records, ids)
    ensures Linked(after, ids)
  {
    forall name | name in ids
      ensures ids[name] in after && after[ids[name]].name == name
    {
      var r :| r in records && r.name == name;
      assert Holding(after[ids[r.name]], r);
    }
  }

  /** An automation of a well-formed backup passes the checks of saving, once the sources
      and actions are saved. */
  lemma RecordIsImportable(before: Tables, conditions: Defs, actions: Defs, view: set<Record>,
                           sources: seq<Record>, wanted: seq<Record>, conditionIds: IdMap, actionIds: IdMap, r: Record)
    requires WellFormed(view) && r in view && r.Automation?
    requires Merged(before.conditions, conditions, sources, conditionIds) && Merged(before.actions, actions, wanted, actionIds)
    requires (forall s :: s in sources <==> s in view && s.Source?) && (forall s :: s in wanted <==> s in view && s.Action?)
    ensures Importable(conditions, actions, conditionIds, actionIds, r)
  {
    hide Merged, Fixed, SettingsOk, Normalized;
    assert Complete(view, r);
    NamedAreSaved(before, conditions, actions, view, sources, wanted, conditionIds, actionIds, r);
    MergedIsLinked(before.conditions, conditions, sources, conditionIds);
    MergedIsLinked(before.actions, actions, wanted, actionIds);
    ConditionsAreOk(before, conditions, view, sources, conditionIds, r);
    StagesAreOk(actions, actionIds, r.stages);
  }

  lemma NamedAreSaved(before: Tables, conditions: Defs, actions: Defs, view: set<Record>,
                      sources: seq<Record>, wanted: seq<Record>, conditionIds: IdMap, actionIds: IdMap, r: Record)
    requires r.Automation? && Complete(view, r)
    requires Merged(before.conditions, conditions, sources, conditionIds) && Merged(before.actions, actions, wanted, actionIds)
    requires (forall s :: s in sources <==> s in view && s.Source?) && (forall s :: s in wanted <==> s in view && s.Action?)
    ensures (forall name | name in r.conditionNames :: name in conditionIds) && Mapped(r.stages, actionIds)
  {
    hide Fixed, SettingsOk;
    forall name | name in r.conditionNames
      ensures name in conditionIds
    {
      assert HasSource(view, name);
    }
    forall k, n | 0 <= k < |r.stages| && 0 <= n < |r.stages[k].actions|
      ensures r.stages[k].actions[n].Some? && r.stages[k].actions[n].value in actionIds
    {
      assert HasAction(view, r.stages[k].actions[n].value);
    }
  }

  lemma ConditionsAreOk(before: Tables, conditions: Defs, view: set<Record>, sources: seq<Record>, conditionIds: IdMap, r: Record)
    requires r.Automation? && Complete(view, r) && Linked(conditions, conditionIds)
    requires Merged(before.conditions, conditions, sources, conditionIds)
    requires forall s :: s in sources <==> s in view && s.Source?
    requires forall name | name in r.conditionNames :: name in conditionIds
    ensures ConditionsOk(conditions, Deduped(Resolve(r.conditionNames, conditionIds)))
  {
    hide Fixed, SettingsOk, Merged, Linked, Complete, Resolve, Deduped;
    var found := Resolve(r.conditionNames, conditionIds);
    FoundAreCalled(conditions, conditionIds, r.conditionNames);
    assert 1 <= |r.conditionNames| <= 10 && Distinct(r.conditionNames) by {
      FewDistinctNames(view, r);
    }
    CalledAreDistinct(conditions, found, r.conditionNames);
    ResolveAll(r.conditionNames, conditionIds);
    forall id | id in found
      ensures id in conditions && (conditions[id].typeId in TRIGGERS ==> |found| == 1)
    {
      var k :| 0 <= k < |found| && found[k] == id;
      TypeOfSource(before, conditions, view, sources, conditionIds, r, k);
    }
  }

  lemma FewDistinctNames(view: set<Record>, r: Record)
    requires r.Automation? && Complete(view, r)
    ensures 1 <= |r.conditionNames| <= 10 && Distinct(r.conditionNames)
  {
    hide Fixed, SettingsOk;
  }

  lemma TypeOfSource(before: Tables, conditions: Defs, view: set<Record>, sources: seq<Record>, conditionIds: IdMap, r: Record, k: nat)
    requires r.Automation? && Complete(view, r) && k < |r.conditionNames|
    requires Merged(before.conditions, conditions, sources, conditionIds)
    requires forall s :: s in sources <==> s in view && s.Source?
    ensures r.conditionNames[k] in conditionIds && conditionIds[r.conditionNames[k]] in conditions
    ensures conditions[conditionIds[r.conditionNames[k]]].typeId in TRIGGERS ==> |r.conditionNames| == 1
  {
    hide Fixed, SettingsOk;
    var name := r.conditionNames[k];
    assert name in r.conditionNames && HasSource(view, name);
    var s :| s in view && s.Source? && s.name == name;
    assert s in sources && Holding(conditions[conditionIds[s.name]], s);
  }

  lemma StagesAreOk(actions: Defs, actionIds: IdMap, stages: seq<RawStage<string>>)
    requires Fixed(stages) && Mapped(stages, actionIds) && Linked(actions, actionIds)
    ensures StagesOk(actions, MapRawAll(stages, actionIds))
  {
    FixedStagesMap(stages, actionIds);
    MappedIdsExist(stages, actionIds, actions.Keys);
  }

  lemma RecordsAreImportable(before: Tables, conditions: Defs, actions: Defs, records: seq<Record>, sources: seq<Record>,
                             wanted: seq<Record>, automations: seq<Record>, conditionIds: IdMap, actionIds: IdMap)
    requires WellFormed(SetOf(records))
    requires Merged(before.conditions, conditions, sources, conditionIds) && Merged(before.actions, actions, wanted, actionIds)
    requires (forall s :: s in sources <==> s in records && s.Source?) && (forall s :: s in wanted <==> s in records && s.Action?)
    requires forall s :: s in automations <==> s in records && s.Automation?
    ensures AllImportable(conditions, actions, conditionIds, actionIds, automations)
  {
    hide WellFormed, Merged, Importable;
    forall k | 0 <= k < |automations|
      ensures Importable(conditions, actions, conditionIds, actionIds, automations[k])
    {
      assert automations[k] in automations;
      RecordIsImportable(before, conditions, actions, SetOf(records), sources, wanted, conditionIds, actionIds, automations[k]);
    }
  }

  lemma {:induction false} DistinctSize(records: seq<Record>)
    requires Distinct(records)
    ensures |SetOf(records)| == |records|
  {
    if records != [] {
      var n := |records| - 1;
      DistinctSize(records[..n]);
      assert records == records[..n] + [records[n]];
      assert SetOf(records) == SetOf(records[..n]) + {records[n]};
    }
  }

  // ----- when the combined store still meets the checks of saving -----

  /** A record makes one of several conditions of the automation a trigger. */
  ghost predicate RowMixes(conditions: Defs, row: AutomationRow, records: seq<Record>) {
    && |row.conditionIds| > 1
    && exists c, r :: c in row.conditionIds && c in conditions && r in records && r.Source? && r.typeId in TRIGGERS
                      && Fold(r.name) == Fold(conditions[c].name)
  }

  /** The backup does that to an automation it does not bring along. */
  ghost predicate MixesTriggers(before: Tables, records: seq<Record>) {
    exists a :: a in before.automations && !NamedByAutomation(before.automations[a].name, records)
                && RowMixes(before.conditions, before.automations[a], records)
  }

  lemma TypeOfNamed(before: Defs, after: Defs, sources: seq<Record>, ids: IdMap, c: Id, r: Record)
    requires NamesKept(before, after) && Merged(before, after, sources, ids)
    requires c in before && r in sources && Fold(r.name) == Fold(before[c].name)
    ensures after[c].typeId == r.typeId
  {
    assert Holding(after[ids[r.name]], r) && ids[r.name] == c;
  }

  lemma KeptRowIsSoundUnlessMixed(before: Tables, after: Tables, records: seq<Record>, sources: seq<Record>, ids: IdMap,
                                  row: AutomationRow, row': AutomationRow)
    requires RowSound(before.conditions, before.actions, row) && SameDesign(row, row')
    requires NamesKept(before.conditions, after.conditions) && Merged(before.conditions, after.conditions, sources, ids)
    requires before.actions.Keys <= after.actions.Keys
    requires forall s :: s in sources <==> s in records && s.Source?
    ensures RowSound(after.conditions, after.actions, row') <==> !RowMixes(before.conditions, row, records)
  {
    hide Merged, NamesKept, Normalized;
    assert StagesOk(after.actions, row'.stages);
    forall c | c in row.conditionIds
      ensures c in after.conditions
      ensures |row.conditionIds| > 1 ==>
        (after.conditions[c].typeId in TRIGGERS
         <==> exists r :: r in records && r.Source? && r.typeId in TRIGGERS && Fold(r.name) == Fold(before.conditions[c].name))
    {
      TriggerAfter(before.conditions, after.conditions, sources, records, ids, c);
    }
  }

  lemma TriggerAfter(before: Defs, after: Defs, sources: seq<Record>, records: seq<Record>, ids: IdMap, c: Id)
    requires NamesKept(before, after) && Merged(before, after, sources, ids) && c in before
    requires forall s :: s in sources <==> s in records && s.Source?
    ensures c in after
    ensures before[c].typeId !in TRIGGERS ==>
      (after[c].typeId in TRIGGERS
       <==> exists r :: r in records && r.Source? && r.typeId in TRIGGERS && Fold(r.name) == Fold(before[c].name))
  {
    if r :| r in sources && Fold(r.name) == Fold(before[c].name) {
      TypeOfNamed(before, after, sources, ids, c, r);
      forall q | q in records && q.Source? && Fold(q.name) == Fold(before[c].name)
        ensures q.typeId == after[c].typeId
      {
        assert q in sources;
        TypeOfNamed(before, after, sources, ids, c, q);
      }
    } else {
      assert Unnamed(before[c].name, sources);
    }
  }

  lemma SavedRowsAreSound(conditions: Defs, actions: Defs, rows: Rows, after: Rows, records: seq<Record>, ids: IdMap, id: Id)
    requires RowsMerged(rows, after, records, ids, RecordOf(conditions, actions))
    requires SavedSound(conditions, actions, after, records, ids) && AutomationNamesUnique(after)
    requires id in after && !Unnamed(after[id].name, records)
    ensures RowSound(conditions, actions, after[id])
  {
    hide RowSound;
    var r :| r in records && Fold(r.name) == Fold(after[id].name);
    assert AutomationRecord(conditions, actions, after[ids[r.name]]) == r;
    assert ids[r.name] == id;
  }

  /** What is known of a combined store, however the rows were written. */
  ghost predicate Combination(before: Tables, after: Tables, rows: Rows, sources: seq<Record>, automations: seq<Record>,
                              conditionIds: IdMap, ids: IdMap)
  {
    && NamesSound(after.conditions) && NamesSound(after.actions) && AutomationNamesUnique(after.automations)
    && NamesKept(before.conditions, after.conditions) && NamesKept(before.actions, after.actions)
    && Merged(before.conditions, after.conditions, sources, conditionIds)
    && DesignKept(before.automations, rows) && RowNamesKept(rows, after.automations)
    && RowsMerged(rows, after.automations, automations, ids, RecordOf(after.conditions, after.actions))
    && SavedSound(after.conditions, after.actions, after.automations, automations, ids)
  }

  lemma CombinedRowIsSound(before: Tables, after: Tables, rows: Rows, records: seq<Record>, sources: seq<Record>,
                           automations: seq<Record>, conditionIds: IdMap, ids: IdMap, id: Id)
    requires Sound(before) && Combination(before, after, rows, sources, automations, conditionIds, ids)
    requires forall s :: s in sources <==> s in records && s.Source?
    requires (forall s :: s in automations <==> s in records && s.Automation?) && id in after.automations
    ensures RowSound(after.conditions, after.actions, after.automations[id]) <==>
      !(id in before.automations && !NamedByAutomation(before.automations[id].name, records)
        && RowMixes(before.conditions, before.automations[id], records))
  {
    hide RowSound, RowMixes, Merged, NamesKept, NamesSound, SavedSound, AutomationNamesUnique, RecordOf;
    if id in before.automations && Unnamed(rows[id].name, automations) {
      assert RowSound(before.conditions, before.actions, before.automations[id]);
      assert SameDesign(before.automations[id], rows[id]) && SameDesign(rows[id], after.automations[id]);
      ActionsStay(before.actions, after.actions);
      KeptRowIsSoundUnlessMixed(before, after, records, sources, conditionIds, before.automations[id], after.automations[id]);
    } else {
      SavedRowsAreSound(after.conditions, after.actions, rows, after.automations, automations, ids, id);
    }
  }

  lemma ActionsStay(before: Defs, after: Defs)
    requires NamesKept(before, after)
    ensures before.Keys <= after.Keys
  {
  }

  /** Combining a backup into a store that meets the checks of saving keeps it so if and
      only if the backup makes no condition a trigger that stands beside others in an
      automation it does not bring along. */
  lemma CombinedIsSoundUnlessMixed(before: Tables, after: Tables, rows: Rows, records: seq<Record>, sources: seq<Record>,
                                   automations: seq<Record>, conditionIds: IdMap, ids: IdMap)
    requires Sound(before) && Combination(before, after, rows, sources, automations, conditionIds, ids)
    requires forall s :: s in sources <==> s in records && s.Source?
    requires forall s :: s in automations <==> s in records && s.Automation?
    ensures Sound(after) <==> !MixesTriggers(before, records)
  {
    forall id | id in after.automations
      ensures RowSound(after.conditions, after.actions, after.automations[id]) <==>
        !(id in before.automations && !NamedByAutomation(before.automations[id].name, records)
          && RowMixes(before.conditions, before.automations[id], records))
    {
      CombinedRowIsSound(before, after, rows, records, sources, automations, conditionIds, ids, id);
    }
    hide RowSound, RowMixes, Merged, NamesKept, NamesSound, SavedSound, AutomationNamesUnique, RecordOf, RowsMerged, NamedByAutomation;
    assert forall id | id in before.automations :: id in rows && id in after.automations;
  }

  /** Imports the backup into a store of its own, and lists what that store exports. */
  method Validate(records: seq<Record>, now: Time) returns (ok: bool, validated: seq<Record>)
    ensures ok ==> Distinct(validated) && WellFormed(SetOf(validated))
    ensures Distinct(records) && WellFormed(SetOf(records)) ==> ok && SetOf(validated) == SetOf(records)
  {
    var scratch := new DefinitionStore();
    ok := ReplaceAll(scratch, records, now);
    validated := Export(scratch);
    ViewsAreWellFormed(scratch.Contents());
    assert SetOf(validated) == View(scratch.Contents());
  }

  /** The Combine import: only what passed validation is saved. */
  method Import(store: DefinitionStore, ghost snapshot: Tables, records: seq<Record>, outage: nat,
                operators: bool, now: Time)
    returns (ok: bool, validated: seq<Record>)
    requires store.Valid() && Recoverable(snapshot, store.Contents())
    requires store.conditions == snapshot.conditions && store.actions == snapshot.actions
    modifies store
    ensures store.Valid() && Recoverable(snapshot, store.Contents())
    ensures HistoryKept(old(store.history), store.history)
    ensures Distinct(records) && WellFormed(SetOf(records)) ==> SetOf(validated) == SetOf(records)
    ensures ok ==> |validated| <= outage
    ensures Distinct(records) && WellFormed(SetOf(records)) && AutomationNamesUnique(old(store.automations)) ==> (ok <==> |records| <= outage)
    ensures ok ==> SetOf(validated) <= View(store.Contents()) && AutomationsDescribed(store.Contents(), validated)
    ensures ok ==> Combined(snapshot.conditions, store.conditions, validated, true)
    ensures ok ==> Combined(snapshot.actions, store.actions, validated, false)
    ensures ok ==> RowsCombined(old(store.automations), store.automations, validated)
    ensures ok && Sound(old(store.Contents())) ==> (Sound(store.Contents()) <==> !MixesTriggers(old(store.Contents()), validated))
    ensures ok && !operators ==> TouchedRest(snapshot.conditions, snapshot.actions, store.automations, validated)
  {
    hide WellFormed, Merged, Combined, Clean, AllExported, Recoverable, Linked, RowsMerged, RowsCombined, RecordOf, View, DesignKept;
    hide Sound, MixesTriggers, Combination, NamesSound, AutomationNamesUnique, RowNamesKept, SavedSound, AllImportable;
    hide SourceUsersRest, ActionUsersRest, NamedRest, RestKept, TouchedRest, AutomationsDescribed;
    ghost var before := store.Contents();
    ok, validated := Validate(records, now);
    if !ok {
      return;
    }
    SameSize(records, validated);
    var sources, actions, automations := ByKind(validated);
    ViewsAreClean(SetOf(validated), sources);
    ViewsAreClean(SetOf(validated), actions);
    ViewsAreExported(SetOf(validated), automations);
    var conditionIds: IdMap, actionIds: IdMap;
    ok, conditionIds := ImportSources(store, snapshot, sources, outage, operators, now);
    if !ok {
      return;
    }
    ghost var rowsBetween := store.automations;
    ok, actionIds := ImportActions(store, snapshot, actions, outage - |sources|, operators, now);
    if !ok {
      return;
    }
    ghost var rows := store.automations;
    DesignsStay(before.automations, rowsBetween, rows);
    if !operators {
      RestsStay(snapshot.conditions, snapshot.actions, rowsBetween, rows, sources, actions, []);
    }
    NamesOfDesigns(before.automations, rows);
    MergedIsLinked(snapshot.conditions, store.conditions, sources, conditionIds);
    MergedIsLinked(snapshot.actions, store.actions, actions, actionIds);
    RecordsAreImportable(before, store.conditions, store.actions, validated, sources, actions, automations, conditionIds, actionIds);
    ghost var ids;
    ok, ids := ImportAutomations(store, snapshot, automations, conditionIds, actionIds, sources, actions,
                                   outage - |sources| - |actions|, operators, now);
    if ok {
      ItIsCombined(snapshot, before, store.Contents(), rows, validated, sources, actions, automations, conditionIds, actionIds, ids);
      if !operators {
        TouchedAreResting(snapshot.conditions, snapshot.actions, store.automations, validated, sources, actions, automations);
      }
    }
  }

  lemma SameSize(records: seq<Record>, validated: seq<Record>)
    requires Distinct(validated) && (Distinct(records) && WellFormed(SetOf(records)) ==> SetOf(validated) == SetOf(records))
    ensures Distinct(records) && WellFormed(SetOf(records)) ==> |validated| == |records|
  {
    hide WellFormed;
    if Distinct(records) && WellFormed(SetOf(records)) {
      DistinctSize(records);
      DistinctSize(validated);
    }
  }

  lemma NamesOfDesigns(before: Rows, rows: Rows)
    requires DesignKept(before, rows)
    ensures AutomationNamesUnique(before) ==> AutomationNamesUnique(rows)
  {
    if AutomationNamesUnique(before) {
      SameNames(before, rows);
    }
  }

  /** What the three phases have ensured, put together. */
  lemma ItIsCombined(snapshot: Tables, before: Tables, t: Tables, rows: Rows, records: seq<Record>, sources: seq<Record>,
                     actions: seq<Record>, automations: seq<Record>, conditionIds: IdMap, actionIds: IdMap, ids: IdMap)
    requires before.conditions == snapshot.conditions && before.actions == snapshot.actions && Recoverable(snapshot, t)
    requires Merged(snapshot.conditions, t.conditions, sources, conditionIds) && Merged(snapshot.actions, t.actions, actions, actionIds)
    requires NamesSound(before.conditions) ==> NamesSound(t.conditions)
    requires NamesSound(before.actions) ==> NamesSound(t.actions)
    requires DesignKept(before.automations, rows) && RowNamesKept(rows, t.automations)
    requires AutomationNamesUnique(rows) ==> AutomationNamesUnique(t.automations)
    requires RowsMerged(rows, t.automations, automations, ids, RecordOf(t.conditions, t.actions))
    requires SavedSound(t.conditions, t.actions, t.automations, automations, ids)
    requires (forall r :: r in sources <==> r in records && r.Source?) && (forall r :: r in actions <==> r in records && r.Action?)
    requires forall r :: r in automations <==> r in records && r.Automation?
    ensures Combined(snapshot.conditions, t.conditions, records, true) && Combined(snapshot.actions, t.actions, records, false)
    ensures RowsCombined(before.automations, t.automations, records) && SetOf(records) <= View(t)
    ensures AutomationsDescribed(t, records)
    ensures Sound(before) ==> (Sound(t) <==> !MixesTriggers(before, records))
  {
    hide Merged, Combined, RowsMerged, RowsCombined, RecordOf, View, DesignKept, MixesTriggers, NamesSound, AutomationNamesUnique;
    hide RowNamesKept, SavedSound, NamesKept, RowSound, AutomationsDescribed;
    MergedIsCombined(snapshot.conditions, t.conditions, records, sources, conditionIds, true);
    MergedIsCombined(snapshot.actions, t.actions, records, actions, actionIds, false);
    RowsAreCombined(before.automations, rows, t.automations, records, automations, ids, RecordOf(t.conditions, t.actions));
    AllAreExported(snapshot, t, rows, records, automations, ids);
    AllAreDescribed(t, rows, records, automations, ids);
    NamesOfDesigns(before.automations, rows);
    if Sound(before) {
      CombinedIsSoundUnlessMixed(before, t, rows, records, sources, automations, conditionIds, ids);
    }
  }

  /** Every automation record describes an automation of the store. */
  ghost predicate AutomationsDescribed(t: Tables, records: seq<Record>) {
    forall r | r in records && r.Automation? :: exists a :: a in t.automations && Describes(t, t.automations[a], r)
  }

  lemma AllAreDescribed(t: Tables, rows: Rows, records: seq<Record>, automations: seq<Record>, ids: IdMap)
    requires RowsMerged(rows, t.automations, automations, ids, RecordOf(t.conditions, t.actions))
    requires SavedSound(t.conditions, t.actions, t.automations, automations, ids)
    requires forall r :: r in automations <==> r in records && r.Automation?
    ensures AutomationsDescribed(t, records)
  {
    hide Describes, AutomationRecord, RowSound;
    forall r | r in records && r.Automation?
      ensures exists a :: a in t.automations && Describes(t, t.automations[a], r)
    {
      assert r in automations;
      RecordsDescribeRows(t, t.automations[ids[r.name]]);
    }
  }

  ghost predicate NamedByAutomation(name: string, records: seq<Record>) {
    exists r :: r in records && r.Automation? && Fold(r.name) == Fold(name)
  }

  /** Every automation is still there, one that no record names has kept its design, and
      one that is new is named by a record. */
  ghost predicate RowsCombined(before: Rows, after: Rows, records: seq<Record>) {
    && (forall id | id in before ::
          id in after && (SameDesign(before[id], after[id]) || NamedByAutomation(before[id].name, records)))
    && (forall id | id in after && id !in before :: NamedByAutomation(after[id].name, records))
  }

  lemma RowsAreCombined(start: Rows, before: Rows, after: Rows,
                        records: seq<Record>, automations: seq<Record>, ids: IdMap, record: AutomationRow -> Record)
    requires DesignKept(start, before) && RowsMerged(before, after, automations, ids, record)
    requires forall r :: r in automations <==> r in records && r.Automation?
    ensures RowsCombined(start, after, records)
  {
    hide Unnamed, NamedByAutomation;
    forall id | id in start
      ensures id in after && (SameDesign(start[id], after[id]) || NamedByAutomation(start[id].name, records))
    {
      assert SameDesign(start[id], before[id]);
      if !Unnamed(before[id].name, automations) {
        NamedAmongAutomations(before[id].name, records, automations);
      }
    }
    forall id | id in after && id !in start
      ensures NamedByAutomation(after[id].name, records)
    {
      NamedAmongAutomations(after[id].name, records, automations);
    }
  }

  lemma NamedAmongAutomations(name: string, records: seq<Record>, automations: seq<Record>)
    requires !Unnamed(name, automations) && forall r | r in automations :: r in records && r.Automation?
    ensures NamedByAutomation(name, records)
  {
  }

  lemma AllAreExported(snapshot: Tables, t: Tables, rows: Rows, records: seq<Record>, automations: seq<Record>,
                       ids: IdMap)
    requires Combined(snapshot.conditions, t.conditions, records, true) && Combined(snapshot.actions, t.actions, records, false)
    requires RowsMerged(rows, t.automations, automations, ids, RecordOf(t.conditions, t.actions))
    requires forall r :: r in automations <==> r in records && r.Automation?
    ensures SetOf(records) <= View(t)
  {
    hide AutomationRecord;
    forall r | r in records
      ensures r in View(t)
    {
      match r
      case Source(_, _, _) =>
        var id :| id in t.conditions && Holding(t.conditions[id], r);
        assert SourceRecord(t.conditions[id]) == r;
      case Action(_, _, _) =>
        var id :| id in t.actions && Holding(t.actions[id], r);
        assert ActionRecord(t.actions[id]) == r;
      case Automation(_, _, _, _) =>
        assert r in automations;
        assert AutomationRecord(t.conditions, t.actions, t.automations[ids[r.name]]) == r;
    }
  }

  predicate OfKind(r: Record, sources: bool) { if sources then r.Source? else r.Action? }

  /** The table holds every record of its kind, and a definition no record names is as it
      was; a record and a definition of the same name are the same definition. */
  ghost predicate Combined(before: Defs, after: Defs, records: seq<Record>, sources: bool) {
    && (forall r | r in records && OfKind(r, sources) :: exists id :: id in after && Holding(after[id], r))
    && (forall id | id in before :: id in after)
    && (forall id | id in before && after[id] != before[id] ::
          exists r :: r in records && OfKind(r, sources) && Fold(r.name) == Fold(before[id].name))
    && (forall id | id in after && id !in before ::
          exists r :: r in records && OfKind(r, sources) && Fold(r.name) == Fold(after[id].name))
  }

  lemma MergedIsCombined(before: Defs, after: Defs, records: seq<Record>, kind: seq<Record>,
                         ids: IdMap, sources: bool)
    requires Merged(before, after, kind, ids)
    requires forall r :: r in kind <==> r in records && OfKind(r, sources)
    ensures Combined(before, after, records, sources)
  {
    forall r | r in records && OfKind(r, sources)
      ensures exists id :: id in after && Holding(after[id], r)
    {
      assert r in kind && Holding(after[ids[r.name]], r);
    }
    forall id | id in before && after[id] != before[id]
      ensures exists r :: r in records && OfKind(r, sources) && Fold(r.name) == Fold(before[id].name)
    {
      var r :| r in kind && Fold(r.name) == Fold(before[id].name);
      assert r in records;
    }
    forall id | id in after && id !in before
      ensures exists r :: r in records && OfKind(r, sources) && Fold(r.name) == Fold(after[id].name)
    {
      var r :| r in kind && Fold(r.name) == Fold(after[id].name);
      assert r in records;
    }
  }

  predicate NamedIn(name: string, records: seq<Record>, sources: bool) {
    exists r | r in records :: OfKind(r, sources) && Fold(r.name) == Fold(name)
  }

  /** An automation the records were saved as, or one that uses a definition they were
      saved over, is switched off and awaits nothing. */
  ghost predicate TouchedRest(conditions: Defs, actions: Defs, rows: Rows, records: seq<Record>) {
    && (forall a | a in rows && NamedByAutomation(rows[a].name, records) :: Resting(rows[a]))
    && (forall a, c | a in rows && c in rows[a].conditionIds && c in conditions && NamedIn(conditions[c].name, records, true) ::
          Resting(rows[a]))
    && (forall a, x | a in rows && x in actions && UsesAction(rows[a], x) && NamedIn(actions[x].name, records, false) ::
          Resting(rows[a]))
  }

  lemma TouchedAreResting(conditions: Defs, actions: Defs, rows: Rows, records: seq<Record>,
                          sources: seq<Record>, wanted: seq<Record>, automations: seq<Record>)
    requires SourceUsersRest(conditions, rows, sources) && ActionUsersRest(actions, rows, wanted) && NamedRest(rows, automations)
    requires (forall r :: r in sources <==> r in records && r.Source?) && (forall r :: r in wanted <==> r in records && r.Action?)
    requires forall r :: r in automations <==> r in records && r.Automation?
    ensures TouchedRest(conditions, actions, rows, records)
  {
    hide UsesAction, Resting;
    forall name: string
      ensures NamedByAutomation(name, records) ==> !Unnamed(name, automations)
      ensures NamedIn(name, records, true) ==> !Unnamed(name, sources)
      ensures NamedIn(name, records, false) ==> !Unnamed(name, wanted)
    {
    }
  }

  /** The import as it is run: with a snapshot, and back to it whenever it fails. */
  method Combine(store: DefinitionStore, records: seq<Record>, outage: nat, operators: bool, now: Time)
    returns (ok: bool, validated: seq<Record>)
    requires store.Valid() && Referential(store.Contents())
    requires UniqueNames(store.conditions) && UniqueNames(store.actions)
    modifies store
    ensures store.Valid() && HistoryKept(old(store.history), store.history)
    ensures !ok ==> store.conditions == old(store.conditions) && store.actions == old(store.actions)
    ensures !ok ==> store.automations == old(store.automations) && store.events == old(store.events)
    ensures ok ==> SetOf(validated) <= View(store.Contents()) && AutomationsDescribed(store.Contents(), validated)
    ensures Distinct(records) && WellFormed(SetOf(records)) ==> SetOf(validated) == SetOf(records)
    ensures Distinct(records) && WellFormed(SetOf(records)) && AutomationNamesUnique(old(store.automations)) ==> (ok <==> |records| <= outage)
    ensures ok && Sound(old(store.Contents())) ==> (Sound(store.Contents()) <==> !MixesTriggers(old(store.Contents()), validated))
    ensures ok ==> Combined(old(store.conditions), store.conditions, validated, true)
    ensures ok ==> Combined(old(store.actions), store.actions, validated, false)
    ensures ok ==> RowsCombined(old(store.automations), store.automations, validated)
    ensures ok && !operators ==> TouchedRest(old(store.conditions), old(store.actions), store.automations, validated)
  {
    var snapshot := store.Contents();
    ok, validated := Import(store, snapshot, records, outage, operators, now);
    if !ok {
      var restored := Restore(store, snapshot);
    }
  }
}
