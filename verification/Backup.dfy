/** Exporting the definitions of an automation store and importing them into another. */
module Backup {
  import opened Common
  import opened Stages
  import opened Definitions

  /** The records of a backup; they refer to each other by name. */
  datatype Record =
    | Source(name: string, typeId: string, config: string)
    | Action(name: string, typeId: string, config: string)
    | Automation(name: string, settings: Settings, conditionNames: seq<string>, stages: seq<RawStage<string>>)

  /** Type and configuration of the definitions of each name. */
  type Wanted = map<string, (string, string)>

  /** The identifiers saved under each name. */
  type IdMap = map<string, Id>

  function Names(defs: Defs): map<Id, string> {
    map id | id in defs :: defs[id].name
  }

  /** Renames what the map knows. */
  function Resolve<A(==), B>(xs: seq<A>, m: map<A, B>): seq<B> {
    if xs == [] then [] else (if xs[0] in m then [m[xs[0]]] else []) + Resolve(xs[1..], m)
  }

  lemma {:induction false} ResolveAll<A, B>(xs: seq<A>, m: map<A, B>)
    requires forall k | 0 <= k < |xs| :: xs[k] in m
    ensures |Resolve(xs, m)| == |xs| && forall k | 0 <= k < |xs| :: Resolve(xs, m)[k] == m[xs[k]]
  {
    if xs != [] {
      assert forall k | 0 <= k < |xs[1..]| :: xs[1..][k] == xs[k + 1];
      ResolveAll(xs[1..], m);
    }
  }

  function SourceRecord(d: Definition): Record { Source(d.name, d.typeId, d.config) }

  function ActionRecord(d: Definition): Record { Action(d.name, d.typeId, d.config) }

  /** The name under which an automation exports when none of its conditions is left. */
  const LEGACY := "Legacy condition"

  function ConditionNames(conditions: Defs, ids: seq<Id>): seq<string> {
    var names := Resolve(ids, Names(conditions));
    if names == [] then [LEGACY] else names
  }

  lemma {:induction false} ResolvedNames(ids: seq<Id>, m: map<Id, string>)
    ensures forall name :: name in Resolve(ids, m) <==> exists id :: id in ids && id in m && m[id] == name
    ensures (forall id | id in ids :: id !in m) ==> Resolve(ids, m) == []
  {
    if ids != [] {
      ResolvedNames(ids[1..], m);
      assert forall id :: id in ids <==> id == ids[0] || id in ids[1..];
    }
  }

  /** Of its conditions an automation exports the names of those that are left, and one
      stand-in when none is. */
  lemma LostConditionsExportAsOne(conditions: Defs, ids: seq<Id>)
    ensures var left := set id | id in ids && id in conditions;
      && (left == {} ==> ConditionNames(conditions, ids) == ["Legacy condition"])
      && (left != {} ==> forall name :: name in ConditionNames(conditions, ids) <==> exists id :: id in left && conditions[id].name == name)
  {
    ResolvedNames(ids, Names(conditions));
    var left := set id | id in ids && id in conditions;
    if left == {} {
      forall id | id in ids ensures id !in Names(conditions) {
        assert id !in left;
      }
    } else {
      var id :| id in left;
      assert Names(conditions)[id] in Resolve(ids, Names(conditions));
    }
  }

  function AutomationRecord(conditions: Defs, actions: Defs, row: AutomationRow): Record {
    var stages := if Normalized(row.stages, []).Ok? then RawAll(Normalized(row.stages, []).stages) else [];
    Automation(row.name, row.settings, ConditionNames(conditions, row.conditionIds), MapRawAll(stages, Names(actions)))
  }

  function SourceRecords(t: Tables): set<Record> { set id | id in t.conditions :: SourceRecord(t.conditions[id]) }

  function ActionRecords(t: Tables): set<Record> { set id | id in t.actions :: ActionRecord(t.actions[id]) }

  function AutomationRecords(t: Tables): set<Record> { set id | id in t.automations :: AutomationRecord(t.conditions, t.actions, t.automations[id]) }

  /** All the definitions of a store, without identifiers, times and runtime state. */
  function View(t: Tables): set<Record> { SourceRecords(t) + ActionRecords(t) + AutomationRecords(t) }

  // ----- stores that meet the checks of the save operations -----

  predicate NamesSound(defs: Defs) {
    UniqueNames(defs) && forall id | id in defs :: Collapse(defs[id].name) == defs[id].name && NameOk(defs[id].name)
  }

  predicate RowSound(conditions: Defs, actions: Defs, row: AutomationRow) {
    && Collapse(row.name) == row.name && NameOk(row.name) && SettingsOk(row.settings)
    && Deduped(row.conditionIds) == row.conditionIds && ConditionsOk(conditions, row.conditionIds)
    && StagesOk(actions, row.stages)
  }

  predicate AutomationNamesUnique(automations: Rows) {
    forall i, j | i in automations && j in automations && Fold(automations[i].name) == Fold(automations[j].name) :: i == j
  }

  predicate Sound(t: Tables) {
    && NamesSound(t.conditions) && NamesSound(t.actions) && AutomationNamesUnique(t.automations)
    && forall id | id in t.automations :: RowSound(t.conditions, t.actions, t.automations[id])
  }

  /** A new condition, action or automation keeps a store sound. */
  lemma SavingKeepsNamesSound(defs: Defs, id: Id, name: string, typeId: string, config: string, now: Time,
                              own: Option<Id>)
    requires NamesSound(defs) && Savable(defs, name, own) && (own == Some(id) || (own.None? && id !in defs))
    ensures NamesSound(Saved(defs, id, name, typeId, config, now))
  {
    CollapseTwice(name);
    var defs' := Saved(defs, id, name, typeId, config, now);
    forall i, j | i in defs' && j in defs' && Fold(defs'[i].name) == Fold(defs'[j].name)
      ensures i == j
    {
      assert !Taken(defs, Collapse(name), own);
    }
  }

  lemma {:induction false} DedupedTwice(ids: seq<Id>)
    ensures Deduped(Deduped(ids)) == Deduped(ids)
  {
    DistinctStays(Deduped(ids));
  }

  predicate Distinct<A(==)>(xs: seq<A>) { forall i, j | 0 <= i < j < |xs| :: xs[i] != xs[j] }

  lemma {:induction false} DistinctStays(ids: seq<Id>)
    requires Distinct(ids)
    ensures Deduped(ids) == ids
  {
    if ids != [] {
      DistinctStays(ids[..|ids| - 1]);
      assert ids[|ids| - 1] !in ids[..|ids| - 1];
    }
  }

  /** Whatever passes the checks of saving is stored as a sound row. */
  lemma SavedRowIsSound(conditions: Defs, actions: Defs, name: string, settings: Settings,
                        conditionIds: seq<Id>, stages: seq<RawStage<Id>>, runtime: Runtime, now: Time)
    requires PartsOk(conditions, actions, name, settings, conditionIds, stages)
    ensures RowSound(conditions, actions, SavedRow(name, settings, conditionIds, stages, runtime, now))
  {
    CollapseTwice(name);
    DedupedTwice(conditionIds);
    NormalizingTwice(stages, [], []);
  }

  predicate RowsSound(conditions: Defs, actions: Defs, rows: Rows) {
    AutomationNamesUnique(rows) && forall a | a in rows :: RowSound(conditions, actions, rows[a])
  }

  lemma OneMoreSoundRow(conditions: Defs, actions: Defs, rows: Rows, id: Id, row: AutomationRow)
    requires RowsSound(conditions, actions, rows) && RowSound(conditions, actions, row)
    requires id !in rows && !TakenByAutomation(rows, row.name, None)
    ensures RowsSound(conditions, actions, rows[id := row])
  {
  }

  /** The tables after a condition was changed. */
  function ConditionChanged(t: Tables, id: Id, name: string, typeId: string, config: string, now: Time): Tables {
    t.(conditions := Saved(t.conditions, id, name, typeId, config, now),
       automations := PauseUsers(t.automations, ConditionUsers(t.automations, id), now))
  }

  lemma ConditionsAfterChange(defs: Defs, id: Id, name: string, typeId: string, config: string, now: Time,
                              ids: seq<Id>)
    requires id in defs && ConditionsOk(defs, ids)
    ensures ConditionsOk(Saved(defs, id, name, typeId, config, now), ids) <==> (typeId in TRIGGERS && id in ids ==> |ids| == 1)
  {
    var defs' := Saved(defs, id, name, typeId, config, now);
    assert forall other | other != id && other in defs :: defs'[other] == defs[other];
    assert defs'[id].typeId == typeId;
  }

  lemma RowAfterChange(t: Tables, id: Id, name: string, typeId: string, config: string, now: Time, a: Id)
    requires id in t.conditions && a in t.automations && RowSound(t.conditions, t.actions, t.automations[a])
    ensures var t', row := ConditionChanged(t, id, name, typeId, config, now), t.automations[a];
      RowSound(t'.conditions, t'.actions, t'.automations[a]) <==> (typeId in TRIGGERS && id in row.conditionIds ==> |row.conditionIds| == 1)
  {
    ConditionsAfterChange(t.conditions, id, name, typeId, config, now, t.automations[a].conditionIds);
  }

  /** Changing a condition keeps a store sound exactly if it does not become a trigger
      that stands beside other conditions. */
  lemma ChangedConditionStaysSoundUnlessMixed(t: Tables, id: Id, name: string, typeId: string, config: string, now: Time)
    requires Sound(t) && Savable(t.conditions, name, Some(id))
    ensures Sound(ConditionChanged(t, id, name, typeId, config, now))
       <==> (typeId in TRIGGERS ==> forall a | a in ConditionUsers(t.automations, id) :: |t.automations[a].conditionIds| == 1)
  {
    hide NamesSound, RowSound, PauseUsers, AutomationNamesUnique, Savable;
    SavingKeepsNamesSound(t.conditions, id, name, typeId, config, now, Some(id));
    var t' := ConditionChanged(t, id, name, typeId, config, now);
    IsThere(t.conditions, name, id);
    PausedNames(t.automations, ConditionUsers(t.automations, id), now);
    SameNames(t.automations, t'.automations);
    forall a | a in t.automations
      ensures RowSound(t'.conditions, t'.actions, t'.automations[a]) <==>
                (typeId in TRIGGERS && a in ConditionUsers(t.automations, id) ==> |t.automations[a].conditionIds| == 1)
    {
      RowAfterChange(t, id, name, typeId, config, now, a);
    }
  }

  lemma IsThere(defs: Defs, name: string, id: Id)
    requires Savable(defs, name, Some(id))
    ensures id in defs
  {
  }

  lemma PausedNames(rows: Rows, users: set<Id>, now: Time)
    ensures PauseUsers(rows, users, now).Keys == rows.Keys
    ensures forall a | a in rows :: PauseUsers(rows, users, now)[a].name == rows[a].name
  {
  }

  lemma SameNames(automations: Rows, automations': Rows)
    requires AutomationNamesUnique(automations) && automations'.Keys == automations.Keys
    requires forall a | a in automations :: automations'[a].name == automations[a].name
    ensures AutomationNamesUnique(automations')
  {
  }

  // ----- which records import cleanly -----

  predicate SameKind(r: Record, s: Record) { r.Source? == s.Source? && r.Action? == s.Action? }

  /** What an automation asks of the conditions and actions it names. */
  predicate RecordOk(sources: Wanted, actions: Wanted, r: Record)
    requires r.Automation?
  {
    && SettingsOk(r.settings) && 1 <= |r.conditionNames| <= 10 && Distinct(r.conditionNames)
    && (forall name | name in r.conditionNames :: name in sources)
    && (forall name | name in r.conditionNames :: sources[name].0 in TRIGGERS ==> |r.conditionNames| == 1)
    && Fixed(r.stages) && Mapped(r.stages, actions)
  }

  /** The definitions a set of records names, when names are apart. */
  ghost predicate Index(records: set<Record>, sources: Wanted, actions: Wanted) {
    && (forall name | name in sources :: Source(name, sources[name].0, sources[name].1) in records)
    && (forall r | r in records && r.Source? :: r.name in sources && sources[r.name] == (r.typeId, r.config))
    && (forall name | name in actions :: Action(name, actions[name].0, actions[name].1) in records)
    && (forall r | r in records && r.Action? :: r.name in actions && actions[r.name] == (r.typeId, r.config))
  }

  ghost predicate HasSource(records: set<Record>, name: string) {
    exists s :: s in records && s.Source? && s.name == name
  }

  ghost predicate HasAction(records: set<Record>, name: string) {
    exists s :: s in records && s.Action? && s.name == name
  }

  /** The automation's settings are in range, its stages are normal, and the records hold
      all it names; a trigger stands alone. */
  ghost predicate Complete(records: set<Record>, r: Record)
    requires r.Automation?
  {
    && SettingsOk(r.settings) && 1 <= |r.conditionNames| <= 10 && Distinct(r.conditionNames)
    && (forall name | name in r.conditionNames :: HasSource(records, name))
    && (forall s | s in records && s.Source? && s.name in r.conditionNames && s.typeId in TRIGGERS :: |r.conditionNames| == 1)
    && Fixed(r.stages)
    && (forall k, n | 0 <= k < |r.stages| && 0 <= n < |r.stages[k].actions| ::
          r.stages[k].actions[n].Some? && HasAction(records, r.stages[k].actions[n].value))
  }

  lemma CompleteIsOk(records: set<Record>, sources: Wanted, actions: Wanted, r: Record)
    requires Index(records, sources, actions) && r.Automation? && Complete(records, r)
    ensures RecordOk(sources, actions, r)
  {
    hide Fixed, SettingsOk;
    forall name | name in r.conditionNames
      ensures name in sources && (sources[name].0 in TRIGGERS ==> |r.conditionNames| == 1)
    {
      assert HasSource(records, name);
      assert Source(name, sources[name].0, sources[name].1) in records;
    }
    forall k, n | 0 <= k < |r.stages| && 0 <= n < |r.stages[k].actions|
      ensures r.stages[k].actions[n].Some? && r.stages[k].actions[n].value in actions
    {
      assert HasAction(records, r.stages[k].actions[n].value);
    }
  }

  /** No two records of a kind share a name, names are normal, and every automation is in
      order and complete. */
  ghost predicate WellFormed(records: set<Record>) {
    && (forall r, s | r in records && s in records && SameKind(r, s) && Fold(r.name) == Fold(s.name) :: r == s)
    && (forall r | r in records :: NameOk(r.name) && Collapse(r.name) == r.name)
    && (forall r | r in records && r.Automation? :: Complete(records, r))
  }

  /** Where a record of the view comes from. */
  lemma Origin(t: Tables, r: Record) returns (id: Id)
    requires r in View(t)
    ensures r.Source? ==> id in t.conditions && r == SourceRecord(t.conditions[id])
    ensures r.Action? ==> id in t.actions && r == ActionRecord(t.actions[id])
    ensures r.Automation? ==> id in t.automations && r == AutomationRecord(t.conditions, t.actions, t.automations[id])
  {
    if r.Source? {
      id :| id in t.conditions && r == SourceRecord(t.conditions[id]);
    } else if r.Action? {
      id :| id in t.actions && r == ActionRecord(t.actions[id]);
    } else {
      id :| id in t.automations && r == AutomationRecord(t.conditions, t.actions, t.automations[id]);
    }
  }

  predicate AutomationNamesSound(automations: Rows) {
    && AutomationNamesUnique(automations)
    && forall id | id in automations :: Collapse(automations[id].name) == automations[id].name && NameOk(automations[id].name)
  }

  lemma ViewNamesAreApart(t: Tables)
    requires NamesSound(t.conditions) && NamesSound(t.actions) && AutomationNamesSound(t.automations)
    ensures forall r, s | r in View(t) && s in View(t) && SameKind(r, s) && Fold(r.name) == Fold(s.name) :: r == s
    ensures forall r | r in View(t) :: NameOk(r.name) && Collapse(r.name) == r.name
  {
    forall r, s | r in View(t) && s in View(t) && SameKind(r, s) && Fold(r.name) == Fold(s.name)
      ensures r == s
    {
      var i := Origin(t, r);
      var j := Origin(t, s);
      assert i == j;
    }
    forall r | r in View(t)
      ensures NameOk(r.name) && Collapse(r.name) == r.name
    {
      var i := Origin(t, r);
    }
  }

  lemma ExportedConditions(t: Tables, ids: seq<Id>)
    requires UniqueNames(t.conditions) && ConditionsOk(t.conditions, ids) && Deduped(ids) == ids
    ensures var names := Resolve(ids, Names(t.conditions));
      && |names| == |ids| && Distinct(names)
      && (forall name | name in names :: HasSource(View(t), name))
      && (forall s | s in View(t) && s.Source? && s.name in names && s.typeId in TRIGGERS :: |names| == 1)
  {
    hide AutomationRecord, AutomationRecords, ActionRecords, SourceRecords, Deduped, View, ConditionsOk, Resolve, Names;
    NamesOfConditions(t, ids);
    var names := Resolve(ids, Names(t.conditions));
    forall name | name in names
      ensures HasSource(View(t), name)
    {
      var k :| 0 <= k < |names| && names[k] == name;
      ExportedSource(t, ids[k]);
    }
    forall s | s in View(t) && s.Source? && s.name in names && s.typeId in TRIGGERS
      ensures |names| == 1
    {
      var id := Origin(t, s);
      var k :| 0 <= k < |names| && names[k] == s.name;
      TriggerStandsAlone(t, ids, k, id);
    }
  }

  lemma NamesOfConditions(t: Tables, ids: seq<Id>)
    requires UniqueNames(t.conditions) && ConditionsOk(t.conditions, ids) && Deduped(ids) == ids
    ensures var names := Resolve(ids, Names(t.conditions));
      && |names| == |ids| && Distinct(names)
      && forall k | 0 <= k < |ids| :: ids[k] in t.conditions && names[k] == t.conditions[ids[k]].name
  {
    hide Deduped;
    ResolveAll(ids, Names(t.conditions));
    var names := Resolve(ids, Names(t.conditions));
    forall i, j | 0 <= i < j < |ids|
      ensures names[i] != names[j]
    {
      assert Deduped(ids)[i] != Deduped(ids)[j];
      assert ids[i] in ids && ids[j] in ids;
    }
  }

  lemma ExportedSource(t: Tables, id: Id)
    requires id in t.conditions
    ensures HasSource(View(t), t.conditions[id].name)
  {
    hide AutomationRecord, AutomationRecords, ActionRecords;
    assert SourceRecord(t.conditions[id]) in View(t);
  }

  lemma TriggerStandsAlone(t: Tables, ids: seq<Id>, k: nat, id: Id)
    requires UniqueNames(t.conditions) && ConditionsOk(t.conditions, ids) && k < |ids|
    requires id in t.conditions && ids[k] in t.conditions && t.conditions[id].name == t.conditions[ids[k]].name
    requires t.conditions[id].typeId in TRIGGERS
    ensures |ids| == 1
  {
    assert ids[k] in ids && ids[k] == id;
  }

  lemma ExportedStages(t: Tables, stages: seq<RawStage<Id>>)
    requires Fixed(stages) && ActionIdsOf(stages) <= t.actions.Keys
    ensures var named := MapRawAll(stages, Names(t.actions));
      && Fixed(named)
      && (forall k, n | 0 <= k < |named| && 0 <= n < |named[k].actions| ::
            named[k].actions[n].Some? && HasAction(View(t), named[k].actions[n].value))
  {
    hide AutomationRecord, AutomationRecords, SourceRecords, Fixed;
    FixedStagesName(stages);
    var named := MapRawAll(stages, Names(t.actions));
    forall k, n | 0 <= k < |stages| && 0 <= n < |stages[k].actions|
      ensures stages[k].actions[n].Some? && stages[k].actions[n].value in t.actions
      ensures named[k].actions[n].Some? && HasAction(View(t), named[k].actions[n].value)
    {
      assert stages[k].actions[n].value in ActionIdsOf(stages);
      assert ActionRecord(t.actions[stages[k].actions[n].value]) in View(t);
    }
    FixedStagesMap(stages, Names(t.actions));
  }

  /** Fixed stages hold no blank action. */
  lemma FixedStagesName<A>(stages: seq<RawStage<A>>)
    requires Fixed(stages)
    ensures forall k, n | 0 <= k < |stages| && 0 <= n < |stages[k].actions| :: stages[k].actions[n].Some?
  {
    var normal := Normalized(stages, []).stages;
    forall k, n | 0 <= k < |stages| && 0 <= n < |stages[k].actions|
      ensures stages[k].actions[n].Some?
    {
      assert stages[k] == Raw(normal[k]);
    }
  }

  lemma ExportedRecordIsComplete(t: Tables, row: AutomationRow)
    requires UniqueNames(t.conditions) && RowSound(t.conditions, t.actions, row)
    ensures Complete(View(t), AutomationRecord(t.conditions, t.actions, row))
  {
    ExportedConditions(t, row.conditionIds);
    NormalizedIsFixed(row.stages);
    ExportedStages(t, RawAll(Normalized(row.stages, []).stages));
  }

  /** What a sound store exports always imports cleanly. */
  lemma ViewsAreWellFormed(t: Tables)
    requires Sound(t)
    ensures WellFormed(View(t))
  {
    forall id | id in t.automations
      ensures Collapse(t.automations[id].name) == t.automations[id].name && NameOk(t.automations[id].name)
    {
      assert RowSound(t.conditions, t.actions, t.automations[id]);
    }
    ViewNamesAreApart(t);
    forall r | r in View(t) && r.Automation?
      ensures Complete(View(t), r)
    {
      var id := Origin(t, r);
      ExportedRecordIsComplete(t, t.automations[id]);
    }
  }

  /** A condition that became a trigger beside another condition of some automation:
      what the store then exports does not import cleanly. */
  lemma MixedTriggersDoNotImport(t: Tables, a: Id, id: Id)
    requires a in t.automations && id in t.automations[a].conditionIds && |t.automations[a].conditionIds| > 1
    requires forall other | other in t.automations[a].conditionIds :: other in t.conditions
    requires t.conditions[id].typeId in TRIGGERS
    ensures !WellFormed(View(t))
  {
    hide Fixed, SettingsOk;
    var row := t.automations[a];
    var r := AutomationRecord(t.conditions, t.actions, row);
    ResolveAll(row.conditionIds, Names(t.conditions));
    var k :| 0 <= k < |row.conditionIds| && row.conditionIds[k] == id;
    assert r.conditionNames[k] == t.conditions[id].name;
    assert SourceRecord(t.conditions[id]) in View(t) && r in View(t);
    assert !Complete(View(t), r);
  }

  // ----- what a record says of its row -----

  /** The record carries the automation's name and settings, the names of its conditions,
      and its stages with the names of their actions, each in its place. */
  predicate Describes(t: Tables, row: AutomationRow, r: Record) {
    && r.Automation? && r.name == row.name && r.settings == row.settings
    && |r.conditionNames| == |row.conditionIds|
    && (forall k | 0 <= k < |row.conditionIds| ::
          row.conditionIds[k] in t.conditions && r.conditionNames[k] == t.conditions[row.conditionIds[k]].name)
    && Normalized(row.stages, []).Ok?
    && var stages := Normalized(row.stages, []).stages;
       && |r.stages| == |stages|
       && forall k | 0 <= k < |stages| ::
            && r.stages[k].id == stages[k].id && r.stages[k].name == stages[k].name
            && r.stages[k].policy == Some(stages[k].policy) && r.stages[k].delay == Some(stages[k].delay)
            && |r.stages[k].actions| == |stages[k].actions|
            && forall n | 0 <= n < |stages[k].actions| ::
                 stages[k].actions[n] in t.actions && r.stages[k].actions[n] == Some(t.actions[stages[k].actions[n]].name)
  }

  lemma NamesOfRow(t: Tables, row: AutomationRow)
    requires RowSound(t.conditions, t.actions, row)
    ensures var names := ConditionNames(t.conditions, row.conditionIds);
      && |names| == |row.conditionIds|
      && forall k | 0 <= k < |row.conditionIds| ::
           row.conditionIds[k] in t.conditions && names[k] == t.conditions[row.conditionIds[k]].name
  {
    hide Normalized, Collapse, StagesOk, SettingsOk, Resolve, Deduped;
    forall k | 0 <= k < |row.conditionIds|
      ensures row.conditionIds[k] in t.conditions && row.conditionIds[k] in Names(t.conditions)
    {
      assert row.conditionIds[k] in row.conditionIds;
    }
    ResolveAll(row.conditionIds, Names(t.conditions));
  }

  lemma ActionsOfRow(t: Tables, stages: seq<StageDef<Id>>)
    requires ActionIdsOf(RawAll(stages)) <= t.actions.Keys
    ensures forall k, n | 0 <= k < |stages| && 0 <= n < |stages[k].actions| :: stages[k].actions[n] in t.actions
  {
    forall k, n | 0 <= k < |stages| && 0 <= n < |stages[k].actions|
      ensures stages[k].actions[n] in t.actions
    {
      assert RawAll(stages)[k].actions[n] == Some(stages[k].actions[n]);
      assert stages[k].actions[n] in ActionIdsOf(RawAll(stages));
    }
  }

  lemma RecordsDescribeRows(t: Tables, row: AutomationRow)
    requires RowSound(t.conditions, t.actions, row)
    ensures Describes(t, row, AutomationRecord(t.conditions, t.actions, row))
  {
    hide Normalized, Collapse, ConditionNames, RawAll, MapRawAll, ActionIdsOf, MapActions, ConditionsOk, SettingsOk, Deduped, Somes;
    NamesOfRow(t, row);
    ActionsOfRow(t, Normalized(row.stages, []).stages);
    StagesByName(t, Normalized(row.stages, []).stages);
  }

  lemma StagesByName(t: Tables, stages: seq<StageDef<Id>>)
    requires forall k, n | 0 <= k < |stages| && 0 <= n < |stages[k].actions| :: stages[k].actions[n] in t.actions
    ensures var r := MapRawAll(RawAll(stages), Names(t.actions));
      && |r| == |stages|
      && forall k | 0 <= k < |stages| ::
           && r[k].id == stages[k].id && r[k].name == stages[k].name
           && r[k].policy == Some(stages[k].policy) && r[k].delay == Some(stages[k].delay)
           && |r[k].actions| == |stages[k].actions|
           && forall n | 0 <= n < |stages[k].actions| :: r[k].actions[n] == Some(t.actions[stages[k].actions[n]].name)
  {
  }

  /** A set of records describes a store: every definition and automation has its record,
      and every record its definition or automation. */
  ghost predicate DescribedBy(t: Tables, records: set<Record>) {
    && (forall id | id in t.conditions :: exists r :: r in records && r.Source? && SameDefinition(t.conditions[id], r))
    && (forall id | id in t.actions :: exists r :: r in records && r.Action? && SameDefinition(t.actions[id], r))
    && (forall a | a in t.automations :: exists r :: r in records && Describes(t, t.automations[a], r))
    && (forall r | r in records && r.Source? :: exists id :: id in t.conditions && SameDefinition(t.conditions[id], r))
    && (forall r | r in records && r.Action? :: exists id :: id in t.actions && SameDefinition(t.actions[id], r))
    && (forall r | r in records && r.Automation? :: exists a :: a in t.automations && Describes(t, t.automations[a], r))
  }

  predicate SameDefinition(d: Definition, r: Record) {
    !r.Automation? && r.name == d.name && r.typeId == d.typeId && r.config == d.config
  }

  lemma ViewsHoldAll(t: Tables)
    ensures forall id | id in t.conditions :: SourceRecord(t.conditions[id]) in View(t)
    ensures forall id | id in t.actions :: ActionRecord(t.actions[id]) in View(t)
    ensures forall a | a in t.automations :: AutomationRecord(t.conditions, t.actions, t.automations[a]) in View(t)
  {
    hide AutomationRecord;
  }

  /** What a sound store exports describes it. */
  lemma ViewsDescribe(t: Tables)
    requires Sound(t)
    ensures DescribedBy(t, View(t))
  {
    hide Describes, AutomationRecord, RowSound, NamesSound, AutomationNamesUnique;
    ViewsHoldAll(t);
    hide View;
    forall id | id in t.conditions
      ensures exists r :: r in View(t) && r.Source? && SameDefinition(t.conditions[id], r)
    {
      assert SameDefinition(t.conditions[id], SourceRecord(t.conditions[id]));
    }
    forall id | id in t.actions
      ensures exists r :: r in View(t) && r.Action? && SameDefinition(t.actions[id], r)
    {
      assert SameDefinition(t.actions[id], ActionRecord(t.actions[id]));
    }
    forall a | a in t.automations
      ensures Describes(t, t.automations[a], AutomationRecord(t.conditions, t.actions, t.automations[a]))
    {
      RecordsDescribeRows(t, t.automations[a]);
    }
    forall r | r in View(t)
      ensures r.Source? ==> exists id :: id in t.conditions && SameDefinition(t.conditions[id], r)
      ensures r.Action? ==> exists id :: id in t.actions && SameDefinition(t.actions[id], r)
      ensures r.Automation? ==> exists a :: a in t.automations && Describes(t, t.automations[a], r)
    {
      var id := Origin(t, r);
    }
  }

  // ----- export -----

  /** Sources come before actions and these before automations, each kind by name. */
  predicate Precedes(r: Record, s: Record) {
    if SameKind(r, s) then UpTo(Fold(r.name), Fold(s.name)) else r.Source? || s.Automation?
  }

  lemma PrecedesIsTotal(r: Record, s: Record)
    ensures Precedes(r, s) || Precedes(s, r)
  {
    UpToIsTotal(Fold(r.name), Fold(s.name));
  }

  lemma PrecedesIsTransitive(r: Record, s: Record, t: Record)
    requires Precedes(r, s) && Precedes(s, t)
    ensures Precedes(r, t)
  {
    if SameKind(r, s) && SameKind(s, t) {
      UpToIsTransitive(Fold(r.name), Fold(s.name), Fold(t.name));
    }
  }

  /** Lists a set of records, each once and in order. */
  ghost predicate Lists(records: seq<Record>, view: set<Record>) {
    && Distinct(records) && (forall r :: r in records <==> r in view)
    && forall i, j | 0 <= i < j < |records| :: Precedes(records[i], records[j])
  }

  method First(records: set<Record>) returns (first: Record)
    requires records != {}
    ensures first in records && forall r | r in records :: Precedes(first, r)
  {
    hide Precedes;
    first :| first in records;
    PrecedesIsTotal(first, first);
    var left := records - {first};
    while left != {}
      invariant left <= records && first in records
      invariant forall r | r in records - left :: Precedes(first, r)
      decreases left
    {
      var r :| r in left;
      PrecedesIsTotal(first, r);
      PrecedesIsTotal(r, r);
      if !Precedes(first, r) {
        forall s | s in records - left ensures Precedes(r, s) {
          PrecedesIsTransitive(r, first, s);
        }
        first := r;
      }
      left := left - {r};
    }
  }

  lemma ListOneMore(records: seq<Record>, view: set<Record>, left: set<Record>, r: Record)
    requires left <= view && Lists(records, view - left) && r in left
    requires forall s | s in records :: Precedes(s, r)
    ensures Lists(records + [r], view - (left - {r}))
  {
    hide Precedes;
    assert r !in records;
  }

  method Export(store: DefinitionStore) returns (records: seq<Record>)
    ensures Lists(records, View(store.Contents()))
    ensures Sound(store.Contents()) ==> DescribedBy(store.Contents(), SetOf(records))
  {
    hide Precedes, Lists, View, Sound, DescribedBy;
    records := [];
    EmptyList(View(store.Contents()));
    var left := View(store.Contents());
    while left != {}
      invariant left <= View(store.Contents()) && Lists(records, View(store.Contents()) - left)
      invariant forall r, s | r in records && s in left :: Precedes(r, s)
      decreases left
    {
      var r := First(left);
      ListOneMore(records, View(store.Contents()), left, r);
      records := records + [r];
      left := left - {r};
    }
    assert View(store.Contents()) - left == View(store.Contents());
    assert SetOf(records) == View(store.Contents()) by {
      ListedSet(records, View(store.Contents()));
    }
    if Sound(store.Contents()) {
      ViewsDescribe(store.Contents());
    }
  }

  lemma ListedSet(records: seq<Record>, view: set<Record>)
    requires Lists(records, view)
    ensures SetOf(records) == view
  {
  }

  lemma EmptyList(view: set<Record>)
    ensures Lists([], view - view)
  {
  }

  // ----- import into an empty store -----

  /** The saved definitions are the wanted ones, under the identifiers `ids` gives. */
  predicate Indexed(defs: Defs, wanted: Wanted, ids: IdMap) {
    && (forall name | name in ids :: name in wanted && ids[name] in defs
          && defs[ids[name]].name == name && (defs[ids[name]].typeId, defs[ids[name]].config) == wanted[name])
    && (forall id | id in defs :: defs[id].name in ids && ids[defs[id].name] == id)
  }

  predicate NamesReady(wanted: Wanted) {
    && (forall name | name in wanted :: NameOk(name) && Collapse(name) == name)
    && (forall m, n | m in wanted && n in wanted && Fold(m) == Fold(n) :: m == n)
  }

  lemma OneMoreIndexed(defs: Defs, wanted: Wanted, ids: IdMap,
                       name: string, id: Id, now: Time)
    requires Indexed(defs, wanted, ids) && name in wanted && name !in ids && id !in defs && Collapse(name) == name
    ensures Indexed(Saved(defs, id, name, wanted[name].0, wanted[name].1, now), wanted, ids[name := id])
  {
  }

  lemma StillSavable(defs: Defs, wanted: Wanted, ids: IdMap, name: string)
    requires Indexed(defs, wanted, ids) && NamesReady(wanted) && name in wanted && name !in ids
    ensures Savable(defs, name, None) && Collapse(name) == name
  {
  }

  lemma NoneIndexed(defs: Defs, wanted: Wanted)
    requires defs == map[]
    ensures Indexed(defs, wanted, map[]) && NamesSound(defs)
  {
  }

  method SaveSources(store: DefinitionStore, sources: Wanted, now: Time)
    returns (ok: bool, ids: IdMap)
    requires store.Valid() && store.conditions == map[]
    modifies store
    ensures store.Valid()
    ensures store.Contents() == old(store.Contents()).(conditions := store.conditions)
    ensures ok ==> ids.Keys == sources.Keys
    ensures NamesSound(store.conditions)
    ensures NamesReady(sources) ==> ok && Indexed(store.conditions, sources, ids)
  {
    hide OneSaved, NameIsUnused, OnlySwitchedOff, UniqueNames, NameOk, Savable, Indexed, NamesReady, Collapse;
    ok, ids := true, map[];
    NoneIndexed(store.conditions, sources);
    var left := sources.Keys;
    while left != {}
      invariant store.Valid() && left <= sources.Keys && ids.Keys == sources.Keys - left
      invariant store.Contents() == old(store.Contents()).(conditions := store.conditions)
      invariant NamesSound(store.conditions)
      invariant NamesReady(sources) ==> Indexed(store.conditions, sources, ids)
      decreases left
    {
      var name :| name in left;
      left := left - {name};
      if NamesReady(sources) {
        StillSavable(store.conditions, sources, ids, name);
      }
      ghost var before := store.conditions;
      var id := store.SaveCondition(name, sources[name].0, sources[name].1, None, now);
      if id.None? {
        return false, ids;
      }
      SavingKeepsNamesSound(before, id.value, name, sources[name].0, sources[name].1, now, None);
      if NamesReady(sources) {
        OneMoreIndexed(before, sources, ids, name, id.value, now);
      }
      ids := ids[name := id.value];
    }
  }

  method SaveActions(store: DefinitionStore, actions: Wanted, now: Time)
    returns (ok: bool, ids: IdMap)
    requires store.Valid() && store.actions == map[]
    modifies store
    ensures store.Valid()
    ensures store.Contents() == old(store.Contents()).(actions := store.actions)
    ensures ok ==> ids.Keys == actions.Keys
    ensures NamesSound(store.actions)
    ensures NamesReady(actions) ==> ok && Indexed(store.actions, actions, ids)
  {
    hide OneSaved, NameIsUnused, OnlySwitchedOff, UniqueNames, NameOk, Savable, Indexed, NamesReady, Collapse;
    ok, ids := true, map[];
    NoneIndexed(store.actions, actions);
    var left := actions.Keys;
    while left != {}
      invariant store.Valid() && left <= actions.Keys && ids.Keys == actions.Keys - left
      invariant store.Contents() == old(store.Contents()).(actions := store.actions)
      invariant NamesSound(store.actions)
      invariant NamesReady(actions) ==> Indexed(store.actions, actions, ids)
      decreases left
    {
      var name :| name in left;
      left := left - {name};
      if NamesReady(actions) {
        StillSavable(store.actions, actions, ids, name);
      }
      ghost var before := store.actions;
      var id := store.SaveAction(name, actions[name].0, actions[name].1, None, now);
      if id.None? {
        return false, ids;
      }
      SavingKeepsNamesSound(before, id.value, name, actions[name].0, actions[name].1, now, None);
      if NamesReady(actions) {
        OneMoreIndexed(before, actions, ids, name, id.value, now);
      }
      ids := ids[name := id.value];
    }
  }

  /** The definitions `found` are those called `names`. */
  predicate Called(defs: Defs, found: seq<Id>, names: seq<string>) {
    && |found| == |names|
    && forall k | 0 <= k < |names| :: found[k] in defs && defs[found[k]].name == names[k]
  }

  lemma NamesAreFound(defs: Defs, wanted: Wanted, ids: IdMap, names: seq<string>)
    requires Indexed(defs, wanted, ids) && forall k | 0 <= k < |names| :: names[k] in ids
    ensures Called(defs, Resolve(names, ids), names)
    ensures forall k | 0 <= k < |names| :: names[k] in wanted && defs[Resolve(names, ids)[k]].typeId == wanted[names[k]].0
  {
    ResolveAll(names, ids);
    forall k | 0 <= k < |names|
      ensures names[k] in wanted && ids[names[k]] in defs && defs[ids[names[k]]].name == names[k]
      ensures defs[ids[names[k]]].typeId == wanted[names[k]].0
    {
      assert names[k] in ids;
    }
  }

  lemma CalledAreDistinct(defs: Defs, found: seq<Id>, names: seq<string>)
    requires Called(defs, found, names) && Distinct(names)
    ensures Deduped(found) == found && Resolve(found, Names(defs)) == names
  {
    assert Distinct(found) by {
      forall i, j | 0 <= i < j < |found|
        ensures found[i] != found[j]
      {
        assert defs[found[i]].name == names[i] && defs[found[j]].name == names[j];
      }
    }
    DistinctStays(found);
    ResolveAll(found, Names(defs));
  }

  lemma ImportedConditionsOk(defs: Defs, wanted: Wanted, ids: IdMap, names: seq<string>)
    requires Indexed(defs, wanted, ids) && Distinct(names) && 1 <= |names| <= 10
    requires forall name | name in names :: name in ids && (wanted[name].0 in TRIGGERS ==> |names| == 1)
    ensures var found := Resolve(names, ids);
      Deduped(found) == found && ConditionsOk(defs, found) && Resolve(found, Names(defs)) == names
  {
    var found := Resolve(names, ids);
    forall k | 0 <= k < |names|
      ensures names[k] in ids && (wanted[names[k]].0 in TRIGGERS ==> |names| == 1)
    {
      assert names[k] in names;
    }
    NamesAreFound(defs, wanted, ids, names);
    CalledAreDistinct(defs, found, names);
    forall id | id in found
      ensures id in defs && (defs[id].typeId in TRIGGERS ==> |found| == 1)
    {
      var k :| 0 <= k < |found| && found[k] == id;
      assert defs[found[k]].name == names[k];
    }
  }

  lemma ImportedStagesOk(defs: Defs, wanted: Wanted, ids: IdMap, stages: seq<RawStage<string>>)
    requires Indexed(defs, wanted, ids) && Fixed(stages) && Mapped(stages, ids)
    ensures var found := MapRawAll(stages, ids);
      && Fixed(found) && StagesOk(defs, found)
      && MapRawAll(found, Names(defs)) == stages
  {
    var found := MapRawAll(stages, ids);
    FixedStagesMap(stages, ids);
    assert forall name | name in ids :: ids[name] in Names(defs) && Names(defs)[ids[name]] == name;
    MapBack(stages, ids, Names(defs));
    MappedIdsExist(stages, ids, defs.Keys);
  }

  lemma MappedIdsExist(stages: seq<RawStage<string>>, ids: IdMap, known: set<Id>)
    requires Mapped(stages, ids) && forall name | name in ids :: ids[name] in known
    ensures ActionIdsOf(MapRawAll(stages, ids)) <= known
  {
    var found := MapRawAll(stages, ids);
    forall id | id in ActionIdsOf(found)
      ensures id in known
    {
      var k, n :| 0 <= k < |found| && 0 <= n < |found[k].actions| && found[k].actions[n] == Some(id);
      assert found[k] == MapRaw(stages[k], ids);
    }
  }

  /** The row an automation record is saved as. */
  function RowFor(r: Record, conditionIds: IdMap, actionIds: IdMap, now: Time): AutomationRow
    requires r.Automation? && Normalized(MapRawAll(r.stages, actionIds), []).Ok?
  {
    SavedRow(r.name, r.settings, Resolve(r.conditionNames, conditionIds), MapRawAll(r.stages, actionIds), NEW_RUNTIME, now)
  }

  /** The record names only known definitions, passes the checks of saving, and is saved
      as `row`. */
  predicate Planned(conditions: Defs, actions: Defs, conditionIds: IdMap,
                    actionIds: IdMap, now: Time, r: Record, row: AutomationRow)
  {
    && r.Automation? && Collapse(r.name) == r.name
    && (forall name | name in r.conditionNames :: name in conditionIds) && Mapped(r.stages, actionIds)
    && PartsOk(conditions, actions, r.name, r.settings, Resolve(r.conditionNames, conditionIds), MapRawAll(r.stages, actionIds))
    && row == RowFor(r, conditionIds, actionIds, now)
  }

  /** A row with resolved conditions and fixed stages is sound, and is exported under the
      names of what it refers to. */
  lemma ResolvedRow(conditions: Defs, actions: Defs, r: Record, found: seq<Id>,
                    stages: seq<RawStage<Id>>, now: Time)
    requires r.Automation? && NameOk(r.name) && Collapse(r.name) == r.name && SettingsOk(r.settings)
    requires Deduped(found) == found && ConditionsOk(conditions, found) && Resolve(found, Names(conditions)) == r.conditionNames
    requires Fixed(stages) && StagesOk(actions, stages) && MapRawAll(stages, Names(actions)) == r.stages
    ensures var row := SavedRow(r.name, r.settings, found, stages, NEW_RUNTIME, now);
      && PartsOk(conditions, actions, r.name, r.settings, found, stages)
      && RowSound(conditions, actions, row) && AutomationRecord(conditions, actions, row) == r
  {
    var row := SavedRow(r.name, r.settings, found, stages, NEW_RUNTIME, now);
    assert row.conditionIds == found && row.stages == stages && row.name == r.name && row.settings == r.settings;
  }

  /** An imported automation passes every check of saving, and is exported again as the
      record it came from. */
  lemma ImportedAutomation(conditions: Defs, actions: Defs,
                           sources: Wanted, wanted: Wanted,
                           conditionIds: IdMap, actionIds: IdMap, r: Record, now: Time)
    requires Indexed(conditions, sources, conditionIds) && conditionIds.Keys == sources.Keys
    requires Indexed(actions, wanted, actionIds) && actionIds.Keys == wanted.Keys
    requires r.Automation? && RecordOk(sources, wanted, r) && NameOk(r.name) && Collapse(r.name) == r.name
    ensures Normalized(MapRawAll(r.stages, actionIds), []).Ok?
    ensures var row := RowFor(r, conditionIds, actionIds, now);
      && Planned(conditions, actions, conditionIds, actionIds, now, r, row)
      && RowSound(conditions, actions, row) && AutomationRecord(conditions, actions, row) == r
  {
    var found, stages := Resolve(r.conditionNames, conditionIds), MapRawAll(r.stages, actionIds);
    assert Mapped(r.stages, actionIds);
    ImportedConditionsOk(conditions, sources, conditionIds, r.conditionNames);
    ImportedStagesOk(actions, wanted, actionIds, r.stages);
    ResolvedRow(conditions, actions, r, found, stages, now);
  }

  function RowsOf(records: seq<Record>, rowFor: Record -> AutomationRow): set<AutomationRow> {
    if records == [] then {} else RowsOf(records[..|records| - 1], rowFor) + {rowFor(records[|records| - 1])}
  }

  /** The saved rows are those of the records, and no two share a name. */
  ghost predicate Kept(rows: Rows, records: seq<Record>, rowFor: Record -> AutomationRow) {
    rows.Values == RowsOf(records, rowFor) && AutomationNamesUnique(rows)
  }

  lemma OneMoreValue(rows: Rows, id: Id, row: AutomationRow)
    requires id !in rows
    ensures rows[id := row].Values == rows.Values + {row}
  {
    assert rows[id := row].Keys == rows.Keys + {id};
    forall other | other in rows.Values
      ensures other in rows[id := row].Values
    {
      var a :| a in rows && rows[a] == other;
      assert rows[id := row][a] == other;
    }
    assert rows[id := row][id] == row;
  }

  lemma KeptOneMore(rows: Rows, records: seq<Record>, rowFor: Record -> AutomationRow, id: Id, r: Record)
    requires Kept(rows, records, rowFor) && id !in rows && !TakenByAutomation(rows, rowFor(r).name, None)
    ensures Kept(rows[id := rowFor(r)], records + [r], rowFor)
  {
    OneMoreValue(rows, id, rowFor(r));
    assert (records + [r])[..|records|] == records;
  }

  lemma {:induction false} RowsHaveRecords(records: seq<Record>, rowFor: Record -> AutomationRow, row: AutomationRow)
    requires row in RowsOf(records, rowFor)
    ensures exists i :: 0 <= i < |records| && row == rowFor(records[i])
  {
    if row == rowFor(records[|records| - 1]) {
    } else {
      RowsHaveRecords(records[..|records| - 1], rowFor, row);
      var i :| 0 <= i < |records| - 1 && row == rowFor(records[..|records| - 1][i]);
      assert row == rowFor(records[i]);
    }
  }

  lemma NameIsFree(rows: Rows, records: seq<Record>, rowFor: Record -> AutomationRow, r: Record)
    requires Kept(rows, records, rowFor)
    requires forall i | 0 <= i < |records| :: Fold(rowFor(records[i]).name) != Fold(rowFor(r).name)
    ensures !TakenByAutomation(rows, rowFor(r).name, None)
  {
    forall a | a in rows
      ensures Fold(rows[a].name) != Fold(rowFor(r).name)
    {
      assert rows[a] in rows.Values;
      RowsHaveRecords(records, rowFor, rows[a]);
    }
  }

  /** All records are planned, under names that differ. */
  ghost predicate AllPlanned(conditions: Defs, actions: Defs, conditionIds: IdMap,
                             actionIds: IdMap, now: Time, records: seq<Record>, rowFor: Record -> AutomationRow)
  {
    && (forall k | 0 <= k < |records| ::
          Planned(conditions, actions, conditionIds, actionIds, now, records[k], rowFor(records[k])))
    && (forall i, j | 0 <= i < j < |records| :: Fold(rowFor(records[i]).name) != Fold(rowFor(records[j]).name))
  }

  /** Saves one automation record under a new identifier. */
  method SaveImported(store: DefinitionStore, r: Record, conditionIds: IdMap, actionIds: IdMap, now: Time,
                      ghost row: AutomationRow) returns (ok: bool, ghost id: Id)
    requires store.Valid() && r.Automation? && RowsSound(store.conditions, store.actions, store.automations)
    modifies store
    ensures store.Valid() && store.conditions == old(store.conditions) && store.actions == old(store.actions)
    ensures RowsSound(store.conditions, store.actions, store.automations)
    ensures Planned(store.conditions, store.actions, conditionIds, actionIds, now, r, row)
            && !TakenByAutomation(old(store.automations), row.name, None)
      ==> ok && id !in old(store.automations) && store.automations == old(store.automations)[id := row]
  {
    hide RowSound, RowsSound, PartsOk, PassesChecks, OneAutomationSaved, DesignIs, PastIs, Collapse, Normalized, Fold;
    if !(forall name | name in r.conditionNames :: name in conditionIds) || !Mapped(r.stages, actionIds) {
      return false, 0;
    }
    var found, stages := Resolve(r.conditionNames, conditionIds), MapRawAll(r.stages, actionIds);
    ghost var rows := store.automations;
    var saved := store.SaveAutomation(r.name, r.settings, found, stages, None, now);
    ok := saved.Some?;
    if ok {
      SavedRowIsSound(store.conditions, store.actions, r.name, r.settings, found, stages, NEW_RUNTIME, now);
      OneMoreSoundRow(store.conditions, store.actions, rows, saved.value, store.automations[saved.value]);
    }
    id := if saved.Some? then saved.value else 0;
  }

  lemma NextIsPlanned(conditions: Defs, actions: Defs, conditionIds: IdMap,
                      actionIds: IdMap, now: Time, records: seq<Record>, k: nat, rowFor: Record -> AutomationRow,
                      rows: Rows)
    requires AllPlanned(conditions, actions, conditionIds, actionIds, now, records, rowFor)
    requires k < |records| && Kept(rows, records[..k], rowFor)
    ensures Planned(conditions, actions, conditionIds, actionIds, now, records[k], rowFor(records[k]))
    ensures !TakenByAutomation(rows, rowFor(records[k]).name, None)
  {
    NameIsFree(rows, records[..k], rowFor, records[k]);
  }

  /** One step of the loop over the automation records. */
  method SaveNext(store: DefinitionStore, records: seq<Record>, k: nat, conditionIds: IdMap,
                  actionIds: IdMap, now: Time, ghost rowFor: Record -> AutomationRow) returns (ok: bool)
    requires store.Valid() && k < |records| && records[k].Automation?
    requires RowsSound(store.conditions, store.actions, store.automations)
    modifies store
    ensures store.Valid() && store.conditions == old(store.conditions) && store.actions == old(store.actions)
    ensures RowsSound(store.conditions, store.actions, store.automations)
    ensures AllPlanned(store.conditions, store.actions, conditionIds, actionIds, now, records, rowFor)
            && Kept(old(store.automations), records[..k], rowFor)
      ==> ok && Kept(store.automations, records[..k + 1], rowFor)
  {
    hide Planned, RowSound, RowsSound;
    ghost var rows, id := store.automations, 0;
    ghost var ready := AllPlanned(store.conditions, store.actions, conditionIds, actionIds, now, records, rowFor)
      && Kept(rows, records[..k], rowFor);
    if ready {
      NextIsPlanned(store.conditions, store.actions, conditionIds, actionIds, now, records, k, rowFor, rows);
    }
    ok, id := SaveImported(store, records[k], conditionIds, actionIds, now, rowFor(records[k]));
    if ready {
      KeptOneMore(rows, records[..k], rowFor, id, records[k]);
      assert records[..k + 1] == records[..k] + [records[k]];
    }
  }

  method SaveAutomations(store: DefinitionStore, records: seq<Record>, conditionIds: IdMap,
                         actionIds: IdMap, now: Time, ghost rowFor: Record -> AutomationRow) returns (ok: bool)
    requires store.Valid() && store.automations == map[]
    requires forall k | 0 <= k < |records| :: records[k].Automation?
    modifies store
    ensures store.Valid() && store.conditions == old(store.conditions) && store.actions == old(store.actions)
    ensures RowsSound(store.conditions, store.actions, store.automations)
    ensures AllPlanned(store.conditions, store.actions, conditionIds, actionIds, now, records, rowFor)
      ==> ok && Kept(store.automations, records, rowFor)
  {
    for k := 0 to |records|
      invariant store.Valid() && store.conditions == old(store.conditions) && store.actions == old(store.actions)
      invariant RowsSound(store.conditions, store.actions, store.automations)
      invariant AllPlanned(store.conditions, store.actions, conditionIds, actionIds, now, records, rowFor)
        ==> Kept(store.automations, records[..k], rowFor)
    {
      ok := SaveNext(store, records, k, conditionIds, actionIds, now, rowFor);
      if !ok {
        return;
      }
    }
    assert records[..|records|] == records;
    ok := true;
  }

  // ----- the whole import -----

  function SetOf(records: seq<Record>): set<Record> { set r | r in records }

  predicate OnlyAutomations(records: seq<Record>, automations: seq<Record>) {
    && (forall k | 0 <= k < |automations| :: automations[k].Automation?)
    && (forall r | r in automations :: r in records)
    && (forall r | r in records && r.Automation? :: r in automations)
    && (Distinct(records) ==> Distinct(automations))
  }

  /** Sorts the records by kind; the last of several of a name counts. */
  method Collect(records: seq<Record>)
    returns (sources: Wanted, actions: Wanted, automations: seq<Record>)
    ensures forall name | name in sources :: Source(name, sources[name].0, sources[name].1) in records
    ensures forall name | name in actions :: Action(name, actions[name].0, actions[name].1) in records
    ensures forall r | r in records :: (r.Source? ==> r.name in sources) && (r.Action? ==> r.name in actions)
    ensures OnlyAutomations(records, automations)
  {
    sources, actions, automations := map[], map[], [];
    for k := 0 to |records|
      invariant forall name | name in sources :: Source(name, sources[name].0, sources[name].1) in records[..k]
      invariant forall name | name in actions :: Action(name, actions[name].0, actions[name].1) in records[..k]
      invariant forall r | r in records[..k] :: (r.Source? ==> r.name in sources) && (r.Action? ==> r.name in actions)
      invariant OnlyAutomations(records[..k], automations)
    {
      assert records[..k + 1] == records[..k] + [records[k]];
      match records[k]
      case Source(name, typeId, config) => sources := sources[name := (typeId, config)];
      case Action(name, typeId, config) => actions := actions[name := (typeId, config)];
      case Automation(_, _, _, _) =>
        assert Distinct(records[..k + 1]) ==> records[k] !in records[..k] by {
          if records[k] in records[..k] {
            var i :| 0 <= i < k && records[i] == records[k];
            assert records[..k + 1][i] == records[..k + 1][k];
          }
        }
        assert Distinct(records[..k + 1]) ==> Distinct(records[..k]) by {
          assert forall i | 0 <= i < k :: records[..k + 1][i] == records[..k][i];
        }
        automations := automations + [records[k]];
    }
    assert records[..|records|] == records;
  }

  lemma CollectedIndex(records: set<Record>, sources: Wanted, actions: Wanted)
    requires WellFormed(records)
    requires forall name | name in sources :: Source(name, sources[name].0, sources[name].1) in records
    requires forall name | name in actions :: Action(name, actions[name].0, actions[name].1) in records
    requires forall r | r in records :: (r.Source? ==> r.name in sources) && (r.Action? ==> r.name in actions)
    ensures Index(records, sources, actions) && NamesReady(sources) && NamesReady(actions)
  {
    forall r | r in records && r.Source?
      ensures sources[r.name] == (r.typeId, r.config)
    {
      assert SameKind(r, Source(r.name, sources[r.name].0, sources[r.name].1));
    }
    forall r | r in records && r.Action?
      ensures actions[r.name] == (r.typeId, r.config)
    {
      assert SameKind(r, Action(r.name, actions[r.name].0, actions[r.name].1));
    }
    forall m, n | m in sources && n in sources && Fold(m) == Fold(n)
      ensures m == n
    {
      assert SameKind(Source(m, sources[m].0, sources[m].1), Source(n, sources[n].0, sources[n].1));
    }
    forall m, n | m in actions && n in actions && Fold(m) == Fold(n)
      ensures m == n
    {
      assert SameKind(Action(m, actions[m].0, actions[m].1), Action(n, actions[n].0, actions[n].1));
    }
  }

  lemma {:induction false} RecordsHaveRows(records: seq<Record>, rowFor: Record -> AutomationRow, i: nat)
    requires i < |records|
    ensures rowFor(records[i]) in RowsOf(records, rowFor)
  {
    if i < |records| - 1 {
      RecordsHaveRows(records[..|records| - 1], rowFor, i);
    }
  }

  lemma KeptRecords(rows: Rows, records: seq<Record>, rowFor: Record -> AutomationRow,
                    record: AutomationRow -> Record, sound: AutomationRow -> bool)
    requires Kept(rows, records, rowFor)
    requires forall i | 0 <= i < |records| :: record(rowFor(records[i])) == records[i] && sound(rowFor(records[i]))
    ensures (set a | a in rows :: record(rows[a])) == SetOf(records)
    ensures forall a | a in rows :: sound(rows[a])
  {
    forall a | a in rows
      ensures record(rows[a]) in records && sound(rows[a])
    {
      assert rows[a] in rows.Values;
      RowsHaveRecords(records, rowFor, rows[a]);
    }
    forall r | r in records
      ensures r in (set a | a in rows :: record(rows[a]))
    {
      var i :| 0 <= i < |records| && records[i] == r;
      RecordsHaveRows(records, rowFor, i);
      var a :| a in rows && rows[a] == rowFor(r);
    }
  }

  predicate Has(defs: Defs, name: string, what: (string, string)) {
    exists id :: id in defs && defs[id].name == name && (defs[id].typeId, defs[id].config) == what
  }

  /** The definitions are exactly the wanted ones. */
  predicate Agree(defs: Defs, wanted: Wanted) {
    && (forall id | id in defs :: defs[id].name in wanted && wanted[defs[id].name] == (defs[id].typeId, defs[id].config))
    && (forall name | name in wanted :: Has(defs, name, wanted[name]))
  }

  lemma IndexedAgrees(defs: Defs, wanted: Wanted, ids: IdMap)
    requires Indexed(defs, wanted, ids) && ids.Keys == wanted.Keys && NamesReady(wanted)
    ensures NamesSound(defs) && Agree(defs, wanted)
  {
    forall name | name in wanted
      ensures Has(defs, name, wanted[name])
    {
      assert name in ids && defs[ids[name]].name == name;
    }
  }

  const NO_ROW := AutomationRow("", Settings(0, 0, 0, 0, ""), [], [], NEW_RUNTIME, 0.0)

  function RowMaker(conditionIds: IdMap, actionIds: IdMap, now: Time): Record -> AutomationRow {
    (r: Record) =>
      if r.Automation? && Normalized(MapRawAll(r.stages, actionIds), []).Ok? then RowFor(r, conditionIds, actionIds, now)
      else NO_ROW
  }

  /** Saved definitions under which well-formed records can be imported. */
  ghost predicate Prepared(conditions: Defs, actions: Defs, records: set<Record>,
                           sources: Wanted, wanted: Wanted,
                           conditionIds: IdMap, actionIds: IdMap)
  {
    && WellFormed(records) && Index(records, sources, wanted)
    && Indexed(conditions, sources, conditionIds) && conditionIds.Keys == sources.Keys
    && Indexed(actions, wanted, actionIds) && actionIds.Keys == wanted.Keys
  }

  lemma RecordIsPlanned(conditions: Defs, actions: Defs, records: set<Record>,
                        sources: Wanted, wanted: Wanted,
                        conditionIds: IdMap, actionIds: IdMap, r: Record, now: Time)
    requires Prepared(conditions, actions, records, sources, wanted, conditionIds, actionIds)
    requires r in records && r.Automation?
    ensures var row := RowMaker(conditionIds, actionIds, now)(r);
      && Planned(conditions, actions, conditionIds, actionIds, now, r, row) && row.name == r.name
      && RowSound(conditions, actions, row) && AutomationRecord(conditions, actions, row) == r
  {
    CompleteIsOk(records, sources, wanted, r);
    ImportedAutomation(conditions, actions, sources, wanted, conditionIds, actionIds, r, now);
  }

  lemma AutomationsArePlanned(conditions: Defs, actions: Defs, records: set<Record>,
                              sources: Wanted, wanted: Wanted,
                              conditionIds: IdMap, actionIds: IdMap, automations: seq<Record>, now: Time)
    requires Prepared(conditions, actions, records, sources, wanted, conditionIds, actionIds)
    requires forall k | 0 <= k < |automations| :: automations[k] in records && automations[k].Automation?
    requires Distinct(automations)
    ensures AllPlanned(conditions, actions, conditionIds, actionIds, now, automations, RowMaker(conditionIds, actionIds, now))
  {
    var rowFor := RowMaker(conditionIds, actionIds, now);
    forall k | 0 <= k < |automations|
      ensures Planned(conditions, actions, conditionIds, actionIds, now, automations[k], rowFor(automations[k]))
      ensures rowFor(automations[k]).name == automations[k].name
    {
      RecordIsPlanned(conditions, actions, records, sources, wanted, conditionIds, actionIds, automations[k], now);
    }
    forall i, j | 0 <= i < j < |automations|
      ensures Fold(automations[i].name) != Fold(automations[j].name)
    {
      assert automations[i] in records && automations[j] in records && SameKind(automations[i], automations[j]);
    }
  }

  lemma ImportedRows(t: Tables, records: set<Record>, sources: Wanted, wanted: Wanted,
                     conditionIds: IdMap, actionIds: IdMap, automations: seq<Record>, now: Time,
                     record: AutomationRow -> Record, sound: AutomationRow -> bool)
    requires Prepared(t.conditions, t.actions, records, sources, wanted, conditionIds, actionIds)
    requires forall r | r in automations :: r in records && r.Automation?
    requires Kept(t.automations, automations, RowMaker(conditionIds, actionIds, now))
    requires forall row :: record(row) == AutomationRecord(t.conditions, t.actions, row)
    requires forall row :: sound(row) == RowSound(t.conditions, t.actions, row)
    ensures (set a | a in t.automations :: record(t.automations[a])) == SetOf(automations)
    ensures forall a | a in t.automations :: sound(t.automations[a])
  {
    var rowFor := RowMaker(conditionIds, actionIds, now);
    forall k | 0 <= k < |automations|
      ensures record(rowFor(automations[k])) == automations[k] && sound(rowFor(automations[k]))
    {
      RecordIsPlanned(t.conditions, t.actions, records, sources, wanted, conditionIds, actionIds, automations[k], now);
    }
    KeptRecords(t.automations, automations, rowFor, record, sound);
  }

  lemma RowsAndRecords(t: Tables, records: set<Record>, sources: Wanted, wanted: Wanted,
                       conditionIds: IdMap, actionIds: IdMap, automations: seq<Record>, now: Time)
    requires Prepared(t.conditions, t.actions, records, sources, wanted, conditionIds, actionIds)
    requires forall r | r in automations :: r in records && r.Automation?
    requires Kept(t.automations, automations, RowMaker(conditionIds, actionIds, now))
    ensures AutomationRecords(t) == SetOf(automations)
    ensures forall a | a in t.automations :: RowSound(t.conditions, t.actions, t.automations[a])
  {
    var record := (row: AutomationRow) => AutomationRecord(t.conditions, t.actions, row);
    var sound := (row: AutomationRow) => RowSound(t.conditions, t.actions, row);
    ImportedRows(t, records, sources, wanted, conditionIds, actionIds, automations, now, record, sound);
    RecordsByFunction(t, record);
    SoundByFunction(t, sound);
  }

  lemma RecordsByFunction(t: Tables, record: AutomationRow -> Record)
    requires forall row :: record(row) == AutomationRecord(t.conditions, t.actions, row)
    ensures AutomationRecords(t) == set a | a in t.automations :: record(t.automations[a])
  {
  }

  lemma SoundByFunction(t: Tables, sound: AutomationRow -> bool)
    requires forall row :: sound(row) == RowSound(t.conditions, t.actions, row)
    requires forall a | a in t.automations :: sound(t.automations[a])
    ensures forall a | a in t.automations :: RowSound(t.conditions, t.actions, t.automations[a])
  {
  }

  lemma ImportedView(t: Tables, records: set<Record>, sources: Wanted, wanted: Wanted,
                     conditionIds: IdMap, actionIds: IdMap, automations: seq<Record>, now: Time)
    requires Prepared(t.conditions, t.actions, records, sources, wanted, conditionIds, actionIds)
    requires NamesReady(sources) && NamesReady(wanted)
    requires forall r :: r in automations <==> r in records && r.Automation?
    requires Kept(t.automations, automations, RowMaker(conditionIds, actionIds, now))
    ensures Sound(t) && View(t) == records
  {
    IndexedAgrees(t.conditions, sources, conditionIds);
    IndexedAgrees(t.actions, wanted, actionIds);
    RowsAndRecords(t, records, sources, wanted, conditionIds, actionIds, automations, now);
    DefinitionsView(t, records, sources, wanted, automations);
  }

  lemma DefinitionsView(t: Tables, records: set<Record>, sources: Wanted, wanted: Wanted,
                        automations: seq<Record>)
    requires Index(records, sources, wanted) && Agree(t.conditions, sources) && Agree(t.actions, wanted)
    requires AutomationRecords(t) == SetOf(automations)
    requires forall r :: r in automations <==> r in records && r.Automation?
    ensures View(t) == records
  {
    forall r | r in records
      ensures r in View(t)
    {
      if r.Source? {
        assert Has(t.conditions, r.name, sources[r.name]);
        var id :| id in t.conditions && t.conditions[id].name == r.name && (t.conditions[id].typeId, t.conditions[id].config) == sources[r.name];
        assert SourceRecord(t.conditions[id]) == r;
      } else if r.Action? {
        assert Has(t.actions, r.name, wanted[r.name]);
        var id :| id in t.actions && t.actions[id].name == r.name && (t.actions[id].typeId, t.actions[id].config) == wanted[r.name];
        assert ActionRecord(t.actions[id]) == r;
      }
    }
    forall id | id in t.conditions
      ensures SourceRecord(t.conditions[id]) in records
    {
      assert t.conditions[id].name in sources;
    }
    forall id | id in t.actions
      ensures ActionRecord(t.actions[id]) in records
    {
      assert t.actions[id].name in wanted;
    }
  }

  /** Replaces every definition. What was saved is sound even when the import fails half
      way; records that are listed once and well formed all come back out of the store,
      and nothing else does. */
  method ReplaceAll(store: DefinitionStore, records: seq<Record>, now: Time) returns (ok: bool)
    requires store.Valid()
    modifies store
    ensures store.Valid() && Sound(store.Contents())
    ensures Distinct(records) && WellFormed(SetOf(records)) ==> ok && View(store.Contents()) == SetOf(records)
    ensures Distinct(records) && WellFormed(SetOf(records)) ==> DescribedBy(store.Contents(), SetOf(records))
  {
    var sources, actions, automations := Collect(records);
    store.Clear();
    ghost var ready := Distinct(records) && WellFormed(SetOf(records));
    if ready {
      CollectedIndex(SetOf(records), sources, actions);
    }
    var conditionIds: IdMap, actionIds: IdMap;
    ok, conditionIds := SaveSources(store, sources, now);
    if !ok {
      return;
    }
    ok, actionIds := SaveActions(store, actions, now);
    if !ok {
      return;
    }
    if ready {
      AutomationsArePlanned(store.conditions, store.actions, SetOf(records), sources, actions, conditionIds, actionIds, automations, now);
    }
    ok := SaveAutomations(store, automations, conditionIds, actionIds, now, RowMaker(conditionIds, actionIds, now));
    if ready {
      ImportedView(store.Contents(), SetOf(records), sources, actions, conditionIds, actionIds, automations, now);
      ViewsDescribe(store.Contents());
    }
  }

  /** Exporting one store and replacing another (or the same one) with it gives the same
      definitions exactly if the exported records are well formed, as they always are
      when the exported store is sound. */
  method ExportThenReplace(from: DefinitionStore, to: DefinitionStore, now: Time) returns (ok: bool)
    requires to.Valid()
    modifies to
    ensures (ok && View(to.Contents()) == View(old(from.Contents()))) <==> WellFormed(View(old(from.Contents())))
    ensures Sound(old(from.Contents())) ==> ok && View(to.Contents()) == View(old(from.Contents()))
    ensures Sound(old(from.Contents())) ==>
      exists records: set<Record> :: DescribedBy(old(from.Contents()), records) && DescribedBy(to.Contents(), records)
    ensures to.Valid() && Sound(to.Contents())
  {
    ghost var view := View(from.Contents());
    if Sound(from.Contents()) {
      ViewsAreWellFormed(from.Contents());
      ViewsDescribe(from.Contents());
    }
    var records := Export(from);
    assert SetOf(records) == view;
    ok := ReplaceAll(to, records, now);
    ViewsAreWellFormed(to.Contents());
  }
}
