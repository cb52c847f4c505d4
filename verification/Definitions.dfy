/** The definition tables of the automation store and the three save operations. */
module Definitions {
  import opened Common
  import opened Stages

  type Id = nat

  datatype Definition = Definition(name: string, typeId: string, config: string, createdAt: Time, updatedAt: Time)

  datatype Settings = Settings(interval: int, triggerAfter: int, recoverAfter: int, cooldown: int, operator: string)

  datatype Runtime = Runtime(enabled: bool, state: string, met: nat, clear: nat, nextCheckAt: Option<Time>,
                             pendingAt: Option<Time>, lastCheckAt: Option<Time>, lastTriggeredAt: Option<Time>)

  datatype AutomationRow = AutomationRow(name: string, settings: Settings, conditionIds: seq<Id>,
                                         stages: seq<RawStage<Id>>, runtime: Runtime, updatedAt: Time)

  type Defs = map<Id, Definition>

  type Rows = map<Id, AutomationRow>

  /** `events` holds one row an automation; `history` names the automation of each run and check. */
  datatype Tables = Tables(
    conditions: Defs, actions: Defs, automations: Rows,
    events: map<Id, string>, history: map<nat, Id>)

  const EMPTY_TABLES := Tables(map[], map[], map[], map[], map[])

  const TRIGGERS := {"schedule.calendar", "manual.trigger", "system.startup", "network.interface_change"}

  // ----- names -----

  predicate UniqueNames(defs: Defs) {
    forall i, j | i in defs && j in defs && Fold(defs[i].name) == Fold(defs[j].name) :: i == j
  }

  predicate Taken(defs: Defs, name: string, own: Option<Id>) {
    exists id :: id in defs && own != Some(id) && Fold(defs[id].name) == Fold(name)
  }

  predicate TakenByAutomation(automations: Rows, name: string, own: Option<Id>) {
    exists id :: id in automations && own != Some(id) && Fold(automations[id].name) == Fold(name)
  }

  predicate NameOk(name: string) { 2 <= |Collapse(name)| <= 100 }

  // ----- saving a condition or an action -----

  predicate Savable(defs: Defs, name: string, own: Option<Id>) {
    && NameOk(name) && !Taken(defs, Collapse(name), own)
    && (own.Some? ==> own.value in defs)
  }

  function Saved(defs: Defs, id: Id, name: string, typeId: string, config: string, now: Time): Defs {
    defs[id := Definition(Collapse(name), typeId, config, if id in defs then defs[id].createdAt else now, now)]
  }

  function ActionIdsOf(stages: seq<RawStage<Id>>): set<Id> {
    set k, n | 0 <= k < |stages| && 0 <= n < |stages[k].actions| && stages[k].actions[n].Some? :: stages[k].actions[n].value
  }

  function Paused(row: AutomationRow, now: Time): AutomationRow {
    row.(runtime := row.runtime.(enabled := false, state := "disabled", met := 0, clear := 0,
                                 nextCheckAt := None, pendingAt := None),
         updatedAt := now)
  }

  function PauseUsers(automations: Rows, users: set<Id>, now: Time): Rows {
    map id | id in automations :: if id in users then Paused(automations[id], now) else automations[id]
  }

  function ConditionUsers(automations: Rows, condition: Id): set<Id> {
    set id | id in automations && condition in automations[id].conditionIds
  }

  function ActionUsers(automations: Rows, action: Id): set<Id> {
    set id | id in automations && action in ActionIdsOf(automations[id].stages)
  }

  /** What a save of something it uses leaves of an automation: switched off, with nothing
      counted and nothing awaited; its design and its past stay. */
  predicate SwitchedOff(was: AutomationRow, row: AutomationRow, now: Time) {
    && SavedOff(row, now)
    && row.runtime.lastCheckAt == was.runtime.lastCheckAt && row.runtime.lastTriggeredAt == was.runtime.lastTriggeredAt
    && row.name == was.name && row.settings == was.settings && row.conditionIds == was.conditionIds
    && row.stages == was.stages
  }

  predicate UsesAction(row: AutomationRow, action: Id) {
    exists k, n | 0 <= k < |row.stages| && 0 <= n < |row.stages[k].actions| :: row.stages[k].actions[n] == Some(action)
  }

  /** Every automation of which `used` holds was switched off, and every other one stays. */
  ghost predicate OnlySwitchedOff(was: Rows, rows: Rows, used: set<Id>, now: Time) {
    && rows.Keys == was.Keys && used <= was.Keys
    && (forall a | a in used :: SwitchedOff(was[a], rows[a], now))
    && (forall a | a in rows && a !in used :: rows[a] == was[a])
  }

  /** A definition was saved under `id`, its creation time kept if it was there, and no
      other definition changed. */
  ghost predicate OneSaved(was: Defs, defs: Defs, id: Id, name: string, typeId: string, config: string, now: Time) {
    && defs.Keys == was.Keys + {id}
    && defs[id].name == Collapse(name) && defs[id].typeId == typeId && defs[id].config == config
    && defs[id].updatedAt == now && defs[id].createdAt == (if id in was then was[id].createdAt else now)
    && (forall i | i in was && i != id :: defs[i] == was[i])
  }

  lemma PausedIsSwitchedOff(automations: Rows, users: set<Id>, now: Time)
    requires users <= automations.Keys
    ensures OnlySwitchedOff(automations, PauseUsers(automations, users, now), users, now)
  {
  }

  /** Of the names, ignoring case, no other definition has this one. */
  predicate NameIsUnused(defs: Defs, name: string, own: Option<Id>) {
    forall i | i in defs && own != Some(i) :: Fold(defs[i].name) != Fold(name)
  }

  predicate AutomationNameIsUnused(automations: Rows, name: string, own: Option<Id>) {
    forall i | i in automations && own != Some(i) :: Fold(automations[i].name) != Fold(name)
  }

  // ----- saving an automation -----

  function Deduped(ids: seq<Id>): (r: seq<Id>)
    ensures forall id :: id in r <==> id in ids
    ensures forall i, j | 0 <= i < j < |r| :: r[i] != r[j]
  {
    if ids == [] then []
    else
      var before := Deduped(ids[..|ids| - 1]);
      var last := ids[|ids| - 1];
      assert ids == ids[..|ids| - 1] + [last];
      if last in before then before else before + [last]
  }

  /** `x` occurs in `ids` before any `y`. */
  predicate Earlier(ids: seq<Id>, x: Id, y: Id) {
    exists k | 0 <= k < |ids| :: ids[k] == x && y !in ids[..k + 1]
  }

  /** Repeated ids go, and the first occurrences stay in their order. */
  lemma {:induction false} DedupedKeepsOrder(ids: seq<Id>, i: nat, j: nat)
    requires i < j < |Deduped(ids)|
    ensures Earlier(ids, Deduped(ids)[i], Deduped(ids)[j])
  {
    var before, last := ids[..|ids| - 1], ids[|ids| - 1];
    var r := Deduped(before);
    if j < |r| {
      DedupedKeepsOrder(before, i, j);
      var k :| 0 <= k < |before| && before[k] == r[i] && r[j] !in before[..k + 1];
      assert ids[..k + 1] == before[..k + 1];
    } else {
      assert r[i] in r && r[i] in before;
      var k :| 0 <= k < |before| && before[k] == r[i];
      assert ids[k] == r[i] && forall m | 0 <= m < k + 1 :: ids[m] == before[m];
      assert last !in ids[..k + 1] by {
        assert last !in before;
      }
    }
  }

  predicate SettingsOk(s: Settings) {
    && 1 <= s.interval <= 86400 && 1 <= s.triggerAfter <= 100 && 1 <= s.recoverAfter <= 100
    && 0 <= s.cooldown <= 604800 && s.operator in {"all", "any"}
  }

  /** Conditions exist, are not too many, and a trigger stands alone. */
  predicate ConditionsOk(conditions: Defs, ids: seq<Id>) {
    && 1 <= |ids| <= 10
    && (forall id | id in ids :: id in conditions)
    && (forall id | id in ids :: conditions[id].typeId in TRIGGERS ==> |ids| == 1)
  }

  predicate StagesOk(actions: Defs, stages: seq<RawStage<Id>>) {
    && stages != [] && Normalized(stages, []).Ok?
    && ActionIdsOf(RawAll(Normalized(stages, []).stages)) <= actions.Keys
  }

  /** What saving checks besides the name being free. */
  predicate PartsOk(conditions: Defs, actions: Defs, name: string, settings: Settings,
                    conditionIds: seq<Id>, stages: seq<RawStage<Id>>)
  {
    NameOk(name) && SettingsOk(settings) && ConditionsOk(conditions, Deduped(conditionIds)) && StagesOk(actions, stages)
  }

  predicate SavableAutomation(t: Tables, name: string, settings: Settings, conditionIds: seq<Id>,
                              stages: seq<RawStage<Id>>, own: Option<Id>)
  {
    && PartsOk(t.conditions, t.actions, name, settings, conditionIds, stages)
    && !TakenByAutomation(t.automations, Collapse(name), own)
    && (own.Some? ==> own.value in t.automations)
  }

  predicate SettingsInRange(s: Settings) {
    && 1 <= s.interval <= 86400 && 1 <= s.triggerAfter <= 100 && 1 <= s.recoverAfter <= 100
    && 0 <= s.cooldown <= 604800 && (s.operator == "all" || s.operator == "any")
  }

  /** One to ten existing conditions, and a trigger only by itself. */
  predicate ConditionsFit(conditions: Defs, ids: seq<Id>) {
    && 1 <= |ids| <= 10
    && (forall k | 0 <= k < |ids| :: ids[k] in conditions)
    && (|ids| > 1 ==> forall k | 0 <= k < |ids| :: conditions[ids[k]].typeId !in TRIGGERS)
  }

  /** What saving an automation checks: a name of 2 to 100 characters that no other one
      has, settings in range, fitting conditions, and stages of known actions. */
  predicate PassesChecks(t: Tables, name: string, settings: Settings, conditionIds: seq<Id>,
                         stages: seq<RawStage<Id>>, own: Option<Id>)
  {
    && 2 <= |Collapse(name)| <= 100 && SettingsInRange(settings)
    && ConditionsFit(t.conditions, Deduped(conditionIds)) && ActionsFit(t.actions, stages)
    && AutomationNameIsUnused(t.automations, Collapse(name), own)
    && (own.Some? ==> own.value in t.automations)
  }

  /** The stages are there, can be normalized, and name only actions there are. */
  predicate ActionsFit(actions: Defs, stages: seq<RawStage<Id>>) {
    && stages != [] && Normalized(stages, []).Ok?
    && var kept := Normalized(stages, []).stages;
       forall k, n | 0 <= k < |kept| && 0 <= n < |kept[k].actions| :: kept[k].actions[n] in actions
  }

  lemma ActionsFitExactly(actions: Defs, stages: seq<RawStage<Id>>)
    ensures ActionsFit(actions, stages) <==> StagesOk(actions, stages)
  {
    hide Normalized;
    if stages != [] && Normalized(stages, []).Ok? {
      var kept := Normalized(stages, []).stages;
      forall k, n | 0 <= k < |kept| && 0 <= n < |kept[k].actions|
        ensures RawAll(kept)[k].actions[n] == Some(kept[k].actions[n])
        ensures kept[k].actions[n] in ActionIdsOf(RawAll(kept))
      {
        assert RawAll(kept)[k] == Raw(kept[k]);
        assert RawAll(kept)[k].actions[n].Some?;
      }
    }
  }

  lemma SavableAutomationSpelledOut(t: Tables, name: string, settings: Settings, conditionIds: seq<Id>,
                                    stages: seq<RawStage<Id>>, own: Option<Id>)
    ensures SavableAutomation(t, name, settings, conditionIds, stages, own) <==> PassesChecks(t, name, settings, conditionIds, stages, own)
    ensures SavableAutomation(t, name, settings, conditionIds, stages, own) ==> Normalized(stages, []).Ok? && (own.Some? ==> own.value in t.automations)
  {
    ActionsFitExactly(t.actions, stages);
    hide Normalized, Collapse, Deduped, ActionIdsOf, ActionsFit;
  }

  /** One row was saved, switched off, and the others are as they were. */
  ghost predicate OneAutomationSaved(was: Rows, rows: Rows, id: Id, now: Time) {
    && rows.Keys == was.Keys + {id} && SavedOff(rows[id], now)
    && forall a | a in rows && a != id :: rows[a] == was[a]
  }

  predicate DesignIs(row: AutomationRow, name: string, settings: Settings, conditionIds: seq<Id>, stages: seq<RawStage<Id>>) {
    && row.name == Collapse(name) && row.settings == settings && row.conditionIds == Deduped(conditionIds)
    && Normalized(stages, []).Ok? && row.stages == RawAll(Normalized(stages, []).stages)
  }

  /** When the automation was last checked and last fired is kept. */
  predicate PastIs(row: AutomationRow, was: Option<AutomationRow>) {
    && row.runtime.lastCheckAt == (if was.Some? then was.value.runtime.lastCheckAt else None)
    && row.runtime.lastTriggeredAt == (if was.Some? then was.value.runtime.lastTriggeredAt else None)
  }

  /** A saved automation is off, with nothing counted and nothing awaited. */
  predicate SavedOff(row: AutomationRow, now: Time) {
    && !row.runtime.enabled && row.runtime.state == "disabled" && row.runtime.met == 0 && row.runtime.clear == 0
    && row.runtime.nextCheckAt.None? && row.runtime.pendingAt.None? && row.updatedAt == now
  }

  const NEW_RUNTIME := Runtime(false, "disabled", 0, 0, None, None, None, None)

  function SavedRow(name: string, settings: Settings, conditionIds: seq<Id>, stages: seq<RawStage<Id>>,
                    runtime: Runtime, now: Time): AutomationRow
    requires Normalized(stages, []).Ok?
  {
    AutomationRow(Collapse(name), settings, Deduped(conditionIds), RawAll(Normalized(stages, []).stages), runtime, now)
  }

  class DefinitionStore {
    var conditions: Defs
    var actions: Defs
    var automations: Rows
    var events: map<Id, string>
    var history: map<nat, Id>
    var nextId: Id  // identifiers are random in the original; here they only have to be new

    function Contents(): Tables
      reads this
    {
      Tables(conditions, actions, automations, events, history)
    }

    predicate Valid()
      reads this
    {
      && (forall id | id in conditions :: id < nextId)
      && (forall id | id in actions :: id < nextId)
      && (forall id | id in automations :: id < nextId)
    }

    constructor ()
      ensures Valid() && Contents() == EMPTY_TABLES
    {
      conditions, actions, automations, events, history, nextId := map[], map[], map[], map[], map[], 0;
    }

    method NewId() returns (id: Id)
      requires Valid()
      modifies this`nextId
      ensures Valid() && old(nextId) == id < nextId
    {
      id := nextId;
      nextId := nextId + 1;
    }

    method SaveCondition(name: string, typeId: string, config: string, own: Option<Id>, now: Time) returns (id: Option<Id>)
      requires Valid()
      modifies this
      ensures Valid() && (id.Some? <==> Savable(old(conditions), name, own))
      ensures id.None? ==> Contents() == old(Contents())
      ensures id.Some? ==> if own.Some? then id == own else id.value !in old(conditions)
      ensures id.Some? ==> Contents() == old(Contents()).(
        conditions := Saved(old(conditions), id.value, name, typeId, config, now),
        automations := if own.Some? then PauseUsers(old(automations), ConditionUsers(old(automations), own.value), now) else old(automations))
      ensures id.Some? <==>
        (2 <= |Collapse(name)| <= 100 && NameIsUnused(old(conditions), Collapse(name), own)
         && (own.Some? ==> own.value in old(conditions)))
      ensures id.Some? ==> OneSaved(old(conditions), conditions, id.value, name, typeId, config, now)
      ensures id.Some? && own.Some? ==>
        OnlySwitchedOff(old(automations), automations, (set a | a in old(automations) && own.value in old(automations)[a].conditionIds), now)
    {
      if !Savable(conditions, name, own) {
        return None;
      }
      if own.Some? {
        conditions := Saved(conditions, own.value, name, typeId, config, now);
        PausedIsSwitchedOff(automations, ConditionUsers(automations, own.value), now);
        automations := PauseUsers(automations, ConditionUsers(automations, own.value), now);
        return own;
      }
      var added := NewId();
      conditions := Saved(conditions, added, name, typeId, config, now);
      return Some(added);
    }

    method SaveAction(name: string, typeId: string, config: string, own: Option<Id>, now: Time) returns (id: Option<Id>)
      requires Valid()
      modifies this
      ensures Valid() && (id.Some? <==> Savable(old(actions), name, own))
      ensures id.None? ==> Contents() == old(Contents())
      ensures id.Some? ==> if own.Some? then id == own else id.value !in old(actions)
      ensures id.Some? ==> Contents() == old(Contents()).(
        actions := Saved(old(actions), id.value, name, typeId, config, now),
        automations := if own.Some? then PauseUsers(old(automations), ActionUsers(old(automations), own.value), now) else old(automations))
      ensures id.Some? <==>
        (2 <= |Collapse(name)| <= 100 && NameIsUnused(old(actions), Collapse(name), own)
         && (own.Some? ==> own.value in old(actions)))
      ensures id.Some? ==> OneSaved(old(actions), actions, id.value, name, typeId, config, now)
      ensures id.Some? && own.Some? ==>
        OnlySwitchedOff(old(automations), automations, (set a | a in old(automations) && UsesAction(old(automations)[a], own.value)), now)
    {
      if !Savable(actions, name, own) {
        return None;
      }
      if own.Some? {
        actions := Saved(actions, own.value, name, typeId, config, now);
        PausedIsSwitchedOff(automations, ActionUsers(automations, own.value), now);
        automations := PauseUsers(automations, ActionUsers(automations, own.value), now);
        return own;
      }
      var added := NewId();
      actions := Saved(actions, added, name, typeId, config, now);
      return Some(added);
    }

    /** A changed automation is switched off and forgets the event it waited for; when it
        was last checked and last fired stays. */
    method SaveAutomation(name: string, settings: Settings, conditionIds: seq<Id>, stages: seq<RawStage<Id>>,
                          own: Option<Id>, now: Time) returns (id: Option<Id>)
      requires Valid()
      modifies this
      ensures Valid() && (id.Some? <==> SavableAutomation(old(Contents()), name, settings, conditionIds, stages, own))
      ensures id.None? ==> Contents() == old(Contents())
      ensures id.Some? ==> if own.Some? then id == own else id.value !in old(automations)
      ensures id.Some? ==> Contents() == old(Contents()).(
        automations := old(automations)[id.value := SavedRow(name, settings, conditionIds, stages,
          if own.Some? then Paused(old(automations)[own.value], now).runtime else NEW_RUNTIME, now)],
        events := if own.Some? then old(events) - {own.value} else old(events))
      ensures id.Some? <==> PassesChecks(old(Contents()), name, settings, conditionIds, stages, own)
      ensures id.Some? ==>
        && id.value in automations && OneAutomationSaved(old(automations), automations, id.value, now)
        && DesignIs(automations[id.value], name, settings, conditionIds, stages)
        && PastIs(automations[id.value], if own.Some? && own.value in old(automations) then Some(old(automations)[own.value]) else None)
    {
      SavableAutomationSpelledOut(Contents(), name, settings, conditionIds, stages, own);
      hide PassesChecks, SavableAutomation, StagesOk, Normalized, Collapse, Deduped;
      if !SavableAutomation(Contents(), name, settings, conditionIds, stages, own) {
        return None;
      }
      var runtime := if own.Some? then Paused(automations[own.value], now).runtime else NEW_RUNTIME;
      var row := SavedRow(name, settings, conditionIds, stages, runtime, now);
      if own.Some? {
        automations := automations[own.value := row];
        events := events - {own.value};
        return own;
      }
      var added := NewId();
      automations := automations[added := row];
      return Some(added);
    }

    /** History and events go with their automations. */
    method Clear()
      modifies this
      ensures Contents() == EMPTY_TABLES && (old(Valid()) ==> Valid())
    {
      automations, events, history := map[], map[], map[];
      conditions, actions := map[], map[];
    }
  }
}
