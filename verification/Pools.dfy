/** Worker pools shared by key: created by the first borrower, shut down after the last. */
module Pools {
  import opened Common

  /** Process, instance directory and kind. */
  type Key = (int, string, string)

  /** One pool record; `shutdowns` counts the calls of its executor's shutdown. */
  datatype Entry = Entry(key: Key, workers: int, users: int, shutdowns: nat)

  /** Where a borrower stands: inside its block, or past it with a shutdown still to do. */
  datatype Phase = Holding(entry: nat) | Closing(entry: nat)

  datatype State = State(table: map<Key, nat>, entries: seq<Entry>, borrows: map<nat, Phase>)

  datatype Event = Enter(borrow: nat, key: Key, workers: int) | Leave(borrow: nat) | Shutdown(borrow: nat)

  /** The pools with the dictionary the lock protects. */
  class SharedPools {
    var table: map<Key, nat>
    var entries: seq<Entry>
    var borrows: map<nat, Phase>

    ghost function Model(): State
      reads this
    {
      State(table, entries, borrows)
    }

    constructor ()
      ensures Model() == State(map[], [], map[])
    {
      table, entries, borrows := map[], [], map[];
    }

    /** The first locked block. An executor cannot be created without workers. */
    method Borrow(borrow: nat, key: Key, workerLimit: int) returns (entry: Option<nat>)
      requires Inv(Model()) && borrow !in borrows
      modifies this
      ensures Model() == Next(old(Model()), Enter(borrow, key, workerLimit))
      ensures entry.Some? <==> borrow in borrows
      ensures entry.Some? ==> borrows[borrow] == Holding(entry.value)
      ensures entry.Some? <==> key in old(table) || workerLimit > 0
      ensures entry.Some? ==> key in table && table[key] == entry.value < |entries| && entries[entry.value].key == key
      ensures entry.Some? && key in old(table) ==>
        entry.value == old(table)[key] && entries[entry.value].workers == old(entries)[entry.value].workers
      ensures entry.Some? && key !in old(table) ==> entry.value == |old(entries)| && entries[entry.value].workers == workerLimit
    {
      if key !in table {
        if workerLimit <= 0 {
          return None;
        }
        entries := entries + [Entry(key, workerLimit, 0, 0)];
        table := table[key := |entries| - 1];
      }
      var index := table[key];
      entries := entries[index := entries[index].(users := entries[index].users + 1)];
      borrows := borrows[borrow := Holding(index)];
      entry := Some(index);
    }

    /** The second locked block: the last user takes the pool out of the table. */
    method Return(borrow: nat) returns (last: bool)
      requires Inv(Model())
      requires borrow in borrows && borrows[borrow].Holding?
      modifies this
      ensures Model() == Next(old(Model()), Leave(borrow))
      ensures last <==> borrow in borrows
    {
      var index := borrows[borrow].entry;
      var key := entries[index].key;
      entries := entries[index := entries[index].(users := entries[index].users - 1)];
      last := entries[index].users == 0;
      if last {
        table := table - {key};
        borrows := borrows[borrow := Closing(index)];
      } else {
        borrows := borrows - {borrow};
      }
    }

    /** Outside the lock. */
    method ShutDown(borrow: nat)
      requires Inv(Model())
      requires borrow in borrows && borrows[borrow].Closing?
      modifies this
      ensures Model() == Next(old(Model()), Shutdown(borrow))
    {
      var index := borrows[borrow].entry;
      entries := entries[index := entries[index].(shutdowns := entries[index].shutdowns + 1)];
      borrows := borrows - {borrow};
    }
  }

  /** One locked block or one shutdown, by any of the borrowers; an event that does not
      fit where its borrower stands changes nothing. */
  function Next(s: State, e: Event): State {
    match e
    case Enter(b, key, workers) =>
      if b in s.borrows || (key !in s.table && workers <= 0) then s
      else
        var made := if key in s.table then s
          else s.(entries := s.entries + [Entry(key, workers, 0, 0)], table := s.table[key := |s.entries|]);
        made.(entries := Counted(made.entries, made.table[key], 1), borrows := s.borrows[b := Holding(made.table[key])])
    case Leave(b) =>
      if b !in s.borrows || !s.borrows[b].Holding? || s.borrows[b].entry >= |s.entries| then s
      else
        var index := s.borrows[b].entry;
        var counted := Counted(s.entries, index, -1);
        if counted[index].users == 0 then
          State(s.table - {s.entries[index].key}, counted, s.borrows[b := Closing(index)])
        else
          State(s.table, counted, s.borrows - {b})
    case Shutdown(b) =>
      if b !in s.borrows || !s.borrows[b].Closing? || s.borrows[b].entry >= |s.entries| then s
      else
        var index := s.borrows[b].entry;
        s.(entries := s.entries[index := s.entries[index].(shutdowns := s.entries[index].shutdowns + 1)],
           borrows := s.borrows - {b})
  }

  function Counted(entries: seq<Entry>, index: nat, change: int): (r: seq<Entry>)
    ensures |r| == |entries|
  {
    if index < |entries| then entries[index := entries[index].(users := entries[index].users + change)] else entries
  }

  function Run(events: seq<Event>): State {
    if events == [] then State(map[], [], map[])
    else Next(Run(events[..|events| - 1]), events[|events| - 1])
  }

  // ----- what holds after every interleaving -----

  function Holders(borrows: map<nat, Phase>, index: nat): set<nat> {
    set b | b in borrows && borrows[b] == Holding(index)
  }

  function Closers(borrows: map<nat, Phase>, index: nat): set<nat> {
    set b | b in borrows && borrows[b] == Closing(index)
  }

  /** A pool is in the table exactly while somebody holds it; it counts its holders; and
      once the last one left there is one shutdown, still to come or done. */
  predicate EntryOk(s: State, index: nat)
    requires index < |s.entries|
  {
    var e := s.entries[index];
    && e.users == |Holders(s.borrows, index)|
    && (e.users > 0 <==> e.key in s.table && s.table[e.key] == index)
    && e.shutdowns + |Closers(s.borrows, index)| == (if e.users > 0 then 0 else 1)
  }

  predicate Inv(s: State) {
    && (forall key | key in s.table :: s.table[key] < |s.entries| && s.entries[s.table[key]].key == key)
    && (forall b | b in s.borrows :: s.borrows[b].entry < |s.entries|)
    && (forall index | 0 <= index < |s.entries| :: EntryOk(s, index))
  }

  lemma HolderArrives(borrows: map<nat, Phase>, b: nat, entry: nat, index: nat)
    requires b !in borrows
    ensures var after := borrows[b := Holding(entry)];
      && |Holders(after, index)| == |Holders(borrows, index)| + (if index == entry then 1 else 0)
      && Closers(after, index) == Closers(borrows, index)
  {
    var after := borrows[b := Holding(entry)];
    assert Holders(after, index) == Holders(borrows, index) + (if index == entry then {b} else {});
  }

  lemma HolderGoes(borrows: map<nat, Phase>, b: nat, index: nat)
    requires b in borrows && borrows[b].Holding?
    ensures var gone := borrows - {b};
      && |Holders(gone, index)| == |Holders(borrows, index)| - (if index == borrows[b].entry then 1 else 0)
      && Closers(gone, index) == Closers(borrows, index)
  {
    assert Holders(borrows - {b}, index) == Holders(borrows, index) - (if index == borrows[b].entry then {b} else {});
  }

  lemma HolderCloses(borrows: map<nat, Phase>, b: nat, index: nat)
    requires b in borrows && borrows[b].Holding?
    ensures var entry, closing := borrows[b].entry, borrows[b := Closing(borrows[b].entry)];
      && |Holders(closing, index)| == |Holders(borrows, index)| - (if index == entry then 1 else 0)
      && |Closers(closing, index)| == |Closers(borrows, index)| + (if index == entry then 1 else 0)
  {
    var entry, closing := borrows[b].entry, borrows[b := Closing(borrows[b].entry)];
    assert Holders(closing, index) == Holders(borrows, index) - (if index == entry then {b} else {});
    assert Closers(closing, index) == Closers(borrows, index) + (if index == entry then {b} else {});
  }

  lemma CloserLeaves(borrows: map<nat, Phase>, b: nat, index: nat)
    requires b in borrows && borrows[b].Closing?
    ensures var gone := borrows - {b};
      && Holders(gone, index) == Holders(borrows, index)
      && |Closers(gone, index)| == |Closers(borrows, index)| - (if index == borrows[b].entry then 1 else 0)
  {
    assert Closers(borrows - {b}, index) == Closers(borrows, index) - (if index == borrows[b].entry then {b} else {});
  }

  lemma EnterKeepsInv(s: State, b: nat, key: Key, workers: int)
    requires Inv(s) && b !in s.borrows && (key in s.table || workers > 0)
    ensures Inv(Next(s, Enter(b, key, workers)))
  {
    var made := if key in s.table then s
      else s.(entries := s.entries + [Entry(key, workers, 0, 0)], table := s.table[key := |s.entries|]);
    var s' := Next(s, Enter(b, key, workers));
    var entry := made.table[key];
    forall index | 0 <= index < |s'.entries|
      ensures EntryOk(s', index)
    {
      HolderArrives(s.borrows, b, entry, index);
      if index < |s.entries| {
        assert EntryOk(s, index);
      } else {
        assert Holders(s.borrows, index) == {} && Closers(s.borrows, index) == {};
      }
    }
  }

  lemma LeaveKeepsInv(s: State, b: nat)
    requires Inv(s) && b in s.borrows && s.borrows[b].Holding?
    ensures Inv(Next(s, Leave(b)))
  {
    var s' := Next(s, Leave(b));
    var entry := s.borrows[b].entry;
    assert b in Holders(s.borrows, entry) && EntryOk(s, entry);
    forall index | 0 <= index < |s'.entries|
      ensures EntryOk(s', index)
    {
      HolderGoes(s.borrows, b, index);
      HolderCloses(s.borrows, b, index);
      assert EntryOk(s, index);
    }
  }

  lemma ShutdownKeepsInv(s: State, b: nat)
    requires Inv(s) && b in s.borrows && s.borrows[b].Closing?
    ensures Inv(Next(s, Shutdown(b)))
  {
    var s' := Next(s, Shutdown(b));
    forall index | 0 <= index < |s'.entries|
      ensures EntryOk(s', index)
    {
      CloserLeaves(s.borrows, b, index);
      assert EntryOk(s, index);
    }
  }

  lemma StepKeepsInv(s: State, e: Event)
    requires Inv(s)
    ensures Inv(Next(s, e))
  {
    match e
    case Enter(b, key, workers) => if b !in s.borrows && (key in s.table || workers > 0) { EnterKeepsInv(s, b, key, workers); }
    case Leave(b) => if b in s.borrows && s.borrows[b].Holding? { LeaveKeepsInv(s, b); }
    case Shutdown(b) => if b in s.borrows && s.borrows[b].Closing? { ShutdownKeepsInv(s, b); }
  }

  lemma {:induction false} EveryInterleavingKeepsInv(events: seq<Event>)
    ensures Inv(Run(events))
  {
    if events != [] {
      EveryInterleavingKeepsInv(events[..|events| - 1]);
      StepKeepsInv(Run(events[..|events| - 1]), events[|events| - 1]);
    }
  }

  /** The key a borrower is inside a block for. */
  predicate HoldsKey(s: State, b: nat, key: Key) {
    b in s.borrows && s.borrows[b].Holding? && s.borrows[b].entry < |s.entries| && s.entries[s.borrows[b].entry].key == key
  }

  /** After any interleaving: a pool is in the table exactly while its key has a holder;
      the holders of a key share one executor, which nobody has shut down; every other
      executor has been shut down once, or the borrower that left last is about to. */
  lemma HoldersShareALivePool(events: seq<Event>)
    ensures var s := Run(events);
      && (forall key :: key in s.table <==> exists b :: HoldsKey(s, b, key))
      && (forall b, c, key | HoldsKey(s, b, key) && HoldsKey(s, c, key) :: s.borrows[b] == s.borrows[c])
      && (forall b, key | HoldsKey(s, b, key) :: s.entries[s.borrows[b].entry].shutdowns == 0)
      && (forall k | 0 <= k < |s.entries| :: s.entries[k].shutdowns <= 1 && s.entries[k].users == |Holders(s.borrows, k)|)
      && (forall k | 0 <= k < |s.entries| ::
            s.entries[k].shutdowns == 1 <==> Holders(s.borrows, k) == {} && Closers(s.borrows, k) == {})
  {
    EveryInterleavingKeepsInv(events);
    var s := Run(events);
    forall b, key | HoldsKey(s, b, key)
      ensures key in s.table && s.table[key] == s.borrows[b].entry
      ensures s.entries[s.borrows[b].entry].shutdowns == 0
    {
      assert EntryOk(s, s.borrows[b].entry) && b in Holders(s.borrows, s.borrows[b].entry);
    }
    forall key | key in s.table
      ensures exists b :: HoldsKey(s, b, key)
    {
      var index := s.table[key];
      assert EntryOk(s, index);
      var b :| b in Holders(s.borrows, index);
      assert HoldsKey(s, b, key);
    }
    forall k | 0 <= k < |s.entries|
      ensures s.entries[k].shutdowns <= 1 && s.entries[k].users == |Holders(s.borrows, k)|
      ensures s.entries[k].shutdowns == 1 <==> Holders(s.borrows, k) == {} && Closers(s.borrows, k) == {}
    {
      assert EntryOk(s, k);
    }
  }

  /** When every borrower is done, no pool is left and each executor made was shut down once. */
  lemma NoPoolLeaks(events: seq<Event>)
    requires Run(events).borrows == map[]
    ensures Run(events).table == map[]
    ensures forall k | 0 <= k < |Run(events).entries| :: Run(events).entries[k].shutdowns == 1
  {
    HoldersShareALivePool(events);
    var s := Run(events);
    forall key
      ensures key !in s.table
    {
      assert forall b :: !HoldsKey(s, b, key);
    }
    forall k | 0 <= k < |s.entries|
      ensures s.entries[k].shutdowns == 1
    {
      assert Holders(s.borrows, k) == {} && Closers(s.borrows, k) == {};
    }
  }
}
