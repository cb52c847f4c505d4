/** Normalizing the stages of an automation, as they are saved and as they are read back. */
module Stages {
  import opened Common
  import opened Pipeline

  const MAX_DELAY := 86400

  /** A stage as a form, a backup or an old row gives it. `policy` and `delay` are None when
      the text is not a policy or not a whole number; a blank action id is None. */
  datatype RawStage<A> = RawStage(
    id: string, name: string, policy: Option<Policy>, delay: Option<int>, actions: seq<Option<A>>)

  datatype StageDef<A> = StageDef(id: string, name: string, policy: Policy, delay: int, actions: seq<A>)

  datatype Error = DuplicateId | LongName | UnknownPolicy | DelayNotWhole | DelayOutOfRange | NoActions

  datatype Outcome<A> = Ok(stages: seq<StageDef<A>>) | Err(error: Error)

  // ----- text -----

  predicate IsSpace(c: char) {
    var code := c as int;
    || 9 <= code <= 13 || 28 <= code <= 32 || code == 0x85 || code == 0xA0 || code == 0x1680
    || 0x2000 <= code <= 0x200A || code == 0x2028 || code == 0x2029 || code == 0x202F
    || code == 0x205F || code == 0x3000
  }

  function TrimLeft(s: string): string {
    if s != "" && IsSpace(s[0]) then TrimLeft(s[1..]) else s
  }

  function TrimRight(s: string): string {
    if s != "" && IsSpace(s[|s| - 1]) then TrimRight(s[..|s| - 1]) else s
  }

  function Trim(s: string): string { TrimRight(TrimLeft(s)) }

  predicate Trimmed(s: string) { s != "" ==> !IsSpace(s[0]) && !IsSpace(s[|s| - 1]) }

  function WordLength(s: string): (n: nat)
    ensures n <= |s| && (s != "" && !IsSpace(s[0]) ==> n > 0)
    ensures forall k | 0 <= k < n :: !IsSpace(s[k])
  {
    if s == "" || IsSpace(s[0]) then 0 else 1 + WordLength(s[1..])
  }

  function Split(s: string): seq<string>
    decreases |s|
  {
    if s == "" then []
    else if IsSpace(s[0]) then Split(s[1..])
    else [s[..WordLength(s)]] + Split(s[WordLength(s)..])
  }

  function Join(words: seq<string>): string {
    if words == [] then "" else words[0] + (if |words| == 1 then "" else " ") + Join(words[1..])
  }

  /** Words separated by single spaces. */
  function Collapse(s: string): string { Join(Split(s)) }

  predicate IsWord(w: string) { w != "" && forall k | 0 <= k < |w| :: !IsSpace(w[k]) }

  lemma {:induction false} SplitGivesWords(s: string)
    ensures forall w | w in Split(s) :: IsWord(w)
    decreases |s|
  {
    if s != "" {
      if IsSpace(s[0]) {
        SplitGivesWords(s[1..]);
      } else {
        SplitGivesWords(s[WordLength(s)..]);
      }
    }
  }

  lemma {:induction false} WordThenSpace(w: string, rest: string)
    requires forall k | 0 <= k < |w| :: !IsSpace(w[k])
    requires rest == "" || IsSpace(rest[0])
    ensures WordLength(w + rest) == |w|
  {
    if w == "" {
      assert w + rest == rest;
    } else {
      assert (w + rest)[1..] == w[1..] + rest;
      WordThenSpace(w[1..], rest);
    }
  }

  lemma {:induction false} SplitOfJoin(words: seq<string>)
    requires forall w | w in words :: IsWord(w)
    ensures Split(Join(words)) == words
  {
    if words != [] {
      var w, rest := words[0], (if |words| == 1 then "" else " ") + Join(words[1..]);
      assert IsWord(w);
      WordThenSpace(w, rest);
      SplitOfJoin(words[1..]);
      assert Join(words) == w + rest;
      assert (w + rest)[..|w|] == w && (w + rest)[|w|..] == rest;
      if |words| > 1 {
        assert rest[1..] == Join(words[1..]);
      }
    }
  }

  lemma CollapseTwice(s: string)
    ensures Collapse(Collapse(s)) == Collapse(s)
  {
    SplitGivesWords(s);
    SplitOfJoin(Split(s));
  }

  // What collapsing and trimming leave of a text.

  /** Characters one by one: white space is held back until the next word begins, and then
      stands for one space. */
  function Squeezed(s: string, gap: bool): string
    decreases s
  {
    if s == "" then ""
    else if IsSpace(s[0]) then Squeezed(s[1..], true)
    else (if gap then " " else "") + [s[0]] + Squeezed(s[1..], false)
  }

  lemma CollapseSqueezes(s: string)
    ensures Collapse(s) == Squeezed(TrimLeft(s), false)
  {
    SplitSkipsSpace(s);
    TrimLeftStarts(s);
    SqueezedIsJoined(TrimLeft(s));
  }

  lemma {:induction false} SplitSkipsSpace(s: string)
    ensures Split(s) == Split(TrimLeft(s))
  {
    if s != "" && IsSpace(s[0]) { SplitSkipsSpace(s[1..]); }
  }

  lemma {:induction false} SqueezedIsJoined(s: string)
    ensures Squeezed(s, true) == if Split(s) == [] then "" else " " + Join(Split(s))
    ensures s == "" || !IsSpace(s[0]) ==> Squeezed(s, false) == Join(Split(s))
    decreases |s|
  {
    hide IsSpace, Join;
    if s != "" {
      if IsSpace(s[0]) {
        SqueezedIsJoined(s[1..]);
      } else {
        SqueezedIsJoined(s[WordLength(s)..]);
        WordIsJoined(s);
      }
    } else {
      assert Join([]) == "" by { JoinNone(); }
    }
  }

  lemma JoinNone()
    ensures Join([]) == ""
  {
  }

  lemma WordIsJoined(s: string)
    requires s != "" && !IsSpace(s[0])
    requires var rest := s[WordLength(s)..]; Squeezed(rest, true) == if Split(rest) == [] then "" else " " + Join(Split(rest))
    ensures Squeezed(s, true) == " " + Join(Split(s)) && Squeezed(s, false) == Join(Split(s)) && Split(s) != []
  {
    hide Squeezed, Join, Split, IsSpace, WordLength;
    SplitWord(s);
    SqueezedWord(s);
    var n := WordLength(s);
    JoinWord(s[..n], Split(s[n..]));
  }

  lemma SplitWord(s: string)
    requires s != "" && !IsSpace(s[0])
    ensures Split(s) == [s[..WordLength(s)]] + Split(s[WordLength(s)..])
  {
  }

  lemma SqueezedWord(s: string)
    requires s != "" && !IsSpace(s[0])
    ensures var n := WordLength(s); var tail := Squeezed(s[n..], true);
      Squeezed(s, false) == s[..n] + tail && Squeezed(s, true) == " " + (s[..n] + tail)
  {
    hide Squeezed, WordLength, IsSpace;
    var n := WordLength(s);
    SqueezeWord(s, n, false);
    SqueezeWord(s, n, true);
    GapBeforeSpace(s);
    var tail := Squeezed(s[n..], true);
    assert "" + s[..n] + tail == s[..n] + tail && " " + s[..n] + tail == " " + (s[..n] + tail);
  }

  lemma JoinWord(word: string, words: seq<string>)
    ensures Join([word] + words) == word + if words == [] then "" else " " + Join(words)
  {
    assert ([word] + words)[1..] == words;
  }

  /** After a word the text ends or goes on with white space. */
  lemma GapBeforeSpace(s: string)
    ensures Squeezed(s[WordLength(s)..], false) == Squeezed(s[WordLength(s)..], true)
  {
    if WordLength(s) < |s| { WordEnds(s); }
  }

  lemma {:induction false} WordEnds(s: string)
    requires WordLength(s) < |s|
    ensures IsSpace(s[WordLength(s)])
  {
    if s != "" && !IsSpace(s[0]) { WordEnds(s[1..]); }
  }

  /** A word comes through as it is. */
  lemma {:induction false} SqueezeWord(s: string, n: nat, gap: bool)
    requires 0 < n <= |s| && forall k | 0 <= k < n :: !IsSpace(s[k])
    ensures Squeezed(s, gap) == (if gap then " " else "") + s[..n] + Squeezed(s[n..], false)
    decreases n
  {
    if n > 1 {
      SqueezeWord(s[1..], n - 1, false);
      assert s[..n] == [s[0]] + s[1..][..n - 1] && s[1..][n - 1..] == s[n..];
    } else {
      assert s[..1] == [s[0]];
    }
  }

  predicate AllSpace(s: string) { forall k | 0 <= k < |s| :: IsSpace(s[k]) }

  /** Trimming takes white space from both ends and nothing else. */
  lemma {:induction false} TrimTakesOnlySpace(s: string) returns (left: string, right: string)
    ensures s == left + Trim(s) + right && AllSpace(left) && AllSpace(right) && Trimmed(Trim(s))
  {
    TrimGivesTrimmed(s);
    left := LeftPart(s);
    right := RightPart(TrimLeft(s));
    assert left + TrimLeft(s) == left + (Trim(s) + right) == left + Trim(s) + right;
  }

  lemma {:induction false} LeftPart(s: string) returns (left: string)
    ensures s == left + TrimLeft(s) && AllSpace(left)
  {
    if s != "" && IsSpace(s[0]) {
      left := LeftPart(s[1..]);
      left := [s[0]] + left;
    } else {
      left := "";
    }
  }

  lemma {:induction false} RightPart(s: string) returns (right: string)
    ensures s == TrimRight(s) + right && AllSpace(right)
  {
    if s != "" && IsSpace(s[|s| - 1]) {
      right := RightPart(s[..|s| - 1]);
      assert s == s[..|s| - 1] + [s[|s| - 1]];
      right := right + [s[|s| - 1]];
    } else {
      right := "";
    }
  }

  lemma {:induction false} TrimGivesTrimmed(s: string)
    ensures Trimmed(Trim(s))
  {
    TrimLeftStarts(s);
    TrimRightEnds(TrimLeft(s));
  }

  lemma {:induction false} TrimLeftStarts(s: string)
    ensures TrimLeft(s) != "" ==> !IsSpace(TrimLeft(s)[0])
  {
    if s != "" && IsSpace(s[0]) { TrimLeftStarts(s[1..]); }
  }

  lemma {:induction false} TrimRightEnds(s: string)
    ensures TrimRight(s) <= s && (TrimRight(s) != "" ==> !IsSpace(TrimRight(s)[|TrimRight(s)| - 1]))
  {
    if s != "" && IsSpace(s[|s| - 1]) { TrimRightEnds(s[..|s| - 1]); }
  }

  function Decimal(n: nat): (s: string)
    ensures s != "" && forall k | 0 <= k < |s| :: '0' <= s[k] <= '9'
  {
    if n < 10 then [('0' as int + n) as char] else Decimal(n / 10) + Decimal(n % 10)
  }

  function Reads(digits: string): int {
    if digits == "" then 0 else 10 * Reads(digits[..|digits| - 1]) + (digits[|digits| - 1] as int - '0' as int)
  }

  lemma {:induction false} DecimalReads(n: nat)
    ensures Reads(Decimal(n)) == n
  {
    if n >= 10 {
      DecimalReads(n / 10);
      var s := Decimal(n);
      assert s[..|s| - 1] == Decimal(n / 10) && s[|s| - 1] as int - '0' as int == n % 10;
    }
  }

  // ----- one stage -----

  function Present<A>(actions: seq<Option<A>>): seq<A> {
    if actions == [] then []
    else (if actions[0].Some? then [actions[0].value] else []) + Present(actions[1..])
  }

  datatype Single<A> = Accepted(stage: StageDef<A>) | Rejected(error: Error)

  /** The stage with 1-based position `index`, after stages with the ids `seen`. */
  function NormalizeOne<A>(raw: RawStage<A>, index: nat, seen: set<string>): Single<A> {
    var id := if Trim(raw.id) == "" then "stage-" + Decimal(index) else Trim(raw.id);
    var name := if Collapse(raw.name) == "" then "Stage " + Decimal(index) else Collapse(raw.name);
    if id in seen || |id| > 80 then Rejected(DuplicateId)
    else if |name| > 100 then Rejected(LongName)
    else if raw.policy.None? then Rejected(UnknownPolicy)
    else if raw.delay.None? then Rejected(DelayNotWhole)
    else if !(0 <= raw.delay.value <= MAX_DELAY) then Rejected(DelayOutOfRange)
    else if Present(raw.actions) == [] then Rejected(NoActions)
    else Accepted(StageDef(id, name, raw.policy.value, if index == 1 then 0 else raw.delay.value, Present(raw.actions)))
  }

  /** The final stage's policy is never evaluated: one that an old editor put there, and
      nowhere before, belongs to the transition into that stage. */
  function Repair<A>(stages: seq<StageDef<A>>): (r: seq<StageDef<A>>)
    ensures |r| == |stages|
  {
    var n := |stages|;
    if n > 1 && stages[n - 1].policy != AllCompleted && stages[n - 2].policy == AllCompleted then
      stages[..n - 2] + [stages[n - 2].(policy := stages[n - 1].policy), stages[n - 1].(policy := AllCompleted)]
    else stages
  }

  function Ids<A>(stages: seq<StageDef<A>>): set<string> {
    set k | 0 <= k < |stages| :: stages[k].id
  }

  function NormalizeFrom<A>(raw: seq<RawStage<A>>, done: seq<StageDef<A>>): Outcome<A>
    decreases |raw|
  {
    if raw == [] then Ok(done)
    else match NormalizeOne(raw[0], |done| + 1, Ids(done))
      case Rejected(error) => Err(error)
      case Accepted(stage) => NormalizeFrom(raw[1..], done + [stage])
  }

  function DefaultStage<A>(legacyActions: seq<Option<A>>): RawStage<A> {
    RawStage("stage-1", "Stage 1", Some(AllCompleted), Some(0), legacyActions)
  }

  function Normalized<A>(raw: seq<RawStage<A>>, legacyActions: seq<Option<A>>): Outcome<A> {
    var raw := if raw == [] then [DefaultStage(legacyActions)] else raw;
    match NormalizeFrom(raw, [])
    case Err(error) => Err(error)
    case Ok(stages) => Ok(Repair(stages))
  }

  method Normalize<A>(stages: seq<RawStage<A>>, legacyActions: seq<Option<A>>) returns (r: Outcome<A>)
    ensures r == Normalized(stages, legacyActions)
    ensures r.Ok? ==> Normal(r.stages)
  {
    hide NormalizeOne, Normal;
    var raw := if stages == [] then [DefaultStage(legacyActions)] else stages;
    var normalized: seq<StageDef<A>> := [];
    var seen: set<string> := {};
    for index := 0 to |raw|
      invariant |normalized| == index && seen == Ids(normalized)
      invariant NormalizeFrom(raw[index..], normalized) == NormalizeFrom(raw, [])
    {
      assert raw[index..][0] == raw[index] && raw[index..][1..] == raw[index + 1..];
      match NormalizeOne(raw[index], index + 1, seen)
      case Rejected(error) =>
        return Err(error);
      case Accepted(stage) =>
        assert Ids(normalized + [stage]) == seen + {stage.id} by { IdsOfOneMore(normalized, stage); }
        seen := seen + {stage.id};
        normalized := normalized + [stage];
    }
    var last := |normalized| - 1;
    ghost var before := normalized;
    if last > 0 && normalized[last].policy != AllCompleted && normalized[last - 1].policy == AllCompleted {
      normalized := normalized[last - 1 := normalized[last - 1].(policy := normalized[last].policy)];
      normalized := normalized[last := normalized[last].(policy := AllCompleted)];
      assert normalized == Repair(before);
    }
    r := Ok(normalized);
    NormalizedIsNormal(stages, legacyActions);
  }

  lemma IdsOfOneMore<A>(stages: seq<StageDef<A>>, stage: StageDef<A>)
    ensures Ids(stages + [stage]) == Ids(stages) + {stage.id}
  {
    var more := stages + [stage];
    assert forall k | 0 <= k < |stages| :: more[k] == stages[k];
    assert more[|stages|] == stage;
  }

  // ----- what is normal, and that normalizing again changes nothing -----

  predicate NormalStage<A>(stage: StageDef<A>, index: nat) {
    && Trimmed(stage.id) && 0 < |stage.id| <= 80
    && Collapse(stage.name) == stage.name && 0 < |stage.name| <= 100
    && 0 <= stage.delay <= MAX_DELAY && (index == 0 ==> stage.delay == 0)
    && stage.actions != []
  }

  predicate FinalPolicyIdle<A>(stages: seq<StageDef<A>>) {
    var n := |stages|;
    n > 1 && stages[n - 2].policy == AllCompleted ==> stages[n - 1].policy == AllCompleted
  }

  predicate Normal<A>(stages: seq<StageDef<A>>) {
    && stages != [] && FinalPolicyIdle(stages)
    && (forall k | 0 <= k < |stages| :: NormalStage(stages[k], k))
    && (forall i, j | 0 <= i < j < |stages| :: stages[i].id != stages[j].id)
  }

  function Somes<A>(actions: seq<A>): (r: seq<Option<A>>)
    ensures |r| == |actions| && forall k | 0 <= k < |r| :: r[k] == Some(actions[k])
  {
    if actions == [] then [] else [Some(actions[0])] + Somes(actions[1..])
  }

  /** Stages as they are stored and exported. */
  function Raw<A>(stage: StageDef<A>): RawStage<A> {
    RawStage(stage.id, stage.name, Some(stage.policy), Some(stage.delay), Somes(stage.actions))
  }

  function RawAll<A>(stages: seq<StageDef<A>>): (r: seq<RawStage<A>>)
    ensures |r| == |stages| && forall k | 0 <= k < |r| :: r[k] == Raw(stages[k])
  {
    if stages == [] then [] else [Raw(stages[0])] + RawAll(stages[1..])
  }

  lemma {:induction false} PresentOfAll<A>(actions: seq<A>)
    ensures Present(Somes(actions)) == actions
  {
    if actions != [] {
      PresentOfAll(actions[1..]);
      assert Somes(actions)[1..] == Somes(actions[1..]);
    }
  }

  lemma {:induction false} OneIsNormal<A>(raw: RawStage<A>, index: nat, seen: set<string>)
    requires index > 0 && NormalizeOne(raw, index, seen).Accepted?
    ensures var stage := NormalizeOne(raw, index, seen).stage;
      NormalStage(stage, index - 1) && stage.id !in seen
  {
    TrimGivesTrimmed(raw.id);
    CollapseTwice(raw.name);
    DefaultsAreNormal(index);
  }

  lemma DigitsAreAWord(digits: string)
    requires digits != "" && forall k | 0 <= k < |digits| :: '0' <= digits[k] <= '9'
    ensures IsWord(digits) && Trimmed("stage-" + digits)
  {
    forall k | 0 <= k < |digits|
      ensures !IsSpace(digits[k])
    {
      assert 48 <= digits[k] as int <= 57;
    }
    var id := "stage-" + digits;
    assert id[0] == 's' && id[|id| - 1] == digits[|digits| - 1];
  }

  lemma TwoWords(first: string, second: string)
    requires IsWord(first) && IsWord(second)
    ensures Collapse(first + " " + second) == first + " " + second
  {
    var words := [first, second];
    assert words[1..] == [second] && [second][1..] == [];
    assert Join([second]) == second;
    assert Join(words) == first + " " + second;
    SplitOfJoin(words);
  }

  lemma DefaultsAreNormal(index: nat)
    ensures Trimmed("stage-" + Decimal(index)) && Collapse("Stage " + Decimal(index)) == "Stage " + Decimal(index)
  {
    DigitsAreAWord(Decimal(index));
    TwoWords("Stage", Decimal(index));
    assert "Stage" + " " + Decimal(index) == "Stage " + Decimal(index);
  }

  lemma {:induction false} FromIsNormal<A>(raw: seq<RawStage<A>>, done: seq<StageDef<A>>)
    requires forall k | 0 <= k < |done| :: NormalStage(done[k], k)
    requires forall i, j | 0 <= i < j < |done| :: done[i].id != done[j].id
    requires NormalizeFrom(raw, done).Ok?
    ensures var stages := NormalizeFrom(raw, done).stages;
      && |stages| == |done| + |raw|
      && (forall k | 0 <= k < |stages| :: NormalStage(stages[k], k))
      && (forall i, j | 0 <= i < j < |stages| :: stages[i].id != stages[j].id)
    decreases |raw|
  {
    if raw != [] {
      OneIsNormal(raw[0], |done| + 1, Ids(done));
      var stage := NormalizeOne(raw[0], |done| + 1, Ids(done)).stage;
      assert forall k | 0 <= k < |done| :: done[k].id in Ids(done);
      FromIsNormal(raw[1..], done + [stage]);
    }
  }

  lemma NormalizedIsNormal<A>(raw: seq<RawStage<A>>, legacyActions: seq<Option<A>>)
    requires Normalized(raw, legacyActions).Ok?
    ensures Normal(Normalized(raw, legacyActions).stages)
  {
    var given := if raw == [] then [DefaultStage(legacyActions)] else raw;
    FromIsNormal(given, []);
    RepairIsNormal(NormalizeFrom(given, []).stages);
  }

  lemma RepairIsNormal<A>(stages: seq<StageDef<A>>)
    requires stages != [] && forall k | 0 <= k < |stages| :: NormalStage(stages[k], k)
    requires forall i, j | 0 <= i < j < |stages| :: stages[i].id != stages[j].id
    ensures Normal(Repair(stages))
  {
    var repaired := Repair(stages);
    forall k | 0 <= k < |stages|
      ensures NormalStage(repaired[k], k) && repaired[k].id == stages[k].id
    {
      assert NormalStage(stages[k], k);
    }
  }

  /** Normal stages pass unchanged, and only they do. */
  lemma NormalStagesAreFixed<A>(stages: seq<StageDef<A>>, legacyActions: seq<Option<A>>)
    requires stages != []
    ensures Normalized(RawAll(stages), legacyActions) == Ok(stages) <==> Normal(stages)
  {
    if Normal(stages) {
      assert [] + stages == stages;
      FromKeeps([], stages);
    } else if Normalized(RawAll(stages), legacyActions).Ok? {
      NormalizedIsNormal(RawAll(stages), legacyActions);
    }
  }

  lemma {:induction false} FromKeeps<A>(done: seq<StageDef<A>>, rest: seq<StageDef<A>>)
    requires Normal(done + rest)
    ensures NormalizeFrom(RawAll(rest), done) == Ok(done + rest)
    decreases |rest|
  {
    if rest == [] {
      assert done + rest == done;
    } else {
      StagePasses(done, rest);
      assert (done + [rest[0]]) + rest[1..] == done + rest;
      FromKeeps(done + [rest[0]], rest[1..]);
      assert RawAll(rest)[1..] == RawAll(rest[1..]);
    }
  }

  lemma StagePasses<A>(done: seq<StageDef<A>>, rest: seq<StageDef<A>>)
    requires Normal(done + rest) && rest != []
    ensures NormalizeOne(Raw(rest[0]), |done| + 1, Ids(done)) == Accepted(rest[0])
  {
    var all, stage := done + rest, rest[0];
    assert all[|done|] == stage && NormalStage(stage, |done|);
    PresentOfAll(stage.actions);
    assert Trim(stage.id) == stage.id;
    assert forall k | 0 <= k < |done| :: all[k] == done[k];
    assert stage.id !in Ids(done);
  }

  /** Saving what was read back changes nothing, the repair of old rows included. */
  lemma NormalizingTwice<A>(raw: seq<RawStage<A>>, legacyActions: seq<Option<A>>, otherActions: seq<Option<A>>)
    requires Normalized(raw, legacyActions).Ok?
    ensures var once := Normalized(raw, legacyActions);
      Normalized(RawAll(once.stages), otherActions) == once
  {
    NormalizedIsNormal(raw, legacyActions);
    NormalStagesAreFixed(Normalized(raw, legacyActions).stages, otherActions);
  }

  // ----- what normalizing makes of each stage, and which stages it refuses -----

  function IdOf<A>(given: seq<RawStage<A>>, k: nat): string
    requires k < |given|
  {
    if Trim(given[k].id) != "" then Trim(given[k].id) else "stage-" + Decimal(k + 1)
  }

  function NameOf<A>(given: seq<RawStage<A>>, k: nat): string
    requires k < |given|
  {
    if Collapse(given[k].name) != "" then Collapse(given[k].name) else "Stage " + Decimal(k + 1)
  }

  /** What is wrong with a stage, if anything; the first complaint counts. */
  function Defect<A>(given: seq<RawStage<A>>, k: nat): Option<Error>
    requires k < |given|
  {
    if (exists j | 0 <= j < k :: IdOf(given, j) == IdOf(given, k)) || |IdOf(given, k)| > 80 then Some(DuplicateId)
    else if |NameOf(given, k)| > 100 then Some(LongName)
    else if given[k].policy.None? then Some(UnknownPolicy)
    else if given[k].delay.None? then Some(DelayNotWhole)
    else if given[k].delay.value < 0 || given[k].delay.value > 86400 then Some(DelayOutOfRange)
    else if forall n | 0 <= n < |given[k].actions| :: given[k].actions[n].None? then Some(NoActions)
    else None
  }

  /** A stage as it is kept, but for its policy. */
  ghost predicate KeptAs<A>(given: seq<RawStage<A>>, k: nat, stage: StageDef<A>)
    requires k < |given|
  {
    && stage.id == IdOf(given, k) && stage.name == NameOf(given, k)
    && (given[k].delay.Some? ==> stage.delay == if k == 0 then 0 else given[k].delay.value)
    && stage.actions == Present(given[k].actions)
  }

  /** Present actions come one after the other, blank ones leave nothing. */
  lemma {:induction false} PresentOneMore<A>(actions: seq<Option<A>>, last: Option<A>)
    ensures Present(actions + [last]) == Present(actions) + (if last.Some? then [last.value] else [])
    ensures Present(actions) == [] <==> forall n | 0 <= n < |actions| :: actions[n].None?
    ensures forall n | 0 <= n < |actions| && actions[n].Some? :: actions[n].value in Present(actions)
  {
    if actions == [] {
      assert [last][1..] == [];
    } else {
      PresentOneMore(actions[1..], last);
      assert (actions + [last])[1..] == actions[1..] + [last];
      forall n | 0 <= n < |actions| && actions[n].Some?
        ensures actions[n].value in Present(actions)
      {
        if n > 0 { assert actions[n] == actions[1..][n - 1]; }
      }
      if Present(actions) == [] {
        assert forall n | 1 <= n < |actions| :: actions[n] == actions[1..][n - 1];
      }
      if forall n | 0 <= n < |actions| :: actions[n].None? {
        assert forall n | 0 <= n < |actions[1..]| :: actions[1..][n] == actions[n + 1];
      }
    }
  }

  /** The first `k` stages as they are kept before the repair. */
  ghost predicate DoneSoFar<A>(given: seq<RawStage<A>>, done: seq<StageDef<A>>) {
    && |done| <= |given|
    && forall k | 0 <= k < |done| ::
         Defect(given, k).None? && KeptAs(given, k, done[k]) && given[k].policy == Some(done[k].policy)
  }

  lemma SeenBefore<A>(given: seq<RawStage<A>>, done: seq<StageDef<A>>)
    requires DoneSoFar(given, done) && |done| < |given|
    ensures IdOf(given, |done|) in Ids(done) <==> exists j | 0 <= j < |done| :: IdOf(given, j) == IdOf(given, |done|)
  {
    hide Defect, IdOf, NameOf;
    assert forall j | 0 <= j < |done| :: done[j].id == IdOf(given, j);
  }

  lemma OneStage<A>(given: seq<RawStage<A>>, k: nat, seen: set<string>)
    requires k < |given| && (IdOf(given, k) in seen <==> exists j | 0 <= j < k :: IdOf(given, j) == IdOf(given, k))
    ensures match NormalizeOne(given[k], k + 1, seen)
      case Rejected(error) => Defect(given, k) == Some(error)
      case Accepted(stage) => Defect(given, k).None? && KeptAs(given, k, stage) && given[k].policy == Some(stage.policy)
  {
    hide Trim, Collapse, Decimal, Present;
    PresentOneMore(given[k].actions, None);
  }

  lemma NextStage<A>(given: seq<RawStage<A>>, done: seq<StageDef<A>>)
    requires DoneSoFar(given, done) && |done| < |given|
    ensures match NormalizeOne(given[|done|], |done| + 1, Ids(done))
      case Rejected(error) => Defect(given, |done|) == Some(error)
      case Accepted(stage) => Defect(given, |done|).None? && DoneSoFar(given, done + [stage])
  {
    hide NormalizeOne, Defect, KeptAs, IdOf, Ids;
    SeenBefore(given, done);
    OneStage(given, |done|, Ids(done));
  }

  lemma {:induction false} StagesOneByOne<A>(given: seq<RawStage<A>>, done: seq<StageDef<A>>) returns (k: nat)
    requires DoneSoFar(given, done)
    ensures match NormalizeFrom(given[|done|..], done)
      case Ok(stages) => |stages| == |given| && DoneSoFar(given, stages)
      case Err(error) => k < |given| && Defect(given, k) == Some(error) && forall j | 0 <= j < k :: Defect(given, j).None?
    decreases |given| - |done|
  {
    k := |done|;
    var rest := given[|done|..];
    if rest != [] {
      NextStage(given, done);
      var one := NormalizeOne(given[k], k + 1, Ids(done));
      assert rest[0] == given[k] && rest[1..] == given[k + 1..];
      if one.Accepted? {
        k := StagesOneByOne(given, done + [one.stage]);
      }
    }
  }

  /** Normalizing, stage by stage: it refuses with the complaint about the first stage that
      has one, and otherwise keeps every stage with its trimmed id or a numbered one, its
      collapsed name or a numbered one, its delay unless it is the first, its present
      actions and its policy; only a policy that stands on the last of several stages moves
      to the one before, if that one has none of its own. */
  lemma NormalizingKeepsWhatIsGiven<A>(raw: seq<RawStage<A>>, legacyActions: seq<Option<A>>)
    ensures var given := if raw != [] then raw
                         else [RawStage("stage-1", "Stage 1", Some(AllCompleted), Some(0), legacyActions)];
      match Normalized(raw, legacyActions)
      case Err(error) =>
        exists k :: 0 <= k < |given| && Defect(given, k) == Some(error) && forall j | 0 <= j < k :: Defect(given, j).None?
      case Ok(stages) =>
        && |stages| == |given|
        && (forall k | 0 <= k < |given| :: Defect(given, k).None? && KeptAs(given, k, stages[k]))
        && var n := |given|;
           var moves := n > 1 && given[n - 1].policy != Some(AllCompleted) && given[n - 2].policy == Some(AllCompleted);
           forall k | 0 <= k < n :: Some(stages[k].policy) ==
             if moves && k == n - 2 then given[n - 1].policy else if moves && k == n - 1 then Some(AllCompleted) else given[k].policy
  {
    var given := if raw != [] then raw else [DefaultStage(legacyActions)];
    assert given[0..] == given;
    var k := StagesOneByOne(given, []);
    match NormalizeFrom(given, [])
    case Err(error) =>
    case Ok(stages) => RepairMovesThePolicy(given, stages);
  }

  lemma RepairMovesThePolicy<A>(given: seq<RawStage<A>>, stages: seq<StageDef<A>>)
    requires DoneSoFar(given, stages) && |stages| == |given|
    ensures var r, n := Repair(stages), |given|;
      && (forall k | 0 <= k < n :: KeptAs(given, k, r[k]))
      && var moves := n > 1 && given[n - 1].policy != Some(AllCompleted) && given[n - 2].policy == Some(AllCompleted);
         forall k | 0 <= k < n :: Some(r[k].policy) ==
           if moves && k == n - 2 then given[n - 1].policy else if moves && k == n - 1 then Some(AllCompleted) else given[k].policy
  {
    hide Defect, KeptAs, Repair;
    var r, n := Repair(stages), |given|;
    RepairChangesPolicies(stages);
    forall k | 0 <= k < n
      ensures KeptAs(given, k, r[k])
      ensures given[k].policy == Some(stages[k].policy)
    {
      KeptWhateverThePolicy(given, k, stages[k], r[k].policy);
    }
  }

  lemma KeptWhateverThePolicy<A>(given: seq<RawStage<A>>, k: nat, stage: StageDef<A>, policy: Policy)
    requires k < |given| && KeptAs(given, k, stage)
    ensures KeptAs(given, k, stage.(policy := policy))
  {
  }

  lemma RepairChangesPolicies<A>(stages: seq<StageDef<A>>)
    ensures var r, n := Repair(stages), |stages|;
      && (forall k | 0 <= k < n :: r[k] == stages[k].(policy := r[k].policy))
      && var moves := n > 1 && stages[n - 1].policy != AllCompleted && stages[n - 2].policy == AllCompleted;
         forall k | 0 <= k < n :: r[k].policy ==
           if moves && k == n - 2 then stages[n - 1].policy else if moves && k == n - 1 then AllCompleted else stages[k].policy
  {
  }

  // ----- renaming the actions of stages -----

  function MapActions<A(==), B>(actions: seq<Option<A>>, m: map<A, B>): (r: seq<Option<B>>)
    ensures |r| == |actions|
    ensures forall k | 0 <= k < |r| && actions[k].Some? && actions[k].value in m :: r[k] == Some(m[actions[k].value])
  {
    if actions == [] then []
    else [if actions[0].Some? && actions[0].value in m then Some(m[actions[0].value]) else None] + MapActions(actions[1..], m)
  }

  function MapRaw<A(==), B>(stage: RawStage<A>, m: map<A, B>): RawStage<B> {
    RawStage(stage.id, stage.name, stage.policy, stage.delay, MapActions(stage.actions, m))
  }

  function MapRawAll<A(==), B>(stages: seq<RawStage<A>>, m: map<A, B>): (r: seq<RawStage<B>>)
    ensures |r| == |stages| && forall k | 0 <= k < |r| :: r[k] == MapRaw(stages[k], m)
  {
    if stages == [] then [] else [MapRaw(stages[0], m)] + MapRawAll(stages[1..], m)
  }

  /** Stages that normalizing leaves as they are. */
  predicate Fixed<A(==)>(stages: seq<RawStage<A>>) {
    stages != [] && Normalized(stages, []).Ok? && RawAll(Normalized(stages, []).stages) == stages
  }

  /** Every action of the stages has a name in the map. */
  predicate Mapped<A(==), B>(stages: seq<RawStage<A>>, m: map<A, B>) {
    forall k, n | 0 <= k < |stages| && 0 <= n < |stages[k].actions| ::
      stages[k].actions[n].Some? && stages[k].actions[n].value in m
  }

  function MapStage<A(==), B>(stage: StageDef<A>, m: map<A, B>): StageDef<B> {
    StageDef(stage.id, stage.name, stage.policy, stage.delay, Present(MapActions(Somes(stage.actions), m)))
  }

  lemma {:induction false} MapOfSomes<A, B>(actions: seq<A>, m: map<A, B>)
    requires forall k | 0 <= k < |actions| :: actions[k] in m
    ensures Somes(Present(MapActions(Somes(actions), m))) == MapActions(Somes(actions), m)
    ensures |Present(MapActions(Somes(actions), m))| == |actions|
  {
    if actions != [] {
      assert Somes(actions)[1..] == Somes(actions[1..]);
      MapOfSomes(actions[1..], m);
      var mapped := MapActions(Somes(actions), m);
      assert mapped[1..] == MapActions(Somes(actions[1..]), m);
      assert Present(mapped) == [m[actions[0]]] + Present(mapped[1..]);
      assert Somes(Present(mapped)) == [Some(m[actions[0]])] + Somes(Present(mapped[1..])) by {
        assert Present(mapped)[1..] == Present(mapped[1..]);
      }
    }
  }

  function MapStages<A(==), B>(stages: seq<StageDef<A>>, m: map<A, B>): (r: seq<StageDef<B>>)
    ensures |r| == |stages| && forall k | 0 <= k < |r| :: r[k] == MapStage(stages[k], m)
  {
    if stages == [] then [] else [MapStage(stages[0], m)] + MapStages(stages[1..], m)
  }

  lemma NormalStagesMap<A, B>(stages: seq<StageDef<A>>, m: map<A, B>)
    requires Normal(stages) && forall k | 0 <= k < |stages| :: forall n | 0 <= n < |stages[k].actions| :: stages[k].actions[n] in m
    ensures Normal(MapStages(stages, m))
    ensures forall k | 0 <= k < |stages| :: Raw(MapStages(stages, m)[k]) == MapRaw(Raw(stages[k]), m)
  {
    var mapped := MapStages(stages, m);
    forall k | 0 <= k < |stages|
      ensures NormalStage(mapped[k], k) && mapped[k].id == stages[k].id && Raw(mapped[k]) == MapRaw(Raw(stages[k]), m)
    {
      assert NormalStage(stages[k], k);
      MapOfSomes(stages[k].actions, m);
    }
  }

  /** Renaming the actions keeps stages fixed. */
  lemma FixedStagesMap<A, B>(stages: seq<RawStage<A>>, m: map<A, B>)
    requires Fixed(stages) && Mapped(stages, m)
    ensures Fixed(MapRawAll(stages, m))
  {
    var normal := Normalized(stages, []).stages;
    NormalizedIsNormal(stages, []);
    forall k | 0 <= k < |normal|
      ensures forall n | 0 <= n < |normal[k].actions| :: normal[k].actions[n] in m
    {
      assert stages[k] == Raw(normal[k]);
      assert forall n | 0 <= n < |normal[k].actions| :: stages[k].actions[n] == Some(normal[k].actions[n]);
    }
    MappedIsFixed(normal, stages, m);
  }

  lemma MappedIsFixed<A, B>(normal: seq<StageDef<A>>, stages: seq<RawStage<A>>, m: map<A, B>)
    requires Normal(normal) && RawAll(normal) == stages
    requires forall k | 0 <= k < |normal| :: forall n | 0 <= n < |normal[k].actions| :: normal[k].actions[n] in m
    ensures Fixed(MapRawAll(stages, m))
  {
    NormalStagesMap(normal, m);
    NormalStagesAreFixed(MapStages(normal, m), []);
    assert RawAll(MapStages(normal, m)) == MapRawAll(stages, m);
  }

  lemma MapBack<A, B>(stages: seq<RawStage<A>>, m: map<A, B>, back: map<B, A>)
    requires Mapped(stages, m)
    requires forall a | a in m :: m[a] in back && back[m[a]] == a
    ensures MapRawAll(MapRawAll(stages, m), back) == stages
  {
    var there := MapRawAll(stages, m);
    forall k | 0 <= k < |stages|
      ensures MapRaw(there[k], back) == stages[k]
    {
      assert MapActions(there[k].actions, back) == stages[k].actions;
    }
  }

  lemma NormalizedIsFixed<A>(raw: seq<RawStage<A>>)
    requires Normalized(raw, []).Ok?
    ensures Fixed(RawAll(Normalized(raw, []).stages))
  {
    NormalizedIsNormal(raw, []);
    NormalizingTwice(raw, [], []);
  }
}
