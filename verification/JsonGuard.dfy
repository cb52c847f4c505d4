/** The character-level JSON complexity guard, in both of its copies, and what it
    measures of a text of RFC 8259. */
module JsonGuard {
  import opened Common

  const MAX_DEPTH := 64

  // ----- the scanner as a function of the text -----

  datatype Mode = Mode(quoted: bool, escaped: bool, depth: int)

  const OUTSIDE := Mode(false, false, 0)

  function Step(m: Mode, c: char): Mode {
    if m.quoted then
      if m.escaped then m.(escaped := false)
      else if c == '\\' then m.(escaped := true)
      else if c == '"' then m.(quoted := false)
      else m
    else if c == '"' then m.(quoted := true)
    else if c == '[' || c == '{' then m.(depth := m.depth + 1)
    else if c == ']' || c == '}' then m.(depth := m.depth - 1)
    else m
  }

  /** What one character costs: opening a string or a container, and a separating comma. */
  function CharCost(m: Mode, c: char): nat {
    if !m.quoted && c in {'"', '[', '{', ','} then 1 else 0
  }

  function Scan(m: Mode, text: string): Mode
    decreases text
  {
    if text == "" then m else Scan(Step(m, text[0]), text[1..])
  }

  function Cost(m: Mode, text: string): nat
    decreases text
  {
    if text == "" then 0 else CharCost(m, text[0]) + Cost(Step(m, text[0]), text[1..])
  }

  /** The greatest depth on the way, the starting depth included. */
  function Peak(m: Mode, text: string): int
    decreases text
  {
    if text == "" then m.depth else Max(m.depth, Peak(Step(m, text[0]), text[1..]))
  }

  lemma {:induction false} ScanConcat(m: Mode, s: string, t: string)
    ensures Scan(m, s + t) == Scan(Scan(m, s), t)
    ensures Cost(m, s + t) == Cost(m, s) + Cost(Scan(m, s), t)
    ensures Peak(m, s + t) == Max(Peak(m, s), Peak(Scan(m, s), t))
    decreases s
  {
    if s == "" {
      assert s + t == t;
      PeakAtLeastDepth(m, t);
    } else {
      assert (s + t)[0] == s[0] && (s + t)[1..] == s[1..] + t;
      ScanConcat(Step(m, s[0]), s[1..], t);
    }
  }

  lemma PeakAtLeastDepth(m: Mode, t: string)
    ensures Peak(m, t) >= m.depth
  {
  }

  // ----- the two copies -----

  datatype Verdict = Accepted | TooDeep | TooComplex

  /** Shared by `Budget` and `CaseSnapshot`: the verdict on a text and what it leaves of
      the budget, character by character. */
  function Outcome(m: Mode, text: string, budget: int): (Verdict, int)
    decreases text
  {
    if text == "" then (Accepted, budget)
    else
      var m', left := Step(m, text[0]), budget - CharCost(m, text[0]);
      if m'.depth > m.depth && m'.depth > MAX_DEPTH then (TooDeep, left)
      else if left < 0 then (TooComplex, left)
      else Outcome(m', text[1..], left)
  }

  /** The verdict is decided by the peak depth and the total charge alone. */
  lemma {:induction false} VerdictMeasuresPeakAndCost(m: Mode, text: string, budget: int)
    requires budget >= 0 && m.depth <= MAX_DEPTH
    ensures Outcome(m, text, budget).0.Accepted? <==> Peak(m, text) <= 64 && Cost(m, text) <= budget
    ensures Outcome(m, text, budget).0.Accepted? ==> Outcome(m, text, budget).1 == budget - Cost(m, text)
    decreases text
  {
    if text != "" {
      var m', left := Step(m, text[0]), budget - CharCost(m, text[0]);
      PeakAtLeastDepth(m', text[1..]);
      if m'.depth <= MAX_DEPTH && left >= 0 {
        VerdictMeasuresPeakAndCost(m', text[1..], left);
      }
    }
  }

  /** The first `k` characters break neither limit. */
  predicate Passes(m: Mode, text: string, budget: int, k: nat)
    requires k <= |text|
  {
    Peak(m, text[..k]) <= MAX_DEPTH && Cost(m, text[..k]) <= budget
  }

  /** A rejected text is rejected at the first character that breaks a limit, for its depth
      if it is a container that goes too deep and for its complexity otherwise, and the
      budget has paid for exactly that much of it. */
  lemma {:induction false} RejectedAtTheFirstOffence(m: Mode, text: string, budget: int) returns (k: nat)
    requires budget >= 0 && m.depth <= MAX_DEPTH && !Outcome(m, text, budget).0.Accepted?
    ensures k < |text| && Passes(m, text, budget, k) && !Passes(m, text, budget, k + 1)
    ensures Outcome(m, text, budget) ==
      (if Peak(m, text[..k + 1]) > MAX_DEPTH then TooDeep else TooComplex, budget - Cost(m, text[..k + 1]))
    decreases text
  {
    var m', left := Step(m, text[0]), budget - CharCost(m, text[0]);
    if (m'.depth > m.depth && m'.depth > MAX_DEPTH) || left < 0 {
      k := 0;
      assert text[..1][1..] == "" && text[..0] == "";
    } else {
      k := RejectedAtTheFirstOffence(m', text[1..], left);
      PrefixMeasures(m, text, k + 1);
      PrefixMeasures(m, text, k + 2);
      k := k + 1;
    }
  }

  lemma PrefixMeasures(m: Mode, text: string, k: nat)
    requires 0 < k <= |text|
    ensures var m' := Step(m, text[0]);
      && Peak(m, text[..k]) == Max(m.depth, Peak(m', text[1..][..k - 1]))
      && Cost(m, text[..k]) == CharCost(m, text[0]) + Cost(m', text[1..][..k - 1])
  {
    assert text[..k][1..] == text[1..][..k - 1];
  }

  /** The budget of bounded backup source reads; without one every text passes. */
  class SourceBudget {
    var active: bool
    var complexity: int

    constructor (active: bool, complexity: int)
      ensures this.active == active && this.complexity == complexity
    {
      this.active, this.complexity := active, complexity;
    }

    method CheckedSourceJsonText(text: string) returns (verdict: Verdict)
      modifies this`complexity
      ensures !active ==> verdict == Accepted && complexity == old(complexity)
      ensures active ==> (verdict, complexity) == Outcome(OUTSIDE, text, old(complexity))
    {
      if !active {
        return Accepted;
      }
      var quoted, escaped, depth := false, false, 0;
      assert text[0..] == text;
      for i := 0 to |text|
        invariant Outcome(OUTSIDE, text, old(complexity)) == Outcome(Mode(quoted, escaped, depth), text[i..], complexity)
      {
        assert text[i..][0] == text[i] && text[i..][1..] == text[i + 1..];
        var c := text[i];
        if quoted {
          if escaped {
            escaped := false;
          } else if c == '\\' {
            escaped := true;
          } else if c == '"' {
            quoted := false;
          }
        } else if c == '"' {
          quoted := true;
          complexity := complexity - 1;
        } else if c == '[' || c == '{' {
          depth := depth + 1;
          complexity := complexity - 1;
          if depth > MAX_DEPTH {
            return TooDeep;
          }
        } else if c == ']' || c == '}' {
          depth := depth - 1;
        } else if c == ',' {
          complexity := complexity - 1;
        }
        if complexity < 0 {
          return TooComplex;
        }
      }
      verdict := Accepted;
    }
  }

  /** The counters of one case snapshot. */
  class CaseSnapshot {
    var remaining: int
    var complexity: int

    constructor (maximum: int)
      ensures remaining == maximum && complexity == 500_000
    {
      remaining, complexity := maximum, 500_000;
    }

    method Charge(size: nat) returns (ok: bool)
      modifies this`remaining
      ensures remaining == old(remaining) - size && (ok <==> size <= old(remaining))
    {
      remaining := remaining - size;
      ok := remaining >= 0;
    }

    method GuardJson(text: string) returns (verdict: Verdict)
      modifies this`complexity
      ensures (verdict, complexity) == Outcome(OUTSIDE, text, old(complexity))
    {
      var quoted, escaped, depth := false, false, 0;
      assert text[0..] == text;
      for i := 0 to |text|
        invariant Outcome(OUTSIDE, text, old(complexity)) == Outcome(Mode(quoted, escaped, depth), text[i..], complexity)
      {
        assert text[i..][0] == text[i] && text[i..][1..] == text[i + 1..];
        var c := text[i];
        if quoted {
          if escaped {
            escaped := false;
          } else if c == '\\' {
            escaped := true;
          } else if c == '"' {
            quoted := false;
          }
        } else if c == '"' {
          quoted := true;
          complexity := complexity - 1;
        } else if c == '[' || c == '{' {
          depth := depth + 1;
          complexity := complexity - 1;
          if depth > MAX_DEPTH {
            return TooDeep;
          }
        } else if c == ']' || c == '}' {
          depth := depth - 1;
        } else if c == ',' {
          complexity := complexity - 1;
        }
        if complexity < 0 {
          return TooComplex;
        }
      }
      verdict := Accepted;
    }
  }

  /** For the same remaining budget the two copies agree on every text. */
  method CopiesAgree(text: string, budget: int) returns (first: Verdict, second: Verdict)
    ensures first == second
    ensures budget >= 0 ==> (first.Accepted? <==> Peak(OUTSIDE, text) <= 64 && Cost(OUTSIDE, text) <= budget)
  {
    var source := new SourceBudget(true, budget);
    var snapshot := new CaseSnapshot(0);
    snapshot.complexity := budget;
    first := source.CheckedSourceJsonText(text);
    second := snapshot.GuardJson(text);
    if budget >= 0 {
      VerdictMeasuresPeakAndCost(OUTSIDE, text, budget);
    }
  }
}
