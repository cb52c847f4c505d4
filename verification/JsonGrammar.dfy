/** JSON texts by the grammar of RFC 8259, sections 2 to 7, and what the complexity
    guard measures of every one of them. */
module JsonGrammar {
  import opened Common
  import opened JsonGuard

  // ----- texts: a value together with one of its legal spellings -----

  datatype StrPart = Plain(c: char) | Escaped(c: char) | Unicode(h1: char, h2: char, h3: char, h4: char)

  datatype Exponent = Exponent(mark: char, sign: string, digits: string)

  datatype Json =
    | Literal(name: string)
    | Number(minus: bool, whole: string, fraction: Option<string>, exponent: Option<Exponent>)
    | Text(parts: seq<StrPart>)
    | Array(pad: string, items: Items)
    | Object(pad: string, members: Members)

  datatype Items = NoItem | Item(before: string, value: Json, after: string, rest: Items)

  datatype Members =
    | NoMember
    | Member(before: string, key: seq<StrPart>, between: string, lead: string, value: Json, after: string, rest: Members)

  predicate IsSpace(c: char) { c == ' ' || c == '\t' || c == '\n' || c == '\r' }

  predicate Space(s: string) { forall c | c in s :: IsSpace(c) }

  predicate IsDigit(c: char) { '0' <= c <= '9' }

  predicate Digits(s: string) { s != "" && forall c | c in s :: IsDigit(c) }

  predicate IsHex(c: char) { IsDigit(c) || 'a' <= c <= 'f' || 'A' <= c <= 'F' }

  predicate LegalPart(p: StrPart) {
    match p
    case Plain(c) => c >= ' ' && c != '"' && c != '\\'
    case Escaped(c) => c in {'"', '\\', '/', 'b', 'f', 'n', 'r', 't'}
    case Unicode(h1, h2, h3, h4) => IsHex(h1) && IsHex(h2) && IsHex(h3) && IsHex(h4)
  }

  predicate LegalText(parts: seq<StrPart>) { forall p | p in parts :: LegalPart(p) }

  predicate Legal(j: Json) {
    match j
    case Literal(name) => name in {"null", "true", "false"}
    case Number(minus, whole, fraction, exponent) =>
      && Digits(whole) && (whole[0] == '0' ==> |whole| == 1)
      && (fraction.Some? ==> Digits(fraction.value))
      && (exponent.Some? ==> exponent.value.mark in {'e', 'E'} && exponent.value.sign in {"", "+", "-"}
                             && Digits(exponent.value.digits))
    case Text(parts) => LegalText(parts)
    case Array(pad, items) => Space(pad) && LegalItems(items)
    case Object(pad, members) => Space(pad) && LegalMembers(members)
  }

  predicate LegalItems(xs: Items) {
    xs.Item? ==> Space(xs.before) && Legal(xs.value) && Space(xs.after) && LegalItems(xs.rest)
  }

  predicate LegalMembers(ms: Members) {
    ms.Member? ==>
      && Space(ms.before) && LegalText(ms.key) && Space(ms.between) && Space(ms.lead)
      && Legal(ms.value) && Space(ms.after) && LegalMembers(ms.rest)
  }

  // ----- rendering -----

  function RenderPart(p: StrPart): string {
    match p
    case Plain(c) => [c]
    case Escaped(c) => ['\\', c]
    case Unicode(h1, h2, h3, h4) => ['\\', 'u', h1, h2, h3, h4]
  }

  function RenderParts(parts: seq<StrPart>): string {
    if parts == [] then "" else RenderPart(parts[0]) + RenderParts(parts[1..])
  }

  function RenderText(parts: seq<StrPart>): string { "\"" + RenderParts(parts) + "\"" }

  function RenderNumber(j: Json): string
    requires j.Number?
  {
    (if j.minus then "-" else "") + j.whole
    + (if j.fraction.Some? then "." + j.fraction.value else "")
    + (if j.exponent.Some? then [j.exponent.value.mark] + j.exponent.value.sign + j.exponent.value.digits else "")
  }

  function Render(j: Json): string {
    match j
    case Literal(name) => name
    case Number(_, _, _, _) => RenderNumber(j)
    case Text(parts) => RenderText(parts)
    case Array(pad, items) => "[" + (pad + RenderItems(items)) + "]"
    case Object(pad, members) => "{" + (pad + RenderMembers(members)) + "}"
  }

  function RenderItems(xs: Items): string {
    if xs.NoItem? then ""
    else xs.before + (Render(xs.value) + (xs.after + if xs.rest.NoItem? then "" else "," + RenderItems(xs.rest)))
  }

  function RenderMembers(ms: Members): string {
    if ms.NoMember? then ""
    else ms.before + (RenderText(ms.key) + (ms.between + (":" + (ms.lead + (Render(ms.value) + (ms.after
         + if ms.rest.NoMember? then "" else "," + RenderMembers(ms.rest)))))))
  }

  // ----- measures of a value -----

  /** How deeply containers nest. */
  function Height(j: Json): nat {
    match j
    case Array(_, items) => 1 + ItemsHeight(items)
    case Object(_, members) => 1 + MembersHeight(members)
    case _ => 0
  }

  function ItemsHeight(xs: Items): nat { if xs.NoItem? then 0 else Max(Height(xs.value), ItemsHeight(xs.rest)) }

  function MembersHeight(ms: Members): nat {
    if ms.NoMember? then 0 else Max(Height(ms.value), MembersHeight(ms.rest))
  }

  /** Strings (keys included), containers and commas. */
  function Weight(j: Json): nat {
    match j
    case Text(_) => 1
    case Array(_, items) => 1 + ItemsWeight(items)
    case Object(_, members) => 1 + MembersWeight(members)
    case _ => 0
  }

  function ItemsWeight(xs: Items): nat {
    if xs.NoItem? then 0 else Weight(xs.value) + (if xs.rest.NoItem? then 0 else 1) + ItemsWeight(xs.rest)
  }

  function MembersWeight(ms: Members): nat {
    if ms.NoMember? then 0 else 1 + Weight(ms.value) + (if ms.rest.NoMember? then 0 else 1) + MembersWeight(ms.rest)
  }

  /** All values, at every depth. */
  function Values(j: Json): nat {
    match j
    case Array(_, items) => 1 + ItemsValues(items)
    case Object(_, members) => 1 + MembersValues(members)
    case _ => 1
  }

  function ItemsValues(xs: Items): nat { if xs.NoItem? then 0 else Values(xs.value) + ItemsValues(xs.rest) }

  function MembersValues(ms: Members): nat { if ms.NoMember? then 0 else Values(ms.value) + MembersValues(ms.rest) }

  lemma {:induction false} WeightBoundsValues(j: Json)
    ensures Values(j) <= Weight(j) + 1
  {
    match j
    case Array(_, items) => ItemsWeightBoundsValues(items);
    case Object(_, members) => MembersWeightBoundsValues(members);
    case _ =>
  }

  lemma {:induction false} ItemsWeightBoundsValues(xs: Items)
    ensures ItemsValues(xs) <= ItemsWeight(xs) + (if xs.NoItem? then 0 else 1)
  {
    if xs.Item? {
      WeightBoundsValues(xs.value);
      ItemsWeightBoundsValues(xs.rest);
    }
  }

  lemma {:induction false} MembersWeightBoundsValues(ms: Members)
    ensures MembersValues(ms) <= MembersWeight(ms) + (if ms.NoMember? then 0 else 1)
  {
    if ms.Member? {
      WeightBoundsValues(ms.value);
      MembersWeightBoundsValues(ms.rest);
    }
  }

  // ----- what the scanner makes of a text -----

  /** Scanning `t` from `m` comes back to `m`, costs `weight` and climbs `height` levels. */
  predicate Measures(m: Mode, t: string, weight: nat, height: nat) {
    Scan(m, t) == m && Cost(m, t) == weight && Peak(m, t) == m.depth + height
  }

  lemma MeasuresConcat(m: Mode, s: string, w: nat, h: nat, t: string, x: nat, g: nat)
    requires Measures(m, s, w, h) && Measures(m, t, x, g)
    ensures Measures(m, s + t, w + x, Max(h, g))
  {
    ScanConcat(m, s, t);
  }

  predicate Inert(c: char) { c !in {'"', '[', '{', ']', '}', ','} }

  lemma {:induction false} InertTextCostsNothing(m: Mode, t: string)
    requires !m.quoted && forall c | c in t :: Inert(c)
    ensures Measures(m, t, 0, 0)
    decreases t
  {
    if t != "" {
      assert t[0] in t && Step(m, t[0]) == m;
      assert forall c | c in t[1..] :: c in t;
      InertTextCostsNothing(m, t[1..]);
    }
  }

  lemma NumberIsInert(m: Mode, j: Json)
    requires !m.quoted && j.Number? && Legal(j)
    ensures Measures(m, RenderNumber(j), 0, 0)
  {
    forall c | c in RenderNumber(j) ensures Inert(c) {
      if j.exponent.Some? && c in j.exponent.value.sign {
        assert c == '+' || c == '-';
      }
    }
    InertTextCostsNothing(m, RenderNumber(j));
  }

  lemma OneCharacter(m: Mode, c: char)
    ensures Scan(m, [c]) == Step(m, c) && Cost(m, [c]) == CharCost(m, c)
    ensures Peak(m, [c]) == Max(m.depth, Step(m, c).depth)
  {
    assert [c][1..] == "";
  }

  lemma {:induction false} QuotedTextCostsNothing(m: Mode, t: string)
    requires m.quoted && !m.escaped && forall c | c in t :: c != '"' && c != '\\'
    ensures Measures(m, t, 0, 0)
    decreases t
  {
    if t != "" {
      assert t[0] in t && Step(m, t[0]) == m;
      assert forall c | c in t[1..] :: c in t;
      QuotedTextCostsNothing(m, t[1..]);
    }
  }

  /** Inside a string every legal part is consumed without leaving it. */
  lemma PartStaysInside(m: Mode, p: StrPart)
    requires m.quoted && !m.escaped && LegalPart(p)
    ensures Measures(m, RenderPart(p), 0, 0)
  {
    if p.Plain? {
      QuotedTextCostsNothing(m, [p.c]);
    } else {
      var second := if p.Escaped? then p.c else 'u';
      var hex := if p.Escaped? then "" else [p.h1, p.h2, p.h3, p.h4];
      OneCharacter(m, '\\');
      OneCharacter(m.(escaped := true), second);
      QuotedTextCostsNothing(m, hex);
      ScanConcat(m, "\\", [second]);
      ScanConcat(m, "\\" + [second], hex);
      assert RenderPart(p) == "\\" + [second] + hex;
    }
  }

  lemma {:induction false} PartsStayInside(m: Mode, parts: seq<StrPart>)
    requires m.quoted && !m.escaped && LegalText(parts)
    ensures Measures(m, RenderParts(parts), 0, 0)
    decreases parts
  {
    if parts != [] {
      PartStaysInside(m, parts[0]);
      PartsStayInside(m, parts[1..]);
      MeasuresConcat(m, RenderPart(parts[0]), 0, 0, RenderParts(parts[1..]), 0, 0);
    }
  }

  lemma TextCostsOne(m: Mode, parts: seq<StrPart>)
    requires !m.quoted && !m.escaped && LegalText(parts)
    ensures Measures(m, RenderText(parts), 1, 0)
  {
    var inside := m.(quoted := true);
    PartsStayInside(inside, parts);
    ScanConcat(inside, RenderParts(parts), "\"");
    var rest := RenderParts(parts) + "\"";
    assert RenderText(parts)[0] == '"' && RenderText(parts)[1..] == rest;
    assert "\""[1..] == "";
  }

  /** Brackets around a measured body: one more level, one more unit. */
  lemma BracketsAddALevel(m: Mode, open: char, body: string, close: char, w: nat, h: nat)
    requires !m.quoted && !m.escaped
    requires (open == '[' && close == ']') || (open == '{' && close == '}')
    requires Measures(m.(depth := m.depth + 1), body, w, h)
    ensures Measures(m, [open] + body + [close], 1 + w, 1 + h)
  {
    var inner := m.(depth := m.depth + 1);
    ScanConcat(inner, body, [close]);
    assert ([open] + body + [close])[1..] == body + [close];
    assert [close][1..] == "";
  }

  lemma CommaCostsOne(m: Mode)
    requires !m.quoted
    ensures Measures(m, ",", 1, 0) && Measures(m, ":", 0, 0) && Measures(m, "", 0, 0)
  {
    assert ","[1..] == "" && ":"[1..] == "";
  }

  /** Scanning any legal spelling of a value outside a string comes back to where it
      started, costs the value's weight and climbs its height. */
  lemma {:induction false} RenderedValuesAreMeasured(m: Mode, j: Json)
    requires !m.quoted && !m.escaped && Legal(j)
    ensures Measures(m, Render(j), Weight(j), Height(j))
    decreases j
  {
    match j
    case Literal(name) => InertTextCostsNothing(m, name);
    case Number(_, _, _, _) => NumberIsInert(m, j);
    case Text(parts) => TextCostsOne(m, parts);
    case Array(pad, items) =>
      var inner := m.(depth := m.depth + 1);
      InertTextCostsNothing(inner, pad);
      RenderedItemsAreMeasured(inner, items);
      MeasuresConcat(inner, pad, 0, 0, RenderItems(items), ItemsWeight(items), ItemsHeight(items));
      BracketsAddALevel(m, '[', pad + RenderItems(items), ']', ItemsWeight(items), ItemsHeight(items));
    case Object(pad, members) =>
      var inner := m.(depth := m.depth + 1);
      InertTextCostsNothing(inner, pad);
      RenderedMembersAreMeasured(inner, members);
      MeasuresConcat(inner, pad, 0, 0, RenderMembers(members), MembersWeight(members), MembersHeight(members));
      BracketsAddALevel(m, '{', pad + RenderMembers(members), '}', MembersWeight(members), MembersHeight(members));
  }

  lemma {:induction false} RenderedItemsAreMeasured(m: Mode, xs: Items)
    requires !m.quoted && !m.escaped && LegalItems(xs)
    ensures Measures(m, RenderItems(xs), ItemsWeight(xs), ItemsHeight(xs))
    decreases xs
  {
    CommaCostsOne(m);
    if xs.Item? {
      RenderedValuesAreMeasured(m, xs.value);
      RenderedItemsAreMeasured(m, xs.rest);
      var more := if xs.rest.NoItem? then "" else "," + RenderItems(xs.rest);
      var w := if xs.rest.NoItem? then 0 else 1 + ItemsWeight(xs.rest);
      MeasuresConcat(m, ",", 1, 0, RenderItems(xs.rest), ItemsWeight(xs.rest), ItemsHeight(xs.rest));
      assert Measures(m, more, w, ItemsHeight(xs.rest));
      InertTextCostsNothing(m, xs.before);
      InertTextCostsNothing(m, xs.after);
      MeasuresConcat(m, xs.after, 0, 0, more, w, ItemsHeight(xs.rest));
      MeasuresConcat(m, Render(xs.value), Weight(xs.value), Height(xs.value), xs.after + more, w, ItemsHeight(xs.rest));
      MeasuresConcat(m, xs.before, 0, 0, Render(xs.value) + (xs.after + more), Weight(xs.value) + w,
                     Max(Height(xs.value), ItemsHeight(xs.rest)));
    }
  }

  lemma {:induction false} RenderedMembersAreMeasured(m: Mode, ms: Members)
    requires !m.quoted && !m.escaped && LegalMembers(ms)
    ensures Measures(m, RenderMembers(ms), MembersWeight(ms), MembersHeight(ms))
    decreases ms
  {
    CommaCostsOne(m);
    if ms.Member? {
      RenderedValuesAreMeasured(m, ms.value);
      RenderedMembersAreMeasured(m, ms.rest);
      TextCostsOne(m, ms.key);
      InertTextCostsNothing(m, ms.before);
      InertTextCostsNothing(m, ms.between);
      InertTextCostsNothing(m, ms.lead);
      InertTextCostsNothing(m, ms.after);
      var more := if ms.rest.NoMember? then "" else "," + RenderMembers(ms.rest);
      var w, h := if ms.rest.NoMember? then 0 else 1 + MembersWeight(ms.rest), MembersHeight(ms.rest);
      MeasuresConcat(m, ",", 1, 0, RenderMembers(ms.rest), MembersWeight(ms.rest), h);
      assert Measures(m, more, w, h);
      var v, g := Weight(ms.value) + w, Max(Height(ms.value), h);
      var t1 := ms.after + more;
      MeasuresConcat(m, ms.after, 0, 0, more, w, h);
      var t2 := Render(ms.value) + t1;
      MeasuresConcat(m, Render(ms.value), Weight(ms.value), Height(ms.value), t1, w, h);
      MeasuresConcat(m, ms.lead, 0, 0, t2, v, g);
      MeasuresConcat(m, ":", 0, 0, ms.lead + t2, v, g);
      MeasuresConcat(m, ms.between, 0, 0, ":" + (ms.lead + t2), v, g);
      MeasuresConcat(m, RenderText(ms.key), 1, 0, ms.between + (":" + (ms.lead + t2)), v, g);
      MeasuresConcat(m, ms.before, 0, 0, RenderText(ms.key) + (ms.between + (":" + (ms.lead + t2))), 1 + v, g);
    }
  }

  /** For every JSON value and every legal spelling of it: the guard ends outside any
      string at depth 0, its peak depth is the height of the value, and its charge is
      the number of strings, containers and commas, so at least the number of values
      less one. It accepts exactly when the height is at most 64 and the charge fits
      the budget, and then spends exactly that charge. */
  lemma GuardMeasuresEveryJsonText(j: Json, before: string, after: string, budget: int)
    requires Legal(j) && Space(before) && Space(after) && budget >= 0
    ensures var text := before + (Render(j) + after);
      && Scan(OUTSIDE, text) == OUTSIDE
      && Peak(OUTSIDE, text) == Height(j)
      && Cost(OUTSIDE, text) == Weight(j) && Values(j) - 1 <= Weight(j)
      && (Outcome(OUTSIDE, text, budget).0.Accepted? <==> Height(j) <= 64 && Weight(j) <= budget)
      && (Outcome(OUTSIDE, text, budget).0.Accepted? ==> Outcome(OUTSIDE, text, budget).1 == budget - Weight(j))
  {
    RenderedValuesAreMeasured(OUTSIDE, j);
    InertTextCostsNothing(OUTSIDE, before);
    InertTextCostsNothing(OUTSIDE, after);
    MeasuresConcat(OUTSIDE, Render(j), Weight(j), Height(j), after, 0, 0);
    MeasuresConcat(OUTSIDE, before, 0, 0, Render(j) + after, Weight(j), Height(j));
    VerdictMeasuresPeakAndCost(OUTSIDE, before + (Render(j) + after), budget);
    WeightBoundsValues(j);
  }
}
