/** The bounded projection of a stored JSON value onto a page of automation history. */
module Preview {
  import opened Common

  /** A loaded JSON value. The children of a list carry no key. */
  datatype Value =
    | Text(text: string)
    | Scalar(number: int)
    | Node(isDict: bool, children: seq<Child>)

  datatype Child = Child(key: string, value: Value)

  datatype Budget = Budget(text: int, nodes: int, limited: bool)

  datatype Projection = Projection(value: Value, left: Budget)

  const PAGE := Budget(64 * 1024, 2000, false)

  predicate Spent(b: Budget) { b.nodes <= 0 || b.text <= 0 }

  function Placeholder(v: Value): Value {
    if v.Node? then Node(v.isDict, []) else Text("")
  }

  /** Adds a projected child; a dict keeps one value for keys that agree after the cut. */
  function Add(isDict: bool, children: seq<Child>, key: string, v: Value): seq<Child> {
    if !isDict then children + [Child("", v)] else Insert(children, Cut(key), v)
  }

  function Cut(key: string): string { if |key| > 128 then key[..128] else key }

  function Insert(children: seq<Child>, key: string, v: Value): seq<Child> {
    if children == [] then [Child(key, v)]
    else if children[0].key == key then [Child(key, v)] + children[1..]
    else [children[0]] + Insert(children[1..], key, v)
  }

  function Project(v: Value, b: Budget, depth: nat): Projection
    decreases v, 1
  {
    if depth > 8 || Spent(b) then Projection(Placeholder(v), b.(limited := true))
    else
      var b := b.(nodes := b.nodes - 1);
      match v
      case Scalar(_) => Projection(v, b)
      case Text(text) =>
        var cap := Min(4096, b.text);
        var kept := Min(|text|, cap);
        Projection(Text(text[..kept]), b.(text := b.text - kept, limited := b.limited || |text| > cap))
      case Node(isDict, children) => Walk(isDict, children, 0, [], b, depth)
  }

  /** Projects the remaining children, the first of which has position `index`, into what
      was kept of those before it. */
  function Walk(isDict: bool, rest: seq<Child>, index: nat, kept: seq<Child>, b: Budget, depth: nat): Projection
    decreases rest, 0
  {
    if rest == [] then Projection(Node(isDict, kept), b)
    else if index >= 20 || Spent(b) then Projection(Node(isDict, kept), b.(limited := true))
    else
      var p := Project(rest[0].value, b, depth + 1);
      Walk(isDict, rest[1..], index + 1, Add(isDict, kept, rest[0].key, p.value), p.left, depth)
  }

  /** The budget one page shares among all the values it projects. */
  class SharedBudget {
    var text: int
    var nodes: int
    var limited: bool

    ghost function Left(): Budget
      reads this
    {
      Budget(text, nodes, limited)
    }

    constructor ()
      ensures Left() == PAGE
    {
      text, nodes, limited := 64 * 1024, 2000, false;
    }
  }

  method PreviewValue(value: Value, budget: SharedBudget, depth: nat) returns (r: Value)
    modifies budget
    ensures Projection(r, budget.Left()) == Project(value, old(budget.Left()), depth)
    decreases value
  {
    if depth > 8 || budget.nodes <= 0 || budget.text <= 0 {
      budget.limited := true;
      return if value.Node? then Node(value.isDict, []) else Text("");
    }
    budget.nodes := budget.nodes - 1;
    if value.Text? {
      var cap := Min(4096, budget.text);
      budget.text := budget.text - Min(|value.text|, cap);
      if |value.text| > cap {
        budget.limited := true;
        return Text(value.text[..cap]);
      }
      return value;
    }
    if value.Node? {
      var result: seq<Child> := [];
      var index := 0;
      while index < |value.children|
        invariant index <= |value.children|
        invariant Walk(value.isDict, value.children[index..], index, result, budget.Left(), depth) == Project(value, old(budget.Left()), depth)
      {
        if index >= 20 || budget.nodes <= 0 || budget.text <= 0 {
          budget.limited := true;
          return Node(value.isDict, result);
        }
        assert value.children[index..][1..] == value.children[index + 1..];
        var projected := PreviewValue(value.children[index].value, budget, depth + 1);
        result := Add(value.isDict, result, value.children[index].key, projected);
        index := index + 1;
      }
      return Node(value.isDict, result);
    }
    return value;
  }

  // ----- measures of a value -----

  /** The characters of its texts; keys are not charged. */
  function TextIn(v: Value): nat
    decreases v
  {
    match v
    case Text(text) => |text|
    case Scalar(_) => 0
    case Node(_, children) => TextSum(children)
  }

  function TextSum(cs: seq<Child>): nat
    decreases cs
  {
    if cs == [] then 0 else TextIn(cs[0].value) + TextSum(cs[1..])
  }

  /** The nodes from level `depth` down to level 8. */
  function Count(v: Value, depth: nat): nat
    decreases v
  {
    if depth > 8 then 0 else 1 + (if v.Node? then CountSum(v.children, depth + 1) else 0)
  }

  function CountSum(cs: seq<Child>, depth: nat): nat
    decreases cs
  {
    if cs == [] then 0 else Count(cs[0].value, depth) + CountSum(cs[1..], depth)
  }

  /** The characters of the text met last, if a text is what is met last. */
  function TailText(v: Value): (r: nat)
    ensures r <= TextIn(v)
    decreases v
  {
    match v
    case Text(text) => |text|
    case Scalar(_) => 0
    case Node(_, children) => TailSum(children)
  }

  function TailSum(cs: seq<Child>): (r: nat)
    ensures r <= TextSum(cs)
    decreases cs
  {
    if cs == [] then 0 else if |cs| == 1 then TailText(cs[0].value) else TailSum(cs[1..])
  }

  // ----- what is kept is bounded -----

  /** A dict's keys are distinct and cut; at most 20 children; short texts; and below
      level 8 only placeholders. */
  predicate Small(v: Value, depth: nat)
    decreases v
  {
    match v
    case Text(text) => |text| <= if depth > 8 then 0 else 4096
    case Scalar(_) => depth <= 8
    case Node(isDict, children) =>
      && |children| <= (if depth > 8 then 0 else 20)
      && (isDict ==> KeysOk(children)) && SmallAll(children, depth + 1)
  }

  predicate SmallAll(cs: seq<Child>, depth: nat)
    decreases cs
  {
    cs != [] ==> Small(cs[0].value, depth) && SmallAll(cs[1..], depth)
  }

  predicate KeysOk(cs: seq<Child>) {
    && (forall i | 0 <= i < |cs| :: |cs[i].key| <= 128)
    && (forall i, j | 0 <= i < j < |cs| :: cs[i].key != cs[j].key)
  }

  lemma {:induction false} Appended(cs: seq<Child>, c: Child, depth: nat)
    ensures TextSum(cs + [c]) == TextSum(cs) + TextIn(c.value)
    ensures CountSum(cs + [c], depth) == CountSum(cs, depth) + Count(c.value, depth)
    ensures SmallAll(cs, depth) && Small(c.value, depth) ==> SmallAll(cs + [c], depth)
  {
    if cs == [] {
      assert cs + [c] == [c];
    } else {
      assert (cs + [c])[1..] == cs[1..] + [c];
      Appended(cs[1..], c, depth);
    }
  }

  lemma {:induction false} Inserted(cs: seq<Child>, key: string, v: Value, depth: nat)
    ensures TextSum(Insert(cs, key, v)) <= TextSum(cs) + TextIn(v)
    ensures CountSum(Insert(cs, key, v), depth) <= CountSum(cs, depth) + Count(v, depth)
    ensures SmallAll(cs, depth) && Small(v, depth) ==> SmallAll(Insert(cs, key, v), depth)
    ensures |cs| <= |Insert(cs, key, v)| <= |cs| + 1
    ensures (|Insert(cs, key, v)| == |cs| + 1) <==> forall k | 0 <= k < |cs| :: cs[k].key != key
    ensures forall k | 0 <= k < |cs| :: Insert(cs, key, v)[k].key == cs[k].key
    ensures |Insert(cs, key, v)| > |cs| ==> Insert(cs, key, v) == cs + [Child(key, v)]
  {
    if cs != [] && cs[0].key != key {
      var rest := Insert(cs[1..], key, v);
      Inserted(cs[1..], key, v, depth);
      assert ([cs[0]] + rest)[1..] == rest;
      assert (forall k | 0 <= k < |cs[1..]| :: cs[1..][k].key != key) <==> (forall k | 0 <= k < |cs| :: cs[k].key != key) by {
        assert forall k | 1 <= k < |cs| :: cs[k] == cs[1..][k - 1];
      }
    } else if cs != [] {
      assert ([Child(key, v)] + cs[1..])[1..] == cs[1..];
    }
  }

  lemma Added(isDict: bool, cs: seq<Child>, key: string, v: Value, depth: nat)
    requires isDict ==> KeysOk(cs)
    ensures var cs' := Add(isDict, cs, key, v);
      && TextSum(cs') <= TextSum(cs) + TextIn(v)
      && CountSum(cs', depth) <= CountSum(cs, depth) + Count(v, depth)
      && (SmallAll(cs, depth) && Small(v, depth) ==> SmallAll(cs', depth))
      && |cs'| <= |cs| + 1 && (isDict ==> KeysOk(cs'))
  {
    if isDict {
      Inserted(cs, Cut(key), v, depth);
    } else {
      Appended(cs, Child("", v), depth);
    }
  }

  /** Neither budget goes below zero, value text is paid for character by character and
      the nodes down to level 8 one by one, and the result is small. */
  lemma {:induction false} PreviewIsBounded(v: Value, b: Budget, depth: nat)
    requires b.text >= 0 && b.nodes >= 0
    ensures var p := Project(v, b, depth);
      && 0 <= p.left.text <= b.text && 0 <= p.left.nodes <= b.nodes && (b.limited ==> p.left.limited)
      && TextIn(p.value) <= b.text - p.left.text
      && (!Spent(b) ==> Count(p.value, depth) <= b.nodes - p.left.nodes)
      && Small(p.value, depth)
      && (v.Node? ==> p.value.Node? && p.value.isDict == v.isDict)
    decreases v, 1
  {
    if v.Node? && depth <= 8 && !Spent(b) {
      WalkIsBounded(v.isDict, v.children, 0, [], b.(nodes := b.nodes - 1), depth);
    }
  }

  lemma {:induction false} WalkIsBounded(isDict: bool, rest: seq<Child>, index: nat, kept: seq<Child>, b: Budget, depth: nat)
    requires b.text >= 0 && b.nodes >= 0 && depth <= 8
    requires |kept| <= index && index <= 20 && SmallAll(kept, depth + 1) && (isDict ==> KeysOk(kept))
    ensures var p := Walk(isDict, rest, index, kept, b, depth);
      && 0 <= p.left.text <= b.text && 0 <= p.left.nodes <= b.nodes && (b.limited ==> p.left.limited)
      && p.value.Node? && p.value.isDict == isDict && Small(p.value, depth)
      && TextIn(p.value) <= TextSum(kept) + b.text - p.left.text
      && CountSum(p.value.children, depth + 1) <= CountSum(kept, depth + 1) + b.nodes - p.left.nodes
    decreases rest, 0
  {
    if rest != [] && index < 20 && !Spent(b) {
      var p := Project(rest[0].value, b, depth + 1);
      PreviewIsBounded(rest[0].value, b, depth + 1);
      Added(isDict, kept, rest[0].key, p.value, depth + 1);
      WalkIsBounded(isDict, rest[1..], index + 1, Add(isDict, kept, rest[0].key, p.value), p.left, depth);
    }
  }

  // ----- what is kept when nothing was limited -----

  /** No level below 8, no wide container and no long text. */
  predicate Shallow(v: Value, depth: nat)
    decreases v
  {
    && depth <= 8
    && (v.Text? ==> |v.text| <= 4096)
    && (v.Node? ==> |v.children| <= 20 && ShallowAll(v.children, depth + 1))
  }

  predicate ShallowAll(cs: seq<Child>, depth: nat)
    decreases cs
  {
    cs != [] ==> Shallow(cs[0].value, depth) && ShallowAll(cs[1..], depth)
  }

  /** Small enough for the budget: the text may use up the budget only at the very end. */
  predicate Fits(v: Value, b: Budget, depth: nat) {
    && Shallow(v, depth) && Count(v, depth) <= b.nodes
    && TextIn(v) <= b.text && TextIn(v) - TailText(v) < b.text
  }

  predicate FitsAll(cs: seq<Child>, index: nat, b: Budget, depth: nat) {
    cs != [] ==>
      && index + |cs| <= 20 && ShallowAll(cs, depth) && CountSum(cs, depth) <= b.nodes
      && TextSum(cs) <= b.text && TextSum(cs) - TailSum(cs) < b.text
  }

  /** The value with its keys cut and stored one after the other in a dict. */
  function Folded(v: Value): Value
    decreases v, 1
  {
    if v.Node? then Node(v.isDict, FoldAll(v.isDict, v.children, [])) else v
  }

  function FoldAll(isDict: bool, rest: seq<Child>, kept: seq<Child>): seq<Child>
    decreases rest, 0
  {
    if rest == [] then kept
    else FoldAll(isDict, rest[1..], Add(isDict, kept, rest[0].key, Folded(rest[0].value)))
  }

  lemma FitsSplit(cs: seq<Child>, index: nat, b: Budget, depth: nat)
    requires cs != [] && index < 20 && !Spent(b)
    ensures var first := cs[0].value;
      FitsAll(cs, index, b, depth)
      <==> Fits(first, b, depth)
           && FitsAll(cs[1..], index + 1, Budget(b.text - TextIn(first), b.nodes - Count(first, depth), false), depth)
  {
    var first, rest := cs[0].value, cs[1..];
    assert ShallowAll(cs, depth) <==> Shallow(first, depth) && ShallowAll(rest, depth);
    assert CountSum(cs, depth) == Count(first, depth) + CountSum(rest, depth);
    assert TextSum(cs) == TextIn(first) + TextSum(rest);
    assert TailSum(cs) == if rest == [] then TailText(first) else TailSum(rest);
    assert TailSum(rest) <= TextSum(rest);
  }

  /** Nothing is reported as limited exactly when the value fits, and then the projection
      is the whole value with its keys cut. */
  lemma {:induction false} UnlimitedMeansWhole(v: Value, b: Budget, depth: nat)
    requires !Spent(b) && !b.limited
    ensures var p := Project(v, b, depth);
      && (!p.left.limited <==> Fits(v, b, depth))
      && (!p.left.limited ==> p.value == Folded(v)
                              && p.left == Budget(b.text - TextIn(v), b.nodes - Count(v, depth), false))
    decreases v, 1
  {
    if v.Node? && depth <= 8 {
      var inner := b.(nodes := b.nodes - 1);
      UnlimitedWalk(v.isDict, v.children, 0, [], inner, depth);
      assert Count(v, depth) == 1 + CountSum(v.children, depth + 1);
      assert TextIn(v) == TextSum(v.children) && TailText(v) == TailSum(v.children);
      assert Shallow(v, depth) <==> |v.children| <= 20 && ShallowAll(v.children, depth + 1);
      assert Fits(v, b, depth) <==> FitsAll(v.children, 0, inner, depth + 1);
    }
  }

  lemma {:induction false} UnlimitedWalk(isDict: bool, rest: seq<Child>, index: nat, kept: seq<Child>, b: Budget, depth: nat)
    requires !b.limited && index <= 20 && depth <= 8
    ensures var p := Walk(isDict, rest, index, kept, b, depth);
      && (!p.left.limited <==> FitsAll(rest, index, b, depth + 1))
      && (!p.left.limited ==>
            && p.value == Node(isDict, FoldAll(isDict, rest, kept))
            && p.left == Budget(b.text - TextSum(rest), b.nodes - CountSum(rest, depth + 1), false))
    decreases rest, 0
  {
    if rest != [] {
      if index < 20 && !Spent(b) {
        var p := Project(rest[0].value, b, depth + 1);
        var kept' := Add(isDict, kept, rest[0].key, p.value);
        UnlimitedMeansWhole(rest[0].value, b, depth + 1);
        FitsSplit(rest, index, b, depth + 1);
        if p.left.limited {
          OnceLimited(isDict, rest[1..], index + 1, kept', p.left, depth);
        } else {
          UnlimitedWalk(isDict, rest[1..], index + 1, kept', p.left, depth);
        }
      } else if Shallow(rest[0].value, depth + 1) {
        assert Count(rest[0].value, depth + 1) >= 1;
      }
    }
  }

  lemma {:induction false} OnceLimited(isDict: bool, rest: seq<Child>, index: nat, kept: seq<Child>, b: Budget, depth: nat)
    requires b.limited
    ensures Walk(isDict, rest, index, kept, b, depth).left.limited
    decreases rest, 0
  {
    if rest != [] && index < 20 && !Spent(b) {
      var p := Project(rest[0].value, b, depth + 1);
      LimitedStays(rest[0].value, b, depth + 1);
      OnceLimited(isDict, rest[1..], index + 1, Add(isDict, kept, rest[0].key, p.value), p.left, depth);
    }
  }

  lemma {:induction false} LimitedStays(v: Value, b: Budget, depth: nat)
    requires b.limited
    ensures Project(v, b, depth).left.limited
    decreases v, 1
  {
    if v.Node? && depth <= 8 && !Spent(b) {
      OnceLimited(v.isDict, v.children, 0, [], b.(nodes := b.nodes - 1), depth);
    }
  }

  // ----- whether cutting the keys loses anything -----

  /** The value with its keys cut, every child still there. */
  function CutKeys(v: Value): Value
    decreases v
  {
    if v.Node? then Node(v.isDict, CutAll(v.isDict, v.children)) else v
  }

  function CutAll(isDict: bool, cs: seq<Child>): (r: seq<Child>)
    ensures |r| == |cs|
    decreases cs
  {
    if cs == [] then []
    else [Child(if isDict then Cut(cs[0].key) else "", CutKeys(cs[0].value))] + CutAll(isDict, cs[1..])
  }

  /** No dict has two keys that agree in their first 128 characters. */
  predicate Distinguished(v: Value)
    decreases v
  {
    v.Node? ==> (v.isDict ==> CutsDiffer(v.children)) && DistinguishedAll(v.children)
  }

  predicate DistinguishedAll(cs: seq<Child>)
    decreases cs
  {
    cs != [] ==> Distinguished(cs[0].value) && DistinguishedAll(cs[1..])
  }

  predicate CutsDiffer(cs: seq<Child>) {
    forall i, j | 0 <= i < j < |cs| :: Cut(cs[i].key) != Cut(cs[j].key)
  }

  /** The keys kept so far and the keys to come, all cut, with no two alike. */
  predicate Apart(kept: seq<Child>, rest: seq<Child>) {
    && CutsDiffer(rest)
    && forall i, j | 0 <= i < |kept| && 0 <= j < |rest| :: kept[i].key != Cut(rest[j].key)
  }

  function FoldEach(isDict: bool, cs: seq<Child>): (r: seq<Child>)
    ensures |r| == |cs|
    decreases cs, 2
  {
    if cs == [] then []
    else [Child(if isDict then Cut(cs[0].key) else "", Folded(cs[0].value))] + FoldEach(isDict, cs[1..])
  }

  /** Every child is kept exactly when no insertion meets a key that is already there. */
  lemma {:induction false} FoldKeepsAllIfApart(isDict: bool, rest: seq<Child>, kept: seq<Child>)
    ensures |FoldAll(isDict, rest, kept)| <= |kept| + |rest|
    ensures |FoldAll(isDict, rest, kept)| == |kept| + |rest| <==> (isDict ==> Apart(kept, rest))
    ensures (isDict ==> Apart(kept, rest)) ==> FoldAll(isDict, rest, kept) == kept + FoldEach(isDict, rest)
    decreases rest, 0
  {
    if rest != [] {
      var first := Folded(rest[0].value);
      var kept' := Add(isDict, kept, rest[0].key, first);
      FoldKeepsAllIfApart(isDict, rest[1..], kept');
      if isDict {
        Inserted(kept, Cut(rest[0].key), first, 0);
        ApartStep(kept, rest, kept');
      }
    }
  }

  lemma ApartStep(kept: seq<Child>, rest: seq<Child>, kept': seq<Child>)
    requires rest != [] && |kept| <= |kept'| <= |kept| + 1
    requires |kept'| == |kept| + 1 <==> forall k | 0 <= k < |kept| :: kept[k].key != Cut(rest[0].key)
    requires |kept'| == |kept| + 1 ==> kept' == kept + [Child(Cut(rest[0].key), kept'[|kept|].value)]
    ensures Apart(kept, rest) <==> |kept'| == |kept| + 1 && Apart(kept', rest[1..])
  {
    var later := rest[1..];
    assert forall k | 0 <= k < |later| :: later[k] == rest[k + 1];
    if Apart(kept, rest) {
      assert forall k | 0 <= k < |kept| :: kept[k].key != Cut(rest[0].key);
      assert Apart(kept', later);
    }
    if |kept'| == |kept| + 1 && Apart(kept', later) {
      forall i, j | 0 <= i < j < |rest|
        ensures Cut(rest[i].key) != Cut(rest[j].key)
      {
        assert rest[j] == later[j - 1];
        if i == 0 {
          assert kept'[|kept|].key == Cut(rest[0].key);
        } else {
          assert rest[i] == later[i - 1];
        }
      }
      forall i, j | 0 <= i < |kept| && 0 <= j < |rest|
        ensures kept[i].key != Cut(rest[j].key)
      {
        assert kept'[i] == kept[i];
        if j > 0 { assert rest[j] == later[j - 1]; }
      }
    }
  }

  /** Children are lost without being reported exactly when two keys of one dict agree in
      their first 128 characters. */
  lemma {:induction false} FoldingKeepsEverythingUnlessKeysCollide(v: Value)
    ensures Folded(v) == CutKeys(v) <==> Distinguished(v)
    decreases v, 1
  {
    if v.Node? {
      FoldKeepsAllIfApart(v.isDict, v.children, []);
      EachFoldedIsCut(v.isDict, v.children);
      assert [] + FoldEach(v.isDict, v.children) == FoldEach(v.isDict, v.children);
    }
  }

  lemma {:induction false} EachFoldedIsCut(isDict: bool, cs: seq<Child>)
    ensures FoldEach(isDict, cs) == CutAll(isDict, cs) <==> DistinguishedAll(cs)
    decreases cs, 2
  {
    if cs != [] {
      FoldingKeepsEverythingUnlessKeysCollide(cs[0].value);
      EachFoldedIsCut(isDict, cs[1..]);
      assert FoldEach(isDict, cs)[1..] == FoldEach(isDict, cs[1..]);
      assert CutAll(isDict, cs)[1..] == CutAll(isDict, cs[1..]);
    }
  }

  /** An unlimited preview shows the whole value, keys cut, if and only if the value fits
      the budget and no dict has two keys that agree after the cut. */
  lemma UnlimitedPreviewIsTheValue(v: Value, b: Budget)
    requires !Spent(b) && !b.limited
    ensures var p := Project(v, b, 0);
      !p.left.limited && p.value == CutKeys(v) <==> Fits(v, b, 0) && Distinguished(v)
  {
    UnlimitedMeansWhole(v, b, 0);
    FoldingKeepsEverythingUnlessKeysCollide(v);
  }

  /** Two keys of 129 characters that differ in the last one: one value vanishes and the
      preview does not say so. */
  lemma CollidingKeysVanishSilently()
    ensures var long := seq(128, _ => 'k');
      var v := Node(true, [Child(long + "a", Scalar(1)), Child(long + "b", Scalar(2))]);
      && !Project(v, PAGE, 0).left.limited
      && Project(v, PAGE, 0).value == Node(true, [Child(long, Scalar(2))])
  {
    var long := seq(128, _ => 'k');
    var second := [Child(long + "b", Scalar(2))];
    var v := Node(true, [Child(long + "a", Scalar(1))] + second);
    assert Cut(long + "a") == long && Cut(long + "b") == long;
    var b := PAGE.(nodes := 1999);
    var kept := [Child(long, Scalar(1))];
    assert v.children[1..] == second && second[1..] == [];
    assert Insert(kept, long, Scalar(2)) == [Child(long, Scalar(2))] + kept[1..] == [Child(long, Scalar(2))];
    assert v == Node(true, [Child(long + "a", Scalar(1)), Child(long + "b", Scalar(2))]);
    assert Walk(true, second, 1, kept, b.(nodes := 1998), 0)
        == Walk(true, [], 2, [Child(long, Scalar(2))], b.(nodes := 1997), 0);
    assert Walk(true, v.children, 0, [], b, 0) == Walk(true, second, 1, kept, b.(nodes := 1998), 0);
  }

  // ----- what is kept when something was limited -----

  /** The projection keeps everything it can: a text is cut only at 4096 characters, a
      container only after 20 children, and anything else goes only below level 8 or once
      a budget is used up. Children stay in order, under their cut keys. */
  predicate KeepsAllItCan(v: Value, p: Value, depth: nat, spent: bool)
    decreases v
  {
    match v
    case Scalar(_) => p == v || (p == Text("") && (depth > 8 || spent))
    case Text(text) =>
      p.Text? && p.text <= text && (|p.text| == |text| || |p.text| == 4096 || depth > 8 || spent)
    case Node(isDict, children) =>
      && p.Node? && p.isDict == isDict
      && (!isDict || CutsDiffer(children) ==>
            && |p.children| <= |children|
            && (|p.children| == |children| || |p.children| == 20 || depth > 8 || spent)
            && forall k | 0 <= k < |p.children| ::
                 && p.children[k].key == (if isDict then Cut(children[k].key) else "")
                 && KeepsAllItCan(children[k].value, p.children[k].value, depth + 1, spent))
  }

  /** What was kept while a budget lasted is still all that can be kept when it is used up. */
  lemma {:induction false} SpentKeepsMore(v: Value, p: Value, depth: nat)
    requires KeepsAllItCan(v, p, depth, false)
    ensures KeepsAllItCan(v, p, depth, true)
    decreases v
  {
    if v.Node? && (!v.isDict || CutsDiffer(v.children)) {
      forall k | 0 <= k < |p.children|
        ensures KeepsAllItCan(v.children[k].value, p.children[k].value, depth + 1, true)
      {
        SpentKeepsMore(v.children[k].value, p.children[k].value, depth + 1);
      }
    }
  }

  lemma {:induction false} ProjectionKeepsAllItCan(v: Value, b: Budget, depth: nat)
    ensures var p := Project(v, b, depth); KeepsAllItCan(v, p.value, depth, Spent(p.left))
    decreases v, 1
  {
    if v.Node? && depth <= 8 && !Spent(b) {
      var inner := b.(nodes := b.nodes - 1);
      if !v.isDict || CutsDiffer(v.children) {
        assert v.children[0..] == v.children;
        WalkKeepsAllItCan(v.isDict, v.children, 0, [], inner, depth);
      } else {
        WalkGivesNode(v.isDict, v.children, 0, [], inner, depth);
      }
    }
  }

  lemma {:induction false} WalkGivesNode(isDict: bool, rest: seq<Child>, index: nat, kept: seq<Child>, b: Budget, depth: nat)
    ensures var p := Walk(isDict, rest, index, kept, b, depth).value; p.Node? && p.isDict == isDict
    decreases rest, 0
  {
    if rest != [] && index < 20 && !Spent(b) {
      var p := Project(rest[0].value, b, depth + 1);
      WalkGivesNode(isDict, rest[1..], index + 1, Add(isDict, kept, rest[0].key, p.value), p.left, depth);
    }
  }

  /** What was kept of the first `index` children. */
  predicate KeptSoFar(isDict: bool, children: seq<Child>, index: nat, kept: seq<Child>, depth: nat, spent: bool) {
    && |kept| == index <= |children|
    && forall k | 0 <= k < index ::
         && kept[k].key == (if isDict then Cut(children[k].key) else "")
         && KeepsAllItCan(children[k].value, kept[k].value, depth + 1, spent)
  }

  lemma KeptSpent(isDict: bool, children: seq<Child>, index: nat, kept: seq<Child>, depth: nat, spent: bool)
    requires KeptSoFar(isDict, children, index, kept, depth, false)
    ensures KeptSoFar(isDict, children, index, kept, depth, spent)
  {
    forall k | 0 <= k < index
      ensures KeepsAllItCan(children[k].value, kept[k].value, depth + 1, spent)
    {
      if spent { SpentKeepsMore(children[k].value, kept[k].value, depth + 1); }
    }
  }

  lemma NextIsAppended(isDict: bool, children: seq<Child>, index: nat, kept: seq<Child>, value: Value)
    requires index == |kept| < |children| && (!isDict || CutsDiffer(children))
    requires forall k | 0 <= k < index :: kept[k].key == (if isDict then Cut(children[k].key) else "")
    ensures Add(isDict, kept, children[index].key, value) == kept + [Child(if isDict then Cut(children[index].key) else "", value)]
  {
    if isDict {
      Inserted(kept, Cut(children[index].key), value, 0);
      assert forall k | 0 <= k < |kept| :: kept[k].key == Cut(children[k].key) != Cut(children[index].key);
    }
  }

  lemma {:induction false} WalkKeepsAllItCan(isDict: bool, children: seq<Child>, index: nat, kept: seq<Child>, b: Budget, depth: nat)
    requires index <= |children| && depth <= 8 && (!isDict || CutsDiffer(children))
    requires KeptSoFar(isDict, children, index, kept, depth, Spent(b)) && index <= 20
    ensures var p := Walk(isDict, children[index..], index, kept, b, depth);
      && p.value.Node? && p.value.isDict == isDict
      && KeptSoFar(isDict, children, |p.value.children|, p.value.children, depth, Spent(p.left))
      && (|p.value.children| == |children| || |p.value.children| == 20 || Spent(p.left))
    decreases children[index..], 0
  {
    var rest := children[index..];
    if rest != [] && index < 20 && !Spent(b) {
      var p := Project(rest[0].value, b, depth + 1);
      ProjectionKeepsAllItCan(rest[0].value, b, depth + 1);
      var kept' := Add(isDict, kept, rest[0].key, p.value);
      NextIsAppended(isDict, children, index, kept, p.value);
      KeptSpent(isDict, children, index, kept, depth, Spent(p.left));
      assert rest[1..] == children[index + 1..];
      WalkKeepsAllItCan(isDict, children, index + 1, kept', p.left, depth);
    }
  }
}
