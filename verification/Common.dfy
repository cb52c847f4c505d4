/** Types shared by the models of the toolkit's modules. */
module Common {

  datatype Option<+T> = None | Some(value: T)

  // Wall-clock seconds. Rounding of the original's floats is not modelled.
  type Time = real

  function Max(a: int, b: int): int { if a < b then b else a }

  function Min(a: int, b: int): int { if a < b then a else b }

  lemma {:induction false} SubsetSize<T>(a: set<T>, b: set<T>)
    requires a <= b
    ensures |a| <= |b|
  {
    if a != {} {
      var x :| x in a;
      SubsetSize(a - {x}, b - {x});
    }
  }

  // ----- names -----

  function LowerChar(c: char): char {
    if 'A' <= c <= 'Z' then (c as int + 32) as char else c
  }

  /** Names are compared without regard to case, by one rule everywhere. */
  function Fold(name: string): (r: string)
    ensures |r| == |name|
  {
    if name == "" then "" else [LowerChar(name[0])] + Fold(name[1..])
  }

  /** Character by character, a beginning coming before what it begins. */
  predicate UpTo(a: string, b: string) {
    a == "" || (b != "" && (a[0] < b[0] || (a[0] == b[0] && UpTo(a[1..], b[1..]))))
  }

  lemma {:induction false} UpToIsTotal(a: string, b: string)
    ensures UpTo(a, b) || UpTo(b, a)
  {
    if a != "" && b != "" && a[0] == b[0] {
      UpToIsTotal(a[1..], b[1..]);
    }
  }

  lemma {:induction false} UpToIsTransitive(a: string, b: string, c: string)
    requires UpTo(a, b) && UpTo(b, c)
    ensures UpTo(a, c)
  {
    if a != "" && a[0] == b[0] && b[0] == c[0] {
      UpToIsTransitive(a[1..], b[1..], c[1..]);
    }
  }
}
