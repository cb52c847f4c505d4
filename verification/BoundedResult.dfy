/** Fitting one host's SSH result into its share of the run's storage. */
module BoundedResult {
  import opened Common
  import Grammar = JsonGrammar

  // ----- JSON records and their encoded size -----

  /** A record in insertion order. Numbers, booleans and null come already encoded. */
  type Dict = seq<Pair>

  datatype Pair = Pair(key: string, field: Field)

  datatype Field = Text(text: string) | Nested(pairs: seq<Pair>) | Plain(encoded: string)

  datatype Outcome = Ok(record: Dict) | Refused

  const HEX := "0123456789abcdef"

  /** One character inside a JSON string, non-ASCII characters left as they are. */
  function Escape(c: char): string {
    if c == '"' then ['\\', '"']
    else if c == '\\' then ['\\', '\\']
    else if c == '\n' then ['\\', 'n']
    else if c == '\r' then ['\\', 'r']
    else if c == '\t' then ['\\', 't']
    else if c as int == 8 then ['\\', 'b']
    else if c as int == 12 then ['\\', 'f']
    else if c < ' ' then ['\\', 'u', '0', '0', HEX[c as int / 16], HEX[c as int % 16]]
    else [c]
  }

  function EscapeAll(s: string): string {
    if s == "" then "" else EscapeAll(s[..|s| - 1]) + Escape(s[|s| - 1])
  }

  function Encode(d: Dict): string
    decreases d, 1
  {
    "{" + EncodePairs(d) + "}"
  }

  function EncodePairs(d: Dict): string
    decreases d, 0
  {
    if d == [] then ""
    else "\"" + EscapeAll(d[0].key) + "\":" + EncodeField(d[0].field)
         + (if |d| == 1 then "" else ",") + EncodePairs(d[1..])
  }

  function EncodeField(f: Field): string
    decreases f
  {
    match f
    case Text(text) => "\"" + EscapeAll(text) + "\""
    case Nested(pairs) => "{" + EncodePairs(pairs) + "}"
    case Plain(encoded) => encoded
  }

  /** Bytes in UTF-8. */
  function Width(c: char): nat {
    if c as int < 0x80 then 1 else if c as int < 0x800 then 2 else if c as int < 0x1_0000 then 3 else 4
  }

  function Bytes(s: string): nat {
    if s == "" then 0 else Bytes(s[..|s| - 1]) + Width(s[|s| - 1])
  }

  function Size(d: Dict): nat { Bytes(Encode(d)) }

  /** The encoding of a character in UTF-8 (section 3 of RFC 3629). */
  function Utf8(c: char): seq<int> {
    var n := c as int;
    if n <= 0x7F then [n]
    else if n <= 0x7FF then [0xC0 + n / 0x40, 0x80 + n % 0x40]
    else if n <= 0xFFFF then [0xE0 + n / 0x1000, 0x80 + n / 0x40 % 0x40, 0x80 + n % 0x40]
    else [0xF0 + n / 0x4_0000, 0x80 + n / 0x1000 % 0x40, 0x80 + n / 0x40 % 0x40, 0x80 + n % 0x40]
  }

  function Utf8All(s: string): seq<int> {
    if s == "" then [] else Utf8(s[0]) + Utf8All(s[1..])
  }

  lemma {:induction false} BytesCountsUtf8(s: string)
    ensures |Utf8All(s)| == Bytes(s)
  {
    hide Utf8, Width;
    if s != "" {
      BytesCountsUtf8(s[1..]);
      assert s == [s[0]] + s[1..];
      BytesConcat([s[0]], s[1..]);
      assert [s[0]][..0] == "";
      OneCharacter(s[0]);
    }
  }

  lemma OneCharacter(c: char)
    ensures |Utf8(c)| == Width(c) && forall b | b in Utf8(c) :: 0 <= b < 256
  {
  }

  // ----- encoded text is JSON -----

  function HexValue(c: char): int {
    if '0' <= c <= '9' then c as int - '0' as int
    else if 'a' <= c <= 'f' then c as int - 'a' as int + 10
    else c as int - 'A' as int + 10
  }

  /** The character a part of a JSON string stands for (section 7 of RFC 8259). */
  predicate StandsFor(p: Grammar.StrPart, c: char) {
    match p
    case Plain(d) => d == c
    case Escaped('b') => c as int == 8
    case Escaped('f') => c as int == 12
    case Escaped('n') => c == '\n'
    case Escaped('r') => c == '\r'
    case Escaped('t') => c == '\t'
    case Escaped(d) => d == c
    case Unicode(h1, h2, h3, h4) => 4096 * HexValue(h1) + 256 * HexValue(h2) + 16 * HexValue(h3) + HexValue(h4) == c as int
  }

  lemma EscapeIsJson(c: char) returns (p: Grammar.StrPart)
    ensures Grammar.LegalPart(p) && Grammar.RenderPart(p) == Escape(c) && StandsFor(p, c)
    ensures p.Plain? <==> c >= ' ' && c != '"' && c != '\\'
  {
    if c in {'"', '\\', '\n', '\r', '\t'} || c as int == 8 || c as int == 12 {
      p := ShortEscape(c);
    } else if c < ' ' {
      p := LongEscape(c);
    } else {
      p := Grammar.Plain(c);
    }
  }

  lemma ShortEscape(c: char) returns (p: Grammar.StrPart)
    requires c in {'"', '\\', '\n', '\r', '\t'} || c as int == 8 || c as int == 12
    ensures Grammar.LegalPart(p) && Grammar.RenderPart(p) == Escape(c) && StandsFor(p, c) && p.Escaped?
  {
    p := Grammar.Escaped(
      if c == '\n' then 'n' else if c == '\r' then 'r' else if c == '\t' then 't'
      else if c as int == 8 then 'b' else if c as int == 12 then 'f' else c);
  }

  lemma LongEscape(c: char) returns (p: Grammar.StrPart)
    requires c < ' ' && c !in {'\n', '\r', '\t'} && c as int != 8 && c as int != 12
    ensures Grammar.LegalPart(p) && Grammar.RenderPart(p) == Escape(c) && StandsFor(p, c) && p.Unicode?
  {
    hide HexValue, Grammar.IsHex;
    var high, low := HEX[c as int / 16], HEX[c as int % 16];
    HexDigits();
    p := Grammar.Unicode('0', '0', high, low);
    assert Grammar.IsHex('0') && HexValue('0') == 0 by {
      assert HEX[0] == '0';
    }
  }

  lemma HexDigits()
    ensures forall d | 0 <= d < 16 :: Grammar.IsHex(HEX[d]) && HexValue(HEX[d]) == d
  {
  }


  /** The encoding of a text is a legal JSON spelling of it, character by character, and
      escapes only what has to be escaped. */
  lemma {:induction false} EncodedTextIsJson(s: string) returns (parts: seq<Grammar.StrPart>)
    ensures Grammar.LegalText(parts) && Grammar.RenderParts(parts) == EscapeAll(s) && |parts| == |s|
    ensures forall k | 0 <= k < |s| :: StandsFor(parts[k], s[k])
    ensures forall k | 0 <= k < |s| :: parts[k].Plain? <==> s[k] >= ' ' && s[k] != '"' && s[k] != '\\'
  {
    hide Escape, StandsFor, Grammar.LegalPart, Grammar.RenderPart, Grammar.RenderParts;
    parts := [];
    if s == "" {
      NothingRendered();
    } else {
      parts := EncodedTextIsJson(s[..|s| - 1]);
      var last := EscapeIsJson(s[|s| - 1]);
      RenderOneMore(parts, last);
      parts := parts + [last];
    }
  }

  lemma NothingRendered()
    ensures Grammar.RenderParts([]) == ""
  {
  }

  lemma {:induction false} RenderOneMore(parts: seq<Grammar.StrPart>, last: Grammar.StrPart)
    ensures Grammar.RenderParts(parts + [last]) == Grammar.RenderParts(parts) + Grammar.RenderPart(last)
  {
    if parts == [] {
      assert [last][1..] == [];
    } else {
      assert (parts + [last])[1..] == parts[1..] + [last];
      RenderOneMore(parts[1..], last);
    }
  }

  // ----- an encoded record is JSON -----

  predicate PartsSpell(parts: seq<Grammar.StrPart>, s: string) {
    Grammar.LegalText(parts) && |parts| == |s| && forall k | 0 <= k < |s| :: StandsFor(parts[k], s[k])
  }

  /** A JSON text of a field: its characters one by one, its pairs in their order without
      any white space, and what came encoded as it is. */
  predicate Spells(j: Grammar.Json, f: Field)
    decreases f
  {
    match f
    case Text(text) => j.Text? && PartsSpell(j.parts, text)
    case Nested(pairs) => j.Object? && j.pad == "" && SpellsAll(j.members, pairs)
    case Plain(encoded) => Grammar.Render(j) == encoded
  }

  predicate SpellsAll(ms: Grammar.Members, d: Dict)
    decreases d
  {
    if d == [] then ms.NoMember?
    else
      && ms.Member? && ms.before == "" && ms.between == "" && ms.lead == "" && ms.after == ""
      && PartsSpell(ms.key, d[0].key) && Spells(ms.value, d[0].field) && SpellsAll(ms.rest, d[1..])
  }

  /** What came encoded is JSON. */
  ghost predicate PlainIsJson(f: Field)
    decreases f
  {
    match f
    case Text(_) => true
    case Nested(pairs) => PlainsAreJson(pairs)
    case Plain(encoded) => exists j :: Grammar.Legal(j) && Grammar.Render(j) == encoded
  }

  ghost predicate PlainsAreJson(d: Dict)
    decreases d
  {
    forall k | 0 <= k < |d| :: PlainIsJson(d[k].field)
  }

  /** The encoding of a record is a JSON text of just that record. */
  lemma EncodedRecordIsJson(d: Dict) returns (j: Grammar.Json)
    requires PlainsAreJson(d)
    ensures Grammar.Legal(j) && Grammar.Render(j) == Encode(d) && Spells(j, Nested(d))
  {
    var ms := EncodedPairsAreJson(d);
    j := Grammar.Object("", ms);
    assert "" + Grammar.RenderMembers(ms) == EncodePairs(d);
  }

  lemma {:induction false} EncodedFieldIsJson(f: Field) returns (j: Grammar.Json)
    requires PlainIsJson(f)
    ensures Grammar.Legal(j) && Grammar.Render(j) == EncodeField(f) && Spells(j, f)
    decreases f
  {
    match f
    case Text(text) =>
      var parts := EncodedTextIsJson(text);
      j := Grammar.Text(parts);
    case Nested(pairs) =>
      var ms := EncodedPairsAreJson(pairs);
      j := Grammar.Object("", ms);
      assert "" + Grammar.RenderMembers(ms) == EncodePairs(pairs);
    case Plain(encoded) =>
      j :| Grammar.Legal(j) && Grammar.Render(j) == encoded;
  }

  lemma {:induction false} EncodedPairsAreJson(d: Dict) returns (ms: Grammar.Members)
    requires PlainsAreJson(d)
    ensures Grammar.LegalMembers(ms) && Grammar.RenderMembers(ms) == EncodePairs(d) && SpellsAll(ms, d)
    decreases d
  {
    hide Grammar.Render, EncodeField, EscapeAll, Spells, PartsSpell, PlainIsJson, Grammar.LegalText, Grammar.Legal, Grammar.RenderParts;
    ms := Grammar.NoMember;
    if d != [] {
      var key := EncodedTextIsJson(d[0].key);
      KeySpells(key, d[0].key);
      var value := EncodedFieldIsJson(d[0].field);
      assert forall k | 0 <= k < |d[1..]| :: d[1..][k] == d[k + 1];
      var rest := EncodedPairsAreJson(d[1..]);
      ms := Grammar.Member("", key, "", "", value, "", rest);
      OneMemberRendered(ms);
    }
  }

  lemma KeySpells(parts: seq<Grammar.StrPart>, s: string)
    requires Grammar.LegalText(parts) && |parts| == |s| && forall k | 0 <= k < |s| :: StandsFor(parts[k], s[k])
    ensures PartsSpell(parts, s)
  {
  }

  lemma OneMemberRendered(ms: Grammar.Members)
    requires ms.Member? && ms.before == "" && ms.between == "" && ms.lead == "" && ms.after == ""
    ensures Grammar.RenderMembers(ms) == "\"" + Grammar.RenderParts(ms.key) + "\":" + Grammar.Render(ms.value)
      + (if ms.rest.NoMember? then "" else ",") + Grammar.RenderMembers(ms.rest)
  {
  }

  // ----- dictionary operations -----

  function Get(d: Dict, key: string): Option<Field> {
    if d == [] then None else if d[0].key == key then Some(d[0].field) else Get(d[1..], key)
  }

  function Set(d: Dict, key: string, field: Field): Dict {
    if d == [] then [Pair(key, field)]
    else if d[0].key == key then [Pair(key, field)] + d[1..]
    else [d[0]] + Set(d[1..], key, field)
  }

  function Remove(d: Dict, key: string): Dict {
    if d == [] then [] else if d[0].key == key then d[1..] else [d[0]] + Remove(d[1..], key)
  }

  function Take(s: string, n: nat): string { if |s| > n then s[..n] else s }

  /** The string form of a field that is normally text already. */
  function Str(f: Option<Field>): string {
    match f
    case None => ""
    case Some(Text(text)) => text
    case Some(Plain(encoded)) => encoded
    case Some(Nested(pairs)) => Encode(pairs)
  }

  predicate Truthy(f: Field) {
    match f
    case Text(text) => text != ""
    case Nested(pairs) => pairs != []
    case Plain(encoded) => encoded !in {"false", "null", "0", "0.0", "-0.0", "[]", "{}"}
  }

  // ----- the record before it is measured -----

  /** Every text in the record, nested ones too, with the login password taken out. */
  function Redacted(d: Dict, redact: string -> string): (r: Dict)
    ensures |r| == |d| && forall k | 0 <= k < |d| :: r[k].key == d[k].key
    decreases d
  {
    if d == [] then []
    else [Pair(d[0].key, RedactedField(d[0].field, redact))] + Redacted(d[1..], redact)
  }

  function RedactedField(f: Field, redact: string -> string): Field
    decreases f
  {
    match f
    case Text(text) => Text(redact(text))
    case Nested(pairs) => Nested(Redacted(pairs, redact))
    case Plain(_) => f
  }

  function Prepared(result: Dict, redact: string -> string): Dict {
    var d := Redacted(result, redact);
    var flag := Get(d, "execution_unknown");
    var d := Remove(d, "execution_unknown");
    var d := if flag.Some? && Truthy(flag.value) then Set(d, "status", Text("unknown")) else d;
    Set(d, "error", Text(Take(Str(Get(d, "error")), 1000)))
  }

  /** The record marked as truncated, with the first `n` characters of its output. */
  function Shortened(d: Dict, n: nat): Dict
    requires n <= |Str(Get(d, "output"))|
  {
    Set(Set(d, "output_truncated", Plain("true")), "output", Text(Str(Get(d, "output"))[..n]))
  }

  /** Of the shortened forms exactly those no longer than the kept one fit. */
  ghost predicate LongestFit(d: Dict, budget: int, kept: Dict) {
    exists n: nat | n <= |Str(Get(d, "output"))| ::
      && kept == Shortened(d, n)
      && forall m: nat | m <= |Str(Get(d, "output"))| :: Size(Shortened(d, m)) <= budget <==> m <= n
  }

  lemma {:induction false} BytesConcat(a: string, b: string)
    ensures Bytes(a + b) == Bytes(a) + Bytes(b)
  {
    hide Width;
    if b == "" {
      assert a + b == a;
    } else {
      assert (a + b)[..|a + b| - 1] == a + b[..|b| - 1];
      BytesConcat(a, b[..|b| - 1]);
    }
  }

  lemma {:induction false} SetTwice(d: Dict, key: string, first: Field, second: Field)
    ensures Set(Set(d, key, first), key, second) == Set(d, key, second)
  {
    if d != [] && d[0].key != key {
      SetTwice(d[1..], key, first, second);
      assert ([d[0]] + Set(d[1..], key, first))[1..] == Set(d[1..], key, first);
    } else if d != [] {
      assert ([Pair(key, first)] + d[1..])[1..] == d[1..];
    }
  }

  lemma FirstPairBytes(d: Dict)
    requires d != []
    ensures Bytes(EncodePairs(d))
         == Bytes("\"" + EscapeAll(d[0].key) + "\":") + Bytes(EncodeField(d[0].field))
          + (if |d| == 1 then 0 else Bytes(",")) + Bytes(EncodePairs(d[1..]))
  {
    var key, field := "\"" + EscapeAll(d[0].key) + "\":", EncodeField(d[0].field);
    var comma := if |d| == 1 then "" else ",";
    BytesConcat(key, field);
    BytesConcat(key + field, comma);
    BytesConcat(key + field + comma, EncodePairs(d[1..]));
  }

  lemma {:induction false} TextFieldBytes(d: Dict, key: string, text: string)
    ensures Bytes(EncodePairs(Set(d, key, Text(text)))) == Bytes(EncodePairs(Set(d, key, Text("")))) + Bytes(EscapeAll(text))
  {
    var full, empty := Set(d, key, Text(text)), Set(d, key, Text(""));
    FirstPairBytes(full);
    FirstPairBytes(empty);
    if d == [] || d[0].key == key {
      BytesConcat("\"" + EscapeAll(text), "\"");
      BytesConcat("\"", EscapeAll(text));
      assert full[1..] == empty[1..];
      assert "\"" + EscapeAll("") == "\"";
      BytesConcat("\"", "\"");
    } else {
      assert full[1..] == Set(d[1..], key, Text(text)) && empty[1..] == Set(d[1..], key, Text(""));
      SetSizes(d[1..], key, Text(text), Text(""));
      TextFieldBytes(d[1..], key, text);
    }
  }

  lemma {:induction false} SetSizes(d: Dict, key: string, first: Field, second: Field)
    ensures |Set(d, key, first)| == |Set(d, key, second)| >= 1
  {
    if d != [] && d[0].key != key {
      SetSizes(d[1..], key, first, second);
    }
  }

  /** A record's size is the size without its output plus the bytes its output takes. */
  lemma SizeOfOutput(d: Dict, text: string)
    ensures Size(Set(d, "output", Text(text))) == Size(Set(d, "output", Text(""))) + Bytes(EscapeAll(text))
  {
    var full, empty := Set(d, "output", Text(text)), Set(d, "output", Text(""));
    TextFieldBytes(d, "output", text);
    BytesConcat("{", EncodePairs(full));
    BytesConcat("{" + EncodePairs(full), "}");
    BytesConcat("{", EncodePairs(empty));
    BytesConcat("{" + EncodePairs(empty), "}");
  }

  lemma {:induction false} PrefixBytes(s: string, m: nat, n: nat)
    requires m <= n <= |s|
    ensures Bytes(EscapeAll(s[..m])) <= Bytes(EscapeAll(s[..n]))
    decreases n
  {
    hide Escape, Width;
    if m < n {
      PrefixBytes(s, m, n - 1);
      assert s[..n][..n - 1] == s[..n - 1];
      BytesConcat(EscapeAll(s[..n - 1]), Escape(s[n - 1]));
    }
  }

  lemma ShorterIsSmaller(d: Dict)
    ensures forall m: nat, n: nat | m <= n <= |Str(Get(d, "output"))| :: Size(Shortened(d, m)) <= Size(Shortened(d, n))
  {
    var output, marked := Str(Get(d, "output")), Set(d, "output_truncated", Plain("true"));
    forall m: nat, n: nat | m <= n <= |output|
      ensures Size(Shortened(d, m)) <= Size(Shortened(d, n))
    {
      SizeOfOutput(marked, output[..m]);
      SizeOfOutput(marked, output[..n]);
      PrefixBytes(output, m, n);
    }
  }

  lemma SetTwiceAll(d: Dict, output: string, middle: nat)
    requires middle <= |output|
    ensures forall n: nat | n <= |output| ::
      Set(Set(d, "output", Text(output[..middle])), "output", Text(output[..n])) == Set(d, "output", Text(output[..n]))
  {
    forall n: nat | n <= |output|
      ensures Set(Set(d, "output", Text(output[..middle])), "output", Text(output[..n])) == Set(d, "output", Text(output[..n]))
    {
      SetTwice(d, "output", Text(output[..middle]), Text(output[..n]));
    }
  }

  /** Bisects for the longest prefix of the output that fits; none at all may fit. */
  method Shorten(d: Dict, budget: int) returns (record: Dict)
    ensures Size(Shortened(d, 0)) <= budget ==> Size(record) <= budget && LongestFit(d, budget, record)
    ensures Size(Shortened(d, 0)) > budget ==> record == Shortened(d, 0)
  {
    var output := Str(Get(d, "output"));
    record := Set(d, "output_truncated", Plain("true"));
    ShorterIsSmaller(d);
    var low, high := 0, |output|;
    while low < high
      invariant low <= high <= |output|
      invariant forall n: nat | n <= |output| :: Set(record, "output", Text(output[..n])) == Shortened(d, n)
      invariant low == 0 || Size(Shortened(d, low)) <= budget
      invariant high < |output| ==> Size(Shortened(d, high + 1)) > budget
    {
      var middle := (low + high + 1) / 2;
      SetTwiceAll(record, output, middle);
      record := Set(record, "output", Text(output[..middle]));
      if Size(record) <= budget {
        low := middle;
      } else {
        high := middle - 1;
      }
    }
    record := Set(record, "output", Text(output[..low]));
  }

  // ----- what the kept texts are -----

  /** Every text of the record satisfies `p`, nested ones too. */
  ghost predicate Holds(d: Dict, p: string -> bool)
    decreases d
  {
    forall k | 0 <= k < |d| :: HoldsIn(d[k].field, p)
  }

  ghost predicate HoldsIn(f: Field, p: string -> bool)
    decreases f
  {
    match f
    case Text(text) => p(text)
    case Nested(pairs) => Holds(pairs, p)
    case Plain(_) => true
  }

  /** What is neither text nor a place for text also satisfies `p`: keys and plain values. */
  ghost predicate HoldsBeside(f: Field, p: string -> bool)
    decreases f
  {
    match f
    case Text(_) => true
    case Nested(pairs) => forall k | 0 <= k < |pairs| :: p(pairs[k].key) && HoldsBeside(pairs[k].field, p)
    case Plain(encoded) => p(encoded)
  }

  /** `p` is a property of everything redaction yields, of every beginning of such a text,
      and of what the record itself adds. */
  ghost predicate Kept(p: string -> bool, redact: string -> string) {
    && (forall s :: p(redact(s)))
    && (forall s, n: nat | n <= |s| && p(s) :: p(s[..n]))
    && p("unknown") && p("")
  }

  /** `p` is kept by encoding a field all of whose parts satisfy it. */
  ghost predicate KeptByEncoding(p: string -> bool) {
    forall f: Field | !f.Text? && HoldsIn(f, p) && HoldsBeside(f, p) :: p(Str(Some(f)))
  }

  predicate IsText(f: Option<Field>) { f.None? || f.value.Text? }

  /** Where the error or the output of a result is not text, it is kept as its encoding. */
  ghost predicate Encodable(result: Dict, key: string, p: string -> bool) {
    IsText(Get(result, key)) || (KeptByEncoding(p) && HoldsBeside(Get(result, key).value, p))
  }

  lemma {:induction false} RedactionHolds(d: Dict, redact: string -> string, p: string -> bool)
    requires Kept(p, redact)
    ensures Holds(Redacted(d, redact), p)
    decreases d
  {
    if d != [] {
      RedactionHolds(d[1..], redact, p);
      RedactionHoldsIn(d[0].field, redact, p);
      var r := Redacted(d, redact);
      forall k | 0 <= k < |r| ensures HoldsIn(r[k].field, p) {
        assert k > 0 ==> r[k] == Redacted(d[1..], redact)[k - 1];
      }
    }
  }

  lemma {:induction false} RedactionHoldsIn(f: Field, redact: string -> string, p: string -> bool)
    requires Kept(p, redact)
    ensures HoldsIn(RedactedField(f, redact), p)
    decreases f
  {
    if f.Nested? {
      RedactionHolds(f.pairs, redact, p);
    }
  }

  lemma {:induction false} RedactedAt(d: Dict, redact: string -> string, key: string)
    ensures Get(Redacted(d, redact), key) ==
      match Get(d, key) case None => None case Some(f) => Some(RedactedField(f, redact))
  {
    if d != [] && d[0].key != key {
      RedactedAt(d[1..], redact, key);
      assert Redacted(d, redact)[1..] == Redacted(d[1..], redact);
    }
  }

  /** Redaction changes texts only: keys, plain values and the nesting stay. */
  lemma {:induction false} RedactionKeepsTheRest(f: Field, redact: string -> string, p: string -> bool)
    ensures var r := RedactedField(f, redact);
      && (f.Text? ==> r == Text(redact(f.text))) && (f.Plain? ==> r == f) && (f.Nested? ==> r.Nested? && |r.pairs| == |f.pairs|)
      && (HoldsBeside(f, p) ==> HoldsBeside(r, p))
    decreases f
  {
    if f.Nested? {
      forall k | 0 <= k < |f.pairs|
        ensures Redacted(f.pairs, redact)[k] == Pair(f.pairs[k].key, RedactedField(f.pairs[k].field, redact))
        ensures HoldsBeside(f.pairs[k].field, p) ==> HoldsBeside(RedactedField(f.pairs[k].field, redact), p)
      {
        RedactedElement(f.pairs, redact, k);
        RedactionKeepsTheRest(f.pairs[k].field, redact, p);
      }
    }
  }

  lemma {:induction false} RedactedElement(d: Dict, redact: string -> string, k: nat)
    requires k < |d|
    ensures Redacted(d, redact)[k] == Pair(d[k].key, RedactedField(d[k].field, redact))
  {
    if k > 0 {
      RedactedElement(d[1..], redact, k - 1);
      assert d[k] == d[1..][k - 1];
    }
  }

  lemma {:induction false} SetHolds(d: Dict, key: string, field: Field, p: string -> bool)
    requires Holds(d, p) && HoldsIn(field, p)
    ensures Holds(Set(d, key, field), p)
  {
    var r := Set(d, key, field);
    if d != [] && d[0].key != key {
      assert Holds(d[1..], p);
      SetHolds(d[1..], key, field, p);
      forall k | 0 <= k < |r| ensures HoldsIn(r[k].field, p) {
        assert k > 0 ==> r[k] == Set(d[1..], key, field)[k - 1];
      }
    }
  }

  lemma {:induction false} RemoveHolds(d: Dict, key: string, p: string -> bool)
    requires Holds(d, p)
    ensures Holds(Remove(d, key), p)
  {
    var r := Remove(d, key);
    if d != [] && d[0].key != key {
      assert Holds(d[1..], p);
      RemoveHolds(d[1..], key, p);
      forall k | 0 <= k < |r| ensures HoldsIn(r[k].field, p) {
        assert k > 0 ==> r[k] == Remove(d[1..], key)[k - 1];
      }
    }
  }

  lemma {:induction false} GetOfSet(d: Dict, key: string, field: Field, other: string)
    ensures Get(Set(d, key, field), other) == if other == key then Some(field) else Get(d, other)
  {
    if d != [] && d[0].key != key {
      GetOfSet(d[1..], key, field, other);
      assert Set(d, key, field)[1..] == Set(d[1..], key, field);
    }
  }

  /** No key twice, as in any dictionary. */
  predicate Keyed(d: Dict) { forall i, j | 0 <= i < j < |d| :: d[i].key != d[j].key }

  lemma {:induction false} GetOfRemove(d: Dict, key: string, other: string)
    ensures other != key ==> Get(Remove(d, key), other) == Get(d, other)
    ensures Keyed(d) ==> Get(Remove(d, key), key).None?
  {
    if d != [] && d[0].key != key {
      GetOfRemove(d[1..], key, other);
      assert Remove(d, key)[1..] == Remove(d[1..], key);
    } else if d != [] && Keyed(d) {
      NotThere(d[1..], key);
    }
  }

  lemma {:induction false} NotThere(d: Dict, key: string)
    requires forall k | 0 <= k < |d| :: d[k].key != key
    ensures Get(d, key).None?
  {
    if d != [] { NotThere(d[1..], key); }
  }

  lemma {:induction false} GetHolds(d: Dict, key: string, p: string -> bool)
    requires Holds(d, p)
    ensures Get(d, key).Some? ==> HoldsIn(Get(d, key).value, p)
  {
    if d != [] && d[0].key != key {
      assert Holds(d[1..], p);
      GetHolds(d[1..], key, p);
    }
  }

  /** A field once redaction has taken the password out of its text. */
  function Cleaned(f: Option<Field>, redact: string -> string): string {
    match f
    case None => ""
    case Some(Text(text)) => redact(text)
    case Some(Plain(encoded)) => encoded
    case Some(Nested(_)) => Str(Some(RedactedField(f.value, redact)))
  }

  /** The record before it is measured, field by field, in terms of the result: the flag
      goes and says whether the status is unknown, the error is cut to 1000 characters, and
      every other field is the redacted one. */
  lemma PreparedFields(result: Dict, redact: string -> string, key: string)
    ensures var d, was := Prepared(result, redact), Get(result, key);
      && Get(d, "error") == Some(Text(Take(Cleaned(Get(result, "error"), redact), 1000)))
      && (Keyed(result) ==> Get(d, "execution_unknown").None?)
      && (FlagSet(result, redact) ==> Get(d, "status") == Some(Text("unknown")))
      && (key !in {"error", "execution_unknown", "status"} || (key == "status" && !FlagSet(result, redact)) ==>
            match was
            case None => Get(d, key).None?
            case Some(Text(text)) => Get(d, key) == Some(Text(redact(text)))
            case Some(Plain(_)) => Get(d, key) == was
            case Some(Nested(pairs)) => Get(d, key).Some? && Get(d, key).value.Nested? && |Get(d, key).value.pairs| == |pairs|)
  {
    hide Prepared, Redacted, Truthy, Take, Str;
    var clean := Redacted(result, redact);
    PreparedGet(clean, Prepared(result, redact), result, redact, key);
    PreparedGet(clean, Prepared(result, redact), result, redact, "error");
    PreparedGet(clean, Prepared(result, redact), result, redact, "status");
    RedactedFlag(result, redact);
    RedactedAt(result, redact, "error");
    RedactedAt(result, redact, key);
    if Get(result, key).Some? { RedactionKeepsTheRest(Get(result, key).value, redact, s => true); }
    RedactedStr(result, redact, "error");
    RedactedKeys(result, redact);
  }

  lemma RedactedKeys(result: Dict, redact: string -> string)
    ensures Keyed(result) ==> Keyed(Redacted(result, redact))
  {
  }

  lemma RedactedStr(result: Dict, redact: string -> string, key: string)
    ensures Str(Get(Redacted(result, redact), key)) == Cleaned(Get(result, key), redact)
  {
    RedactedAt(result, redact, key);
    if Get(result, key).Some? { RedactionKeepsTheRest(Get(result, key).value, redact, s => true); }
  }

  lemma RedactedFlag(result: Dict, redact: string -> string)
    ensures var flag := Get(Redacted(result, redact), "execution_unknown");
      (flag.Some? && Truthy(flag.value)) <==> FlagSet(result, redact)
  {
    RedactedAt(result, redact, "execution_unknown");
    var f := Get(result, "execution_unknown");
    if f.Some? { RedactionKeepsTheRest(f.value, redact, s => true); }
  }

  /** The preparation, key by key, over the redacted result. */
  lemma PreparedGet(clean: Dict, d: Dict, result: Dict, redact: string -> string, key: string)
    requires clean == Redacted(result, redact) && d == Prepared(result, redact)
    ensures var flag := Get(clean, "execution_unknown");
      var flagged := flag.Some? && Truthy(flag.value);
      && (key != "execution_unknown" ==>
            Get(d, key) == (if key == "error" then Some(Text(Take(Str(Get(clean, "error")), 1000)))
                            else if key == "status" && flagged then Some(Text("unknown"))
                            else Get(clean, key)))
      && (Keyed(clean) ==> Get(d, "execution_unknown").None?)
  {
    hide Truthy, Take, Str, Keyed;
    var unflagged := Remove(clean, "execution_unknown");
    var flag := Get(clean, "execution_unknown");
    var marked := if flag.Some? && Truthy(flag.value) then Set(unflagged, "status", Text("unknown")) else unflagged;
    var error := Text(Take(Str(Get(marked, "error")), 1000));
    forall other | other in {key, "error", "execution_unknown"}
      ensures other != "execution_unknown" ==> Get(unflagged, other) == Get(clean, other)
      ensures Keyed(clean) ==> Get(unflagged, "execution_unknown").None?
      ensures Get(Set(unflagged, "status", Text("unknown")), other) == if other == "status" then Some(Text("unknown")) else Get(unflagged, other)
      ensures Get(Set(marked, "error", error), other) == if other == "error" then Some(error) else Get(marked, other)
    {
      GetOfRemove(clean, "execution_unknown", other);
      GetOfSet(unflagged, "status", Text("unknown"), other);
      GetOfSet(marked, "error", error, other);
    }
    assert d == Set(marked, "error", error);
  }

  /** The flag was there, and stood for true once redacted. */
  predicate FlagSet(result: Dict, redact: string -> string) {
    match Get(result, "execution_unknown")
    case None => false
    case Some(Text(text)) => redact(text) != ""
    case Some(Nested(pairs)) => pairs != []
    case Some(Plain(encoded)) => encoded !in {"false", "null", "0", "0.0", "-0.0", "[]", "{}"}
  }

  lemma CleanedHolds(result: Dict, redact: string -> string, key: string, p: string -> bool)
    requires Kept(p, redact) && Encodable(result, key, p)
    ensures p(Cleaned(Get(result, key), redact))
  {
    var f := Get(result, key);
    if f.Some? {
      RedactionHoldsIn(f.value, redact, p);
      RedactionKeepsTheRest(f.value, redact, p);
    }
  }

  lemma PreparedHolds(result: Dict, redact: string -> string, p: string -> bool)
    requires Kept(p, redact) && Encodable(result, "error", p)
    ensures Holds(Prepared(result, redact), p)
  {
    RedactionHolds(result, redact, p);
    var clean := Redacted(result, redact);
    RemoveHolds(clean, "execution_unknown", p);
    var unflagged := Remove(clean, "execution_unknown");
    SetHolds(unflagged, "status", Text("unknown"), p);
    var flag := Get(clean, "execution_unknown");
    var marked := if flag.Some? && Truthy(flag.value) then Set(unflagged, "status", Text("unknown")) else unflagged;
    PreparedFields(result, redact, "error");
    CleanedHolds(result, redact, "error", p);
    var error := Text(Take(Str(Get(marked, "error")), 1000));
    GetOfSet(marked, "error", error, "error");
    var text := Cleaned(Get(result, "error"), redact);
    assert error == Text(Take(text, 1000)) && p(Take(text, 1000));
    SetHolds(marked, "error", error, p);
  }

  /** Whatever the record is cut down to, all its texts are beginnings of redacted ones. */
  lemma BoundedHolds(result: Dict, redact: string -> string, budget: int, record: Dict, p: string -> bool)
    requires Kept(p, redact) && Encodable(result, "error", p) && Encodable(result, "output", p)
    requires record == Prepared(result, redact) || LongestFit(Prepared(result, redact), budget, record)
    ensures Holds(record, p)
  {
    var d := Prepared(result, redact);
    PreparedHolds(result, redact, p);
    if record != d {
      var output := Str(Get(d, "output"));
      var n: nat :| n <= |output| && record == Shortened(d, n);
      OutputHolds(result, redact, p);
      SetHolds(d, "output_truncated", Plain("true"), p);
      SetHolds(Set(d, "output_truncated", Plain("true")), "output", Text(output[..n]), p);
    }
  }

  /** Cutting the output leaves every other field. */
  lemma BoundedFields(result: Dict, redact: string -> string, budget: int, record: Dict)
    requires record == Prepared(result, redact) || LongestFit(Prepared(result, redact), budget, record)
    ensures Get(record, "error") == Some(Text(Take(Cleaned(Get(result, "error"), redact), 1000)))
    ensures FlagSet(result, redact) ==> Get(record, "status") == Some(Text("unknown"))
    ensures !FlagSet(result, redact) ==> match Get(result, "status")
      case None => Get(record, "status").None?
      case Some(Text(text)) => Get(record, "status") == Some(Text(redact(text)))
      case Some(Plain(_)) => Get(record, "status") == Get(result, "status")
      case Some(Nested(_)) => Get(record, "status").Some? && Get(record, "status").value.Nested?
  {
    hide Prepared, Cleaned, FlagSet, Size, Shortened, Get, Take, Str;
    var d := Prepared(result, redact);
    PreparedFields(result, redact, "status");
    if record != d {
      var n: nat :| n <= |Str(Get(d, "output"))| && record == Shortened(d, n);
      CuttingKeeps(d, n, "error");
      CuttingKeeps(d, n, "status");
    }
  }

  lemma CuttingKeeps(d: Dict, n: nat, key: string)
    requires n <= |Str(Get(d, "output"))| && key !in {"output", "output_truncated"}
    ensures Get(Shortened(d, n), key) == Get(d, key)
  {
    hide Get, Set;
    GetOfSet(d, "output_truncated", Plain("true"), key);
    GetOfSet(Set(d, "output_truncated", Plain("true")), "output", Text(Str(Get(d, "output"))[..n]), key);
  }

  /** A record that was cut says so, keeps a beginning of the output, and nothing else changed. */
  ghost predicate IsCut(d: Dict, record: Dict) {
    && Get(record, "output_truncated") == Some(Plain("true"))
    && (exists n: nat | n <= |Str(Get(d, "output"))| :: Get(record, "output") == Some(Text(Str(Get(d, "output"))[..n])))
    && forall key | key !in {"output", "output_truncated"} :: Get(record, key) == Get(d, key)
  }

  lemma ShortenedIsCut(d: Dict, n: nat)
    requires n <= |Str(Get(d, "output"))|
    ensures IsCut(d, Shortened(d, n))
  {
    hide Get, Set, Str;
    var marked, output := Set(d, "output_truncated", Plain("true")), Text(Str(Get(d, "output"))[..n]);
    GetOfSet(marked, "output", output, "output");
    GetOfSet(marked, "output", output, "output_truncated");
    GetOfSet(d, "output_truncated", Plain("true"), "output_truncated");
    forall key | key !in {"output", "output_truncated"} ensures Get(Shortened(d, n), key) == Get(d, key) {
      CuttingKeeps(d, n, key);
    }
  }

  lemma LongestFitIsCut(d: Dict, budget: int, record: Dict)
    requires LongestFit(d, budget, record)
    ensures IsCut(d, record)
  {
    hide Get, IsCut, Shortened, Size, Str;
    var n: nat :| n <= |Str(Get(d, "output"))| && record == Shortened(d, n);
    ShortenedIsCut(d, n);
  }

  lemma OutputHolds(result: Dict, redact: string -> string, p: string -> bool)
    requires Kept(p, redact) && Encodable(result, "output", p)
    ensures p(Str(Get(Prepared(result, redact), "output")))
  {
    PreparedOutput(result, redact);
    CleanedHolds(result, redact, "output", p);
  }

  lemma PreparedOutput(result: Dict, redact: string -> string)
    ensures Str(Get(Prepared(result, redact), "output")) == Cleaned(Get(result, "output"), redact)
  {
    hide Prepared;
    PreparedGet(Redacted(result, redact), Prepared(result, redact), result, redact, "output");
    RedactedStr(result, redact, "output");
  }

  /** The record as it is kept: unchanged when it fits, otherwise with the longest prefix
      of its output that fits. */
  method Bound(result: Dict, redact: string -> string, budget: int) returns (r: Outcome)
    ensures r.Ok? ==> Size(r.record) <= budget
    ensures Size(Prepared(result, redact)) <= budget ==> r == Ok(Prepared(result, redact))
    ensures Size(Prepared(result, redact)) > budget ==> (r.Ok? <==> Size(Shortened(Prepared(result, redact), 0)) <= budget)
    ensures Size(Prepared(result, redact)) > budget && r.Ok? ==> LongestFit(Prepared(result, redact), budget, r.record)
    ensures r.Ok? && r.record != Prepared(result, redact) ==> IsCut(Prepared(result, redact), r.record)
    ensures forall p: string -> bool | Kept(p, redact) && Encodable(result, "error", p) && Encodable(result, "output", p) ::
      r.Ok? ==> Holds(r.record, p)
    ensures r.Ok? ==> var error := Cleaned(Get(result, "error"), redact);
      Get(r.record, "error") == Some(Text(if |error| <= 1000 then error else error[..1000]))
    ensures r.Ok? && FlagSet(result, redact) ==> Get(r.record, "status") == Some(Text("unknown"))
    ensures r.Ok? && !FlagSet(result, redact) ==> match Get(result, "status")
      case None => Get(r.record, "status").None?
      case Some(Text(text)) => Get(r.record, "status") == Some(Text(redact(text)))
      case Some(Plain(_)) => Get(r.record, "status") == Get(result, "status")
      case Some(Nested(_)) => Get(r.record, "status").Some? && Get(r.record, "status").value.Nested?
  {
    hide Size, Kept, Encodable, FlagSet, IsCut, LongestFit;
    var record := Prepared(result, redact);
    if Size(record) > budget {
      record := Shorten(record, budget);
    }
    if Size(record) > budget {
      return Refused;
    }
    BoundedFields(result, redact, budget, record);
    if record != Prepared(result, redact) {
      LongestFitIsCut(Prepared(result, redact), budget, record);
    }
    forall p: string -> bool | Kept(p, redact) && Encodable(result, "error", p) && Encodable(result, "output", p)
      ensures Holds(record, p)
    {
      BoundedHolds(result, redact, budget, record, p);
    }
    return Ok(record);
  }

  // ----- all the hosts of a run -----

  const RESULT_BYTES := 64 * 1024 * 1024

  /** What each of `hosts` hosts may use, 2048 bytes of it kept for a retry token. */
  function Share(hosts: nat): int
    requires hosts > 0
  {
    (RESULT_BYTES - 1024 * 1024) / hosts
  }

  function Total(records: seq<Dict>): nat {
    if records == [] then 0 else Size(records[0]) + Total(records[1..])
  }

  lemma {:induction false} TotalIsBounded(records: seq<Dict>, each: int)
    requires forall d | d in records :: Size(d) <= each
    ensures Total(records) <= |records| * each
  {
    hide Size;
    if records != [] {
      TotalIsBounded(records[1..], each);
      assert |records| * each == each + |records[1..]| * each by {
        assert |records[1..]| == |records| - 1;
      }
    }
  }

  lemma SharesFit(hosts: nat)
    requires hosts > 0
    ensures hosts * Share(hosts) <= RESULT_BYTES - 1024 * 1024 < hosts * (Share(hosts) + 1)
  {
  }

  /** The bounded records of a whole run leave 2048 bytes a host, and the megabyte. */
  lemma RunFitsItsEnvelope(records: seq<Dict>)
    requires records != [] && forall d | d in records :: Size(d) <= Share(|records|) - 2048
    ensures Total(records) <= RESULT_BYTES - 1024 * 1024 - 2048 * |records|
  {
    SharesFit(|records|);
    SharedOut(records, Share(|records|), RESULT_BYTES - 1024 * 1024);
  }

  lemma SharedOut(records: seq<Dict>, share: int, all: int)
    requires |records| * share <= all && forall d | d in records :: Size(d) <= share - 2048
    ensures Total(records) <= all - 2048 * |records|
  {
    TotalIsBounded(records, share - 2048);
    Margins(|records|, share);
  }

  lemma Margins(hosts: nat, share: int)
    ensures hosts * (share - 2048) == hosts * share - 2048 * hosts
  {
  }

  lemma {:induction false} NewFieldBytes(d: Dict, key: string, field: Field)
    requires d != [] && Get(d, key).None?
    ensures Bytes(EncodePairs(Set(d, key, field)))
         == Bytes(EncodePairs(d)) + 1 + Bytes("\"" + EscapeAll(key) + "\":") + Bytes(EncodeField(field))
  {
    var grown := Set(d, key, field);
    FirstPairBytes(d);
    FirstPairBytes(grown);
    assert grown[1..] == Set(d[1..], key, field);
    assert Bytes(",") == 1 && EncodePairs([]) == "" && Bytes("") == 0;
    if |d| == 1 {
      assert grown[1..] == [Pair(key, field)];
      FirstPairBytes(grown[1..]);
    } else {
      NewFieldBytes(d[1..], key, field);
      SetSizes(d[1..], key, field, field);
    }
  }

  predicate IsPlain(c: char) { 32 <= c as int < 127 && c != '"' && c != '\\' }

  lemma PlainCharacter(c: char)
    requires IsPlain(c)
    ensures Escape(c) == [c] && Width(c) == 1
  {
  }

  lemma {:induction false} PlainBytes(s: string)
    requires forall k | 0 <= k < |s| :: IsPlain(s[k])
    ensures EscapeAll(s) == s && Bytes(s) == |s|
  {
    hide IsPlain, Escape, Width;
    if s != "" {
      var rest := s[..|s| - 1];
      assert forall k | 0 <= k < |rest| :: rest[k] == s[k];
      PlainBytes(rest);
      PlainCharacter(s[|s| - 1]);
      assert s == rest + [s[|s| - 1]];
    }
  }

  lemma QuotedBytes(s: string)
    ensures Bytes("\"" + s + "\"") == Bytes(s) + 2
    ensures Bytes("\"" + s + "\":") == Bytes(s) + 3
  {
    BytesConcat("\"" + s, "\"");
    BytesConcat("\"" + s, "\":");
    BytesConcat("\"", s);
    assert "\":"[..1] == "\"";
  }

  lemma BracedBytes(d: Dict)
    ensures Size(d) == Bytes(EncodePairs(d)) + 2
  {
    BytesConcat("{", EncodePairs(d));
    BytesConcat("{" + EncodePairs(d), "}");
  }

  /** A retry token is added to a record after it was bounded; its key and punctuation
      take 26 bytes. While that fits the 2048 bytes, the record fits the host's share. */
  lemma RetryTokenFits(d: Dict, token: string, share: int)
    requires d != [] && Get(d, "host_key_retry_token").None? && Size(d) <= share - 2048
    ensures Size(Set(d, "host_key_retry_token", Text(token))) == Size(d) + 26 + Bytes(EscapeAll(token))
    ensures 26 + Bytes(EscapeAll(token)) <= 2048 ==> Size(Set(d, "host_key_retry_token", Text(token))) <= share
  {
    NewFieldBytes(d, "host_key_retry_token", Text(token));
    RetryKeyBytes();
    QuotedBytes(EscapeAll(token));
    BracedBytes(d);
    BracedBytes(Set(d, "host_key_retry_token", Text(token)));
  }

  lemma RetryKeyBytes()
    ensures Bytes("\"" + EscapeAll("host_key_retry_token") + "\":") == 23
  {
    PlainBytes("host_key_retry_token");
    QuotedBytes("host_key_retry_token");
  }
}
