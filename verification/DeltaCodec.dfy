/** The journal line of one checkpoint delta: JSON text with a fixed field order, and its parser. */
module DeltaCodec {
  import opened Prelude

  datatype Identity = Identity(
    adapterName: string, adapterVersion: string, sourceSystem: string, sourceType: string,
    tenantId: string, lifeDid: string, memoryNamespace: string, processingMode: string, policyId: string)

  datatype Delta = Delta(identity: Identity, sourceId: string, fingerprint: string, updatedAt: string)

  // ---------------------------------------------------------------- JSON strings

  const HEX := "0123456789abcdef"

  /** `JSON.stringify` of one character inside a string. */
  function EscapeChar(c: char): string {
    if c == '"' then "\\\""
    else if c == '\\' then "\\\\"
    else if c == 8 as char then "\\b"
    else if c == '\t' then "\\t"
    else if c == '\n' then "\\n"
    else if c == 12 as char then "\\f"
    else if c == '\r' then "\\r"
    else if c < ' ' then ['\\', 'u', '0', '0', HEX[c as int / 16], HEX[c as int % 16]]
    else [c]
  }

  function Escape(s: string): string {
    if s == "" then "" else EscapeChar(s[0]) + Escape(s[1..])
  }

  function Quote(s: string): string { ['"'] + Escape(s) + ['"'] }

  function HexDigit(c: char): Option<nat> {
    if '0' <= c <= '9' then Some(c as int - '0' as int)
    else if 'a' <= c <= 'f' then Some(c as int - 'a' as int + 10)
    else if 'A' <= c <= 'F' then Some(c as int - 'A' as int + 10)
    else None
  }

  /** The character behind a two-character escape. */
  function ShortEscape(c: char): Option<char> {
    if c == '"' || c == '\\' || c == '/' then Some(c)
    else if c == 'b' then Some(8 as char)
    else if c == 't' then Some('\t')
    else if c == 'n' then Some('\n')
    else if c == 'f' then Some(12 as char)
    else if c == 'r' then Some('\r')
    else None
  }

  /** The character behind `\uXXXX`; surrogates are not characters of this model. */
  function LongEscape(a: char, b: char, c: char, d: char): Option<char> {
    match (HexDigit(a), HexDigit(b), HexDigit(c), HexDigit(d))
    case (Some(w), Some(x), Some(y), Some(z)) =>
      var code := w * 4096 + x * 256 + y * 16 + z;
      if 0xd800 <= code < 0xe000 || code > 0xffff then None else Some(code as char)
    case _ => None
  }

  /** The next character of a string body, and what follows it. */
  function NextChar(text: string): Option<(char, string)> {
    if text == "" || text[0] < ' ' then None
    else if text[0] != '\\' then Some((text[0], text[1..]))
    else if |text| < 2 then None
    else if text[1] == 'u' then
      if |text| < 6 then None
      else match LongEscape(text[2], text[3], text[4], text[5])
        case None => None
        case Some(c) => Some((c, text[6..]))
    else match ShortEscape(text[1])
      case None => None
      case Some(c) => Some((c, text[2..]))
  }

  /** A string body up to its closing quote, and what follows that. */
  function ParseBody(text: string): Option<(string, string)>
    decreases |text|
  {
    if text == "" then None
    else if text[0] == '"' then Some(("", text[1..]))
    else
      match NextChar(text)
      case None => None
      case Some((c, rest)) =>
        if |rest| >= |text| then None
        else
          match ParseBody(rest)
          case None => None
          case Some((body, after)) => Some(([c] + body, after))
  }

  lemma NextOfEscaped(c: char, rest: string)
    ensures NextChar(EscapeChar(c) + rest) == Some((c, rest)) && (EscapeChar(c) + rest)[0] != '"'
  {
    if c < ' ' && c !in ['\t', '\n', '\r', 8 as char, 12 as char] {
      ControlEscapes(c);
    }
  }

  lemma ControlEscapes(c: char)
    requires c < ' '
    ensures LongEscape('0', '0', HEX[c as int / 16], HEX[c as int % 16]) == Some(c)
  {
    HexRoundTrip(c as int / 16);
    HexRoundTrip(c as int % 16);
  }

  lemma HexRoundTrip(d: nat)
    requires d < 16
    ensures HexDigit(HEX[d]) == Some(d)
  {
  }

  lemma {:induction false} ParseEscaped(s: string, rest: string)
    ensures ParseBody(Escape(s) + ['"'] + rest) == Some((s, rest))
  {
    var text := Escape(s) + ['"'] + rest;
    if s == "" {
      assert text == ['"'] + rest && text[1..] == rest;
    } else {
      var tail := Escape(s[1..]) + ['"'] + rest;
      ParseEscaped(s[1..], rest);
      EscapedStarts(s, rest);
      ParseStep(text, s[0], tail, s[1..], rest);
      assert [s[0]] + s[1..] == s;
    }
  }

  lemma EscapedStarts(s: string, rest: string)
    requires s != ""
    ensures var text, tail := Escape(s) + ['"'] + rest, Escape(s[1..]) + ['"'] + rest;
      text != "" && text[0] != '"' && NextChar(text) == Some((s[0], tail)) && |tail| < |text|
  {
    var tail := Escape(s[1..]) + ['"'] + rest;
    NextOfEscaped(s[0], tail);
    assert Escape(s) + ['"'] + rest == EscapeChar(s[0]) + tail;
  }

  lemma ParseStep(text: string, c: char, tail: string, body: string, rest: string)
    requires text != "" && text[0] != '"' && NextChar(text) == Some((c, tail)) && |tail| < |text|
    requires ParseBody(tail) == Some((body, rest))
    ensures ParseBody(text) == Some(([c] + body, rest))
  {
  }

  // ---------------------------------------------------------------- fixed-order records

  /** What stands before the i-th quoted value, and after the last one. */
  type Template = nat -> string

  /** Literal and quoted value alternating from the i-th on, then the closing literal. */
  function Render(literal: Template, values: seq<string>, i: nat): string
    requires i <= |values|
    decreases |values| - i
  {
    if i == |values| then literal(i) else literal(i) + Quote(values[i]) + Render(literal, values, i + 1)
  }

  /** The values from the i-th to the n-th of a text of that shape. */
  function Read(literal: Template, n: nat, i: nat, text: string): (r: Option<seq<string>>)
    requires i <= n
    ensures r.Some? ==> |r.value| == n - i
    decreases n - i
  {
    if i == n then if text == literal(i) then Some([]) else None
    else if !StartsWith(text, literal(i) + ['"']) then None
    else
      match ParseBody(text[|literal(i)| + 1..])
      case None => None
      case Some((value, rest)) =>
        match Read(literal, n, i + 1, rest)
        case None => None
        case Some(values) => Some([value] + values)
  }

  lemma {:induction false} ReadRendered(literal: Template, values: seq<string>, i: nat)
    requires i <= |values|
    ensures Read(literal, |values|, i, Render(literal, values, i)) == Some(values[i..])
    decreases |values| - i
  {
    if i == |values| {
      assert values[i..] == [];
    } else {
      ReadRendered(literal, values, i + 1);
      ReadNext(literal, values, i);
    }
  }

  lemma ReadNext(literal: Template, values: seq<string>, i: nat)
    requires i < |values|
    requires Read(literal, |values|, i + 1, Render(literal, values, i + 1)) == Some(values[i + 1..])
    ensures Read(literal, |values|, i, Render(literal, values, i)) == Some(values[i..])
  {
    ReadOne(literal, |values|, i, values[i], Render(literal, values, i + 1));
    assert values[i..] == [values[i]] + values[i + 1..];
  }

  lemma ReadOne(literal: Template, n: nat, i: nat, value: string, rest: string)
    requires i < n && Read(literal, n, i + 1, rest).Some?
    ensures Read(literal, n, i, literal(i) + Quote(value) + rest) == Some([value] + Read(literal, n, i + 1, rest).value)
  {
    var text, body := literal(i) + Quote(value) + rest, Escape(value) + ['"'] + rest;
    assert text == literal(i) + ['"'] + body;
    assert text[..|literal(i)| + 1] == literal(i) + ['"'] && text[|literal(i)| + 1..] == body;
    ParseEscaped(value, rest);
  }

  predicate OneLine(text: string) {
    '\n' !in text && '\r' !in text
  }

  lemma EscapedCharOneLine(c: char)
    ensures OneLine(EscapeChar(c))
  {
  }

  lemma {:induction false} EscapedOneLine(s: string)
    ensures OneLine(Escape(s))
  {
    if s != "" {
      EscapedCharOneLine(s[0]);
      EscapedOneLine(s[1..]);
    }
  }

  lemma {:induction false} RenderedOneLine(literal: Template, values: seq<string>, i: nat)
    requires i <= |values| && forall k: nat | k <= |values| :: OneLine(literal(k))
    ensures OneLine(Render(literal, values, i))
    decreases |values| - i
  {
    assert OneLine(literal(i));
    if i < |values| {
      EscapedOneLine(values[i]);
      RenderedOneLine(literal, values, i + 1);
    }
  }

  // ---------------------------------------------------------------- the delta line

  const CONTRACT := "dlmf/source-incremental-delta/v1"

  /** The fields in the order in which they are written; those of the scope are nested. */
  const NAMES: seq<string> := [
    "contract", "adapterName", "adapterVersion", "sourceSystem", "sourceType", "tenantId", "lifeDid", "memoryNamespace",
    "processingMode", "policyId", "sourceId", "fingerprint", "updatedAt"]

  function Key(name: string): string { Quote(name) + ":" }

  function Opening(i: nat): string {
    if i == 0 then "{" else if i == 5 then ",\"scope\":{" else if i == 8 then "}," else ","
  }

  function Literal(i: nat): string {
    if i < |NAMES| then Opening(i) + Key(NAMES[i]) else "}"
  }

  function Values(d: Delta): (r: seq<string>)
    ensures |r| == |NAMES|
  {
    var id := d.identity;
    [CONTRACT, id.adapterName, id.adapterVersion, id.sourceSystem, id.sourceType, id.tenantId, id.lifeDid,
     id.memoryNamespace, id.processingMode, id.policyId, d.sourceId, d.fingerprint, d.updatedAt]
  }

  function DeltaOf(v: seq<string>): Delta
    requires |v| == |NAMES|
  {
    Delta(Identity(v[1], v[2], v[3], v[4], v[5], v[6], v[7], v[8], v[9]), v[10], v[11], v[12])
  }

  function Encode(d: Delta): string { Render(Literal, Values(d), 0) }

  /** The delta of a line with the delta contract. */
  function Decode(line: string): Option<Delta> {
    match Read(Literal, |NAMES|, 0, line)
    case None => None
    case Some(v) => if v[0] == CONTRACT then Some(DeltaOf(v)) else None
  }

  lemma DeltaOfValues(d: Delta)
    ensures DeltaOf(Values(d)) == d && Values(d)[0] == CONTRACT
  {
  }

  lemma ReadAll(values: seq<string>)
    ensures Read(Literal, |values|, 0, Render(Literal, values, 0)) == Some(values)
  {
    ReadRendered(Literal, values, 0);
    assert values[0..] == values;
  }

  /** Every line that is written reads back as the delta. */
  lemma DecodeEncode(d: Delta)
    ensures Decode(Encode(d)) == Some(d)
  {
    ReadAll(Values(d));
    DeltaOfValues(d);
  }

  lemma KeyOneLine(name: string)
    ensures OneLine(Key(name))
  {
    EscapedOneLine(name);
  }

  lemma OpeningOneLine(i: nat)
    ensures OneLine(Opening(i))
  {
  }

  lemma JoinedOneLine(a: string, b: string)
    requires OneLine(a) && OneLine(b)
    ensures OneLine(a + b)
  {
  }

  lemma LiteralOneLine(i: nat)
    ensures OneLine(Literal(i))
  {
    if i < |NAMES| {
      OpeningOneLine(i);
      KeyOneLine(NAMES[i]);
      JoinedOneLine(Opening(i), Key(NAMES[i]));
    }
  }

  lemma LiteralOpens(i: nat)
    requires i == 0
    ensures Literal(i) != "" && Literal(i)[0] == '{'
  {
    assert Literal(i) == "{" + Key(NAMES[i]);
  }

  /** A written line has no line break and is not blank. */
  lemma EncodedLine(d: Delta)
    ensures OneLine(Encode(d)) && Encode(d) != "" && !IsBlank(Encode(d))
  {
    forall k: nat ensures OneLine(Literal(k)) {
      LiteralOneLine(k);
    }
    RenderedOneLine(Literal, Values(d), 0);
    LiteralOpens(0);
    RenderedOpens(Literal, Values(d));
  }

  lemma RenderedOpens(literal: Template, values: seq<string>)
    requires literal(0) != "" && literal(0)[0] == '{'
    ensures Render(literal, values, 0) != "" && !IsBlank(Render(literal, values, 0))
  {
    assert Render(literal, values, 0)[0] == '{' && !IsSpace('{');
  }
}
