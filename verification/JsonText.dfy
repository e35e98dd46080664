/**
 JSON as text: how the writer lays a tree out, and a parser for the grammar of sections 4, 5
 and 7 of RFC 8259 (objects, arrays, strings), with the literals and the integer part of
 section 6. The parser knows nothing of the layout.
 */
module JsonText {

  datatype Json =
    | Str(text: string)
    | Int(number: int)
    | Bool(flag: bool)
    | Null
    | Obj(members: seq<Member>)
    | Arr(elements: seq<Json>)

  datatype Member = Member(key: string, value: Json)

  // ------------------------------------------------------------------- layout

  function HexDigit(n: nat): char
    requires n < 16
  { "0123456789abcdef"[n] }

  /** One character of a string, escaped where RFC 8259 section 7 demands it. */
  function Escape(c: char): string {
    if c == '"' then "\\\""
    else if c == '\\' then "\\\\"
    else if c == '\n' then "\\n"
    else if c == '\r' then "\\r"
    else if c == '\t' then "\\t"
    else if c < ' ' then ControlEscape(c as nat)
    else [c]
  }

  function ControlEscape(n: nat): string
    requires n < 32
  { "\\u00" + [HexDigit(n / 16), HexDigit(n % 16)] }

  function EscapeAll(s: string): string { if s == "" then "" else Escape(s[0]) + EscapeAll(s[1..]) }

  function Quote(s: string): string { "\"" + EscapeAll(s) + "\"" }

  function Digit(n: nat): char
    requires n < 10
  { "0123456789"[n] }

  function Digits(n: nat): (s: string)
    ensures s != ""
  { if n < 10 then [Digit(n)] else Digits(n / 10) + [Digit(n % 10)] }

  function Decimal(n: int): string { if n < 0 then "-" + Digits(-n) else Digits(n) }

  function Indent(depth: nat): string { if depth == 0 then "" else Indent(depth - 1) + "  " }

  function NewLine(depth: nat): string { "\n" + Indent(depth) }

  /** What separates an entry at `depth` from what comes before it. */
  function Lead(first: bool, depth: nat): string { (if first then "" else ",") + NewLine(depth) }

  function Label(key: string): string { Quote(key) + ": " }

  /** A value whose container's entries are at `depth`. */
  function Layout(v: Json, depth: nat): string
    decreases v, 0
  {
    match v
    case Str(text) => Quote(text)
    case Int(number) => Decimal(number)
    case Bool(flag) => if flag then "true" else "false"
    case Null => "null"
    case Obj(members) => "{" + MembersFrom(members, 0, depth + 1) + Closing(|members|, depth) + "}"
    case Arr(elements) => "[" + ElementsFrom(elements, 0, depth + 1) + Closing(|elements|, depth) + "]"
  }

  function Closing(entries: nat, depth: nat): string { if entries == 0 then "" else NewLine(depth) }

  /** The entries of an object from number `i` on. */
  function MembersFrom(members: seq<Member>, i: nat, depth: nat): string
    requires i <= |members|
    decreases members, |members| - i
  {
    if i == |members| then ""
    else Lead(i == 0, depth) + Label(members[i].key) + Layout(members[i].value, depth) + MembersFrom(members, i + 1, depth)
  }

  function ElementsFrom(elements: seq<Json>, i: nat, depth: nat): string
    requires i <= |elements|
    decreases elements, |elements| - i
  {
    if i == |elements| then ""
    else Lead(i == 0, depth) + Layout(elements[i], depth) + ElementsFrom(elements, i + 1, depth)
  }

  // ------------------------------------------------------------------ grammar

  datatype Parsed<T> = Fail | Ok(value: T, rest: string)

  predicate IsSpace(c: char) { c == ' ' || c == '\t' || c == '\n' || c == '\r' }

  function Skip(s: string): (r: string)
    ensures |r| <= |s|
  { if s != "" && IsSpace(s[0]) then Skip(s[1..]) else s }

  predicate StartsWith(s: string, c: char) { s != "" && s[0] == c }

  function HexValue(c: char): int {
    if '0' <= c <= '9' then c as int - '0' as int
    else if 'a' <= c <= 'f' then c as int - 'a' as int + 10
    else if 'A' <= c <= 'F' then c as int - 'A' as int + 10
    else -1
  }

  /** Four hexadecimal digits naming a character; halves of surrogate pairs are not part of this grammar. */
  function ParseHex(s: string): (r: Parsed<char>)
    ensures r.Ok? ==> |r.rest| < |s|
  {
    if |s| < 4 || HexValue(s[0]) < 0 || HexValue(s[1]) < 0 || HexValue(s[2]) < 0 || HexValue(s[3]) < 0 then Fail
    else
      var n := ((HexValue(s[0]) * 16 + HexValue(s[1])) * 16 + HexValue(s[2])) * 16 + HexValue(s[3]);
      if 0 <= n < 0xD800 || 0xE000 <= n < 0x1_0000 then Ok(n as char, s[4..]) else Fail
  }

  /** What follows a backslash. */
  function ParseEscape(s: string): (r: Parsed<char>)
    ensures r.Ok? ==> |r.rest| < |s|
  {
    if s == "" then Fail
    else match s[0]
      case '"' => Ok('"', s[1..])
      case '\\' => Ok('\\', s[1..])
      case '/' => Ok('/', s[1..])
      case 'b' => Ok(8 as char, s[1..])
      case 'f' => Ok(12 as char, s[1..])
      case 'n' => Ok('\n', s[1..])
      case 'r' => Ok('\r', s[1..])
      case 't' => Ok('\t', s[1..])
      case 'u' => ParseHex(s[1..])
      case _ => Fail
  }

  /** The next character of a string, escaped or not. */
  function ReadChar(s: string): (r: Parsed<char>)
    requires s != ""
    ensures r.Ok? ==> |r.rest| < |s|
  {
    if s[0] == '\\' then ParseEscape(s[1..]) else if s[0] >= ' ' then Ok(s[0], s[1..]) else Fail
  }

  /** The rest of a string, up to and including its closing quotation mark. */
  function ParseChars(s: string): (r: Parsed<string>)
    ensures r.Ok? ==> |r.rest| < |s|
    decreases |s|
  {
    if s == "" then Fail
    else if s[0] == '"' then Ok("", s[1..])
    else
      var c := ReadChar(s);
      if c.Fail? then Fail
      else
        var more := ParseChars(c.rest);
        if more.Fail? then Fail else Ok([c.value] + more.value, more.rest)
  }

  predicate IsDigit(c: char) { '0' <= c <= '9' }

  function ParseDigits(s: string, n: nat): (r: Parsed<nat>)
    ensures r.Ok? && |r.rest| <= |s|
    decreases |s|
  {
    if s != "" && IsDigit(s[0]) then ParseDigits(s[1..], n * 10 + (s[0] as nat - '0' as nat)) else Ok(n, s)
  }

  /** Section 6 without fraction and exponent: no leading zeros. */
  function ParseNat(s: string): (r: Parsed<nat>)
    ensures r.Ok? ==> |r.rest| < |s|
  {
    if s == "" || !IsDigit(s[0]) then Fail
    else if s[0] == '0' then Ok(0, s[1..])
    else ParseDigits(s[1..], s[0] as nat - '0' as nat)
  }

  predicate Fractional(s: string) { s != "" && (s[0] == '.' || s[0] == 'e' || s[0] == 'E') }

  function ParseNumber(s: string): (r: Parsed<Json>)
    ensures r.Ok? ==> |r.rest| < |s|
  {
    var negative := StartsWith(s, '-');
    var n := ParseNat(if negative then s[1..] else s);
    if n.Fail? || Fractional(n.rest) then Fail
    else
      var magnitude: int := n.value;
      Ok(Int(if negative then -magnitude else magnitude), n.rest)
  }

  function ParseLiteral(s: string, word: string, v: Json): (r: Parsed<Json>)
    requires word != ""
    ensures r.Ok? ==> |r.rest| < |s|
  {
    if word <= s then Ok(v, s[|word|..]) else Fail
  }

  function ParseValue(s: string): (r: Parsed<Json>)
    ensures r.Ok? ==> |r.rest| < |s|
    decreases |s|, 0
  {
    var t := Skip(s);
    if t == "" then Fail
    else match t[0]
      case '{' =>
        var u := Skip(t[1..]);
        if StartsWith(u, '}') then Ok(Obj([]), u[1..]) else ParseMembers(u, [])
      case '[' =>
        var u := Skip(t[1..]);
        if StartsWith(u, ']') then Ok(Arr([]), u[1..]) else ParseElements(u, [])
      case '"' =>
        var text := ParseChars(t[1..]);
        if text.Fail? then Fail else Ok(Str(text.value), text.rest)
      case 't' => ParseLiteral(t, "true", Bool(true))
      case 'f' => ParseLiteral(t, "false", Bool(false))
      case 'n' => ParseLiteral(t, "null", Null)
      case _ => ParseNumber(t)
  }

  /** `member *( "," member ) "}"`, after the members in `before`. */
  function ParseMembers(s: string, before: seq<Member>): (r: Parsed<Json>)
    ensures r.Ok? ==> |r.rest| < |s|
    decreases |s|, 1
  {
    var t := Skip(s);
    if !StartsWith(t, '"') then Fail
    else
      var key := ParseChars(t[1..]);
      if key.Fail? || !StartsWith(Skip(key.rest), ':') then Fail
      else
        var value := ParseValue(Skip(key.rest)[1..]);
        if value.Fail? then Fail
        else
          var members := before + [Member(key.value, value.value)];
          var u := Skip(value.rest);
          if StartsWith(u, '}') then Ok(Obj(members), u[1..])
          else if StartsWith(u, ',') then ParseMembers(u[1..], members)
          else Fail
  }

  /** `value *( "," value ) "]"`, after the elements in `before`. */
  function ParseElements(s: string, before: seq<Json>): (r: Parsed<Json>)
    ensures r.Ok? ==> |r.rest| < |s|
    decreases |s|, 1
  {
    var value := ParseValue(s);
    if value.Fail? then Fail
    else
      var elements := before + [value.value];
      var u := Skip(value.rest);
      if StartsWith(u, ']') then Ok(Arr(elements), u[1..])
      else if StartsWith(u, ',') then ParseElements(u[1..], elements)
      else Fail
  }

  /** A JSON text is one value, with nothing but white space around it. */
  function Parse(s: string): Parsed<Json> {
    var v := ParseValue(s);
    if v.Ok? && Skip(v.rest) == "" then Ok(v.value, "") else Fail
  }
}
