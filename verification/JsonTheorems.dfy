/** What the writer lays out, the grammar reads back. */
module JsonTheorems {
  import opened JsonText

  lemma Regroup(a: string, b: string, c: string, d: string, e: string)
    ensures (a + b + c) + d + e == a + (b + (c + d + e))
  {
  }

  lemma Behead(head: string, more: string)
    requires |head| == 1
    ensures (head + more)[0] == head[0] && (head + more)[1..] == more
  {
  }

  // ------------------------------------------------------------------- strings

  lemma HexRoundTrip(n: nat, rest: string)
    requires n < 32
    ensures ParseHex("00" + [HexDigit(n / 16), HexDigit(n % 16)] + rest) == Ok(n as char, rest)
  {
    var s := "00" + [HexDigit(n / 16), HexDigit(n % 16)] + rest;
    assert HexValue(HexDigit(n / 16)) == n / 16 && HexValue(HexDigit(n % 16)) == n % 16 && HexValue('0') == 0;
    assert s[0] == '0' && s[1] == '0' && s[2] == HexDigit(n / 16) && s[3] == HexDigit(n % 16) && s[4..] == rest;
  }

  lemma ControlRoundTrip(n: nat, more: string)
    requires n < 32
    ensures ReadChar(ControlEscape(n) + more) == Ok(n as char, more)
  {
    hide ParseHex;
    var digits := "00" + [HexDigit(n / 16), HexDigit(n % 16)] + more;
    HexRoundTrip(n, more);
    assert ControlEscape(n) + more == "\\" + ("u" + digits);
    Behead("\\", "u" + digits);
    Behead("u", digits);
  }

  lemma ShortEscapeRoundTrip(c: char, letter: char, more: string)
    requires letter in "\"\\nrt" && ParseEscape([letter] + more) == Ok(c, more)
    ensures ReadChar("\\" + [letter] + more) == Ok(c, more)
  {
    assert "\\" + [letter] + more == "\\" + ([letter] + more);
    Behead("\\", [letter] + more);
  }

  /** One escaped character is read as that character. */
  lemma EscapeRoundTrip(c: char, more: string)
    ensures var s := Escape(c) + more; s != "" && s[0] != '"' && ReadChar(s) == Ok(c, more)
  {
    hide ReadChar, ControlEscape, ParseHex;
    if c == '"' || c == '\\' || c == '\n' || c == '\r' || c == '\t' {
      var letter := Escape(c)[1];
      Behead([letter], more);
      assert Escape(c) == "\\" + [letter];
      ShortEscapeRoundTrip(c, letter, more);
    } else if c < ' ' {
      ControlRoundTrip(c as nat, more);
      ControlStarts(c as nat);
    } else {
      PlainRoundTrip(c, more);
    }
  }

  lemma ControlStarts(n: nat)
    requires n < 32
    ensures ControlEscape(n) != "" && ControlEscape(n)[0] == '\\'
  {
  }

  lemma PlainRoundTrip(c: char, more: string)
    requires c >= ' ' && c != '\\'
    ensures ReadChar([c] + more) == Ok(c, more)
  {
    Behead([c], more);
  }

  lemma {:induction false} CharsRoundTrip(text: string, rest: string)
    ensures ParseChars(EscapeAll(text) + "\"" + rest) == Ok(text, rest)
  {
    hide Escape, ReadChar;
    if text == "" {
      assert EscapeAll(text) + "\"" + rest == "\"" + rest;
      Behead("\"", rest);
    } else {
      var more := EscapeAll(text[1..]) + "\"" + rest;
      assert EscapeAll(text) + "\"" + rest == Escape(text[0]) + more;
      EscapeRoundTrip(text[0], more);
      CharsRoundTrip(text[1..], rest);
      assert [text[0]] + text[1..] == text;
    }
  }

  // ------------------------------------------------------------------- numbers

  /** The value of `m` followed by the digits of `n`. */
  function Followed(m: nat, n: nat): nat { if n < 10 then m * 10 + n else Followed(m, n / 10) * 10 + n % 10 }

  lemma {:induction false} DigitsRead(n: nat, m: nat, rest: string)
    ensures ParseDigits(Digits(n) + rest, m) == ParseDigits(rest, Followed(m, n))
    decreases n
  {
    if n < 10 {
      OneDigit(n, m, rest);
    } else {
      assert Digits(n) + rest == Digits(n / 10) + ([Digit(n % 10)] + rest);
      DigitsRead(n / 10, m, [Digit(n % 10)] + rest);
      OneDigit(n % 10, Followed(m, n / 10), rest);
    }
  }

  lemma OneDigit(d: nat, m: nat, rest: string)
    requires d < 10
    ensures ParseDigits([Digit(d)] + rest, m) == ParseDigits(rest, m * 10 + d)
  {
    var s := [Digit(d)] + rest;
    assert s[0] == Digit(d) && s[1..] == rest && IsDigit(Digit(d)) && Digit(d) as nat - '0' as nat == d;
  }

  lemma {:induction false} FollowedZero(n: nat)
    ensures Followed(0, n) == n
  {
    if n >= 10 { FollowedZero(n / 10); }
  }

  lemma {:induction false} FirstDigit(n: nat)
    ensures IsDigit(Digits(n)[0]) && (n > 0 ==> Digits(n)[0] != '0')
  {
    if n >= 10 { FirstDigit(n / 10); }
  }

  /** Where a value may end: at a separator, a closing bracket or the end. */
  predicate Ends(rest: string) {
    rest == "" || rest[0] == ',' || rest[0] == '\n' || rest[0] == '}' || rest[0] == ']'
  }

  lemma NatRoundTrip(n: nat, rest: string)
    requires Ends(rest)
    ensures ParseNat(Digits(n) + rest) == Ok(n, rest)
  {
    var s := Digits(n) + rest;
    FirstDigit(n);
    assert s[0] == Digits(n)[0];
    if n == 0 {
      assert Digits(0) == "0" && s[1..] == rest;
    } else {
      DigitsRead(n, 0, rest);
      FollowedZero(n);
      assert ParseDigits(s, 0) == ParseDigits(s[1..], s[0] as nat - '0' as nat);
    }
  }

  lemma NumberRoundTrip(n: int, rest: string)
    requires Ends(rest)
    ensures ParseValue(Decimal(n) + rest) == Ok(Int(n), rest)
  {
    hide Digits, ParseNat;
    var s := Decimal(n) + rest;
    var digits := Digits(if n < 0 then -n else n);
    NatRoundTrip(if n < 0 then -n else n, rest);
    FirstDigit(if n < 0 then -n else n);
    if n < 0 {
      assert s == "-" + (digits + rest);
      Behead("-", digits + rest);
    } else {
      assert s[0] == digits[0];
    }
    NumberStarts(s);
  }

  /** A text that starts with a digit or a minus sign is read as a number. */
  lemma NumberStarts(s: string)
    requires s != "" && (IsDigit(s[0]) || s[0] == '-')
    ensures ParseValue(s) == ParseNumber(s)
  {
    hide ParseNumber;
    assert Skip(s) == s;
  }

  // --------------------------------------------------------------- white space

  lemma {:induction false} SkipNewLine(depth: nat, s: string)
    ensures Skip(NewLine(depth) + s) == Skip(s)
  {
    var t := NewLine(depth) + s;
    assert t[0] == '\n' && t[1..] == Indent(depth) + s;
    SkipIndent(depth, s);
  }

  lemma {:induction false} SkipIndent(depth: nat, s: string)
    ensures Skip(Indent(depth) + s) == Skip(s)
  {
    if depth == 0 {
      assert Indent(0) + s == s;
    } else {
      assert Indent(depth) + s == Indent(depth - 1) + ("  " + s);
      SkipIndent(depth - 1, "  " + s);
      var t := "  " + s;
      assert t[1..] == " " + s && t[1..][1..] == s;
    }
  }

  lemma {:induction false} SkipAgain(s: string)
    ensures Skip(Skip(s)) == Skip(s)
    ensures ParseValue(s) == ParseValue(Skip(s))
  {
    if s != "" && IsSpace(s[0]) { SkipAgain(s[1..]); }
  }

  /** A value starts with no white space. */
  lemma LayoutStarts(v: Json, depth: nat, rest: string)
    ensures Layout(v, depth) != "" && !IsSpace(Layout(v, depth)[0])
    ensures Skip(Layout(v, depth) + rest) == Layout(v, depth) + rest
    ensures !StartsWith(Layout(v, depth) + rest, ']')
  {
    if v.Int? { FirstDigit(if v.number < 0 then -v.number else v.number); }
    assert (Layout(v, depth) + rest)[0] == Layout(v, depth)[0];
  }

  // -------------------------------------------------------------------- values

  lemma StringRoundTrip(text: string, rest: string)
    ensures ParseValue(Quote(text) + rest) == Ok(Str(text), rest)
  {
    var s := Quote(text) + rest;
    assert s[0] == '"' && s[1..] == EscapeAll(text) + "\"" + rest;
    CharsRoundTrip(text, rest);
  }

  lemma LiteralRoundTrip(v: Json, depth: nat, rest: string)
    requires v.Bool? || v.Null?
    ensures ParseValue(Layout(v, depth) + rest) == Ok(v, rest)
  {
    var word := Layout(v, depth);
    var s := word + rest;
    assert word <= s && s[|word|..] == rest && s[0] == word[0];
  }

  /** The text of an array after its element `i - 1`. */
  function ArrayTail(elements: seq<Json>, i: nat, depth: nat, rest: string): string
    requires i <= |elements|
  { ElementsFrom(elements, i, depth + 1) + Closing(|elements|, depth) + "]" + rest }

  function ObjectTail(members: seq<Member>, i: nat, depth: nat, rest: string): string
    requires i <= |members|
  { MembersFrom(members, i, depth + 1) + Closing(|members|, depth) + "}" + rest }

  /** What follows an element that is not the last. */
  lemma ArrayTailNext(elements: seq<Json>, i: nat, depth: nat, rest: string)
    requires 0 < i < |elements|
    ensures ArrayTail(elements, i, depth, rest) ==
      "," + (NewLine(depth + 1) + (Layout(elements[i], depth + 1) + ArrayTail(elements, i + 1, depth, rest)))
  {
    hide Layout, NewLine;
    var value, more := Layout(elements[i], depth + 1), ElementsFrom(elements, i + 1, depth + 1);
    var closing := Closing(|elements|, depth) + "]";
    assert ElementsFrom(elements, i, depth + 1) == Lead(false, depth + 1) + value + more;
    assert ArrayTail(elements, i, depth, rest) == (Lead(false, depth + 1) + value + more) + closing + rest;
    Regroup(Lead(false, depth + 1), value, more, closing, rest);
    assert ArrayTail(elements, i + 1, depth, rest) == more + closing + rest;
    var next := value + ArrayTail(elements, i + 1, depth, rest);
    assert Lead(false, depth + 1) + next == "," + (NewLine(depth + 1) + next);
  }

  lemma ArrayTailStarts(elements: seq<Json>, i: nat, depth: nat, rest: string)
    requires 0 < i <= |elements|
    ensures Ends(ArrayTail(elements, i, depth, rest))
    ensures i == |elements| ==> Skip(ArrayTail(elements, i, depth, rest)) == "]" + rest
    ensures i < |elements| ==>
      Skip(ArrayTail(elements, i, depth, rest)) == ArrayTail(elements, i, depth, rest)
      && ArrayTail(elements, i, depth, rest) != "" && ArrayTail(elements, i, depth, rest)[0] == ','
      && Skip(ArrayTail(elements, i, depth, rest)[1..]) ==
           Layout(elements[i], depth + 1) + ArrayTail(elements, i + 1, depth, rest)
  {
    if i == |elements| {
      var tail := ArrayTail(elements, i, depth, rest);
      assert tail == NewLine(depth) + ("]" + rest);
      SkipNewLine(depth, "]" + rest);
    } else {
      hide Layout, NewLine, ArrayTail;
      var next := Layout(elements[i], depth + 1) + ArrayTail(elements, i + 1, depth, rest);
      ArrayTailNext(elements, i, depth, rest);
      Behead(",", NewLine(depth + 1) + next);
      SkipNewLine(depth + 1, next);
      LayoutStarts(elements[i], depth + 1, ArrayTail(elements, i + 1, depth, rest));
    }
  }

  lemma ObjectTailNext(members: seq<Member>, i: nat, depth: nat, rest: string)
    requires 0 < i < |members|
    ensures ObjectTail(members, i, depth, rest) == "," + (NewLine(depth + 1) + MemberText(members, i, depth, rest))
  {
    hide Layout, NewLine, Label;
    var entry := Label(members[i].key) + Layout(members[i].value, depth + 1);
    var more := MembersFrom(members, i + 1, depth + 1);
    var closing := Closing(|members|, depth) + "}";
    assert MembersFrom(members, i, depth + 1) == Lead(false, depth + 1) + entry + more;
    assert ObjectTail(members, i, depth, rest) == (Lead(false, depth + 1) + entry + more) + closing + rest;
    Regroup(Lead(false, depth + 1), entry, more, closing, rest);
    assert ObjectTail(members, i + 1, depth, rest) == more + closing + rest;
    var next := entry + ObjectTail(members, i + 1, depth, rest);
    assert Lead(false, depth + 1) + next == "," + (NewLine(depth + 1) + next);
  }

  lemma ObjectTailStarts(members: seq<Member>, i: nat, depth: nat, rest: string)
    requires 0 < i <= |members|
    ensures Ends(ObjectTail(members, i, depth, rest))
    ensures i == |members| ==> Skip(ObjectTail(members, i, depth, rest)) == "}" + rest
    ensures i < |members| ==>
      Skip(ObjectTail(members, i, depth, rest)) == ObjectTail(members, i, depth, rest)
      && ObjectTail(members, i, depth, rest) != "" && ObjectTail(members, i, depth, rest)[0] == ','
      && Skip(ObjectTail(members, i, depth, rest)[1..]) == MemberText(members, i, depth, rest)
  {
    if i == |members| {
      var tail := ObjectTail(members, i, depth, rest);
      assert tail == NewLine(depth) + ("}" + rest);
      SkipNewLine(depth, "}" + rest);
    } else {
      hide NewLine, ObjectTail, MemberText;
      var next := MemberText(members, i, depth, rest);
      ObjectTailNext(members, i, depth, rest);
      Behead(",", NewLine(depth + 1) + next);
      SkipNewLine(depth + 1, next);
      MemberStarts(members, i, depth, rest);
    }
  }

  /** A member starts with its key's quotation mark. */
  lemma MemberStarts(members: seq<Member>, i: nat, depth: nat, rest: string)
    requires i < |members|
    ensures MemberText(members, i, depth, rest) != "" && MemberText(members, i, depth, rest)[0] == '"'
    ensures Skip(MemberText(members, i, depth, rest)) == MemberText(members, i, depth, rest)
  {
    hide Layout, ObjectTail;
    var text := MemberText(members, i, depth, rest);
    assert text == Label(members[i].key) + (Layout(members[i].value, depth + 1) + ObjectTail(members, i + 1, depth, rest));
    assert text[0] == Label(members[i].key)[0];
  }

  /** Member `i` and everything after it. */
  function MemberText(members: seq<Member>, i: nat, depth: nat, rest: string): string
    requires i < |members|
  { Label(members[i].key) + Layout(members[i].value, depth + 1) + ObjectTail(members, i + 1, depth, rest) }

  /** The text of any value, followed by anything a value may end at, reads back as that value. */
  lemma {:induction false} ValueRoundTrip(v: Json, depth: nat, rest: string)
    requires Ends(rest)
    ensures ParseValue(Layout(v, depth) + rest) == Ok(v, rest)
    decreases v, 0
  {
    match v
    case Str(text) => StringRoundTrip(text, rest);
    case Int(number) => NumberRoundTrip(number, rest);
    case Bool(_) => LiteralRoundTrip(v, depth, rest);
    case Null => LiteralRoundTrip(v, depth, rest);
    case Arr(elements) => ArrayRoundTrip(elements, depth, rest);
    case Obj(members) => ObjectRoundTrip(members, depth, rest);
  }

  /** An array's text, opened up. */
  lemma ArrayOpens(elements: seq<Json>, depth: nat, rest: string)
    ensures Layout(Arr(elements), depth) + rest == "[" + ArrayTail(elements, 0, depth, rest)
    ensures elements == [] ==> ArrayTail(elements, 0, depth, rest) == "]" + rest
    ensures elements != [] ==>
      ArrayTail(elements, 0, depth, rest) ==
      NewLine(depth + 1) + (Layout(elements[0], depth + 1) + ArrayTail(elements, 1, depth, rest))
  {
    hide NewLine;
    var inner, closing := ElementsFrom(elements, 0, depth + 1), Closing(|elements|, depth) + "]";
    assert Layout(Arr(elements), depth) == "[" + inner + closing by { hide ElementsFrom, Closing; }
    Regroup("[", inner, "", closing, rest);
    assert ArrayTail(elements, 0, depth, rest) == inner + closing + rest by { hide Layout, ElementsFrom, Closing; }
    if elements != [] {
      hide Layout;
      var value, more := Layout(elements[0], depth + 1), ElementsFrom(elements, 1, depth + 1);
      assert inner == NewLine(depth + 1) + value + more;
      Regroup(NewLine(depth + 1), value, more, closing, rest);
      assert ArrayTail(elements, 1, depth, rest) == more + closing + rest;
    }
  }

  lemma {:induction false} ArrayRoundTrip(elements: seq<Json>, depth: nat, rest: string)
    ensures ParseValue(Layout(Arr(elements), depth) + rest) == Ok(Arr(elements), rest)
    decreases elements, |elements| + 1
  {
    hide Layout, ArrayTail, NewLine, ParseElements;
    var tail := ArrayTail(elements, 0, depth, rest);
    var s := "[" + tail;
    ArrayOpens(elements, depth, rest);
    Behead("[", tail);
    assert Skip(s) == s;
    if elements == [] {
      Behead("]", rest);
      assert Skip(tail) == tail;
    } else {
      var first := Layout(elements[0], depth + 1) + ArrayTail(elements, 1, depth, rest);
      SkipNewLine(depth + 1, first);
      LayoutStarts(elements[0], depth + 1, ArrayTail(elements, 1, depth, rest));
      ElementsRoundTrip(elements, 0, depth, first, rest);
      assert elements[..0] == [];
    }
  }

  lemma {:induction false} ElementsRoundTrip(elements: seq<Json>, i: nat, depth: nat, s: string, rest: string)
    requires i < |elements|
    requires Skip(s) == Layout(elements[i], depth + 1) + ArrayTail(elements, i + 1, depth, rest)
    ensures ParseElements(s, elements[..i]) == Ok(Arr(elements), rest)
    decreases elements, |elements| - i
  {
    hide Layout, ArrayTail, ParseValue;
    var tail := ArrayTail(elements, i + 1, depth, rest);
    ArrayTailStarts(elements, i + 1, depth, rest);
    SkipAgain(s);
    ValueRoundTrip(elements[i], depth + 1, tail);
    assert elements[..i] + [elements[i]] == elements[..i + 1];
    if i + 1 == |elements| {
      assert elements[..i + 1] == elements;
      Behead("]", rest);
    } else {
      ElementsRoundTrip(elements, i + 1, depth, tail[1..], rest);
    }
  }

  /** An object's text, opened up. */
  lemma ObjectOpens(members: seq<Member>, depth: nat, rest: string)
    ensures Layout(Obj(members), depth) + rest == "{" + ObjectTail(members, 0, depth, rest)
    ensures members == [] ==> ObjectTail(members, 0, depth, rest) == "}" + rest
    ensures members != [] ==> ObjectTail(members, 0, depth, rest) == NewLine(depth + 1) + MemberText(members, 0, depth, rest)
  {
    hide NewLine, Label;
    var inner, closing := MembersFrom(members, 0, depth + 1), Closing(|members|, depth) + "}";
    assert Layout(Obj(members), depth) == "{" + inner + closing by { hide MembersFrom, Closing; }
    Regroup("{", inner, "", closing, rest);
    assert ObjectTail(members, 0, depth, rest) == inner + closing + rest by { hide Layout, MembersFrom, Closing; }
    if members != [] {
      hide Layout;
      var entry := Label(members[0].key) + Layout(members[0].value, depth + 1);
      var more := MembersFrom(members, 1, depth + 1);
      assert inner == NewLine(depth + 1) + entry + more;
      Regroup(NewLine(depth + 1), entry, more, closing, rest);
      assert ObjectTail(members, 1, depth, rest) == more + closing + rest;
    }
  }

  lemma {:induction false} ObjectRoundTrip(members: seq<Member>, depth: nat, rest: string)
    ensures ParseValue(Layout(Obj(members), depth) + rest) == Ok(Obj(members), rest)
    decreases members, |members| + 1
  {
    hide Layout, ObjectTail, MemberText, NewLine, ParseMembers;
    var tail := ObjectTail(members, 0, depth, rest);
    var s := "{" + tail;
    ObjectOpens(members, depth, rest);
    Behead("{", tail);
    assert Skip(s) == s;
    if members == [] {
      Behead("}", rest);
      assert Skip(tail) == tail;
    } else {
      var first := MemberText(members, 0, depth, rest);
      SkipNewLine(depth + 1, first);
      MemberStarts(members, 0, depth, rest);
      MembersRoundTrip(members, 0, depth, first, rest);
      assert members[..0] == [];
    }
  }

  lemma {:induction false} MembersRoundTrip(members: seq<Member>, i: nat, depth: nat, s: string, rest: string)
    requires i < |members| && Skip(s) == MemberText(members, i, depth, rest)
    ensures ParseMembers(s, members[..i]) == Ok(Obj(members), rest)
    decreases members, |members| - i
  {
    hide Layout, ObjectTail, Label, ParseValue, ParseChars;
    var Member(key, value) := members[i];
    var tail := ObjectTail(members, i + 1, depth, rest);
    var text := Layout(value, depth + 1) + tail;
    var t := Skip(s);
    KeyRead(key, text);
    assert t == Label(key) + text;
    ObjectTailStarts(members, i + 1, depth, rest);
    ValueRoundTrip(value, depth + 1, tail);
    assert members[..i] + [members[i]] == members[..i + 1];
    if i + 1 == |members| {
      assert members[..i + 1] == members;
      Behead("}", rest);
    } else {
      MembersRoundTrip(members, i + 1, depth, tail[1..], rest);
    }
  }

  /** A key, its colon and the space after it. */
  lemma KeyRead(key: string, text: string)
    ensures var t := Label(key) + text;
      && StartsWith(t, '"') && ParseChars(t[1..]) == Ok(key, ": " + text)
      && StartsWith(Skip(": " + text), ':') && Skip(": " + text)[1..] == " " + text
      && ParseValue(" " + text) == ParseValue(text)
  {
    hide EscapeAll, ParseChars, ParseValue;
    var t := Label(key) + text;
    var more := EscapeAll(key) + "\"" + (": " + text);
    assert t == "\"" + more;
    Behead("\"", more);
    CharsRoundTrip(key, ": " + text);
    assert ": " + text == ":" + (" " + text);
    Behead(":", " " + text);
    Behead(" ", text);
    SkipAgain(" " + text);
    SkipAgain(text);
  }

  /** The whole text of a tree parses to that tree. */
  lemma RoundTrip(v: Json)
    ensures Parse(Layout(v, 0)) == Ok(v, "")
  {
    ValueRoundTrip(v, 0, "");
    assert Layout(v, 0) + "" == Layout(v, 0);
  }

  // ---------------------------------------------------------------- by example

  // The layout spelled out, piece by piece.

  lemma QuoteSpelled()
    ensures Quote("a") == "\"a\"" && Quote("\"") == "\"\\\"\"" && Quote("\n") == "\"\\n\"" && Quote("\\") == "\"\\\\\""
  {
    EscapeOne('a');
    EscapeOne('"');
    EscapeOne('\n');
    EscapeOne('\\');
  }

  lemma EscapeOne(c: char)
    ensures EscapeAll([c]) == Escape(c)
  {
    assert [c][1..] == "" && EscapeAll("") == "";
  }

  lemma ObjectSpelled(n: nat)
    requires n < 10
    ensures Layout(Obj([Member("a", Int(n))]), 0) == "{\n  \"a\": " + [Digit(n)] + "\n}"
    ensures Layout(Obj([]), 0) == "{}" && Layout(Arr([]), 0) == "[]"
  {
    var members := [Member("a", Int(n))];
    QuoteSpelled();
    IndentSpelled();
    assert MembersFrom(members, 1, 1) == "";
    assert MembersFrom(members, 0, 1) == "\n  " + "\"a\": " + [Digit(n)];
    assert Layout(Obj(members), 0) == "{" + MembersFrom(members, 0, 1) + "\n" + "}";
  }

  lemma ArraySpelled(m: nat, n: nat)
    requires m < 10 && n < 10
    ensures Layout(Arr([Int(m), Int(-10 - n)]), 0) == "[\n  " + [Digit(m)] + ",\n  -1" + [Digit(n)] + "\n]"
  {
    var elements := [Int(m), Int(-10 - n)];
    IndentSpelled();
    assert Digits(10 + n) == Digits(1) + [Digit(n)] == "1" + [Digit(n)];
    assert ElementsFrom(elements, 2, 1) == "";
    assert ElementsFrom(elements, 1, 1) == ",\n  " + "-1" + [Digit(n)];
    assert ElementsFrom(elements, 0, 1) == "\n  " + [Digit(m)] + ElementsFrom(elements, 1, 1);
    assert Layout(Arr(elements), 0) == "[" + ElementsFrom(elements, 0, 1) + "\n" + "]";
  }

  lemma IndentSpelled()
    ensures NewLine(0) == "\n" && NewLine(1) == "\n  " && NewLine(2) == "\n    "
  {
    assert Indent(0) == "" && Indent(1) == "  " && Indent(2) == "    ";
  }
}
