/** The writer: a stack of open containers, an output stream, and one method per call. */
module JsonWriters {
  import opened JsonText
  import opened JsonTheorems

  // ------------------------------------------------------- what the calls describe

  /** An open container: the key it hangs from (none at the root and in arrays), and its entries so far. */
  datatype Frame = Frame(key: seq<string>, isArray: bool, members: seq<Member>, elements: seq<Json>)

  /** The tree under construction: the open containers from the root inwards, and the root once it is closed. */
  datatype Builder = Builder(frames: seq<Frame>, root: seq<Json>)

  datatype Call =
    | BeginObject
    | BeginKeyedObject(key: string)
    | EndObject
    | BeginArray(key: string)
    | EndArray
    | FieldString(key: string, text: string)
    | FieldBool(key: string, flag: bool)
    | FieldInt(key: string, number: int)
    | Value(count: nat)

  const EMPTY := Builder([], [])

  function Top(b: Builder): Frame
    requires b.frames != []
  { b.frames[|b.frames| - 1] }

  predicate InObject(b: Builder) { b.frames != [] && !Top(b).isArray }

  predicate InArray(b: Builder) { b.frames != [] && Top(b).isArray }

  /** Well nested: keys inside objects, bare entries inside arrays, ends that match, and one object at the root. */
  predicate Accepts(b: Builder, call: Call) {
    match call
    case BeginObject => InArray(b) || b == EMPTY
    case EndObject => InObject(b)
    case EndArray => InArray(b)
    case Value(_) => InArray(b)
    case _ => InObject(b)
  }

  function Entries(f: Frame): nat { if f.isArray then |f.elements| else |f.members| }

  function AddMember(b: Builder, key: string, v: Json): Builder
    requires b.frames != []
  { b.(frames := b.frames[|b.frames| - 1 := Top(b).(members := Top(b).members + [Member(key, v)])]) }

  function AddElement(b: Builder, v: Json): Builder
    requires b.frames != []
  { b.(frames := b.frames[|b.frames| - 1 := Top(b).(elements := Top(b).elements + [v])]) }

  function Closed(f: Frame): Json { if f.isArray then Arr(f.elements) else Obj(f.members) }

  /** The innermost container is complete and becomes an entry of the one around it, or the root. */
  function Close(b: Builder): Builder
    requires b.frames != []
  {
    var v, outer := Closed(Top(b)), b.(frames := b.frames[..|b.frames| - 1]);
    if outer.frames == [] then outer.(root := [v])
    else if Top(b).key == [] then AddElement(outer, v)
    else AddMember(outer, Top(b).key[0], v)
  }

  function Apply(b: Builder, call: Call): Builder
    requires Accepts(b, call)
  {
    match call
    case BeginObject => b.(frames := b.frames + [Frame([], false, [], [])])
    case BeginKeyedObject(key) => b.(frames := b.frames + [Frame([key], false, [], [])])
    case EndObject => Close(b)
    case BeginArray(key) => b.(frames := b.frames + [Frame([key], true, [], [])])
    case EndArray => Close(b)
    case FieldString(key, text) => AddMember(b, key, Str(text))
    case FieldBool(key, flag) => AddMember(b, key, Bool(flag))
    case FieldInt(key, number) => AddMember(b, key, Int(number))
    case Value(count) => AddElement(b, Int(count))
  }

  // ---------------------------------------------------------- what has been written

  /** The text of a container's entries so far, at depth `depth`. */
  function EntriesText(f: Frame, depth: nat): string {
    if f.isArray then ElementsFrom(f.elements, 0, depth) else MembersFrom(f.members, 0, depth)
  }

  function Opening(f: Frame): string { if f.isArray then "[" else "{" }

  function KeyText(f: Frame): string { if f.key == [] then "" else Label(f.key[0]) }

  /** Everything written while the containers `frames` are open. */
  function OpenText(frames: seq<Frame>): string {
    if frames == [] then ""
    else
      var n := |frames| - 1;
      OpenText(frames[..n])
      + (if n == 0 then "" else Lead(Entries(frames[n - 1]) == 0, n) + KeyText(frames[n]))
      + Opening(frames[n]) + EntriesText(frames[n], n + 1)
  }

  function Text(b: Builder): string {
    if b.root != [] && b.frames == [] then Layout(b.root[0], 0) else OpenText(b.frames)
  }

  /** A bare container hangs in an array, a keyed one in an object. */
  predicate HangsFrom(outer: Frame, f: Frame) { |f.key| <= 1 && (f.key == [] <==> outer.isArray) }

  predicate HangsAt(frames: seq<Frame>, i: nat)
    requires 0 < i < |frames|
  { HangsFrom(frames[i - 1], frames[i]) }

  predicate WellHung(frames: seq<Frame>) {
    && (frames != [] ==> frames[0].key == [] && !frames[0].isArray)
    && (forall i | 0 < i < |frames| :: HangsAt(frames, i))
    && (forall i | 0 <= i < |frames| :: if frames[i].isArray then frames[i].members == [] else frames[i].elements == [])
  }

  // ---------------------------------------------------------------- appending entries

  lemma {:induction false} MembersAppend(members: seq<Member>, m: Member, i: nat, depth: nat)
    requires i <= |members|
    ensures MembersFrom(members + [m], i, depth) ==
      MembersFrom(members, i, depth) + (Lead(|members| == 0, depth) + Label(m.key) + Layout(m.value, depth))
    decreases |members| - i
  {
    hide Lead, Label, Layout;
    if i < |members| {
      var head := Lead(i == 0, depth) + Label(members[i].key) + Layout(members[i].value, depth);
      MembersAppend(members, m, i + 1, depth);
      assert MembersFrom(members, i, depth) == head + MembersFrom(members, i + 1, depth);
      assert MembersFrom(members + [m], i, depth) == head + MembersFrom(members + [m], i + 1, depth);
    } else {
      assert MembersFrom(members + [m], i + 1, depth) == "";
    }
  }

  lemma {:induction false} ElementsAppend(elements: seq<Json>, e: Json, i: nat, depth: nat)
    requires i <= |elements|
    ensures ElementsFrom(elements + [e], i, depth) ==
      ElementsFrom(elements, i, depth) + (Lead(|elements| == 0, depth) + Layout(e, depth))
    decreases |elements| - i
  {
    hide Lead, Layout;
    if i < |elements| {
      ElementsAppend(elements, e, i + 1, depth);
    } else {
      assert ElementsFrom(elements + [e], i + 1, depth) == "";
    }
  }

  /** Everything before the innermost container's own text. */
  function Outside(frames: seq<Frame>): string
    requires frames != []
  {
    var n := |frames| - 1;
    OpenText(frames[..n]) + (if n == 0 then "" else Lead(Entries(frames[n - 1]) == 0, n) + KeyText(frames[n]))
  }

  lemma OpenTextIs(frames: seq<Frame>)
    requires frames != []
    ensures var f := frames[|frames| - 1];
      OpenText(frames) == Outside(frames) + Opening(f) + EntriesText(f, |frames|)
  {
  }

  /** A container is appended to: what is outside it stays. */
  lemma OutsideStays(frames: seq<Frame>, f: Frame)
    requires frames != [] && f.key == frames[|frames| - 1].key && f.isArray == frames[|frames| - 1].isArray
    ensures Outside(frames[|frames| - 1 := f]) == Outside(frames)
  {
    assert frames[|frames| - 1 := f][..|frames| - 1] == frames[..|frames| - 1];
  }

  lemma Concat(a: string, b: string, c: string, d: string)
    ensures a + b + (c + d) == (a + b + c) + d
  {
  }

  /** A new entry of the innermost container is written after everything else. */
  lemma MemberWritten(b: Builder, key: string, v: Json)
    requires InObject(b)
    ensures OpenText(AddMember(b, key, v).frames) ==
      OpenText(b.frames) + (Lead(|Top(b).members| == 0, |b.frames|) + Label(key) + Layout(v, |b.frames|))
  {
    hide Lead, Label, Layout, OpenText, Outside, MembersFrom;
    var after := AddMember(b, key, v).frames;
    var n := |b.frames|;
    OutsideStays(b.frames, after[n - 1]);
    OpenTextIs(b.frames);
    OpenTextIs(after);
    MembersAppend(Top(b).members, Member(key, v), 0, n);
    Concat(Outside(b.frames), "{", MembersFrom(Top(b).members, 0, n),
           Lead(|Top(b).members| == 0, n) + Label(key) + Layout(v, n));
  }

  lemma ElementWritten(b: Builder, v: Json)
    requires InArray(b)
    ensures OpenText(AddElement(b, v).frames) ==
      OpenText(b.frames) + (Lead(|Top(b).elements| == 0, |b.frames|) + Layout(v, |b.frames|))
  {
    hide Lead, Layout, OpenText, Outside, ElementsFrom;
    var after := AddElement(b, v).frames;
    var n := |b.frames|;
    OutsideStays(b.frames, after[n - 1]);
    OpenTextIs(b.frames);
    OpenTextIs(after);
    ElementsAppend(Top(b).elements, v, 0, n);
    Concat(Outside(b.frames), "[", ElementsFrom(Top(b).elements, 0, n), Lead(|Top(b).elements| == 0, n) + Layout(v, n));
  }

  function Ending(f: Frame): string { if f.isArray then "]" else "}" }

  lemma ClosedLayout(f: Frame, depth: nat)
    ensures Layout(Closed(f), depth) ==
      Opening(f) + EntriesText(f, depth + 1) + Closing(Entries(f), depth) + Ending(f)
  {
  }

  lemma ConcatFour(a: string, b: string, c: string, d: string, e: string)
    ensures a + b + c + d + e == a + (b + c + d + e)
  {
  }

  /** An inner container that is closed hangs in the one around it as an entry. */
  lemma ClosedInside(b: Builder)
    requires |b.frames| > 1 && WellHung(b.frames) && b.root == []
    ensures Text(Close(b)) == Outside(b.frames) + Layout(Closed(Top(b)), |b.frames| - 1)
  {
    hide Label, OpenText, Layout, WellHung, Lead;
    var n := |b.frames| - 1;
    var f, outer := Top(b), b.(frames := b.frames[..n]);
    HungFrom(b.frames, n);
    HungFrom(b.frames, n - 1);
    assert b.frames[n - 1] == Top(outer);
    assert Outside(b.frames) == OpenText(outer.frames) + (Lead(Entries(Top(outer)) == 0, n) + KeyText(f));
    if f.key == [] { ElementWritten(outer, Closed(f)); } else { MemberWritten(outer, f.key[0], Closed(f)); }
  }

  /** Closing the innermost container completes the text of its value. */
  lemma ContainerWritten(b: Builder)
    requires b.frames != [] && WellHung(b.frames) && b.root == []
    ensures Text(Close(b)) == OpenText(b.frames) + Closing(Entries(Top(b)), |b.frames| - 1) + Ending(Top(b))
  {
    hide Label, Closing, OpenText, Layout, EntriesText, WellHung;
    var n := |b.frames| - 1;
    var f, value := Top(b), Layout(Closed(Top(b)), n);
    ClosedLayout(f, n);
    OpenTextIs(b.frames);
    ConcatFour(Outside(b.frames), Opening(f), EntriesText(f, n + 1), Closing(Entries(f), n), Ending(f));
    if n > 0 {
      ClosedInside(b);
    } else {
      NothingOpen(b.frames);
      assert Outside(b.frames) + value == value;
    }
  }

  lemma NothingOpen(frames: seq<Frame>)
    requires |frames| == 1
    ensures Outside(frames) == "" && OpenText(frames[..0]) == ""
  {
  }

  lemma HungFrom(frames: seq<Frame>, i: nat)
    requires WellHung(frames) && i < |frames|
    ensures i > 0 ==> HangsFrom(frames[i - 1], frames[i])
    ensures if frames[i].isArray then frames[i].members == [] else frames[i].elements == []
  {
    if i > 0 { assert HangsAt(frames, i); }
  }

  lemma CloseHangs(b: Builder)
    requires b.frames != [] && WellHung(b.frames)
    ensures WellHung(Close(b).frames)
  {
    var n := |b.frames| - 1;
    var after := Close(b).frames;
    if n > 0 { HungFrom(b.frames, n - 1); HungFrom(b.frames, n); }
    forall i | 0 < i < |after| ensures HangsAt(after, i) { assert HangsAt(b.frames, i); }
  }

  // -------------------------------------------------------------------- the writer

  datatype State = State(anyWritten: bool, isArray: bool)

  /** The stack knows of each open container whether it has entries, open ones included. */
  predicate StackOk(stack: seq<State>, frames: seq<Frame>) {
    && |stack| == |frames|
    && forall i | 0 <= i < |stack| ::
         && stack[i].isArray == frames[i].isArray
         && (stack[i].anyWritten <==> Entries(frames[i]) > 0 || i + 1 < |stack|)
  }

  /** The output is the text of the tree so far. */
  predicate Matches(output: string, stack: seq<State>, b: Builder) {
    && output == Text(b) && WellHung(b.frames) && StackOk(stack, b.frames)
    && (b.root != [] ==> b.frames == [] && |b.root| == 1)
  }

  function LastOf(stack: seq<State>): State
    requires stack != []
  { stack[|stack| - 1] }

  /** The innermost container has an entry now. */
  function Marked(stack: seq<State>): (r: seq<State>)
    ensures |r| == |stack|
  { if stack == [] then [] else stack[|stack| - 1 := LastOf(stack).(anyWritten := true)] }

  /** What `separate` writes. */
  function LeadFor(stack: seq<State>): string {
    if stack == [] then "" else Lead(!LastOf(stack).anyWritten, |stack|)
  }

  lemma MatchesMeans(output: string, stack: seq<State>, b: Builder)
    requires Matches(output, stack, b)
    ensures WellHung(b.frames) && |stack| == |b.frames| && (b.frames != [] ==> b.root == [] && output == OpenText(b.frames))
    ensures b.frames != [] ==>
      LastOf(stack).isArray == Top(b).isArray && (LastOf(stack).anyWritten <==> Entries(Top(b)) > 0)
  {
  }

  /** What `separate` writes before an entry: a comma unless it is the first of its container, and a new line at its depth. */
  lemma LeadMeans(output: string, stack: seq<State>, b: Builder)
    requires Matches(output, stack, b) && b.frames != []
    ensures LeadFor(stack) == Lead(Entries(Top(b)) == 0, |b.frames|)
  {
    hide Lead;
    MatchesMeans(output, stack, b);
  }

  lemma BeginMatches(output: string, stack: seq<State>, b: Builder, f: Frame)
    requires Matches(output, stack, b) && f.members == [] && f.elements == []
    requires if stack == [] then b == EMPTY && f == Frame([], false, [], [])
             else |f.key| <= 1 && (f.key == [] <==> Top(b).isArray)
    ensures Matches(output + (LeadFor(stack) + KeyText(f)) + Opening(f), Marked(stack) + [State(false, f.isArray)],
                    b.(frames := b.frames + [f]))
  {
    hide Text, Lead, KeyText, Opening, StackOk, WellHung;
    MatchesMeans(output, stack, b);
    BeginText(output, stack, b, f);
    BeginStack(stack, b.frames, f);
    BeginHangs(b.frames, f);
  }

  lemma BeginStack(stack: seq<State>, frames: seq<Frame>, f: Frame)
    requires StackOk(stack, frames) && Entries(f) == 0
    ensures StackOk(Marked(stack) + [State(false, f.isArray)], frames + [f])
  {
  }

  lemma BeginHangs(frames: seq<Frame>, f: Frame)
    requires WellHung(frames) && f.members == [] && f.elements == []
    requires if frames == [] then f.key == [] && !f.isArray else HangsFrom(frames[|frames| - 1], f)
    ensures WellHung(frames + [f])
  {
    var after := frames + [f];
    forall i | 0 < i < |after| ensures HangsAt(after, i) {
      if i < |frames| { assert HangsAt(frames, i); }
    }
  }

  lemma BeginText(output: string, stack: seq<State>, b: Builder, f: Frame)
    requires |stack| == |b.frames| && output == Text(b) && f.members == [] && f.elements == []
    requires if stack == [] then b == EMPTY && f.key == []
             else b.root == [] && (LastOf(stack).anyWritten <==> Entries(Top(b)) > 0)
    ensures Text(b.(frames := b.frames + [f])) == output + (LeadFor(stack) + KeyText(f)) + Opening(f)
  {
    hide Lead, OpenText;
    Opened(b, f);
    if stack == [] { EmptyText(); }
  }

  lemma EmptyText()
    ensures OpenText([]) == "" && Text(EMPTY) == ""
  {
  }

  lemma EntryMatches(output: string, stack: seq<State>, b: Builder, after: Builder, text: string)
    requires Matches(output, stack, b) && b.frames != [] && after.root == b.root
    requires |after.frames| == |b.frames| && after.frames == b.frames[|b.frames| - 1 := Top(after)]
    requires Top(after).key == Top(b).key && Top(after).isArray == Top(b).isArray && Entries(Top(after)) > 0
    requires if Top(after).isArray then Top(after).members == [] else Top(after).elements == []
    requires OpenText(after.frames) == OpenText(b.frames) + text
    ensures Matches(output + text, Marked(stack), after)
  {
    hide OpenText;
    MatchesMeans(output, stack, b);
    assert StackOk(Marked(stack), after.frames) by { hide WellHung; }
    assert WellHung(after.frames) by {
      hide StackOk;
      HungFrom(b.frames, |b.frames| - 1);
      forall i | 0 < i < |after.frames| ensures HangsAt(after.frames, i) { assert HangsAt(b.frames, i); }
    }
  }

  /** A keyed entry: its lead, its key, its value. */
  lemma FieldMatches(output: string, stack: seq<State>, b: Builder, key: string, v: Json)
    requires Matches(output, stack, b) && InObject(b)
    ensures Matches(output + (LeadFor(stack) + Label(key)) + Layout(v, |stack|), Marked(stack), AddMember(b, key, v))
  {
    hide Lead, Label, Layout, OpenText, Matches;
    MatchesMeans(output, stack, b);
    HungFrom(b.frames, |b.frames| - 1);
    MemberWritten(b, key, v);
    var lead, value := Lead(|Top(b).members| == 0, |b.frames|) + Label(key), Layout(v, |b.frames|);
    EntryMatches(output, stack, b, AddMember(b, key, v), lead + value);
    assert output + lead + value == output + (lead + value);
  }

  lemma ElementMatches(output: string, stack: seq<State>, b: Builder, v: Json)
    requires Matches(output, stack, b) && InArray(b)
    ensures Matches(output + LeadFor(stack) + Layout(v, |stack|), Marked(stack), AddElement(b, v))
  {
    hide Lead, Layout, OpenText, Matches;
    MatchesMeans(output, stack, b);
    HungFrom(b.frames, |b.frames| - 1);
    ElementWritten(b, v);
    var lead, value := Lead(|Top(b).elements| == 0, |b.frames|), Layout(v, |b.frames|);
    EntryMatches(output, stack, b, AddElement(b, v), lead + value);
    assert output + lead + value == output + (lead + value);
  }

  lemma EndMatches(output: string, stack: seq<State>, b: Builder)
    requires Matches(output, stack, b) && b.frames != []
    ensures stack != []
    ensures Matches(output + (if LastOf(stack).anyWritten then NewLine(|stack| - 1) else "") + Ending(Top(b)),
                    stack[..|stack| - 1], Close(b))
  {
    hide NewLine, OpenText, Layout;
    MatchesMeans(output, stack, b);
    ContainerWritten(b);
    CloseHangs(b);
  }

  lemma {:induction false} EscapeAppend(s: string, c: char)
    ensures EscapeAll(s + [c]) == EscapeAll(s) + Escape(c)
  {
    hide Escape;
    if s == "" {
      assert EscapeAll([c]) == Escape(c) + EscapeAll("");
    } else {
      assert (s + [c])[1..] == s[1..] + [c];
      EscapeAppend(s[1..], c);
    }
  }

  class JsonWriter {
    var output: string
    var stack: seq<State>
    ghost var builder: Builder

    ghost predicate Valid()
      reads this
    {
      Matches(output, stack, builder)
    }

    constructor ()
      ensures Valid() && builder == EMPTY && output == ""
    {
      output, stack, builder := "", [], EMPTY;
    }

    // The private helpers say what they append and what they mark.

    method NewLineIndent()
      modifies `output
      ensures output == old(output) + NewLine(|stack|)
    {
      output := output + "\n";
      for i := 0 to |stack|
        invariant output == old(output) + NewLine(i)
      {
        output := output + "  ";
      }
    }

    method Separate()
      modifies `output, `stack
      ensures output == old(output) + LeadFor(old(stack)) && stack == Marked(old(stack))
    {
      if stack == [] {
        return;
      }
      if stack[|stack| - 1].anyWritten {
        output := output + ",";
      }
      stack := stack[|stack| - 1 := stack[|stack| - 1].(anyWritten := true)];
      NewLineIndent();
    }

    method WriteChar(c: char)
      modifies `output
      ensures output == old(output) + Escape(c)
    {
      match c {
        case '"' => output := output + "\\\"";
        case '\\' => output := output + "\\\\";
        case '\n' => output := output + "\\n";
        case '\r' => output := output + "\\r";
        case '\t' => output := output + "\\t";
        case _ =>
          if c < ' ' {
            output := output + ("\\u00" + [HexDigit(c as nat / 16), HexDigit(c as nat % 16)]);
          } else {
            output := output + [c];
          }
      }
    }

    method WriteString(value: string)
      modifies `output
      ensures output == old(output) + Quote(value)
    {
      hide Escape;
      output := output + "\"";
      for i := 0 to |value|
        invariant output == old(output) + "\"" + EscapeAll(value[..i])
      {
        EscapeAppend(value[..i], value[i]);
        assert value[..i + 1] == value[..i] + [value[i]];
        WriteChar(value[i]);
      }
      assert value[..|value|] == value;
      output := output + "\"";
    }

    method WriteKey(key: string)
      modifies `output, `stack
      ensures output == old(output) + (LeadFor(old(stack)) + Label(key)) && stack == Marked(old(stack))
    {
      hide Quote, Lead;
      Separate();
      WriteString(key);
      output := output + ": ";
    }

    // The calls. Each one does to the output exactly what it means for the tree.

    method BeginObject()
      requires Valid() && Accepts(builder, Call.BeginObject)
      modifies this
      ensures Valid() && builder == Apply(old(builder), Call.BeginObject)
    {
      hide Matches, Label, Lead, Layout, NewLine;
      MatchesMeans(output, stack, builder);
      BeginMatches(output, stack, builder, Frame([], false, [], []));
      assert LeadFor(stack) + KeyText(Frame([], false, [], [])) == LeadFor(stack);
      Separate();
      output := output + "{";
      stack := stack + [State(false, false)];
      builder := Apply(builder, Call.BeginObject);
    }

    method BeginKeyedObject(key: string)
      requires Valid() && Accepts(builder, Call.BeginKeyedObject(key))
      modifies this
      ensures Valid() && builder == Apply(old(builder), Call.BeginKeyedObject(key))
    {
      hide Matches, Label, Lead, Layout, NewLine;
      MatchesMeans(output, stack, builder);
      BeginMatches(output, stack, builder, Frame([key], false, [], []));
      WriteKey(key);
      output := output + "{";
      stack := stack + [State(false, false)];
      builder := Apply(builder, Call.BeginKeyedObject(key));
    }

    method EndObject()
      requires Valid() && Accepts(builder, Call.EndObject)
      modifies this
      ensures Valid() && builder == Apply(old(builder), Call.EndObject)
    {
      hide Matches, Label, Lead, Layout, NewLine;
      EndMatches(output, stack, builder);
      assert output + "" == output;
      var hadEntries := stack[|stack| - 1].anyWritten;
      stack := stack[..|stack| - 1];
      if hadEntries {
        NewLineIndent();
      }
      output := output + "}";
      builder := Apply(builder, Call.EndObject);
    }

    method BeginArray(key: string)
      requires Valid() && Accepts(builder, Call.BeginArray(key))
      modifies this
      ensures Valid() && builder == Apply(old(builder), Call.BeginArray(key))
    {
      hide Matches, Label, Lead, Layout, NewLine;
      MatchesMeans(output, stack, builder);
      BeginMatches(output, stack, builder, Frame([key], true, [], []));
      WriteKey(key);
      output := output + "[";
      stack := stack + [State(false, true)];
      builder := Apply(builder, Call.BeginArray(key));
    }

    method EndArray()
      requires Valid() && Accepts(builder, Call.EndArray)
      modifies this
      ensures Valid() && builder == Apply(old(builder), Call.EndArray)
    {
      hide Matches, Label, Lead, Layout, NewLine;
      EndMatches(output, stack, builder);
      assert output + "" == output;
      var hadEntries := stack[|stack| - 1].anyWritten;
      stack := stack[..|stack| - 1];
      if hadEntries {
        NewLineIndent();
      }
      output := output + "]";
      builder := Apply(builder, Call.EndArray);
    }

    method FieldString(key: string, text: string)
      requires Valid() && Accepts(builder, Call.FieldString(key, text))
      modifies this
      ensures Valid() && builder == Apply(old(builder), Call.FieldString(key, text))
    {
      hide Matches, Quote, Label, Lead;
      FieldMatches(output, stack, builder, key, Str(text));
      WriteKey(key);
      WriteString(text);
      builder := Apply(builder, Call.FieldString(key, text));
    }

    method FieldBool(key: string, flag: bool)
      requires Valid() && Accepts(builder, Call.FieldBool(key, flag))
      modifies this
      ensures Valid() && builder == Apply(old(builder), Call.FieldBool(key, flag))
    {
      hide Matches, Label, Lead;
      FieldMatches(output, stack, builder, key, Bool(flag));
      WriteKey(key);
      output := output + if flag then "true" else "false";
      builder := Apply(builder, Call.FieldBool(key, flag));
    }

    method FieldInt(key: string, number: int)
      requires Valid() && Accepts(builder, Call.FieldInt(key, number))
      modifies this
      ensures Valid() && builder == Apply(old(builder), Call.FieldInt(key, number))
    {
      hide Matches, Label, Lead;
      FieldMatches(output, stack, builder, key, Int(number));
      WriteKey(key);
      output := output + Decimal(number);
      builder := Apply(builder, Call.FieldInt(key, number));
    }

    method Value(count: nat)
      requires Valid() && Accepts(builder, Call.Value(count))
      modifies this
      ensures Valid() && builder == Apply(old(builder), Call.Value(count))
    {
      hide Matches, Label, Lead;
      ElementMatches(output, stack, builder, Int(count));
      Separate();
      output := output + Decimal(count);
      builder := Apply(builder, Call.Value(count));
    }

    method Perform(call: Call)
      requires Valid() && Accepts(builder, call)
      modifies this
      ensures Valid() && builder == Apply(old(builder), call)
    {
      match call
      case BeginObject => BeginObject();
      case BeginKeyedObject(key) => BeginKeyedObject(key);
      case EndObject => EndObject();
      case BeginArray(key) => BeginArray(key);
      case EndArray => EndArray();
      case FieldString(key, text) => FieldString(key, text);
      case FieldBool(key, flag) => FieldBool(key, flag);
      case FieldInt(key, number) => FieldInt(key, number);
      case Value(count) => Value(count);
    }
  }

  /** A container is opened: its lead, its key and its bracket follow everything written so far. */
  lemma Opened(b: Builder, f: Frame)
    requires f.members == [] && f.elements == []
    ensures OpenText(b.frames + [f]) ==
      OpenText(b.frames)
      + (if b.frames == [] then "" else Lead(Entries(Top(b)) == 0, |b.frames|) + KeyText(f)) + Opening(f)
  {
    hide Lead, KeyText;
    assert (b.frames + [f])[..|b.frames|] == b.frames;
  }

  // ------------------------------------------------------------- whole sequences

  /** Every call of the sequence is well nested. */
  predicate AcceptsAll(b: Builder, calls: seq<Call>)
    decreases |calls|
  {
    calls == [] || (Accepts(b, calls[0]) && AcceptsAll(Apply(b, calls[0]), calls[1..]))
  }

  function ApplyAll(b: Builder, calls: seq<Call>): Builder
    requires AcceptsAll(b, calls)
    decreases |calls|
  { if calls == [] then b else ApplyAll(Apply(b, calls[0]), calls[1..]) }

  /** The calls form one complete object: well nested from the start, and closed at the end. */
  predicate Complete(calls: seq<Call>) {
    AcceptsAll(EMPTY, calls) && ApplyAll(EMPTY, calls).frames == [] && |ApplyAll(EMPTY, calls).root| == 1
  }

  function TreeOf(calls: seq<Call>): Json
    requires Complete(calls)
  { ApplyAll(EMPTY, calls).root[0] }

  /** Any well-nested sequence of calls that is rooted at one object writes a text that parses to the tree it describes. */
  method WriteAll(calls: seq<Call>) returns (output: string)
    requires Complete(calls)
    ensures Parse(output) == Ok(TreeOf(calls), "")
  {
    var writer := new JsonWriter();
    for i := 0 to |calls|
      invariant fresh(writer) && writer.Valid()
      invariant AcceptsAll(writer.builder, calls[i..])
      invariant ApplyAll(writer.builder, calls[i..]) == ApplyAll(EMPTY, calls)
    {
      assert calls[i..][0] == calls[i] && calls[i..][1..] == calls[i + 1..];
      writer.Perform(calls[i]);
    }
    output := writer.output;
    RoundTrip(TreeOf(calls));
  }
}
