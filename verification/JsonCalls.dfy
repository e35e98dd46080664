/**
 What a sequence of calls to the writer means, said by the tree alone: the calls that write a
 given tree. They describe that tree, and every complete sequence of calls is the one that
 writes the tree it describes.
 */
module JsonCalls {
  import opened JsonText
  import opened JsonWriters

  // ------------------------------------------------------- the calls for a tree

  /** What a key may hold: anything but `null`, and arrays of objects and counts only. */
  predicate Keyed(v: Json)
    decreases v, 0
  {
    match v
    case Obj(members) => forall m | m in members :: Keyed(m.value)
    case Arr(elements) => forall e | e in elements :: Bare(e)
    case Null => false
    case _ => true
  }

  /** What an array may hold. */
  predicate Bare(v: Json)
    decreases v, 1
  {
    match v
    case Int(number) => number >= 0
    case Obj(members) => forall m | m in members :: Keyed(m.value)
    case _ => false
  }

  /** The calls that write `v` under `key`. */
  function KeyedCalls(key: string, v: Json): seq<Call>
    requires Keyed(v)
    decreases v, 0
  {
    match v
    case Str(text) => [FieldString(key, text)]
    case Int(number) => [FieldInt(key, number)]
    case Bool(flag) => [FieldBool(key, flag)]
    case Obj(members) => [BeginKeyedObject(key)] + MembersCalls(members, |members|) + [EndObject]
    case Arr(elements) => [BeginArray(key)] + ElementsCalls(elements, |elements|) + [EndArray]
  }

  /** The calls that write `v` as an entry of an array, or an object as the root. */
  function BareCalls(v: Json): seq<Call>
    requires Bare(v)
    decreases v, 0
  {
    match v
    case Int(number) => [Value(number)]
    case Obj(members) => [BeginObject] + MembersCalls(members, |members|) + [EndObject]
  }

  /** The first `n` members of an object. */
  function MembersCalls(members: seq<Member>, n: nat): seq<Call>
    requires n <= |members| && forall m | m in members :: Keyed(m.value)
    decreases members, n
  { if n == 0 then [] else MembersCalls(members, n - 1) + KeyedCalls(members[n - 1].key, members[n - 1].value) }

  function ElementsCalls(elements: seq<Json>, n: nat): seq<Call>
    requires n <= |elements| && forall e | e in elements :: Bare(e)
    decreases elements, n
  { if n == 0 then [] else ElementsCalls(elements, n - 1) + BareCalls(elements[n - 1]) }

  // ------------------------------------------------------ they describe the tree

  /** Accepted one after the other from `b` on, the calls lead to `r`. */
  predicate Lead(b: Builder, calls: seq<Call>, r: Builder) { AcceptsAll(b, calls) && ApplyAll(b, calls) == r }

  lemma {:induction false} LeadOn(b: Builder, first: seq<Call>, m: Builder, second: seq<Call>, r: Builder)
    requires Lead(b, first, m) && Lead(m, second, r)
    ensures Lead(b, first + second, r)
    decreases |first|
  {
    if first == [] {
      assert first + second == second;
    } else {
      assert (first + second)[1..] == first[1..] + second;
      LeadOn(Apply(b, first[0]), first[1..], m, second, r);
    }
  }

  lemma LeadOne(b: Builder, call: Call)
    requires Accepts(b, call)
    ensures Lead(b, [call], Apply(b, call))
  {
  }

  function WithMembers(b: Builder, members: seq<Member>): Builder
    requires b.frames != []
  { b.(frames := b.frames[|b.frames| - 1 := Top(b).(members := members)]) }

  function WithElements(b: Builder, elements: seq<Json>): Builder
    requires b.frames != []
  { b.(frames := b.frames[|b.frames| - 1 := Top(b).(elements := elements)]) }

  /** A container is opened, filled and closed. */
  lemma Enclosed(b: Builder, begin: Call, inner: seq<Call>, filled: Builder, end: Call)
    requires Accepts(b, begin) && Lead(Apply(b, begin), inner, filled) && Accepts(filled, end)
    ensures Lead(b, [begin] + inner + [end], Apply(filled, end))
  {
    hide Lead, Apply, Accepts;
    LeadOne(b, begin);
    LeadOn(b, [begin], Apply(b, begin), inner, filled);
    LeadOne(filled, end);
    LeadOn(b, [begin] + inner, filled, [end], Apply(filled, end));
  }

  lemma {:induction false} KeyedDescribes(b: Builder, key: string, v: Json)
    requires InObject(b) && Keyed(v)
    ensures Lead(b, KeyedCalls(key, v), AddMember(b, key, v))
    decreases v, 0
  {
    match v
    case Obj(members) =>
      var begun := Apply(b, BeginKeyedObject(key));
      MembersDescribe(begun, members, |members|);
      var filled := WithMembers(begun, members);
      assert members[..|members|] == members && filled.frames[..|b.frames|] == b.frames;
      Enclosed(b, BeginKeyedObject(key), MembersCalls(members, |members|), filled, EndObject);
    case Arr(elements) =>
      var begun := Apply(b, BeginArray(key));
      ElementsDescribe(begun, elements, |elements|);
      var filled := WithElements(begun, elements);
      assert elements[..|elements|] == elements && filled.frames[..|b.frames|] == b.frames;
      Enclosed(b, BeginArray(key), ElementsCalls(elements, |elements|), filled, EndArray);
    case Str(text) => LeadOne(b, FieldString(key, text));
    case Int(number) => LeadOne(b, FieldInt(key, number));
    case Bool(flag) => LeadOne(b, FieldBool(key, flag));
  }

  lemma {:induction false} BareDescribes(b: Builder, v: Json)
    requires InArray(b) && Bare(v)
    ensures Lead(b, BareCalls(v), AddElement(b, v))
    decreases v, 0
  {
    if v.Int? {
      LeadOne(b, Value(v.number));
    } else {
      var begun := Apply(b, BeginObject);
      MembersDescribe(begun, v.members, |v.members|);
      var filled := WithMembers(begun, v.members);
      assert v.members[..|v.members|] == v.members && filled.frames[..|b.frames|] == b.frames;
      Enclosed(b, BeginObject, MembersCalls(v.members, |v.members|), filled, EndObject);
    }
  }

  lemma {:induction false} MembersDescribe(b: Builder, members: seq<Member>, n: nat)
    requires InObject(b) && Top(b).members == [] && n <= |members| && forall m | m in members :: Keyed(m.value)
    ensures Lead(b, MembersCalls(members, n), WithMembers(b, members[..n]))
    decreases members, n
  {
    hide Lead;
    if n == 0 {
      NothingCalled(b);
      assert WithMembers(b, []) == b;
    } else {
      MembersDescribe(b, members, n - 1);
      var before := WithMembers(b, members[..n - 1]);
      KeyedDescribes(before, members[n - 1].key, members[n - 1].value);
      assert members[..n] == members[..n - 1] + [members[n - 1]];
      assert AddMember(before, members[n - 1].key, members[n - 1].value) == WithMembers(b, members[..n]);
      LeadOn(b, MembersCalls(members, n - 1), before, KeyedCalls(members[n - 1].key, members[n - 1].value),
             WithMembers(b, members[..n]));
    }
  }

  lemma {:induction false} ElementsDescribe(b: Builder, elements: seq<Json>, n: nat)
    requires InArray(b) && Top(b).elements == [] && n <= |elements| && forall e | e in elements :: Bare(e)
    ensures Lead(b, ElementsCalls(elements, n), WithElements(b, elements[..n]))
    decreases elements, n
  {
    hide Lead;
    if n == 0 {
      NothingCalled(b);
      assert WithElements(b, []) == b;
    } else {
      ElementsDescribe(b, elements, n - 1);
      var before := WithElements(b, elements[..n - 1]);
      BareDescribes(before, elements[n - 1]);
      assert elements[..n] == elements[..n - 1] + [elements[n - 1]];
      assert AddElement(before, elements[n - 1]) == WithElements(b, elements[..n]);
      LeadOn(b, ElementsCalls(elements, n - 1), before, BareCalls(elements[n - 1]), WithElements(b, elements[..n]));
    }
  }

  lemma NothingCalled(b: Builder)
    ensures Lead(b, [], b)
  {
  }

  /** For every object the writer can write: the calls for it are well nested and describe it. */
  lemma CallsDescribeTheTree(v: Json)
    requires v.Obj? && Keyed(v)
    ensures Complete(BareCalls(v)) && TreeOf(BareCalls(v)) == v
  {
    var begun := Apply(EMPTY, BeginObject);
    MembersDescribe(begun, v.members, |v.members|);
    var filled := WithMembers(begun, v.members);
    assert v.members[..|v.members|] == v.members;
    Enclosed(EMPTY, BeginObject, MembersCalls(v.members, |v.members|), filled, EndObject);
  }

  // --------------------------------------------------- and no other calls do

  function Begin(f: Frame): Call
    requires f.isArray ==> f.key != []
  { if f.isArray then BeginArray(f.key[0]) else if f.key == [] then BeginObject else BeginKeyedObject(f.key[0]) }

  function End(f: Frame): Call { if f.isArray then EndArray else EndObject }

  predicate FrameOk(f: Frame) {
    && (f.isArray ==> f.key != [] && f.members == []) && (!f.isArray ==> f.elements == []) && |f.key| <= 1
    && (forall m | m in f.members :: Keyed(m.value)) && (forall e | e in f.elements :: Bare(e))
  }

  function EntriesCalls(f: Frame): seq<Call>
    requires FrameOk(f)
  { if f.isArray then ElementsCalls(f.elements, |f.elements|) else MembersCalls(f.members, |f.members|) }

  predicate AllOk(frames: seq<Frame>) { forall i | 0 <= i < |frames| :: FrameOk(frames[i]) }

  /** The calls that open containers and fill them as far as they are filled. */
  function OpenCalls(frames: seq<Frame>): seq<Call>
    requires AllOk(frames)
  {
    if frames == [] then []
    else
      var n := |frames| - 1;
      assert FrameOk(frames[n]);
      OpenCalls(frames[..n]) + ([Begin(frames[n])] + EntriesCalls(frames[n]))
  }

  /** Keyed containers hang in objects and bare ones in arrays; the root is a bare object. */
  predicate HangOk(frames: seq<Frame>, i: nat)
    requires i < |frames|
  { if i == 0 then frames[0].key == [] && !frames[0].isArray else (frames[i].key == [] <==> frames[i - 1].isArray) }

  predicate AllHang(frames: seq<Frame>) { forall i | 0 <= i < |frames| :: HangOk(frames, i) }

  predicate BuilderOk(b: Builder) {
    && AllOk(b.frames) && AllHang(b.frames)
    && (b.root != [] ==> b.frames == [] && |b.root| == 1 && b.root[0].Obj? && Keyed(b.root[0]))
  }

  /** All calls made so far, read off the tree under construction. */
  function CallsSoFar(b: Builder): seq<Call>
    requires BuilderOk(b)
  { if b.root != [] then BareCalls(b.root[0]) else OpenCalls(b.frames) }

  lemma {:induction false} MembersPrefix(a: seq<Member>, b: seq<Member>, n: nat)
    requires n <= |a| && n <= |b| && a[..n] == b[..n]
    requires (forall m | m in a :: Keyed(m.value)) && (forall m | m in b :: Keyed(m.value))
    ensures MembersCalls(a, n) == MembersCalls(b, n)
  {
    if n > 0 {
      assert a[..n - 1] == a[..n][..n - 1] && b[..n - 1] == b[..n][..n - 1] && a[n - 1] == a[..n][n - 1] == b[..n][n - 1];
      MembersPrefix(a, b, n - 1);
    }
  }

  lemma {:induction false} ElementsPrefix(a: seq<Json>, b: seq<Json>, n: nat)
    requires n <= |a| && n <= |b| && a[..n] == b[..n] && (forall e | e in a :: Bare(e)) && (forall e | e in b :: Bare(e))
    ensures ElementsCalls(a, n) == ElementsCalls(b, n)
  {
    if n > 0 {
      assert a[..n - 1] == a[..n][..n - 1] && b[..n - 1] == b[..n][..n - 1] && a[n - 1] == a[..n][n - 1] == b[..n][n - 1];
      ElementsPrefix(a, b, n - 1);
    }
  }

  /** The outer containers and the innermost one. */
  lemma LastOpen(frames: seq<Frame>)
    requires AllOk(frames) && frames != []
    ensures var n := |frames| - 1; var f := frames[n];
      && AllOk(frames[..n]) && FrameOk(f) && (f.isArray ==> f.key != [])
      && OpenCalls(frames) == OpenCalls(frames[..n]) + ([Begin(f)] + EntriesCalls(f))
  {
    assert FrameOk(frames[|frames| - 1]);
  }

  lemma LastReplaced(frames: seq<Frame>, f: Frame)
    requires AllOk(frames) && AllHang(frames) && frames != [] && FrameOk(f)
    requires f.key == frames[|frames| - 1].key && f.isArray == frames[|frames| - 1].isArray
    ensures AllOk(frames[|frames| - 1 := f]) && AllHang(frames[|frames| - 1 := f])
  {
    var after := frames[|frames| - 1 := f];
    forall i | 0 <= i < |after| ensures HangOk(after, i) { assert HangOk(frames, i); }
  }

  /** The last open container has one entry more. */
  lemma EntryAdded(b: Builder, r: Builder, calls: seq<Call>)
    requires BuilderOk(b) && b.frames != [] && b.root == [] && r.root == []
    requires |r.frames| == |b.frames| && r.frames == b.frames[|b.frames| - 1 := Top(r)]
    requires FrameOk(Top(r)) && FrameOk(Top(b)) && Top(r).key == Top(b).key && Top(r).isArray == Top(b).isArray
    requires EntriesCalls(Top(r)) == EntriesCalls(Top(b)) + calls
    ensures BuilderOk(r) && CallsSoFar(r) == CallsSoFar(b) + calls
  {
    hide FrameOk, EntriesCalls, Begin, AllOk, AllHang, OpenCalls;
    var n := |b.frames| - 1;
    LastReplaced(b.frames, Top(r));
    LastOpen(b.frames);
    LastOpen(r.frames);
    assert r.frames[..n] == b.frames[..n];
    Begins(Top(b), Top(r));
    Regroup(OpenCalls(b.frames[..n]), [Begin(Top(b))], EntriesCalls(Top(b)), calls);
  }

  lemma Regroup(a: seq<Call>, b: seq<Call>, c: seq<Call>, d: seq<Call>)
    ensures a + (b + (c + d)) == a + (b + c) + d == a + (b + c + d)
  {
  }

  lemma Begins(f: Frame, g: Frame)
    requires FrameOk(f) && FrameOk(g) && f.key == g.key && f.isArray == g.isArray
    ensures (f.isArray ==> f.key != []) && (g.isArray ==> g.key != []) && Begin(f) == Begin(g)
  {
  }

  lemma OneMember(f: Frame, m: Member)
    requires FrameOk(f) && !f.isArray && Keyed(m.value)
    ensures var g := f.(members := f.members + [m]);
      FrameOk(g) && EntriesCalls(g) == EntriesCalls(f) + KeyedCalls(m.key, m.value)
  {
    var members := f.members + [m];
    assert forall x | x in members :: x in f.members || x == m;
    MembersPrefix(members, f.members, |f.members|);
  }

  lemma MemberAdded(b: Builder, key: string, v: Json)
    requires BuilderOk(b) && InObject(b) && Keyed(v)
    ensures BuilderOk(AddMember(b, key, v)) && CallsSoFar(AddMember(b, key, v)) == CallsSoFar(b) + KeyedCalls(key, v)
  {
    hide Keyed, KeyedCalls, EntriesCalls, FrameOk, AllHang, OpenCalls;
    assert FrameOk(Top(b));
    hide AllOk;
    OneMember(Top(b), Member(key, v));
    EntryAdded(b, AddMember(b, key, v), KeyedCalls(key, v));
  }

  lemma OneElement(f: Frame, v: Json)
    requires FrameOk(f) && f.isArray && Bare(v)
    ensures var g := f.(elements := f.elements + [v]);
      FrameOk(g) && EntriesCalls(g) == EntriesCalls(f) + BareCalls(v)
  {
    var elements := f.elements + [v];
    assert forall x | x in elements :: x in f.elements || x == v;
    ElementsPrefix(elements, f.elements, |f.elements|);
  }

  lemma ElementAdded(b: Builder, v: Json)
    requires BuilderOk(b) && InArray(b) && Bare(v)
    ensures BuilderOk(AddElement(b, v)) && CallsSoFar(AddElement(b, v)) == CallsSoFar(b) + BareCalls(v)
  {
    hide Bare, BareCalls, EntriesCalls, FrameOk, AllHang, OpenCalls;
    assert FrameOk(Top(b));
    hide AllOk;
    OneElement(Top(b), v);
    EntryAdded(b, AddElement(b, v), BareCalls(v));
  }

  lemma ContainerBegun(b: Builder, f: Frame)
    requires BuilderOk(b) && b.root == [] && FrameOk(f) && Entries(f) == 0
    requires if b.frames == [] then f.key == [] && !f.isArray else f.key == [] <==> Top(b).isArray
    ensures BuilderOk(b.(frames := b.frames + [f])) && CallsSoFar(b.(frames := b.frames + [f])) == CallsSoFar(b) + [Begin(f)]
  {
    var r := b.(frames := b.frames + [f]);
    assert r.frames[..|b.frames|] == b.frames;
    assert AllOk(r.frames) && AllHang(r.frames) by {
      forall i | 0 <= i < |r.frames| ensures FrameOk(r.frames[i]) && HangOk(r.frames, i) {
        if i < |b.frames| { assert FrameOk(b.frames[i]) && HangOk(b.frames, i); }
      }
    }
    LastOpen(r.frames);
    assert [Begin(f)] + EntriesCalls(f) == [Begin(f)];
  }

  /** The calls for a container that is complete. */
  lemma ContainerCalls(f: Frame)
    requires FrameOk(f)
    ensures f.key != [] ==> Keyed(Closed(f)) && KeyedCalls(f.key[0], Closed(f)) == [Begin(f)] + EntriesCalls(f) + [End(f)]
    ensures !f.isArray ==> Keyed(Closed(f))
    ensures f.key == [] ==> Bare(Closed(f)) && BareCalls(Closed(f)) == [Begin(f)] + EntriesCalls(f) + [End(f)]
  {
  }

  lemma OuterOk(frames: seq<Frame>)
    requires AllOk(frames) && AllHang(frames) && frames != []
    ensures var n := |frames| - 1;
      AllOk(frames[..n]) && AllHang(frames[..n]) && HangOk(frames, n) && FrameOk(frames[n])
  {
    var n := |frames| - 1;
    forall i | 0 <= i < n ensures HangOk(frames[..n], i) { assert HangOk(frames, i); }
    assert HangOk(frames, n) && FrameOk(frames[n]);
  }

  lemma ContainerEnded(b: Builder)
    requires BuilderOk(b) && b.frames != []
    ensures BuilderOk(Close(b)) && CallsSoFar(Close(b)) == CallsSoFar(b) + [End(Top(b))]
  {
    hide FrameOk, Keyed, Bare, KeyedCalls, BareCalls, EntriesCalls, Begin, AllOk, AllHang, OpenCalls;
    var n := |b.frames| - 1;
    var f, outer := Top(b), b.(frames := b.frames[..n]);
    OuterOk(b.frames);
    LastOpen(b.frames);
    ContainerCalls(f);
    Regroup(OpenCalls(b.frames[..n]), [Begin(f)], EntriesCalls(f), [End(f)]);
    if n > 0 {
      if f.key == [] { ElementAdded(outer, Closed(f)); } else { MemberAdded(outer, f.key[0], Closed(f)); }
    } else {
      NothingOpen();
      RootIsAnObject(b.frames);
      assert b.frames[..n] == [] && Close(b) == Builder([], [Closed(f)]);
    }
  }

  lemma RootIsAnObject(frames: seq<Frame>)
    requires |frames| == 1 && AllHang(frames)
    ensures frames[0].key == [] && !frames[0].isArray
  {
    assert HangOk(frames, 0);
  }

  lemma NothingOpen()
    ensures AllOk([]) && AllHang([]) && OpenCalls([]) == []
  {
  }

  lemma CallAdded(b: Builder, call: Call)
    requires BuilderOk(b) && Accepts(b, call)
    ensures BuilderOk(Apply(b, call)) && CallsSoFar(Apply(b, call)) == CallsSoFar(b) + [call]
  {
    hide BuilderOk, CallsSoFar, AddMember, AddElement, Close;
    if b.frames != [] { RootOpen(b); }
    match call
    case BeginObject => ContainerBegun(b, Frame([], false, [], []));
    case BeginKeyedObject(key) => ContainerBegun(b, Frame([key], false, [], []));
    case BeginArray(key) => ContainerBegun(b, Frame([key], true, [], []));
    case EndObject => ContainerEnded(b);
    case EndArray => ContainerEnded(b);
    case FieldString(key, text) => MemberAdded(b, key, Str(text));
    case FieldBool(key, flag) => MemberAdded(b, key, Bool(flag));
    case FieldInt(key, number) => MemberAdded(b, key, Int(number));
    case Value(count) => ElementAdded(b, Int(count));
  }

  lemma RootOpen(b: Builder)
    requires BuilderOk(b) && b.frames != []
    ensures b.root == []
  {
  }

  lemma {:induction false} AllCallsAdded(b: Builder, calls: seq<Call>)
    requires BuilderOk(b) && AcceptsAll(b, calls)
    ensures BuilderOk(ApplyAll(b, calls)) && CallsSoFar(ApplyAll(b, calls)) == CallsSoFar(b) + calls
    decreases |calls|
  {
    hide BuilderOk, CallsSoFar, Apply, Accepts;
    if calls == [] {
      assert CallsSoFar(b) + calls == CallsSoFar(b);
    } else {
      CallAdded(b, calls[0]);
      AllCallsAdded(Apply(b, calls[0]), calls[1..]);
      assert CallsSoFar(b) + [calls[0]] + calls[1..] == CallsSoFar(b) + calls;
    }
  }

  /** Every complete sequence of calls is the one that writes the tree it describes. */
  lemma TreeDeterminesTheCalls(calls: seq<Call>)
    requires Complete(calls)
    ensures TreeOf(calls).Obj? && Keyed(TreeOf(calls)) && BareCalls(TreeOf(calls)) == calls
  {
    AllCallsAdded(EMPTY, calls);
  }
}
