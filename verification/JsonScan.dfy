// The structure check of untrusted JSON: the whole input is one object, no object repeats a name,
// and nothing is nested deeper than allowed.
module JsonScan {
  import opened Options

  // What the decoder yields. Bad stands for any point where it reports an error instead.
  datatype Token = BeginObject | EndObject | BeginArray | EndArray | Text(text: string) | Scalar(id: int) | Bad

  // ----- JSON values -----

  datatype Json = Leaf(token: Token) | Object(members: Members) | Array(items: Items)
  datatype Members = NoMembers | Member(name: string, value: Json, rest: Members)
  datatype Items = NoItems | Item(value: Json, rest: Items)

  function Encode(j: Json): seq<Token> {
    match j
    case Leaf(token) => [token]
    case Object(members) => [BeginObject] + EncodeMembers(members)
    case Array(items) => [BeginArray] + EncodeItems(items)
  }

  function EncodeMembers(m: Members): seq<Token> {
    match m
    case NoMembers => [EndObject]
    case Member(name, value, rest) => [Text(name)] + Encode(value) + EncodeMembers(rest)
  }

  function EncodeItems(i: Items): seq<Token> {
    match i
    case NoItems => [EndArray]
    case Item(value, rest) => Encode(value) + EncodeItems(rest)
  }

  function Max(a: nat, b: nat): nat { if a > b then a else b }

  // The depth of the most deeply nested value; a value itself is at depth 0.
  function Height(j: Json): nat {
    match j
    case Leaf(_) => 0
    case Object(members) => MembersHeight(members)
    case Array(items) => ItemsHeight(items)
  }

  function MembersHeight(m: Members): nat {
    match m
    case NoMembers => 0
    case Member(_, value, rest) => Max(1 + Height(value), MembersHeight(rest))
  }

  function ItemsHeight(i: Items): nat {
    match i
    case NoItems => 0
    case Item(value, rest) => Max(1 + Height(value), ItemsHeight(rest))
  }

  function Names(m: Members): set<string> {
    match m
    case NoMembers => {}
    case Member(name, _, rest) => {name} + Names(rest)
  }

  // Leaves are strings or scalars, and every object's names differ: section 4 of RFC 8259.
  predicate WellFormed(j: Json) {
    match j
    case Leaf(token) => token.Text? || token.Scalar?
    case Object(members) => WellFormedMembers(members)
    case Array(items) => WellFormedItems(items)
  }

  predicate WellFormedMembers(m: Members) {
    match m
    case NoMembers => true
    case Member(name, value, rest) => name !in Names(rest) && WellFormed(value) && WellFormedMembers(rest)
  }

  predicate WellFormedItems(i: Items) {
    match i
    case NoItems => true
    case Item(value, rest) => WellFormed(value) && WellFormedItems(rest)
  }

  // ----- scanning -----

  predicate More(ts: seq<Token>, pos: nat) {
    pos < |ts| && !ts[pos].EndObject? && !ts[pos].EndArray?
  }

  // The position behind the value at pos, or None when it is rejected.
  function ScanValue(ts: seq<Token>, pos: nat, depth: int, maxDepth: int): (end: Option<nat>)
    ensures end.Some? ==> pos < end.value <= |ts|
    decreases if pos < |ts| then |ts| - pos else 0, 1
  {
    if depth > maxDepth || pos >= |ts| then None
    else match ts[pos]
      case Bad => None
      case Text(_) => Some(pos + 1)
      case Scalar(_) => Some(pos + 1)
      case BeginObject => ScanMembers(ts, pos + 1, {}, depth, maxDepth)
      case BeginArray => ScanItems(ts, pos + 1, depth, maxDepth)
      case EndObject => None
      case EndArray => None
  }

  function ScanMembers(ts: seq<Token>, pos: nat, seen: set<string>, depth: int, maxDepth: int): (end: Option<nat>)
    ensures end.Some? ==> pos < end.value <= |ts|
    decreases if pos < |ts| then |ts| - pos else 0, 2
  {
    if More(ts, pos) then
      if !ts[pos].Text? || ts[pos].text in seen then None
      else
        var value := ScanValue(ts, pos + 1, depth + 1, maxDepth);
        if value.None? then None
        else ScanMembers(ts, value.value, seen + {ts[pos].text}, depth, maxDepth)
    else if pos < |ts| && ts[pos].EndObject? then Some(pos + 1)
    else None
  }

  function ScanItems(ts: seq<Token>, pos: nat, depth: int, maxDepth: int): (end: Option<nat>)
    ensures end.Some? ==> pos < end.value <= |ts|
    decreases if pos < |ts| then |ts| - pos else 0, 2
  {
    if More(ts, pos) then
      var value := ScanValue(ts, pos, depth + 1, maxDepth);
      if value.None? then None else ScanItems(ts, value.value, depth, maxDepth)
    else if pos < |ts| && ts[pos].EndArray? then Some(pos + 1)
    else None
  }

  predicate Accepts(ts: seq<Token>, maxDepth: int) {
    ts != [] && ts[0].BeginObject? && ScanValue(ts, 0, 0, maxDepth) == Some(|ts|)
  }

  // ----- what is accepted has a tree -----

  lemma {:induction false} ValueHasTree(ts: seq<Token>, pos: nat, depth: int, maxDepth: int) returns (j: Json)
    requires ScanValue(ts, pos, depth, maxDepth).Some?
    ensures Encode(j) == ts[pos..ScanValue(ts, pos, depth, maxDepth).value]
    ensures WellFormed(j) && depth + Height(j) <= maxDepth
    decreases |ts| - pos, 1
  {
    match ts[pos]
    case Text(_) => j := Leaf(ts[pos]);
    case Scalar(_) => j := Leaf(ts[pos]);
    case BeginObject =>
      var members := MembersHaveTree(ts, pos + 1, {}, depth, maxDepth);
      j := Object(members);
    case BeginArray =>
      var items := ItemsHaveTree(ts, pos + 1, depth, maxDepth);
      j := Array(items);
  }

  lemma {:induction false} MembersHaveTree(ts: seq<Token>, pos: nat, seen: set<string>, depth: int, maxDepth: int)
    returns (m: Members)
    requires ScanMembers(ts, pos, seen, depth, maxDepth).Some? && depth <= maxDepth
    ensures EncodeMembers(m) == ts[pos..ScanMembers(ts, pos, seen, depth, maxDepth).value]
    ensures WellFormedMembers(m) && Names(m) !! seen && depth + MembersHeight(m) <= maxDepth
    decreases |ts| - pos, 2
  {
    if More(ts, pos) {
      var name := ts[pos].text;
      var middle := ScanValue(ts, pos + 1, depth + 1, maxDepth).value;
      var value := ValueHasTree(ts, pos + 1, depth + 1, maxDepth);
      var rest := MembersHaveTree(ts, middle, seen + {name}, depth, maxDepth);
      m := Member(name, value, rest);
      var end := ScanMembers(ts, pos, seen, depth, maxDepth).value;
      assert ts[pos..end] == [ts[pos]] + ts[pos + 1..middle] + ts[middle..end];
    } else {
      m := NoMembers;
    }
  }

  lemma {:induction false} ItemsHaveTree(ts: seq<Token>, pos: nat, depth: int, maxDepth: int) returns (i: Items)
    requires ScanItems(ts, pos, depth, maxDepth).Some? && depth <= maxDepth
    ensures EncodeItems(i) == ts[pos..ScanItems(ts, pos, depth, maxDepth).value]
    ensures WellFormedItems(i) && depth + ItemsHeight(i) <= maxDepth
    decreases |ts| - pos, 2
  {
    if More(ts, pos) {
      var middle := ScanValue(ts, pos, depth + 1, maxDepth).value;
      var value := ValueHasTree(ts, pos, depth + 1, maxDepth);
      var rest := ItemsHaveTree(ts, middle, depth, maxDepth);
      i := Item(value, rest);
      var end := ScanItems(ts, pos, depth, maxDepth).value;
      assert ts[pos..end] == ts[pos..middle] + ts[middle..end];
    } else {
      i := NoItems;
    }
  }

  // ----- every tree is accepted -----

  ghost predicate At(ts: seq<Token>, pos: nat, code: seq<Token>) {
    pos + |code| <= |ts| && ts[pos..pos + |code|] == code
  }

  lemma AtSplit(ts: seq<Token>, pos: nat, a: seq<Token>, b: seq<Token>)
    requires At(ts, pos, a + b)
    ensures At(ts, pos, a) && At(ts, pos + |a|, b)
  {
    assert ts[pos..pos + |a|] == (a + b)[..|a|];
    assert ts[pos + |a|..pos + |a| + |b|] == (a + b)[|a|..];
  }

  lemma AtFirst(ts: seq<Token>, pos: nat, first: Token, rest: seq<Token>)
    requires At(ts, pos, [first] + rest)
    ensures ts[pos] == first && At(ts, pos + 1, rest)
  {
    AtSplit(ts, pos, [first], rest);
    assert ts[pos] == ts[pos..pos + 1][0];
  }

  lemma {:induction false} TreeAccepted(ts: seq<Token>, pos: nat, j: Json, depth: int, maxDepth: int)
    requires At(ts, pos, Encode(j)) && WellFormed(j) && depth + Height(j) <= maxDepth
    ensures ScanValue(ts, pos, depth, maxDepth) == Some(pos + |Encode(j)|)
    decreases j
  {
    match j
    case Leaf(token) => AtFirst(ts, pos, token, []);
    case Object(members) =>
      AtFirst(ts, pos, BeginObject, EncodeMembers(members));
      MembersAccepted(ts, pos + 1, members, {}, depth, maxDepth);
    case Array(items) =>
      AtFirst(ts, pos, BeginArray, EncodeItems(items));
      ItemsAccepted(ts, pos + 1, items, depth, maxDepth);
  }

  // One member read, and the rest from its end on.
  lemma MemberScanned(ts: seq<Token>, pos: nat, seen: set<string>, depth: int, maxDepth: int, end: nat)
    requires pos < |ts| && ts[pos].Text? && ts[pos].text !in seen
    requires ScanValue(ts, pos + 1, depth + 1, maxDepth) == Some(end)
    ensures ScanMembers(ts, pos, seen, depth, maxDepth) == ScanMembers(ts, end, seen + {ts[pos].text}, depth, maxDepth)
  {
  }

  lemma AtMember(ts: seq<Token>, pos: nat, name: string, code: seq<Token>, rest: seq<Token>)
    requires At(ts, pos, [Text(name)] + code + rest)
    ensures ts[pos] == Text(name) && At(ts, pos + 1, code) && At(ts, pos + 1 + |code|, rest)
  {
    assert [Text(name)] + code + rest == [Text(name)] + (code + rest);
    AtSplit(ts, pos, [Text(name)], code + rest);
    AtSplit(ts, pos + 1, code, rest);
    assert ts[pos] == ts[pos..pos + 1][0];
  }

  lemma {:induction false} MembersAccepted(ts: seq<Token>, pos: nat, m: Members, seen: set<string>, depth: int,
                                           maxDepth: int)
    requires At(ts, pos, EncodeMembers(m)) && WellFormedMembers(m) && Names(m) !! seen
    requires depth + MembersHeight(m) <= maxDepth
    ensures ScanMembers(ts, pos, seen, depth, maxDepth) == Some(pos + |EncodeMembers(m)|)
    decreases m
  {
    match m
    case NoMembers => assert ts[pos] == ts[pos..pos + 1][0];
    case Member(name, value, rest) =>
      var code := Encode(value);
      var end := pos + 1 + |code|;
      AtMember(ts, pos, name, code, EncodeMembers(rest));
      TreeAccepted(ts, pos + 1, value, depth + 1, maxDepth);
      MembersAccepted(ts, end, rest, seen + {name}, depth, maxDepth);
      assert |EncodeMembers(m)| == 1 + |code| + |EncodeMembers(rest)|;
      MemberScanned(ts, pos, seen, depth, maxDepth, end);
  }

  lemma {:induction false} ItemsAccepted(ts: seq<Token>, pos: nat, i: Items, depth: int, maxDepth: int)
    requires At(ts, pos, EncodeItems(i)) && WellFormedItems(i)
    requires depth + ItemsHeight(i) <= maxDepth
    ensures ScanItems(ts, pos, depth, maxDepth) == Some(pos + |EncodeItems(i)|)
    decreases i
  {
    match i
    case NoItems => assert ts[pos] == ts[pos..pos + 1][0];
    case Item(value, rest) =>
      var code := Encode(value);
      AtSplit(ts, pos, code, EncodeItems(rest));
      assert ts[pos] == ts[pos..pos + |code|][0];
      TreeAccepted(ts, pos, value, depth + 1, maxDepth);
      ItemsAccepted(ts, pos + |code|, rest, depth, maxDepth);
  }

  // The input is accepted exactly when it is the encoding of one object with unique names
  // throughout, nothing following, and no value deeper than maxDepth.
  lemma AcceptsExactlyObjects(ts: seq<Token>, maxDepth: int)
    ensures Accepts(ts, maxDepth) <==>
            exists m :: ts == Encode(Object(m)) && WellFormed(Object(m)) && Height(Object(m)) <= maxDepth
  {
    if Accepts(ts, maxDepth) {
      var j := ValueHasTree(ts, 0, 0, maxDepth);
      assert ts[0..|ts|] == ts;
      assert j.Object?;
      assert ts == Encode(Object(j.members));
    }
    if m :| ts == Encode(Object(m)) && WellFormed(Object(m)) && Height(Object(m)) <= maxDepth {
      assert ts[0..|ts|] == ts;
      TreeAccepted(ts, 0, Object(m), 0, maxDepth);
    }
  }

  // The encoding determines the tree, so an accepted input means one value only.
  lemma EncodingIsUnambiguous(j: Json, k: Json)
    requires WellFormed(j) && WellFormed(k) && Encode(j) == Encode(k)
    ensures j == k
  {
    assert Encode(j) + [] == Encode(j) && Encode(k) + [] == Encode(k);
    SameStart(j, k, [], []);
  }

  lemma {:induction false} SameStart(j: Json, k: Json, a: seq<Token>, b: seq<Token>)
    requires WellFormed(j) && WellFormed(k) && Encode(j) + a == Encode(k) + b
    ensures j == k && a == b
    decreases j
  {
    assert (Encode(j) + a)[0] == Encode(j)[0] && (Encode(k) + b)[0] == Encode(k)[0];
    match j
    case Leaf(_) =>
      assert a == (Encode(j) + a)[1..] && b == (Encode(k) + b)[1..];
    case Object(m) =>
      assert EncodeMembers(m) + a == (Encode(j) + a)[1..] && EncodeMembers(k.members) + b == (Encode(k) + b)[1..];
      SameMembers(m, k.members, a, b);
    case Array(i) =>
      assert EncodeItems(i) + a == (Encode(j) + a)[1..] && EncodeItems(k.items) + b == (Encode(k) + b)[1..];
      SameItems(i, k.items, a, b);
  }

  lemma {:induction false} SameMembers(m: Members, n: Members, a: seq<Token>, b: seq<Token>)
    requires WellFormedMembers(m) && WellFormedMembers(n) && EncodeMembers(m) + a == EncodeMembers(n) + b
    ensures m == n && a == b
    decreases m
  {
    assert (EncodeMembers(m) + a)[0] == EncodeMembers(m)[0] && (EncodeMembers(n) + b)[0] == EncodeMembers(n)[0];
    match m
    case NoMembers =>
      assert a == (EncodeMembers(m) + a)[1..] && b == (EncodeMembers(n) + b)[1..];
    case Member(name, value, rest) =>
      var a', b' := EncodeMembers(rest) + a, EncodeMembers(n.rest) + b;
      assert Encode(value) + a' == (EncodeMembers(m) + a)[1..] && Encode(n.value) + b' == (EncodeMembers(n) + b)[1..];
      SameStart(value, n.value, a', b');
      SameMembers(rest, n.rest, a, b);
  }

  lemma {:induction false} SameItems(i: Items, k: Items, a: seq<Token>, b: seq<Token>)
    requires WellFormedItems(i) && WellFormedItems(k) && EncodeItems(i) + a == EncodeItems(k) + b
    ensures i == k && a == b
    decreases i
  {
    assert (EncodeItems(i) + a)[0] == EncodeItems(i)[0] && (EncodeItems(k) + b)[0] == EncodeItems(k)[0];
    match i
    case NoItems =>
      assert a == (EncodeItems(i) + a)[1..] && b == (EncodeItems(k) + b)[1..];
    case Item(value, rest) =>
      var a', b' := EncodeItems(rest) + a, EncodeItems(k.rest) + b;
      assert Encode(value) + a' == EncodeItems(i) + a && Encode(k.value) + b' == EncodeItems(k) + b;
      SameStart(value, k.value, a', b');
      SameItems(rest, k.rest, a, b);
  }

  // ----- the decoder's cursor -----

  class Decoder {
    const tokens: seq<Token>
    var pos: nat

    constructor (tokens: seq<Token>)
      ensures this.tokens == tokens && pos == 0
    {
      this.tokens := tokens;
      pos := 0;
    }

    // The next token; None at the end of the input or at an error.
    method Next() returns (token: Option<Token>)
      modifies this
      ensures token == if old(pos) < |tokens| && !tokens[old(pos)].Bad? then Some(tokens[old(pos)]) else None
      ensures pos == if token.Some? then old(pos) + 1 else old(pos)
    {
      if pos >= |tokens| || tokens[pos].Bad? {
        return None;
      }
      token := Some(tokens[pos]);
      pos := pos + 1;
    }
  }

  method Scan(decoder: Decoder, requireObject: bool, depth: int, maxDepth: int) returns (ok: bool)
    requires decoder.pos <= |decoder.tokens|
    modifies decoder
    ensures var ts, start := decoder.tokens, old(decoder.pos);
            var end := ScanValue(ts, start, depth, maxDepth);
            && (ok <==> end.Some? && (requireObject ==> ts[start].BeginObject?))
            && (ok ==> decoder.pos == end.value)
    ensures decoder.pos <= |decoder.tokens|
    decreases |decoder.tokens| - decoder.pos, 1
  {
    if depth > maxDepth {
      return false;
    }
    var token := decoder.Next();
    if token.None? {
      return false;
    }
    if requireObject && !token.value.BeginObject? {
      return false;
    }
    match token.value {
      case BeginObject => ok := ScanObject(decoder, depth, maxDepth);
      case BeginArray => ok := ScanArray(decoder, depth, maxDepth);
      case EndObject => ok := false;
      case EndArray => ok := false;
      case _ => ok := true;
    }
  }

  method ScanObject(decoder: Decoder, depth: int, maxDepth: int) returns (ok: bool)
    requires decoder.pos <= |decoder.tokens|
    modifies decoder
    ensures var end := ScanMembers(decoder.tokens, old(decoder.pos), {}, depth, maxDepth);
            (ok <==> end.Some?) && (ok ==> decoder.pos == end.value)
    ensures decoder.pos <= |decoder.tokens|
    decreases |decoder.tokens| - decoder.pos, 2
  {
    ghost var ts := decoder.tokens;
    ghost var goal := ScanMembers(ts, decoder.pos, {}, depth, maxDepth);
    var seen: set<string> := {};
    while More(decoder.tokens, decoder.pos)
      invariant old(decoder.pos) <= decoder.pos <= |decoder.tokens|
      invariant ScanMembers(ts, decoder.pos, seen, depth, maxDepth) == goal
      decreases |decoder.tokens| - decoder.pos
    {
      var key := decoder.Next();
      if key.None? || !key.value.Text? || key.value.text in seen {
        return false;
      }
      seen := seen + {key.value.text};
      var valueOk := Scan(decoder, false, depth + 1, maxDepth);
      if !valueOk {
        return false;
      }
    }
    var closing := decoder.Next();
    return closing == Some(EndObject);
  }

  method ScanArray(decoder: Decoder, depth: int, maxDepth: int) returns (ok: bool)
    requires decoder.pos <= |decoder.tokens|
    modifies decoder
    ensures var end := ScanItems(decoder.tokens, old(decoder.pos), depth, maxDepth);
            (ok <==> end.Some?) && (ok ==> decoder.pos == end.value)
    ensures decoder.pos <= |decoder.tokens|
    decreases |decoder.tokens| - decoder.pos, 2
  {
    ghost var ts := decoder.tokens;
    ghost var goal := ScanItems(ts, decoder.pos, depth, maxDepth);
    while More(decoder.tokens, decoder.pos)
      invariant old(decoder.pos) <= decoder.pos <= |decoder.tokens|
      invariant ScanItems(ts, decoder.pos, depth, maxDepth) == goal
      decreases |decoder.tokens| - decoder.pos
    {
      var valueOk := Scan(decoder, false, depth + 1, maxDepth);
      if !valueOk {
        return false;
      }
    }
    var closing := decoder.Next();
    return closing == Some(EndArray);
  }

  method CheckObject(decoder: Decoder, maxDepth: int) returns (ok: bool)
    requires decoder.pos == 0
    modifies decoder
    ensures ok <==> Accepts(decoder.tokens, maxDepth)
  {
    ok := Scan(decoder, true, 0, maxDepth);
    if !ok {
      return false;
    }
    return decoder.pos == |decoder.tokens|;
  }
}
