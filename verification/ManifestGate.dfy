/** The structural gate a manifest passes before its fields are looked at
    (internal/adaptersdk/manifest.go): no repeated member name anywhere, then bounded
    depth, width and string length. Strings are sequences of bytes. */
module ManifestGate {
  const MAX_DEPTH := 8
  const MAX_ENTRIES := 256
  const MAX_STRING := 4096

  datatype Json =
    | JNull
    | JBool(b: bool)
    | JNumber(literal: string)
    | JString(text: string)
    | JArray(items: seq<Json>)
    | JObject(members: seq<Member>)

  datatype Member = Member(name: string, value: Json)

  /** What json.Decoder.Token yields; commas and colons never surface. Garbage is a position
      where Token returns an error, a bracket of the wrong kind included. */
  datatype Token = BeginObject | EndObject | BeginArray | EndArray | Text(text: string) | Literal | Garbage

  datatype Verdict = Accepted | Malformed | DuplicateName

  // ---------- the token stream of a value ----------

  function Tokens(v: Json): seq<Token>
    decreases v, 1
  {
    match v
    case JNull => [Literal]
    case JBool(_) => [Literal]
    case JNumber(_) => [Literal]
    case JString(text) => [Text(text)]
    case JArray(items) => [BeginArray] + ItemTokens(items) + [EndArray]
    case JObject(members) => [BeginObject] + MemberTokens(members) + [EndObject]
  }

  function ItemTokens(items: seq<Json>): seq<Token>
    decreases items, 0
  {
    if items == [] then [] else Tokens(items[0]) + ItemTokens(items[1..])
  }

  function MemberTokens(members: seq<Member>): seq<Token>
    decreases members, 0
  {
    if members == [] then []
    else [Text(members[0].name)] + Tokens(members[0].value) + MemberTokens(members[1..])
  }

  /** No object anywhere in the value repeats a member name (section 4 of RFC 8259). */
  ghost predicate UniqueNames(v: Json)
    decreases v
  {
    match v
    case JArray(items) => forall i :: 0 <= i < |items| ==> UniqueNames(items[i])
    case JObject(members) =>
      && (forall i, j :: 0 <= i < j < |members| ==> members[i].name != members[j].name)
      && (forall i :: 0 <= i < |members| ==> UniqueNames(members[i].value))
    case _ => true
  }

  // ---------- the check as a function on streams ----------

  datatype Scan = Scan(verdict: Verdict, rest: seq<Token>)

  predicate More(ts: seq<Token>)
  {
    ts != [] && ts[0] != EndObject && ts[0] != EndArray
  }

  /** The verdict on one value at the head of the stream, and what is left after it. */
  function ScanValue(ts: seq<Token>): (r: Scan)
    ensures |r.rest| <= |ts|
    ensures r.verdict.Accepted? ==> |r.rest| < |ts|
    decreases |ts|, 0
  {
    if ts == [] || ts[0].Garbage? then Scan(Malformed, ts)
    else match ts[0]
      case BeginObject => ScanMembers(ts[1..], {})
      case BeginArray => ScanItems(ts[1..])
      case EndObject => Scan(Malformed, ts[1..])
      case EndArray => Scan(Malformed, ts[1..])
      case _ => Scan(Accepted, ts[1..])
  }

  function ScanMembers(ts: seq<Token>, seen: set<string>): (r: Scan)
    ensures |r.rest| <= |ts|
    decreases |ts|, 1
  {
    if !More(ts) then CloseContainer(ts)
    else if ts[0].Garbage? then Scan(Malformed, ts)
    else if !ts[0].Text? then Scan(Malformed, ts[1..])
    else if ts[0].text in seen then Scan(DuplicateName, ts[1..])
    else
      var inner := ScanValue(ts[1..]);
      if inner.verdict.Accepted? then ScanMembers(inner.rest, seen + {ts[0].text}) else inner
  }

  function ScanItems(ts: seq<Token>): (r: Scan)
    ensures |r.rest| <= |ts|
    decreases |ts|, 1
  {
    if !More(ts) then CloseContainer(ts)
    else
      var inner := ScanValue(ts);
      if inner.verdict.Accepted? then ScanItems(inner.rest) else inner
  }

  function CloseContainer(ts: seq<Token>): Scan
  {
    if ts == [] then Scan(Malformed, ts) else Scan(Accepted, ts[1..])
  }

  // ---------- the check as the source runs it ----------

  /** json.Decoder reduced to the two calls the check makes. */
  class Decoder {
    var stream: seq<Token>

    constructor (tokens: seq<Token>)
      ensures stream == tokens
    {
      stream := tokens;
    }

    method NextToken() returns (ok: bool, token: Token)
      modifies this
      ensures ok <==> old(stream) != [] && !old(stream)[0].Garbage?
      ensures ok ==> token == old(stream)[0] && stream == old(stream)[1..]
      ensures !ok ==> stream == old(stream)
    {
      token := Garbage;
      ok := stream != [] && !stream[0].Garbage?;
      if ok {
        token := stream[0];
        stream := stream[1..];
      }
    }

    /** rejectDuplicateManifestNamesAt: the verdict and the position it stops at. */
    method RejectDuplicateNames() returns (verdict: Verdict)
      modifies this
      ensures Scan(verdict, stream) == ScanValue(old(stream))
      decreases |stream|
    {
      ghost var start := stream;
      var ok, token := NextToken();
      if !ok { return Malformed; }
      match token {
        case BeginObject =>
          var seen := {};
          while More(stream)
            invariant |stream| < |start|
            invariant ScanMembers(stream, seen) == ScanValue(start)
            decreases |stream|
          {
            ghost var before := stream;
            var okName, name := NextToken();
            if !okName || !name.Text? { return Malformed; }
            if name.text in seen { return DuplicateName; }
            seen := seen + {name.text};
            var inner := RejectDuplicateNames();
            if !inner.Accepted? { return inner; }
          }
          var closed, _ := NextToken();
          return if closed then Accepted else Malformed;
        case BeginArray =>
          while More(stream)
            invariant |stream| < |start|
            invariant ScanItems(stream) == ScanValue(start)
            decreases |stream|
          {
            var inner := RejectDuplicateNames();
            if !inner.Accepted? { return inner; }
          }
          var closed, _ := NextToken();
          return if closed then Accepted else Malformed;
        case EndObject => return Malformed;
        case EndArray => return Malformed;
        case _ => return Accepted;
      }
    }
  }

  // ---------- exactness ----------

  /** On the stream of any value followed by anything, the check stops right after the value
      if no name repeats, and reports a duplicate otherwise. */
  lemma {:induction false} ScanIsExact(v: Json, rest: seq<Token>)
    ensures UniqueNames(v) ==> ScanValue(Tokens(v) + rest) == Scan(Accepted, rest)
    ensures !UniqueNames(v) ==> ScanValue(Tokens(v) + rest).verdict == DuplicateName
    decreases v, 1
  {
    var ts := Tokens(v) + rest;
    match v {
      case JArray(items) =>
        assert ts[1..] == ItemTokens(items) + ([EndArray] + rest);
        ItemsAreExact(items, rest);
      case JObject(members) =>
        assert ts[1..] == MemberTokens(members) + ([EndObject] + rest);
        MembersAreExact(members, {}, rest);
      case _ =>
        assert ts[1..] == rest;
    }
  }

  ghost predicate AllUnique(items: seq<Json>)
  {
    forall i :: 0 <= i < |items| ==> UniqueNames(items[i])
  }

  lemma {:induction false} ItemsAreExact(items: seq<Json>, rest: seq<Token>)
    ensures var r := ScanItems(ItemTokens(items) + ([EndArray] + rest));
      if AllUnique(items) then r == Scan(Accepted, rest) else r.verdict == DuplicateName
    decreases items, 0
  {
    var ts := ItemTokens(items) + ([EndArray] + rest);
    if items == [] {
      assert ts == [EndArray] + rest;
    } else {
      var tail := ItemTokens(items[1..]) + ([EndArray] + rest);
      assert ts == Tokens(items[0]) + tail;
      ScanIsExact(items[0], tail);
      ItemsAreExact(items[1..], rest);
      AllUniqueStep(items);
    }
  }

  lemma AllUniqueStep(items: seq<Json>)
    requires items != []
    ensures AllUnique(items) <==> UniqueNames(items[0]) && AllUnique(items[1..])
  {
    assert items == [items[0]] + items[1..];
    if AllUnique(items) {
      assert forall i :: 0 <= i < |items[1..]| ==> items[1..][i] == items[i + 1];
    }
  }

  /** Members are fine when their names are fresh and distinct and their values are fine. */
  ghost predicate MembersFine(members: seq<Member>, seen: set<string>)
  {
    && (forall i :: 0 <= i < |members| ==> members[i].name !in seen)
    && (forall i, j :: 0 <= i < j < |members| ==> members[i].name != members[j].name)
    && (forall i :: 0 <= i < |members| ==> UniqueNames(members[i].value))
  }

  lemma MembersFineStep(members: seq<Member>, seen: set<string>)
    requires members != []
    ensures MembersFine(members, seen) <==>
      && members[0].name !in seen && UniqueNames(members[0].value)
      && MembersFine(members[1..], seen + {members[0].name})
  {
    var m, tail := members[0], members[1..];
    assert members == [m] + tail;
    if m.name !in seen && UniqueNames(m.value) && MembersFine(tail, seen + {m.name}) {
      forall i, j | 0 <= i < j < |members| ensures members[i].name != members[j].name {
        assert members[j] == tail[j - 1];
        assert i == 0 || members[i] == tail[i - 1];
      }
    }
    if MembersFine(members, seen) {
      forall i | 0 <= i < |tail| ensures tail[i].name !in seen + {m.name} && UniqueNames(tail[i].value) {
        assert tail[i] == members[i + 1];
        assert members[0].name != members[i + 1].name;
      }
    }
  }

  lemma {:induction false} MembersAreExact(members: seq<Member>, seen: set<string>, rest: seq<Token>)
    ensures var r := ScanMembers(MemberTokens(members) + ([EndObject] + rest), seen);
      if MembersFine(members, seen) then r == Scan(Accepted, rest) else r.verdict == DuplicateName
    decreases members, 0
  {
    var ts := MemberTokens(members) + ([EndObject] + rest);
    if members == [] {
      assert ts == [EndObject] + rest;
    } else {
      var m := members[0];
      var tail := MemberTokens(members[1..]) + ([EndObject] + rest);
      assert ts == [Text(m.name)] + (Tokens(m.value) + tail);
      assert ts[1..] == Tokens(m.value) + tail;
      MembersFineStep(members, seen);
      ScanIsExact(m.value, tail);
      MembersAreExact(members[1..], seen + {m.name}, rest);
    }
  }

  // ---------- bounds ----------

  datatype BoundError = DepthExceeded | EntriesExceeded | KeyTooLong | StringTooLong
  datatype Bounded = Within | Beyond(error: BoundError)

  /** boundValue. Go walks object members in no fixed order, so which error is reported is
      not determined; whether one is reported is. */
  function BoundValue(v: Json, depth: nat): Bounded
    decreases v, 1
  {
    if depth > MAX_DEPTH then Beyond(DepthExceeded)
    else match v
      case JObject(members) =>
        if |members| > MAX_ENTRIES then Beyond(EntriesExceeded) else BoundMembers(members, depth + 1)
      case JArray(items) =>
        if |items| > MAX_ENTRIES then Beyond(EntriesExceeded) else BoundItems(items, depth + 1)
      case JString(text) =>
        if |text| > MAX_STRING then Beyond(StringTooLong) else Within
      case _ => Within
  }

  function BoundItems(items: seq<Json>, depth: nat): Bounded
    decreases items, 0
  {
    if items == [] then Within
    else
      var first := BoundValue(items[0], depth);
      if first.Within? then BoundItems(items[1..], depth) else first
  }

  function BoundMembers(members: seq<Member>, depth: nat): Bounded
    decreases members, 0
  {
    if members == [] then Within
    else if |members[0].name| > MAX_STRING then Beyond(KeyTooLong)
    else
      var first := BoundValue(members[0].value, depth);
      if first.Within? then BoundMembers(members[1..], depth) else first
  }

  /** A scalar or an empty container is one level high. */
  function Height(v: Json): (h: nat)
    ensures h >= 1
    decreases v, 1
  {
    match v
    case JArray(items) => 1 + ItemsHeight(items)
    case JObject(members) => 1 + MembersHeight(members)
    case _ => 1
  }

  function ItemsHeight(items: seq<Json>): nat
    decreases items, 0
  {
    if items == [] then 0 else Max(Height(items[0]), ItemsHeight(items[1..]))
  }

  function MembersHeight(members: seq<Member>): nat
    decreases members, 0
  {
    if members == [] then 0 else Max(Height(members[0].value), MembersHeight(members[1..]))
  }

  function Max(a: nat, b: nat): nat
  {
    if a > b then a else b
  }

  /** At most 256 entries in a container and 4096 bytes in a string or key, at whatever depth. */
  ghost predicate Narrow(v: Json)
    decreases v
  {
    match v
    case JArray(items) =>
      |items| <= 256 && forall i :: 0 <= i < |items| ==> Narrow(items[i])
    case JObject(members) =>
      |members| <= 256 && forall i :: 0 <= i < |members| ==>
        |members[i].name| <= 4096 && Narrow(members[i].value)
    case JString(text) => |text| <= 4096
    case _ => true
  }

  lemma {:induction false} BoundIsExact(v: Json, depth: nat)
    ensures BoundValue(v, depth).Within? <==> depth + Height(v) <= 9 && Narrow(v)
    decreases v, 1
  {
    match v {
      case JArray(items) => ItemsBoundIsExact(items, depth + 1);
      case JObject(members) => MembersBoundIsExact(members, depth + 1);
      case _ =>
    }
  }

  lemma {:induction false} ItemsBoundIsExact(items: seq<Json>, depth: nat)
    ensures BoundItems(items, depth).Within? <==>
      && (items != [] ==> depth + ItemsHeight(items) <= MAX_DEPTH + 1)
      && (forall i :: 0 <= i < |items| ==> Narrow(items[i]))
    decreases items, 0
  {
    if items != [] {
      BoundIsExact(items[0], depth);
      ItemsBoundIsExact(items[1..], depth);
      assert items == [items[0]] + items[1..];
      if forall i :: 0 <= i < |items| ==> Narrow(items[i]) {
        assert forall i :: 0 <= i < |items[1..]| ==> items[1..][i] == items[i + 1];
      }
    }
  }

  lemma {:induction false} MembersBoundIsExact(members: seq<Member>, depth: nat)
    ensures BoundMembers(members, depth).Within? <==>
      && (members != [] ==> depth + MembersHeight(members) <= MAX_DEPTH + 1)
      && (forall i :: 0 <= i < |members| ==> |members[i].name| <= MAX_STRING && Narrow(members[i].value))
    decreases members, 0
  {
    if members != [] {
      BoundIsExact(members[0].value, depth);
      MembersBoundIsExact(members[1..], depth);
      assert members == [members[0]] + members[1..];
      if forall i :: 0 <= i < |members| ==> |members[i].name| <= MAX_STRING && Narrow(members[i].value) {
        assert forall i :: 0 <= i < |members[1..]| ==> members[1..][i] == members[i + 1];
      }
    }
  }

  // ---------- the gate ----------

  datatype Gate = Open | Closed(reason: string)

  /** The structural part of ParseManifest, for input that is one JSON value followed by the
      tokens of whatever trails it; size and field decoding are left to the caller. */
  method StructuralGate(v: Json, trailing: seq<Token>) returns (gate: Gate)
    ensures gate == Open <==>
      UniqueNames(v) && trailing == [] && Height(v) <= 8 && Narrow(v)
    ensures gate == Closed("duplicate_manifest_field") <==> !UniqueNames(v)
    ensures gate == Closed("trailing_manifest_json") <==> UniqueNames(v) && trailing != []
  {
    var decoder := new Decoder(Tokens(v) + trailing);
    var verdict := decoder.RejectDuplicateNames();
    ScanIsExact(v, trailing);
    BoundIsExact(v, 1);
    if !verdict.Accepted? { return Closed("duplicate_manifest_field"); }
    if decoder.stream != [] { return Closed("trailing_manifest_json"); }
    var bounded := BoundValue(v, 1);
    if !bounded.Within? { return Closed("manifest_bounds"); }
    return Open;
  }
}
