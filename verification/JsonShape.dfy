/** The bounded walk over a parsed JSON document, with its shared node counter. */
module JsonShape {

  datatype Key = Name(chars: string) | NotAString

  datatype Json =
    | Null
    | Boolean(value: bool)
    | Number(digits: string)
    | Text(chars: string)
    | Array(items: seq<Json>)
    | Object(members: seq<Member>)
    | Unsupported

  datatype Member = Member(key: Key, item: Json)

  const MaxNodes: nat := 10_000
  const MaxDepth: nat := 32
  const MaxKeys: nat := 256
  const MaxItems: nat := 1_024
  const MaxChars: nat := 16_384

  // ---- What a document is, independently of any walk ----

  function Nodes(v: Json): nat {
    match v
    case Array(items) => 1 + NodesOf(items)
    case Object(members) => 1 + NodesIn(members)
    case _ => 1
  }

  function NodesOf(items: seq<Json>): nat {
    if items == [] then 0 else NodesOf(items[..|items| - 1]) + Nodes(items[|items| - 1])
  }

  function NodesIn(members: seq<Member>): nat {
    if members == [] then 0 else NodesIn(members[..|members| - 1]) + NodesAt(members[|members| - 1])
  }

  function NodesAt(m: Member): nat {
    Nodes(m.item)
  }

  /** Edges on the longest path from the value to a leaf. */
  function Height(v: Json): nat {
    match v
    case Array(items) => HeightOf(items)
    case Object(members) => HeightIn(members)
    case _ => 0
  }

  function Max(a: nat, b: nat): nat {
    if a < b then b else a
  }

  function HeightOf(items: seq<Json>): nat {
    if items == [] then 0 else Max(HeightOf(items[..|items| - 1]), 1 + Height(items[|items| - 1]))
  }

  function HeightIn(members: seq<Member>): nat {
    if members == [] then 0 else Max(HeightIn(members[..|members| - 1]), 1 + HeightAt(members[|members| - 1]))
  }

  function HeightAt(m: Member): nat {
    Height(m.item)
  }

  predicate KeyBounded(k: Key) {
    k.Name? && |k.chars| <= MaxChars
  }

  /** Every array, object, string and member name is within its own limit. */
  predicate Bounded(v: Json) {
    match v
    case Text(chars) => |chars| <= MaxChars
    case Array(items) => |items| <= MaxItems && forall k :: 0 <= k < |items| ==> Bounded(items[k])
    case Object(members) =>
      |members| <= MaxKeys && forall k :: 0 <= k < |members| ==> KeyBounded(members[k].key) && Bounded(members[k].item)
    case Unsupported => false
    case _ => true
  }

  /** The walk must accept v at this depth when `used` nodes have been counted. */
  predicate Accepts(v: Json, depth: nat, used: nat) {
    used + Nodes(v) <= MaxNodes && depth + Height(v) <= MaxDepth && Bounded(v)
  }

  // ---- The document as the list of its nodes ----

  /** One node and how deep it sits. */
  datatype Visit = Visit(node: Json, depth: nat)

  /** Every node under v, v first, each with its depth. */
  function Walk(v: Json, depth: nat): seq<Visit> {
    [Visit(v, depth)]
    + (match v
       case Array(items) => WalkItems(items, depth + 1)
       case Object(members) => WalkMembers(members, depth + 1)
       case _ => [])
  }

  function WalkItems(items: seq<Json>, depth: nat): seq<Visit> {
    if items == [] then [] else WalkItems(items[..|items| - 1], depth) + Walk(items[|items| - 1], depth)
  }

  function WalkMembers(members: seq<Member>, depth: nat): seq<Visit> {
    if members == [] then [] else WalkMembers(members[..|members| - 1], depth) + WalkMember(members[|members| - 1], depth)
  }

  function WalkMember(m: Member, depth: nat): seq<Visit> {
    Walk(m.item, depth)
  }

  /** The limits on one node by itself. */
  predicate LocallyOk(v: Json) {
    match v
    case Text(chars) => |chars| <= 16_384
    case Array(items) => |items| <= 1_024
    case Object(members) =>
      |members| <= 256 && forall k :: 0 <= k < |members| ==> members[k].key.Name? && |members[k].key.chars| <= 16_384
    case Unsupported => false
    case _ => true
  }

  predicate VisitOk(u: Visit) {
    u.depth <= 32 && LocallyOk(u.node)
  }

  predicate AllOk(us: seq<Visit>) {
    forall k :: 0 <= k < |us| ==> VisitOk(us[k])
  }

  lemma AllOkConcat(a: seq<Visit>, b: seq<Visit>)
    ensures AllOk(a + b) <==> AllOk(a) && AllOk(b)
  {
    hide VisitOk;
    if AllOk(a + b) {
      forall k | 0 <= k < |a| ensures VisitOk(a[k]) { assert (a + b)[k] == a[k]; }
      forall k | 0 <= k < |b| ensures VisitOk(b[k]) { assert (a + b)[|a| + k] == b[k]; }
    }
  }

  predicate ItemsOk(items: seq<Json>, depth: nat) {
    (items != [] ==> depth - 1 + HeightOf(items) <= MaxDepth) && forall k :: 0 <= k < |items| ==> Bounded(items[k])
  }

  predicate MembersOk(members: seq<Member>, depth: nat) {
    (members != [] ==> depth - 1 + HeightIn(members) <= MaxDepth) && forall k :: 0 <= k < |members| ==> Bounded(members[k].item)
  }

  /** Counting, measuring and bounding a document is the same as looking at each of its nodes. */
  lemma {:induction false} WalkMeans(v: Json, depth: nat)
    ensures |Walk(v, depth)| == Nodes(v)
    ensures AllOk(Walk(v, depth)) <==> depth + Height(v) <= MaxDepth && Bounded(v)
    decreases v
  {
    hide AllOk, NodesOf, NodesIn, HeightOf, HeightIn, WalkItems, WalkMembers;
    AllOkOne(Visit(v, depth));
    match v
    case Array(items) =>
      WalkItemsMeans(items, depth + 1);
      AllOkConcat([Visit(v, depth)], WalkItems(items, depth + 1));
      EmptyHeight();
    case Object(members) =>
      WalkMembersMeans(members, depth + 1);
      AllOkConcat([Visit(v, depth)], WalkMembers(members, depth + 1));
      EmptyHeight();
    case _ => assert [Visit(v, depth)] + [] == [Visit(v, depth)];
  }

  lemma AllOkOne(u: Visit)
    ensures AllOk([u]) <==> VisitOk(u)
  {
    assert [u][0] == u;
  }

  lemma EmptyHeight()
    ensures HeightOf([]) == 0 && HeightIn([]) == 0
  {
  }

  lemma {:induction false} WalkItemsMeans(items: seq<Json>, depth: nat)
    requires depth > 0
    ensures |WalkItems(items, depth)| == NodesOf(items)
    ensures AllOk(WalkItems(items, depth)) <==> ItemsOk(items, depth)
    decreases items
  {
    hide Nodes, Height, Bounded, Walk;
    if items == [] {
      assert AllOk([]);
    } else {
      hide AllOk;
      var m := |items| - 1;
      WalkItemsMeans(items[..m], depth);
      WalkMeans(items[m], depth);
      AllOkConcat(WalkItems(items[..m], depth), Walk(items[m], depth));
      ItemsOkAppend(items, depth);
    }
  }

  lemma ItemsOkAppend(items: seq<Json>, depth: nat)
    requires items != [] && depth > 0
    ensures ItemsOk(items, depth) <==>
            ItemsOk(items[..|items| - 1], depth) && depth + Height(items[|items| - 1]) <= MaxDepth && Bounded(items[|items| - 1])
  {
    hide Height, Bounded;
    var m := |items| - 1;
    assert forall k :: 0 <= k < m ==> items[..m][k] == items[k];
  }

  lemma {:induction false} WalkMembersMeans(members: seq<Member>, depth: nat)
    requires depth > 0
    ensures |WalkMembers(members, depth)| == NodesIn(members)
    ensures AllOk(WalkMembers(members, depth)) <==> MembersOk(members, depth)
    decreases members
  {
    hide Nodes, Height, Bounded, Walk;
    if members == [] {
      assert AllOk([]);
    } else {
      hide AllOk;
      var m := |members| - 1;
      WalkMembersMeans(members[..m], depth);
      WalkMemberMeans(members[m], depth);
      AllOkConcat(WalkMembers(members[..m], depth), WalkMember(members[m], depth));
      MembersOkAppend(members, depth);
    }
  }

  lemma {:induction false} WalkMemberMeans(m: Member, depth: nat)
    ensures |WalkMember(m, depth)| == Nodes(m.item)
    ensures AllOk(WalkMember(m, depth)) <==> depth + Height(m.item) <= MaxDepth && Bounded(m.item)
    decreases m
  {
    WalkMeans(m.item, depth);
  }

  lemma MembersOkAppend(members: seq<Member>, depth: nat)
    requires members != [] && depth > 0
    ensures MembersOk(members, depth) <==>
            && MembersOk(members[..|members| - 1], depth)
            && depth + Height(members[|members| - 1].item) <= MaxDepth && Bounded(members[|members| - 1].item)
  {
    hide Height, Bounded;
    var m := |members| - 1;
    assert HeightIn(members) == Max(HeightIn(members[..m]), 1 + Height(members[m].item));
    if MembersOk(members, depth) {
      forall k | 0 <= k < m
        ensures Bounded(members[..m][k].item)
      {
        assert members[..m][k] == members[k];
      }
    }
    if MembersOk(members[..m], depth) && Bounded(members[m].item) {
      forall k | 0 <= k < |members|
        ensures Bounded(members[k].item)
      {
        if k < m { assert members[..m][k] == members[k]; }
      }
    }
  }

  class Counter {
    var nodes: nat

    constructor ()
      ensures nodes == 0
    {
      nodes := 0;
    }
  }

  lemma NodesOfAppend(items: seq<Json>, i: nat)
    requires i < |items|
    ensures NodesOf(items[..i + 1]) == NodesOf(items[..i]) + Nodes(items[i])
    ensures HeightOf(items[..i + 1]) == Max(HeightOf(items[..i]), 1 + Height(items[i]))
  {
    assert items[..i + 1][..i] == items[..i];
  }

  lemma NodesInAppend(members: seq<Member>, i: nat)
    requires i < |members|
    ensures NodesIn(members[..i + 1]) == NodesIn(members[..i]) + Nodes(members[i].item)
    ensures HeightIn(members[..i + 1]) == Max(HeightIn(members[..i]), 1 + Height(members[i].item))
  {
    assert members[..i + 1][..i] == members[..i];
  }

  lemma {:induction false} PartOf(items: seq<Json>, i: nat)
    requires i <= |items|
    ensures NodesOf(items[..i]) <= NodesOf(items) && HeightOf(items[..i]) <= HeightOf(items)
    decreases |items| - i
  {
    if i < |items| {
      PartOf(items, i + 1);
      NodesOfAppend(items, i);
    } else {
      assert items[..i] == items;
    }
  }

  lemma {:induction false} PartIn(members: seq<Member>, i: nat)
    requires i <= |members|
    ensures NodesIn(members[..i]) <= NodesIn(members) && HeightIn(members[..i]) <= HeightIn(members)
    decreases |members| - i
  {
    if i < |members| {
      PartIn(members, i + 1);
      NodesInAppend(members, i);
    } else {
      assert members[..i] == members;
    }
  }

  lemma Empty()
    ensures NodesOf([]) == 0 && HeightOf([]) == 0 && NodesIn([]) == 0 && HeightIn([]) == 0
  {
  }

  /** A rejected item rejects the array it is in. */
  lemma ItemRejected(items: seq<Json>, i: nat, depth: nat, used: nat)
    requires i < |items| && !Accepts(items[i], depth + 1, used + 1 + NodesOf(items[..i]))
    ensures !Accepts(Array(items), depth, used)
  {
    NodesOfAppend(items, i);
    PartOf(items, i + 1);
    hide NodesOf, HeightOf;
  }

  lemma MemberRejected(members: seq<Member>, i: nat, depth: nat, used: nat)
    requires i < |members|
    requires KeyBounded(members[i].key) ==> !Accepts(members[i].item, depth + 1, used + 1 + NodesIn(members[..i]))
    ensures !Accepts(Object(members), depth, used)
  {
    NodesInAppend(members, i);
    PartIn(members, i + 1);
    hide NodesIn, HeightIn;
  }

  lemma ArrayAccepted(items: seq<Json>, depth: nat, used: nat)
    requires used + 1 + NodesOf(items) <= MaxNodes && depth + HeightOf(items) <= MaxDepth && |items| <= MaxItems
    requires forall k :: 0 <= k < |items| ==> Bounded(items[k])
    ensures Accepts(Array(items), depth, used)
  {
    hide NodesOf, HeightOf;
  }

  lemma ObjectAccepted(members: seq<Member>, depth: nat, used: nat)
    requires used + 1 + NodesIn(members) <= MaxNodes && depth + HeightIn(members) <= MaxDepth && |members| <= MaxKeys
    requires forall k :: 0 <= k < |members| ==> KeyBounded(members[k].key) && Bounded(members[k].item)
    ensures Accepts(Object(members), depth, used)
  {
    hide NodesIn, HeightIn;
  }

  /** What an accepted value guarantees. */
  lemma AcceptedParts(v: Json, depth: nat, used: nat)
    requires Accepts(v, depth, used)
    ensures used + Nodes(v) <= MaxNodes && depth + Height(v) <= MaxDepth && Bounded(v)
  {
  }

  /** The tests made before looking inside: each one that fails is a reason to reject. */
  lemma EarlyRejection(v: Json, depth: nat, used: nat)
    ensures used + 1 > MaxNodes || depth > MaxDepth ==> !Accepts(v, depth, used)
    ensures v.Array? && |v.items| > MaxItems ==> !Accepts(v, depth, used)
    ensures v.Object? && |v.members| > MaxKeys ==> !Accepts(v, depth, used)
    ensures v.Unsupported? || (v.Text? && |v.chars| > MaxChars) ==> !Accepts(v, depth, used)
    ensures (v.Null? || v.Boolean? || v.Number? || (v.Text? && |v.chars| <= MaxChars)) && used + 1 <= MaxNodes && depth <= MaxDepth ==>
              Accepts(v, depth, used) && Nodes(v) == 1
    ensures v.Array? ==> Nodes(v) == 1 + NodesOf(v.items)
    ensures v.Object? ==> Nodes(v) == 1 + NodesIn(v.members)
  {
    hide NodesOf, HeightOf, NodesIn, HeightIn;
  }

  /** `_validate_json_shape`: false stands for the exception that abandons the whole document. */
  method ValidateJsonShape(v: Json, depth: nat, counter: Counter) returns (ok: bool)
    modifies counter
    ensures ok <==> Accepts(v, depth, old(counter.nodes))
    ensures ok ==> counter.nodes == old(counter.nodes) + Nodes(v)
    ensures counter.nodes <= Max(old(counter.nodes), MaxNodes) + 1
    decreases v
  {
    hide Nodes, Height, Bounded, Accepts, NodesOf, HeightOf, NodesIn, HeightIn;
    ghost var used := counter.nodes;
    EarlyRejection(v, depth, used);
    Empty();
    counter.nodes := counter.nodes + 1;
    if counter.nodes > MaxNodes { return false; }
    if depth > MaxDepth { return false; }
    match v
    case Null => ok := true;
    case Boolean(_) => ok := true;
    case Number(_) => ok := true;
    case Text(chars) => ok := |chars| <= MaxChars;
    case Array(items) =>
      if |items| > MaxItems { return false; }
      for i := 0 to |items|
        invariant counter.nodes == used + 1 + NodesOf(items[..i]) <= MaxNodes
        invariant depth + HeightOf(items[..i]) <= MaxDepth
        invariant forall k :: 0 <= k < i ==> Bounded(items[k])
      {
        var sound := ValidateJsonShape(items[i], depth + 1, counter);
        if !sound {
          ItemRejected(items, i, depth, used);
          return false;
        }
        AcceptedParts(items[i], depth + 1, used + 1 + NodesOf(items[..i]));
        NodesOfAppend(items, i);
      }
      assert items[..|items|] == items;
      ArrayAccepted(items, depth, used);
      ok := true;
    case Object(members) =>
      if |members| > MaxKeys { return false; }
      for i := 0 to |members|
        invariant counter.nodes == used + 1 + NodesIn(members[..i]) <= MaxNodes
        invariant depth + HeightIn(members[..i]) <= MaxDepth
        invariant forall k :: 0 <= k < i ==> KeyBounded(members[k].key) && Bounded(members[k].item)
      {
        if members[i].key.NotAString? || |members[i].key.chars| > MaxChars {
          MemberRejected(members, i, depth, used);
          return false;
        }
        var sound := ValidateJsonShape(members[i].item, depth + 1, counter);
        if !sound {
          MemberRejected(members, i, depth, used);
          return false;
        }
        AcceptedParts(members[i].item, depth + 1, used + 1 + NodesIn(members[..i]));
        NodesInAppend(members, i);
      }
      assert members[..|members|] == members;
      ObjectAccepted(members, depth, used);
      ok := true;
    case Unsupported => ok := false;
  }

  /** A whole document: a fresh counter, so at most 10001 nodes are ever counted. */
  method ValidateDocument(v: Json) returns (ok: bool, counted: nat)
    ensures ok <==> |Walk(v, 0)| <= 10_000 && forall k :: 0 <= k < |Walk(v, 0)| ==> VisitOk(Walk(v, 0)[k])
    ensures ok ==> counted == |Walk(v, 0)|
    ensures counted <= 10_001
  {
    hide Nodes, Height, Bounded, Walk;
    WalkMeans(v, 0);
    var counter := new Counter();
    ok := ValidateJsonShape(v, 0, counter);
    counted := counter.nodes;
  }
}
