/**
 The bounded JSON validator: a recursive descent over a decoder's tokens that
 enforces depth, size and string limits and the unique member names that
 section 4 of RFC 8259 recommends.
 */
module JsonTokens {
  import opened Base

  /** The tokens a JSON decoder yields; a stream that stops early is a decoder error. */
  datatype Token = OpenObject | CloseObject | OpenArray | CloseArray | Str(text: string) | Literal(text: string)

  datatype Json = Object(members: seq<Member>) | Array(elements: seq<Json>) | Text(text: string) | Atom(text: string)

  datatype Member = Member(name: string, value: Json)

  datatype Kind = ScalarKind | ObjectKind | ArrayKind

  datatype Error = Malformed | LimitExceeded

  datatype Limits = Limits(maxDepth: int, maxMembers: int, maxElements: int, maxStringBytes: int)

  predicate ValidLimits(limits: Limits) {
    && 0 < limits.maxDepth <= 256
    && 0 < limits.maxMembers <= 1_000_000
    && 0 < limits.maxElements <= 1_000_000
    && 0 < limits.maxStringBytes <= 4 * 1024 * 1024
  }

  function KindOf(t: Json): Kind {
    if t.Object? then ObjectKind else if t.Array? then ArrayKind else ScalarKind
  }

  // ---------------------------------------------------------------------
  // Trees, their tokens, and the rule they must meet
  // ---------------------------------------------------------------------

  function Flatten(t: Json): (r: seq<Token>)
    ensures r != []
    decreases t, 1
  {
    match t
    case Object(members) => [OpenObject] + FlattenMembers(members) + [CloseObject]
    case Array(elements) => [OpenArray] + FlattenElements(elements) + [CloseArray]
    case Text(text) => [Str(text)]
    case Atom(text) => [Literal(text)]
  }

  function FlattenMembers(members: seq<Member>): seq<Token>
    decreases members, 0
  {
    if members == [] then []
    else [Str(members[0].name)] + Flatten(members[0].value) + FlattenMembers(members[1..])
  }

  function FlattenElements(elements: seq<Json>): seq<Token>
    decreases elements, 0
  {
    if elements == [] then [] else Flatten(elements[0]) + FlattenElements(elements[1..])
  }

  /** The documented rule: every limit holds and every object's member names are distinct. */
  ghost predicate Conforms(t: Json, limits: Limits, depth: int)
    decreases t
  {
    match t
    case Object(members) =>
      && depth + 1 <= limits.maxDepth
      && |members| <= limits.maxMembers
      && (forall i, j :: 0 <= i < j < |members| ==> members[i].name != members[j].name)
      && (forall m :: m in members ==> |m.name| <= limits.maxStringBytes && Conforms(m.value, limits, depth + 1))
    case Array(elements) =>
      && depth + 1 <= limits.maxDepth
      && |elements| <= limits.maxElements
      && (forall e :: e in elements ==> Conforms(e, limits, depth + 1))
    case Text(text) => |text| <= limits.maxStringBytes
    case Atom(_) => true
  }

  /** The first violation of the rule in document order, if any. */
  function Check(t: Json, limits: Limits, depth: int): Option<Error>
    decreases t, 1
  {
    match t
    case Object(members) =>
      if depth + 1 > limits.maxDepth then Some(LimitExceeded)
      else CheckMembers(members, 0, {}, limits, depth + 1)
    case Array(elements) =>
      if depth + 1 > limits.maxDepth then Some(LimitExceeded)
      else CheckElements(elements, 0, limits, depth + 1)
    case Text(text) => if |text| > limits.maxStringBytes then Some(LimitExceeded) else None
    case Atom(_) => None
  }

  function CheckMembers(members: seq<Member>, count: nat, seen: set<string>, limits: Limits, depth: int): Option<Error>
    decreases members, 0
  {
    if members == [] then None
    else if |members[0].name| > limits.maxStringBytes || count + 1 > limits.maxMembers then Some(LimitExceeded)
    else if members[0].name in seen then Some(Malformed)
    else
      var inner := Check(members[0].value, limits, depth);
      if inner.Some? then inner
      else CheckMembers(members[1..], count + 1, seen + {members[0].name}, limits, depth)
  }

  function CheckElements(elements: seq<Json>, count: nat, limits: Limits, depth: int): Option<Error>
    decreases elements, 0
  {
    if elements == [] then None
    else if count + 1 > limits.maxElements then Some(LimitExceeded)
    else
      var inner := Check(elements[0], limits, depth);
      if inner.Some? then inner else CheckElements(elements[1..], count + 1, limits, depth)
  }

  /** No violation is found exactly when the tree conforms. */
  lemma {:induction false} CheckIffConforms(t: Json, limits: Limits, depth: int)
    requires ValidLimits(limits)
    ensures Check(t, limits, depth).None? <==> Conforms(t, limits, depth)
    decreases t, 1
  {
    match t
    case Object(members) =>
      if depth + 1 <= limits.maxDepth {
        CheckMembersIff(members, 0, {}, limits, depth + 1);
      }
    case Array(elements) =>
      if depth + 1 <= limits.maxDepth {
        CheckElementsIff(elements, 0, limits, depth + 1);
      }
    case _ =>
  }

  // What the two errors mean

  /** No object has a name twice. */
  ghost predicate NamesUnique(t: Json)
    decreases t
  {
    match t
    case Object(members) => DistinctNames(members) && forall m :: m in members ==> NamesUnique(m.value)
    case Array(elements) => forall e :: e in elements ==> NamesUnique(e)
    case _ => true
  }

  /** No depth, count or length exceeds its limit. */
  ghost predicate Bounded(t: Json, limits: Limits, depth: int)
    decreases t
  {
    match t
    case Object(members) =>
      && depth + 1 <= limits.maxDepth && |members| <= limits.maxMembers
      && (forall m :: m in members ==> |m.name| <= limits.maxStringBytes && Bounded(m.value, limits, depth + 1))
    case Array(elements) =>
      && depth + 1 <= limits.maxDepth && |elements| <= limits.maxElements
      && (forall e :: e in elements ==> Bounded(e, limits, depth + 1))
    case Text(text) => |text| <= limits.maxStringBytes
    case Atom(_) => true
  }

  /** The rule is exactly these two. */
  lemma {:induction false} ConformsIff(t: Json, limits: Limits, depth: int)
    ensures Conforms(t, limits, depth) <==> NamesUnique(t) && Bounded(t, limits, depth)
    decreases t
  {
    match t
    case Object(members) =>
      forall m | m in members
        ensures Conforms(m.value, limits, depth + 1) <==> NamesUnique(m.value) && Bounded(m.value, limits, depth + 1)
      {
        ConformsIff(m.value, limits, depth + 1);
      }
    case Array(elements) =>
      forall e | e in elements
        ensures Conforms(e, limits, depth + 1) <==> NamesUnique(e) && Bounded(e, limits, depth + 1)
      {
        ConformsIff(e, limits, depth + 1);
      }
    case _ =>
  }

  /** A tree is malformed only for a repeated name, and over a limit only if it exceeds one. */
  lemma {:induction false} ErrorsMean(t: Json, limits: Limits, depth: int)
    ensures Check(t, limits, depth) == Some(Malformed) ==> !NamesUnique(t)
    ensures Check(t, limits, depth) == Some(LimitExceeded) ==> !Bounded(t, limits, depth)
    decreases t, 1
  {
    match t
    case Object(members) => MemberErrorsMean(members, 0, {}, limits, depth + 1);
    case Array(elements) => ElementErrorsMean(elements, 0, limits, depth + 1);
    case _ =>
  }

  lemma {:induction false} MemberErrorsMean(members: seq<Member>, count: nat, seen: set<string>, limits: Limits,
                                            depth: int)
    ensures CheckMembers(members, count, seen, limits, depth) == Some(Malformed) ==>
              || !DistinctNames(members)
              || exists m :: m in members && (m.name in seen || !NamesUnique(m.value))
    ensures CheckMembers(members, count, seen, limits, depth) == Some(LimitExceeded) ==>
              || count + |members| > limits.maxMembers
              || exists m :: m in members && (|m.name| > limits.maxStringBytes || !Bounded(m.value, limits, depth))
    decreases members, 0
  {
    if members != [] {
      var head, rest := members[0], members[1..];
      assert members == [head] + rest;
      ErrorsMean(head.value, limits, depth);
      MemberErrorsMean(rest, count + 1, seen + {head.name}, limits, depth);
      if DistinctNames(members) {
        assert forall i, j :: 0 <= i < j < |rest| ==> rest[i] == members[i + 1] && rest[j] == members[j + 1];
        assert forall i :: 0 <= i < |rest| ==> rest[i] == members[i + 1] && rest[i].name != head.name;
      }
    }
  }

  lemma {:induction false} ElementErrorsMean(elements: seq<Json>, count: nat, limits: Limits, depth: int)
    ensures CheckElements(elements, count, limits, depth) == Some(Malformed) ==>
              exists e :: e in elements && !NamesUnique(e)
    ensures CheckElements(elements, count, limits, depth) == Some(LimitExceeded) ==>
              count + |elements| > limits.maxElements || exists e :: e in elements && !Bounded(e, limits, depth)
    decreases elements, 0
  {
    if elements != [] {
      ErrorsMean(elements[0], limits, depth);
      ElementErrorsMean(elements[1..], count + 1, limits, depth);
      assert elements == [elements[0]] + elements[1..];
    }
  }

  ghost predicate DistinctNames(members: seq<Member>) {
    forall i, j :: 0 <= i < j < |members| ==> members[i].name != members[j].name
  }

  ghost predicate MemberFits(m: Member, seen: set<string>, limits: Limits, depth: int) {
    m.name !in seen && |m.name| <= limits.maxStringBytes && Conforms(m.value, limits, depth)
  }

  ghost predicate MembersFit(members: seq<Member>, count: nat, seen: set<string>, limits: Limits, depth: int) {
    && (members == [] || count + |members| <= limits.maxMembers)
    && DistinctNames(members)
    && (forall m :: m in members ==> MemberFits(m, seen, limits, depth))
  }

  lemma DistinctNamesCons(members: seq<Member>)
    requires members != []
    ensures DistinctNames(members)
            <==> DistinctNames(members[1..]) && forall m :: m in members[1..] ==> m.name != members[0].name
  {
    var tail := members[1..];
    assert forall j :: 0 <= j < |tail| ==> tail[j] == members[j + 1];
    if DistinctNames(members) {
      forall m | m in tail ensures m.name != members[0].name {
        var j :| 0 <= j < |tail| && tail[j] == m;
      }
    }
    if DistinctNames(tail) && forall m :: m in tail ==> m.name != members[0].name {
      forall i, j | 0 <= i < j < |members| ensures members[i].name != members[j].name {
        assert members[j] == tail[j - 1] && (i > 0 ==> members[i] == tail[i - 1]);
      }
    }
  }

  /** The rule for a member list, one member at a time. */
  lemma MembersFitCons(members: seq<Member>, count: nat, seen: set<string>, limits: Limits, depth: int)
    requires members != []
    ensures MembersFit(members, count, seen, limits, depth)
            <==> && count + 1 <= limits.maxMembers && MemberFits(members[0], seen, limits, depth)
                 && MembersFit(members[1..], count + 1, seen + {members[0].name}, limits, depth)
  {
    DistinctNamesCons(members);
    assert forall m :: m in members <==> m == members[0] || m in members[1..];
  }

  lemma {:induction false} CheckMembersIff(members: seq<Member>, count: nat, seen: set<string>, limits: Limits,
                                           depth: int)
    requires ValidLimits(limits)
    ensures CheckMembers(members, count, seen, limits, depth).None?
            <==> MembersFit(members, count, seen, limits, depth)
    decreases members, 0
  {
    if members != [] {
      CheckIffConforms(members[0].value, limits, depth);
      CheckMembersIff(members[1..], count + 1, seen + {members[0].name}, limits, depth);
      MembersFitCons(members, count, seen, limits, depth);
    }
  }

  lemma {:induction false} CheckElementsIff(elements: seq<Json>, count: nat, limits: Limits, depth: int)
    requires ValidLimits(limits)
    ensures CheckElements(elements, count, limits, depth).None?
            <==> (elements == [] || count + |elements| <= limits.maxElements)
                 && forall e :: e in elements ==> Conforms(e, limits, depth)
    decreases elements, 0
  {
    if elements != [] {
      CheckIffConforms(elements[0], limits, depth);
      CheckElementsIff(elements[1..], count + 1, limits, depth);
      assert elements == [elements[0]] + elements[1..];
    }
  }

  // ---------------------------------------------------------------------
  // The descent over tokens
  // ---------------------------------------------------------------------

  datatype Verdict = Accept(kind: Kind, rest: seq<Token>) | Reject(error: Error)

  predicate Closing(token: Token) { token.CloseObject? || token.CloseArray? }

  /** decoder.More(): another member or element follows. */
  predicate More(tokens: seq<Token>) { tokens != [] && !Closing(tokens[0]) }

  function Validate(tokens: seq<Token>, limits: Limits, depth: int): (r: Verdict)
    ensures r.Accept? ==> |r.rest| < |tokens|
    decreases |tokens|, 1
  {
    if tokens == [] then Reject(Malformed)
    else
      match tokens[0]
      case OpenObject =>
        if depth + 1 > limits.maxDepth then Reject(LimitExceeded)
        else ValidateMembers(tokens[1..], 0, {}, limits, depth + 1)
      case OpenArray =>
        if depth + 1 > limits.maxDepth then Reject(LimitExceeded)
        else ValidateElements(tokens[1..], 0, limits, depth + 1)
      case Str(text) =>
        if |text| > limits.maxStringBytes then Reject(LimitExceeded) else Accept(ScalarKind, tokens[1..])
      case Literal(_) => Accept(ScalarKind, tokens[1..])
      case _ => Reject(Malformed)
  }

  function ValidateMembers(tokens: seq<Token>, members: nat, seen: set<string>, limits: Limits, depth: int)
    : (r: Verdict)
    ensures r.Accept? ==> |r.rest| < |tokens|
    decreases |tokens|, 0
  {
    if !More(tokens) then
      if tokens != [] && tokens[0].CloseObject? then Accept(ObjectKind, tokens[1..]) else Reject(Malformed)
    else if !tokens[0].Str? || |tokens[0].text| > limits.maxStringBytes then Reject(LimitExceeded)
    else if members + 1 > limits.maxMembers then Reject(LimitExceeded)
    else if tokens[0].text in seen then Reject(Malformed)
    else
      var inner := Validate(tokens[1..], limits, depth);
      if inner.Reject? then inner
      else ValidateMembers(inner.rest, members + 1, seen + {tokens[0].text}, limits, depth)
  }

  function ValidateElements(tokens: seq<Token>, elements: nat, limits: Limits, depth: int): (r: Verdict)
    ensures r.Accept? ==> |r.rest| < |tokens|
    decreases |tokens|, 2
  {
    if !More(tokens) then
      if tokens != [] && tokens[0].CloseArray? then Accept(ArrayKind, tokens[1..]) else Reject(Malformed)
    else if elements + 1 > limits.maxElements then Reject(LimitExceeded)
    else
      var inner := Validate(tokens, limits, depth);
      if inner.Reject? then inner else ValidateElements(inner.rest, elements + 1, limits, depth)
  }

  lemma FlattenHead(t: Json)
    ensures !Closing(Flatten(t)[0])
  {
  }

  /** On the tokens of any tree the descent finds the first violation, or consumes exactly the tree's tokens. */
  lemma {:induction false} ValidateTree(t: Json, rest: seq<Token>, limits: Limits, depth: int)
    ensures Validate(Flatten(t) + rest, limits, depth) ==
            (if Check(t, limits, depth).Some? then Reject(Check(t, limits, depth).value) else Accept(KindOf(t), rest))
    decreases t, 1
  {
    var tokens := Flatten(t) + rest;
    match t
    case Object(members) =>
      assert tokens[1..] == FlattenMembers(members) + ([CloseObject] + rest);
      ValidateTreeMembers(members, rest, 0, {}, limits, depth + 1);
    case Array(elements) =>
      assert tokens[1..] == FlattenElements(elements) + ([CloseArray] + rest);
      ValidateTreeElements(elements, rest, 0, limits, depth + 1);
    case Text(_) => assert tokens[1..] == rest;
    case Atom(_) => assert tokens[1..] == rest;
  }

  lemma {:induction false} ValidateTreeMembers(members: seq<Member>, rest: seq<Token>, count: nat, seen: set<string>,
                                               limits: Limits, depth: int)
    ensures var c := CheckMembers(members, count, seen, limits, depth);
            ValidateMembers(FlattenMembers(members) + ([CloseObject] + rest), count, seen, limits, depth) ==
            (if c.Some? then Reject(c.value) else Accept(ObjectKind, rest))
    decreases members, 0
  {
    var tokens := FlattenMembers(members) + ([CloseObject] + rest);
    if members == [] {
      assert tokens == [CloseObject] + rest;
      assert tokens[1..] == rest;
    } else {
      var head, tail := members[0], members[1..];
      var after := FlattenMembers(tail) + ([CloseObject] + rest);
      assert tokens[0] == Str(head.name);
      assert tokens[1..] == Flatten(head.value) + after;
      ValidateTree(head.value, after, limits, depth);
      ValidateTreeMembers(tail, rest, count + 1, seen + {head.name}, limits, depth);
    }
  }

  lemma {:induction false} ValidateTreeElements(elements: seq<Json>, rest: seq<Token>, count: nat,
                                                limits: Limits, depth: int)
    ensures var c := CheckElements(elements, count, limits, depth);
            ValidateElements(FlattenElements(elements) + ([CloseArray] + rest), count, limits, depth) ==
            (if c.Some? then Reject(c.value) else Accept(ArrayKind, rest))
    decreases elements, 0
  {
    var tokens := FlattenElements(elements) + ([CloseArray] + rest);
    if elements == [] {
      assert tokens == [CloseArray] + rest;
      assert tokens[1..] == rest;
    } else {
      var head, tail := elements[0], elements[1..];
      var after := FlattenElements(tail) + ([CloseArray] + rest);
      FlattenHead(head);
      assert tokens == Flatten(head) + after;
      assert tokens[0] == Flatten(head)[0];
      ValidateTree(head, after, limits, depth);
      ValidateTreeElements(tail, rest, count + 1, limits, depth);
    }
  }

  // ---------------------------------------------------------------------
  // Every accepted stream is the tokens of a conforming tree
  // ---------------------------------------------------------------------

  lemma {:induction false} AcceptedTree(tokens: seq<Token>, limits: Limits, depth: int) returns (t: Json)
    requires Validate(tokens, limits, depth).Accept?
    ensures var r := Validate(tokens, limits, depth);
            tokens == Flatten(t) + r.rest && KindOf(t) == r.kind
    decreases |tokens|, 1
  {
    match tokens[0]
    case OpenObject =>
      var members := AcceptedMembers(tokens[1..], 0, {}, limits, depth + 1);
      t := Object(members);
      JoinObject(tokens, members, Validate(tokens, limits, depth).rest);
    case OpenArray =>
      var elements := AcceptedElements(tokens[1..], 0, limits, depth + 1);
      t := Array(elements);
      JoinArray(tokens, elements, Validate(tokens, limits, depth).rest);
    case Str(text) =>
      t := Text(text);
      assert tokens == [Str(text)] + tokens[1..];
    case Literal(text) =>
      t := Atom(text);
      assert tokens == [Literal(text)] + tokens[1..];
  }

  lemma JoinObject(tokens: seq<Token>, members: seq<Member>, rest: seq<Token>)
    requires tokens != [] && tokens[0] == OpenObject
    requires tokens[1..] == FlattenMembers(members) + [CloseObject] + rest
    ensures tokens == Flatten(Object(members)) + rest
  {
    assert tokens == [OpenObject] + tokens[1..];
  }

  lemma JoinArray(tokens: seq<Token>, elements: seq<Json>, rest: seq<Token>)
    requires tokens != [] && tokens[0] == OpenArray
    requires tokens[1..] == FlattenElements(elements) + [CloseArray] + rest
    ensures tokens == Flatten(Array(elements)) + rest
  {
    assert tokens == [OpenArray] + tokens[1..];
  }

  lemma JoinMembers(name: string, value: Json, tail: seq<Member>, rest: seq<Token>)
    ensures [Str(name)] + (Flatten(value) + (FlattenMembers(tail) + [CloseObject] + rest))
         == FlattenMembers([Member(name, value)] + tail) + [CloseObject] + rest
  {
    assert ([Member(name, value)] + tail)[1..] == tail;
  }

  lemma {:induction false} AcceptedMembers(tokens: seq<Token>, count: nat, seen: set<string>, limits: Limits,
                                           depth: int)
    returns (members: seq<Member>)
    requires ValidateMembers(tokens, count, seen, limits, depth).Accept?
    ensures var r := ValidateMembers(tokens, count, seen, limits, depth);
            tokens == FlattenMembers(members) + [CloseObject] + r.rest && r.kind == ObjectKind
    decreases |tokens|, 0
  {
    var r := ValidateMembers(tokens, count, seen, limits, depth);
    if !More(tokens) {
      members := [];
      assert tokens == [CloseObject] + tokens[1..];
    } else {
      var name := tokens[0].text;
      var value := AcceptedTree(tokens[1..], limits, depth);
      var inner := Validate(tokens[1..], limits, depth);
      var tail := AcceptedMembers(inner.rest, count + 1, seen + {name}, limits, depth);
      members := [Member(name, value)] + tail;
      assert tokens == [Str(name)] + tokens[1..];
      JoinMembers(name, value, tail, r.rest);
    }
  }

  lemma {:induction false} AcceptedElements(tokens: seq<Token>, count: nat, limits: Limits, depth: int)
    returns (elements: seq<Json>)
    requires ValidateElements(tokens, count, limits, depth).Accept?
    ensures var r := ValidateElements(tokens, count, limits, depth);
            tokens == FlattenElements(elements) + [CloseArray] + r.rest && r.kind == ArrayKind
    decreases |tokens|, 2
  {
    var r := ValidateElements(tokens, count, limits, depth);
    if !More(tokens) {
      elements := [];
      assert tokens == [CloseArray] + tokens[1..];
    } else {
      var value := AcceptedTree(tokens, limits, depth);
      var inner := Validate(tokens, limits, depth);
      var tail := AcceptedElements(inner.rest, count + 1, limits, depth);
      elements := [value] + tail;
      assert elements[1..] == tail;
      calc {
        tokens;
        Flatten(value) + (FlattenElements(tail) + [CloseArray] + r.rest);
        FlattenElements(elements) + [CloseArray] + r.rest;
      }
    }
  }

  /** The whole document: one value and nothing after it. */
  function ValidateDocument(tokens: seq<Token>, limits: Limits): Result<Kind, Error> {
    var r := Validate(tokens, limits, 0);
    if r.Reject? then Err(r.error) else if r.rest != [] then Err(Malformed) else Ok(r.kind)
  }

  /** A token stream is accepted exactly when it is the tokens of one conforming tree. */
  lemma AcceptsExactlyConformingTrees(tokens: seq<Token>, limits: Limits)
    requires ValidLimits(limits)
    ensures ValidateDocument(tokens, limits).Ok?
            <==> exists t :: tokens == Flatten(t) && Conforms(t, limits, 0)
  {
    if ValidateDocument(tokens, limits).Ok? {
      var t := AcceptedTree(tokens, limits, 0);
      assert tokens == Flatten(t) + [];
      ValidateTree(t, [], limits, 0);
      CheckIffConforms(t, limits, 0);
      assert tokens == Flatten(t) && Conforms(t, limits, 0);
    }
    if t :| tokens == Flatten(t) && Conforms(t, limits, 0) {
      ValidateTree(t, [], limits, 0);
      CheckIffConforms(t, limits, 0);
      assert tokens == Flatten(t) + [];
    }
  }

  /** A tree's tokens determine the verdict, and trailing tokens are rejected. */
  lemma DocumentVerdict(t: Json, trailing: seq<Token>, limits: Limits)
    requires ValidLimits(limits)
    ensures ValidateDocument(Flatten(t) + trailing, limits) ==
            (if Check(t, limits, 0).Some? then Err(Check(t, limits, 0).value)
             else if trailing != [] then Err(Malformed) else Ok(KindOf(t)))
    ensures ValidateDocument(Flatten(t) + trailing, limits).Ok? <==> Conforms(t, limits, 0) && trailing == []
  {
    ValidateTree(t, trailing, limits, 0);
    CheckIffConforms(t, limits, 0);
  }

  // ---------------------------------------------------------------------
  // The validator run in place on a decoder
  // ---------------------------------------------------------------------

  class Decoder {
    const tokens: seq<Token>
    var pos: nat

    constructor (tokens: seq<Token>)
      ensures this.tokens == tokens && pos == 0
    {
      this.tokens, pos := tokens, 0;
    }

    function Rest(): seq<Token>
      requires pos <= |tokens|
      reads this
    {
      tokens[pos..]
    }

    method Next() returns (token: Option<Token>)
      requires pos <= |tokens|
      modifies this
      ensures pos <= |tokens|
      ensures token.None? <==> old(Rest()) == []
      ensures token.None? ==> pos == old(pos)
      ensures token.Some? ==> pos == old(pos) + 1 && token.value == old(Rest())[0] && Rest() == old(Rest())[1..]
    {
      if pos == |tokens| {
        return None;
      }
      token := Some(tokens[pos]);
      pos := pos + 1;
    }
  }

  /** The verdict agrees with the specification, and the decoder stands right after the value. */
  ghost predicate Agrees(verdict: Verdict, r: Result<Kind, Error>, rest: seq<Token>) {
    match verdict
    case Accept(kind, after) => r == Ok(kind) && rest == after
    case Reject(error) => r == Err(error)
  }

  /** Never called deeper than the depth limit. */
  method ValidateValue(decoder: Decoder, limits: Limits, depth: int) returns (r: Result<Kind, Error>)
    requires decoder.pos <= |decoder.tokens|
    requires 0 <= depth <= limits.maxDepth
    modifies decoder
    ensures decoder.pos <= |decoder.tokens|
    ensures r.Ok? ==> old(decoder.pos) < decoder.pos
    ensures Agrees(Validate(old(decoder.Rest()), limits, depth), r, decoder.Rest())
    decreases limits.maxDepth - depth, 1
  {
    var token := decoder.Next();
    if token.None? {
      return Err(Malformed);
    }
    match token.value
    case Str(text) =>
      return if |text| > limits.maxStringBytes then Err(LimitExceeded) else Ok(ScalarKind);
    case Literal(_) =>
      return Ok(ScalarKind);
    case OpenObject =>
      if depth + 1 > limits.maxDepth {
        return Err(LimitExceeded);
      }
      r := ValidateObject(decoder, limits, depth + 1);
    case OpenArray =>
      if depth + 1 > limits.maxDepth {
        return Err(LimitExceeded);
      }
      r := ValidateArray(decoder, limits, depth + 1);
    case _ =>
      return Err(Malformed);
  }

  method ValidateObject(decoder: Decoder, limits: Limits, depth: int) returns (r: Result<Kind, Error>)
    requires decoder.pos <= |decoder.tokens|
    requires 0 <= depth <= limits.maxDepth
    modifies decoder
    ensures decoder.pos <= |decoder.tokens|
    ensures r.Ok? ==> old(decoder.pos) < decoder.pos
    ensures Agrees(ValidateMembers(old(decoder.Rest()), 0, {}, limits, depth), r, decoder.Rest())
    decreases limits.maxDepth - depth, 2
  {
    var seen: set<string> := {};
    var members := 0;
    while More(decoder.Rest())
      invariant old(decoder.pos) <= decoder.pos <= |decoder.tokens|
      invariant ValidateMembers(old(decoder.Rest()), 0, {}, limits, depth)
             == ValidateMembers(decoder.Rest(), members, seen, limits, depth)
      decreases |decoder.tokens| - decoder.pos
    {
      var keyToken := decoder.Next();
      var key := keyToken.value;
      if !key.Str? || |key.text| > limits.maxStringBytes {
        return Err(LimitExceeded);
      }
      members := members + 1;
      if members > limits.maxMembers {
        return Err(LimitExceeded);
      }
      if key.text in seen {
        return Err(Malformed);
      }
      seen := seen + {key.text};
      var inner := ValidateValue(decoder, limits, depth);
      if inner.Err? {
        return inner;
      }
    }
    var closing := decoder.Next();
    if closing != Some(CloseObject) {
      return Err(Malformed);
    }
    r := Ok(ObjectKind);
  }

  method ValidateArray(decoder: Decoder, limits: Limits, depth: int) returns (r: Result<Kind, Error>)
    requires decoder.pos <= |decoder.tokens|
    requires 0 <= depth <= limits.maxDepth
    modifies decoder
    ensures decoder.pos <= |decoder.tokens|
    ensures r.Ok? ==> old(decoder.pos) < decoder.pos
    ensures Agrees(ValidateElements(old(decoder.Rest()), 0, limits, depth), r, decoder.Rest())
    decreases limits.maxDepth - depth, 2
  {
    var elements := 0;
    while More(decoder.Rest())
      invariant old(decoder.pos) <= decoder.pos <= |decoder.tokens|
      invariant ValidateElements(old(decoder.Rest()), 0, limits, depth)
             == ValidateElements(decoder.Rest(), elements, limits, depth)
      decreases |decoder.tokens| - decoder.pos
    {
      elements := elements + 1;
      if elements > limits.maxElements {
        return Err(LimitExceeded);
      }
      var inner := ValidateValue(decoder, limits, depth);
      if inner.Err? {
        return inner;
      }
    }
    var closing := decoder.Next();
    if closing != Some(CloseArray) {
      return Err(Malformed);
    }
    r := Ok(ArrayKind);
  }

  method ValidateJson(tokens: seq<Token>, limits: Limits) returns (r: Result<Kind, Error>)
    requires ValidLimits(limits)
    ensures r == ValidateDocument(tokens, limits)
    ensures r.Ok? <==> exists t :: tokens == Flatten(t) && Conforms(t, limits, 0)
  {
    AcceptsExactlyConformingTrees(tokens, limits);
    var decoder := new Decoder(tokens);
    var kind := ValidateValue(decoder, limits, 0);
    if kind.Err? {
      return Err(kind.error);
    }
    var trailing := decoder.Next();
    if trailing.Some? {
      return Err(Malformed);
    }
    r := kind;
  }
}
