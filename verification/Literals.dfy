/** The literal grammar of the theme catalog: what a token sequence means, and how values print.

    How Python reads a quoted token is a parameter: `unquote` gives its text, or nothing when it is
    malformed. */
module Literals {
  import opened Prelude

  const MAX_DEPTH: nat := 12

  type Unquote = string -> Option<string>

  /** Catalog values; an object's fields are in the order they were read. */
  datatype Value =
    | Text(text: string)
    | Number(digits: string)
    | Bool(value: bool)
    | Null
    | Object(fields: seq<(string, Value)>)

  datatype Error = TooDeep | Truncated | Unexpected | OutOfRange | BadQuote | BadKey | BadDelimiter | Expression

  predicate Quoted(token: string) {
    |token| > 0 && (token[0] == '"' || token[0] == '\'')
  }

  predicate Digits(s: string) {
    |s| > 0 && forall i | 0 <= i < |s| :: '0' <= s[i] <= '9'
  }

  /** A JSON number without an exponent; a leading zero is refused when the number is read. */
  predicate Numeric(token: string) {
    var body := if |token| > 0 && token[0] == '-' then token[1..] else token;
    || Whole(body)
    || exists k :: 0 <= k < |body| && body[k] == '.' && Whole(body[..k]) && Digits(body[k + 1..])
  }

  predicate Whole(s: string) {
    Digits(s) && (|s| == 1 || s[0] != '0')
  }

  /** The value of a token that is not an object's opening brace. */
  function Scalar(unquote: Unquote, token: string): Result<Value, Error> {
    if Quoted(token) then
      var text := unquote(token);
      if text.None? then Failure(BadQuote) else Success(Value.Text(text.value))
    else if token == "true" then Success(Bool(true))
    else if token == "false" then Success(Bool(false))
    else if token == "null" then Success(Null)
    else if Numeric(token) then Success(Value.Number(token))
    else Failure(Expression)
  }

  /** A key is a quoted token's text, or any other token as it stands. */
  function Key(unquote: Unquote, token: string): Option<string> {
    if Quoted(token) then unquote(token) else Some(token)
  }

  predicate HasKey(fields: seq<(string, Value)>, key: string) {
    exists i :: 0 <= i < |fields| && fields[i].0 == key
  }

  datatype Parsed = Parsed(value: Value, next: nat)

  /** The value that starts at token `i`, and where it ends. */
  function Parse(unquote: Unquote, ts: seq<string>, i: nat, depth: nat): (r: Result<Parsed, Error>)
    ensures r.Success? ==> i < r.value.next <= |ts|
    decreases |ts| - i, 0
  {
    if depth > MAX_DEPTH then Failure(TooDeep)
    else if i >= |ts| then Failure(Truncated)
    else if ts[i] == "{" then
      if i + 1 >= |ts| then Failure(OutOfRange)
      else if ts[i + 1] == "}" then Success(Parsed(Object([]), i + 2))
      else ParseFields(unquote, ts, i + 1, depth, [])
    else
      var scalar := Scalar(unquote, ts[i]);
      if scalar.Failure? then Failure(scalar.error) else Success(Parsed(scalar.value, i + 1))
  }

  /** The rest of an object whose first fields are `fields`, from the key at token `i`. */
  function ParseFields(unquote: Unquote, ts: seq<string>, i: nat, depth: nat, fields: seq<(string, Value)>)
    : (r: Result<Parsed, Error>)
    ensures r.Success? ==> i < r.value.next <= |ts|
    decreases |ts| - i, 1
  {
    if i >= |ts| then Failure(Truncated)
    else
      var key := Key(unquote, ts[i]);
      if key.None? then Failure(BadQuote)
      else if HasKey(fields, key.value) then Failure(BadKey)
      else if i + 1 >= |ts| then Failure(Truncated)
      else if ts[i + 1] != ":" then Failure(Unexpected)
      else
        var value := Parse(unquote, ts, i + 2, depth + 1);
        if value.Failure? then value
        else
          ParseTail(unquote, ts, value.value.next, depth, fields + [(key.value, value.value.value)])
  }

  /** The rest of an object after a value, from the delimiter at token `j`. */
  function ParseTail(unquote: Unquote, ts: seq<string>, j: nat, depth: nat, fields: seq<(string, Value)>)
    : (r: Result<Parsed, Error>)
    ensures r.Success? ==> j < r.value.next <= |ts|
    decreases |ts| - j, 0
  {
    if j >= |ts| then Failure(Truncated)
    else if ts[j] == "}" then Success(Parsed(Object(fields), j + 1))
    else if ts[j] != "," then Failure(BadDelimiter)
    else if j + 1 >= |ts| then Failure(OutOfRange)
    else if ts[j + 1] == "}" then Success(Parsed(Object(fields), j + 2))
    else ParseFields(unquote, ts, j + 1, depth, fields)
  }

  // ---------------------------------------------------------------- the grammar

  /** A value as it is written. */
  datatype Tree = Leaf(token: string) | Node(members: seq<Member>, trailing: bool)

  datatype Member = Member(key: string, value: Tree)

  function Flatten(tree: Tree): seq<string>
    decreases tree, 1, 0, 0
  {
    match tree
    case Leaf(token) => [token]
    case Node(members, _) => ["{"] + FlattenFrom(tree, 0)
  }

  /** The tokens of an object from its member `k` on. */
  function FlattenFrom(node: Tree, k: nat): seq<string>
    requires node.Node? && k <= |node.members|
    decreases node, 0, |node.members| - k, 1
  {
    if k == |node.members| then ["}"]
    else [node.members[k].key, ":"] + Flatten(node.members[k].value) + Tail(node, k)
  }

  /** The tokens after the value of member `k`. */
  function Tail(node: Tree, k: nat): seq<string>
    requires node.Node? && k < |node.members|
    decreases node, 0, |node.members| - k, 0
  {
    if k + 1 < |node.members| then [","] + FlattenFrom(node, k + 1)
    else if node.trailing then [",", "}"]
    else ["}"]
  }

  function KeyText(unquote: Unquote, token: string): string {
    var key := Key(unquote, token);
    if key.None? then "" else key.value
  }

  function Eval(unquote: Unquote, tree: Tree): Value {
    match tree
    case Leaf(token) =>
      var scalar := Scalar(unquote, token);
      if scalar.Failure? then Null else scalar.value
    case Node(members, _) =>
      Object(seq(|members|, i requires 0 <= i < |members| =>
        (KeyText(unquote, members[i].key), Eval(unquote, members[i].value))))
  }

  /** What may be written: nesting of at most 12, readable scalars, readable and distinct keys, none of
      which is a bare closing brace. */
  predicate Legal(unquote: Unquote, tree: Tree, depth: nat) {
    && depth <= MAX_DEPTH
    && match tree
       case Leaf(token) => Scalar(unquote, token).Success?
       case Node(members, trailing) =>
         && (trailing ==> members != [])
         && (forall i | 0 <= i < |members| ::
               && members[i].key != "}" && Key(unquote, members[i].key).Some?
               && Legal(unquote, members[i].value, depth + 1))
         && (forall i, j | 0 <= i < j < |members| ::
               KeyText(unquote, members[i].key) != KeyText(unquote, members[j].key))
  }

  /** `part` stands in `ts` at `i`. */
  predicate At(ts: seq<string>, i: nat, part: seq<string>) {
    i + |part| <= |ts| && forall k | 0 <= k < |part| :: ts[i + k] == part[k]
  }

  lemma TokenAt(ts: seq<string>, i: nat, part: seq<string>, k: nat)
    requires At(ts, i, part) && k < |part|
    ensures i + k < |ts| && ts[i + k] == part[k]
  {}

  lemma SplitAt(ts: seq<string>, i: nat, a: seq<string>, b: seq<string>)
    requires At(ts, i, a + b)
    ensures At(ts, i, a) && At(ts, i + |a|, b)
  {
    forall k | 0 <= k < |a|
      ensures ts[i + k] == a[k]
    {
      TokenAt(ts, i, a + b, k);
    }
    forall k | 0 <= k < |b|
      ensures ts[i + |a| + k] == b[k]
    {
      TokenAt(ts, i, a + b, |a| + k);
    }
  }

  /** The fields that the first `k` members of an object give. */
  function FieldsOf(unquote: Unquote, members: seq<Member>): seq<(string, Value)> {
    seq(|members|, i requires 0 <= i < |members| =>
      (KeyText(unquote, members[i].key), Eval(unquote, members[i].value)))
  }

  // ---------------------------------------------------------------- everything legal is read back

  lemma {:induction false} TreeIsRead(unquote: Unquote, ts: seq<string>, i: nat, depth: nat, tree: Tree)
    requires Legal(unquote, tree, depth) && At(ts, i, Flatten(tree))
    ensures Parse(unquote, ts, i, depth) == Success(Parsed(Eval(unquote, tree), i + |Flatten(tree)|))
    decreases tree, 1, 0, 0
  {
    TokenAt(ts, i, Flatten(tree), 0);
    if tree.Node? {
      SplitAt(ts, i, ["{"], FlattenFrom(tree, 0));
      TokenAt(ts, i + 1, FlattenFrom(tree, 0), 0);
      if tree.members == [] {
        assert Eval(unquote, tree) == Object([]);
      } else {
        FieldsAreRead(unquote, ts, i + 1, depth, tree, 0);
        assert FieldsOf(unquote, tree.members[..0]) == [];
      }
    }
  }

  lemma {:induction false} FieldsAreRead(unquote: Unquote, ts: seq<string>, i: nat, depth: nat, node: Tree, k: nat)
    requires node.Node? && Legal(unquote, node, depth) && k < |node.members| && At(ts, i, FlattenFrom(node, k))
    ensures
      ParseFields(unquote, ts, i, depth, FieldsOf(unquote, node.members[..k]))
      == Success(Parsed(Eval(unquote, node), i + |FlattenFrom(node, k)|))
    decreases node, 0, |node.members| - k, 1
  {
    var m, fields := node.members[k], FieldsOf(unquote, node.members[..k]);
    var tail := Tail(node, k);
    var value := Flatten(m.value);
    assert FlattenFrom(node, k) == [m.key, ":"] + value + tail;
    SplitAt(ts, i, [m.key, ":"] + value, tail);
    SplitAt(ts, i, [m.key, ":"], value);
    TokenAt(ts, i, [m.key, ":"], 0);
    TokenAt(ts, i, [m.key, ":"], 1);
    TreeIsRead(unquote, ts, i + 2, depth + 1, m.value);
    var j := i + 2 + |value|;
    assert !HasKey(fields, KeyText(unquote, m.key));
    var all := fields + [(KeyText(unquote, m.key), Eval(unquote, m.value))];
    assert all == FieldsOf(unquote, node.members[..k + 1]);
    TailIsRead(unquote, ts, j, depth, node, k);
  }

  lemma {:induction false} TailIsRead(unquote: Unquote, ts: seq<string>, j: nat, depth: nat, node: Tree, k: nat)
    requires node.Node? && Legal(unquote, node, depth) && k < |node.members| && At(ts, j, Tail(node, k))
    ensures
      ParseTail(unquote, ts, j, depth, FieldsOf(unquote, node.members[..k + 1]))
      == Success(Parsed(Eval(unquote, node), j + |Tail(node, k)|))
    decreases node, 0, |node.members| - k, 0
  {
    TokenAt(ts, j, Tail(node, k), 0);
    if |Tail(node, k)| > 1 {
      TokenAt(ts, j, Tail(node, k), 1);
    }
    if k + 1 == |node.members| {
      assert node.members[..k + 1] == node.members;
      assert Eval(unquote, node) == Object(FieldsOf(unquote, node.members));
    } else {
      SplitAt(ts, j, [","], FlattenFrom(node, k + 1));
      FieldsAreRead(unquote, ts, j + 1, depth, node, k + 1);
    }
  }

  // ---------------------------------------------------------------- nothing else is accepted

  lemma JoinAt(ts: seq<string>, i: nat, a: seq<string>, b: seq<string>)
    requires At(ts, i, a) && At(ts, i + |a|, b)
    ensures At(ts, i, a + b)
  {
    forall k | 0 <= k < |a + b|
      ensures i + k < |ts| && ts[i + k] == (a + b)[k]
    {
      if k < |a| {
        TokenAt(ts, i, a, k);
      } else {
        TokenAt(ts, i + |a|, b, k - |a|);
      }
    }
  }

  lemma {:induction false} ReadIsTree(unquote: Unquote, ts: seq<string>, i: nat, depth: nat) returns (tree: Tree)
    requires Parse(unquote, ts, i, depth).Success?
    ensures Legal(unquote, tree, depth) && At(ts, i, Flatten(tree))
    ensures Parse(unquote, ts, i, depth).value == Parsed(Eval(unquote, tree), i + |Flatten(tree)|)
    decreases |ts| - i, 0
  {
    if ts[i] != "{" {
      tree := Leaf(ts[i]);
    } else if ts[i + 1] == "}" {
      tree := Node([], false);
      assert Flatten(tree) == ["{", "}"];
      assert Eval(unquote, tree) == Object([]);
    } else {
      assert FieldsOf(unquote, []) == [];
      tree := FieldsAreMembers(unquote, ts, i + 1, depth, []);
      JoinAt(ts, i, ["{"], FlattenFrom(tree, 0));
    }
  }

  /** The members read so far are legal and their keys distinct. */
  ghost predicate LegalSoFar(unquote: Unquote, members: seq<Member>, depth: nat) {
    && (forall i | 0 <= i < |members| ::
          && members[i].key != "}" && Key(unquote, members[i].key).Some?
          && Legal(unquote, members[i].value, depth + 1))
    && (forall i, j | 0 <= i < j < |members| ::
          KeyText(unquote, members[i].key) != KeyText(unquote, members[j].key))
  }

  lemma {:induction false} FieldsAreMembers(unquote: Unquote, ts: seq<string>, i: nat, depth: nat, before: seq<Member>)
    returns (node: Tree)
    requires depth <= MAX_DEPTH && LegalSoFar(unquote, before, depth) && i < |ts| && ts[i] != "}"
    requires ParseFields(unquote, ts, i, depth, FieldsOf(unquote, before)).Success?
    ensures node.Node? && |before| < |node.members| && node.members[..|before|] == before
    ensures Legal(unquote, node, depth) && At(ts, i, FlattenFrom(node, |before|))
    ensures ParseFields(unquote, ts, i, depth, FieldsOf(unquote, before)).value
            == Parsed(Eval(unquote, node), i + |FlattenFrom(node, |before|)|)
    decreases |ts| - i, 1
  {
    var value := FieldIsMember(unquote, ts, i, depth, before);
    MemberFits(unquote, before, Member(ts[i], value), depth);
    var after := before + [Member(ts[i], value)];
    hide ParseFields, ParseTail, Parse, Legal, Eval, Flatten, HasKey, LegalSoFar, FieldsOf, At;
    node := TailIsMembers(unquote, ts, i + 2 + |Flatten(value)|, depth, after);
    MembersAt(ts, i, node, before, Member(ts[i], value));
  }

  /** The member whose key is at `i`. */
  lemma {:induction false} FieldIsMember(unquote: Unquote, ts: seq<string>, i: nat, depth: nat, before: seq<Member>)
    returns (value: Tree)
    requires i < |ts| && ParseFields(unquote, ts, i, depth, FieldsOf(unquote, before)).Success?
    ensures Key(unquote, ts[i]).Some? && !HasKey(FieldsOf(unquote, before), KeyText(unquote, ts[i]))
    ensures i + 1 < |ts| && ts[i + 1] == ":"
    ensures Legal(unquote, value, depth + 1) && At(ts, i + 2, Flatten(value))
    ensures ParseFields(unquote, ts, i, depth, FieldsOf(unquote, before))
            == ParseTail(unquote, ts, i + 2 + |Flatten(value)|, depth,
                         FieldsOf(unquote, before) + [(KeyText(unquote, ts[i]), Eval(unquote, value))])
    decreases |ts| - i, 0
  {
    hide ParseTail, FieldsOf, HasKey, Legal, Eval, Flatten, At;
    value := ReadIsTree(unquote, ts, i + 2, depth + 1);
  }

  /** A readable member with a new key extends the members read so far. */
  lemma MemberFits(unquote: Unquote, before: seq<Member>, member: Member, depth: nat)
    requires LegalSoFar(unquote, before, depth)
    requires member.key != "}" && Key(unquote, member.key).Some? && Legal(unquote, member.value, depth + 1)
    requires !HasKey(FieldsOf(unquote, before), KeyText(unquote, member.key))
    ensures LegalSoFar(unquote, before + [member], depth)
    ensures
      FieldsOf(unquote, before + [member])
      == FieldsOf(unquote, before) + [(KeyText(unquote, member.key), Eval(unquote, member.value))]
  {
    hide Legal;
    forall k | 0 <= k < |before|
      ensures KeyText(unquote, before[k].key) != KeyText(unquote, member.key)
    {
      assert FieldsOf(unquote, before)[k].0 == KeyText(unquote, before[k].key);
    }
  }

  lemma MembersAt(ts: seq<string>, i: nat, node: Tree, before: seq<Member>, member: Member)
    requires node.Node? && |before| < |node.members| && node.members[..|before| + 1] == before + [member]
    requires i + 1 < |ts| && ts[i] == member.key && ts[i + 1] == ":" && At(ts, i + 2, Flatten(member.value))
    requires At(ts, i + 2 + |Flatten(member.value)|, Tail(node, |before|))
    ensures node.members[..|before|] == before && At(ts, i, FlattenFrom(node, |before|))
    ensures |FlattenFrom(node, |before|)| == 2 + |Flatten(member.value)| + |Tail(node, |before|)|
  {
    assert node.members[|before|] == node.members[..|before| + 1][|before|] == member;
    assert node.members[..|before|] == node.members[..|before| + 1][..|before|] == before;
    JoinAt(ts, i, [ts[i], ":"], Flatten(member.value));
    JoinAt(ts, i, [ts[i], ":"] + Flatten(member.value), Tail(node, |before|));
    hide Flatten, Tail;
  }

  lemma {:induction false} TailIsMembers(unquote: Unquote, ts: seq<string>, j: nat, depth: nat, before: seq<Member>)
    returns (node: Tree)
    requires depth <= MAX_DEPTH && before != [] && LegalSoFar(unquote, before, depth)
    requires ParseTail(unquote, ts, j, depth, FieldsOf(unquote, before)).Success?
    ensures node.Node? && |before| <= |node.members| && node.members[..|before|] == before
    ensures Legal(unquote, node, depth) && At(ts, j, Tail(node, |before| - 1))
    ensures ParseTail(unquote, ts, j, depth, FieldsOf(unquote, before)).value
            == Parsed(Eval(unquote, node), j + |Tail(node, |before| - 1)|)
    decreases |ts| - j, 0
  {
    if ts[j] == "}" || ts[j + 1] == "}" {
      node := Node(before, ts[j] != "}");
      assert Eval(unquote, node) == Object(FieldsOf(unquote, before));
      assert node.members[..|before|] == before;
    } else {
      node := FieldsAreMembers(unquote, ts, j + 1, depth, before);
      JoinAt(ts, j, [","], FlattenFrom(node, |before|));
    }
  }

  /** `value` is accepted exactly when what is written is a legal tree that means it, and exactly the
      tree's tokens are consumed. */
  lemma AcceptedIff(unquote: Unquote, ts: seq<string>, i: nat, depth: nat, v: Value, next: nat)
    ensures
      Parse(unquote, ts, i, depth) == Success(Parsed(v, next))
      <==> exists tree ::
        && Legal(unquote, tree, depth) && At(ts, i, Flatten(tree))
        && Eval(unquote, tree) == v && next == i + |Flatten(tree)|
  {
    if Parse(unquote, ts, i, depth) == Success(Parsed(v, next)) {
      var tree := ReadIsTree(unquote, ts, i, depth);
    }
    if tree :| Legal(unquote, tree, depth) && At(ts, i, Flatten(tree))
               && Eval(unquote, tree) == v && next == i + |Flatten(tree)| {
      TreeIsRead(unquote, ts, i, depth, tree);
    }
  }

  // ---------------------------------------------------------------- printing

  /** A catalog value nested at most 12 deep, with distinct keys in every object. */
  predicate Catalog(v: Value, depth: nat) {
    && depth <= MAX_DEPTH
    && (v.Number? ==> Numeric(v.digits))
    && (v.Object? ==>
          && (forall i | 0 <= i < |v.fields| :: Catalog(v.fields[i].1, depth + 1))
          && (forall i, j | 0 <= i < j < |v.fields| :: v.fields[i].0 != v.fields[j].0))
  }

  /** `quote` writes a string as a quoted token that reads back as that string. */
  ghost predicate Inverse(quote: string -> string, unquote: Unquote) {
    forall s :: Quoted(quote(s)) && unquote(quote(s)) == Some(s)
  }

  function Print(quote: string -> string, v: Value, trailing: bool): Tree {
    match v
    case Text(text) => Leaf(quote(text))
    case Number(digits) => Leaf(digits)
    case Bool(value) => Leaf(if value then "true" else "false")
    case Null => Leaf("null")
    case Object(fields) =>
      Node(
        seq(|fields|, i requires 0 <= i < |fields| =>
          Member(quote(fields[i].0), Print(quote, fields[i].1, trailing))),
        trailing && fields != [])
  }

  lemma NumberIsBare(token: string)
    requires Numeric(token)
    ensures |token| > 0 && !Quoted(token) && token != "true" && token != "false" && token != "null"
  {
    assert token[0] == '-' || '0' <= token[0] <= '9' by {
      var body := if |token| > 0 && token[0] == '-' then token[1..] else token;
      if !Whole(body) {
        var k :| 0 <= k < |body| && body[k] == '.' && Whole(body[..k]) && Digits(body[k + 1..]);
        assert Whole(body[..k]) && Digits(body[..k]);
        assert body[..k][0] == body[0];
      }
    }
  }

  lemma {:induction false} PrintedIsLegal(
    quote: string -> string, unquote: Unquote, v: Value, trailing: bool, depth: nat)
    requires Inverse(quote, unquote) && Catalog(v, depth)
    ensures Legal(unquote, Print(quote, v, trailing), depth) && Eval(unquote, Print(quote, v, trailing)) == v
  {
    match v
    case Number(digits) => NumberIsBare(digits);
    case Object(fields) =>
      var tree := Print(quote, v, trailing);
      forall i | 0 <= i < |fields|
        ensures Legal(unquote, tree.members[i].value, depth + 1)
        ensures Eval(unquote, tree.members[i].value) == fields[i].1
        ensures KeyText(unquote, tree.members[i].key) == fields[i].0 && tree.members[i].key != "}"
      {
        PrintedIsLegal(quote, unquote, fields[i].1, trailing, depth + 1);
        assert Quoted(quote(fields[i].0));
      }
      assert Eval(unquote, tree).fields == fields;
    case _ =>
  }

  /** Printing a catalog value and reading the tokens gives the value back and consumes exactly those
      tokens, with or without trailing commas and whatever follows. */
  lemma RoundTrip(quote: string -> string, unquote: Unquote, v: Value, trailing: bool, rest: seq<string>)
    requires Inverse(quote, unquote) && Catalog(v, 0)
    ensures
      var tokens := Flatten(Print(quote, v, trailing));
      Parse(unquote, tokens + rest, 0, 0) == Success(Parsed(v, |tokens|))
  {
    PrintedIsLegal(quote, unquote, v, trailing, 0);
    TreeIsRead(unquote, Flatten(Print(quote, v, trailing)) + rest, 0, 0, Print(quote, v, trailing));
  }

  /** Whatever is accepted is a catalog value: nested at most 12 deep, with distinct keys everywhere. */
  lemma {:induction false} MeaningIsCatalog(unquote: Unquote, tree: Tree, depth: nat)
    requires Legal(unquote, tree, depth)
    ensures Catalog(Eval(unquote, tree), depth)
  {
    if tree.Node? {
      var v := Eval(unquote, tree);
      forall i | 0 <= i < |v.fields|
        ensures Catalog(v.fields[i].1, depth + 1) && v.fields[i].0 == KeyText(unquote, tree.members[i].key)
      {
        MeaningIsCatalog(unquote, tree.members[i].value, depth + 1);
      }
    }
  }

  lemma AcceptedIsCatalog(unquote: Unquote, ts: seq<string>, i: nat, depth: nat)
    requires Parse(unquote, ts, i, depth).Success?
    ensures Catalog(Parse(unquote, ts, i, depth).value.value, depth)
  {
    var tree := ReadIsTree(unquote, ts, i, depth);
    MeaningIsCatalog(unquote, tree, depth);
  }
}
