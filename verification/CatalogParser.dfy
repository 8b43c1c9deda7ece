/** The catalog parser as it is: a cursor over a list of tokens, advanced step by step. */
module CatalogParser {
  import opened Prelude
  import opened Literals

  class LiteralParser {
    const tokens: seq<string>
    var index: nat

    constructor (tokens: seq<string>)
      ensures this.tokens == tokens && index == 0
    {
      this.tokens, index := tokens, 0;
    }

    /** The next token, which must be the expected one if any is; a wrong one is consumed all the same. */
    method Take(expected: Option<string>) returns (r: Result<string, Error>)
      modifies this`index
      ensures old(index) >= |tokens| ==> r == Failure(Truncated) && index == old(index)
      ensures old(index) < |tokens| ==>
        && index == old(index) + 1
        && r == if expected.Some? && tokens[old(index)] != expected.value then Failure(Unexpected)
                else Success(tokens[old(index)])
    {
      if index >= |tokens| {
        return Failure(Truncated);
      }
      var token := tokens[index];
      index := index + 1;
      if expected.Some? && token != expected.value {
        return Failure(Unexpected);
      }
      return Success(token);
    }

    /** Reads one value; on success the cursor stands right behind it. It returns on every input. */
    method Read(unquote: Unquote, depth: nat) returns (r: Result<Value, Error>)
      requires index <= |tokens|
      modifies this`index
      ensures old(index) <= index <= |tokens|
      ensures
        var parsed := Parse(unquote, tokens, old(index), depth);
        if parsed.Success? then r == Success(parsed.value.value) && index == parsed.value.next
        else r == Failure(parsed.error)
      decreases |tokens| - index, 1
    {
      if depth > MAX_DEPTH {
        return Failure(TooDeep);
      }
      var first := Take(None);
      if first.Failure? {
        return Failure(first.error);
      }
      if first.value == "{" {
        if index >= |tokens| {
          return Failure(OutOfRange);
        }
        if tokens[index] == "}" {
          var closing := Take(Some("}"));
          return Success(Object([]));
        }
        r := ReadFields(unquote, depth);
        return;
      }
      r := Scalar(unquote, first.value);
    }

    /** The loop over an object's members, from the first key on. */
    method ReadFields(unquote: Unquote, depth: nat) returns (r: Result<Value, Error>)
      requires index <= |tokens|
      modifies this`index
      ensures old(index) <= index <= |tokens|
      ensures
        var parsed := ParseFields(unquote, tokens, old(index), depth, []);
        if parsed.Success? then r == Success(parsed.value.value) && index == parsed.value.next
        else r == Failure(parsed.error)
      decreases |tokens| - index, 2
    {
      hide Key, HasKey, Parse, Scalar;
      ghost var whole := ParseFields(unquote, tokens, index, depth, []);
      var fields := [];
      while true
        invariant old(index) <= index <= |tokens|
        invariant whole == ParseFields(unquote, tokens, index, depth, fields)
        decreases |tokens| - index
      {
        var token := Take(None);
        if token.Failure? {
          return Failure(token.error);
        }
        var key := Key(unquote, token.value);
        if key.None? {
          return Failure(BadQuote);
        }
        if HasKey(fields, key.value) {
          return Failure(BadKey);
        }
        var colon := Take(Some(":"));
        if colon.Failure? {
          return Failure(colon.error);
        }
        var value := Read(unquote, depth + 1);
        if value.Failure? {
          return Failure(value.error);
        }
        fields := fields + [(key.value, value.value)];
        var delimiter := Take(None);
        if delimiter.Failure? {
          return Failure(delimiter.error);
        }
        if delimiter.value == "}" {
          return Success(Object(fields));
        }
        if delimiter.value != "," {
          return Failure(BadDelimiter);
        }
        if index >= |tokens| {
          return Failure(OutOfRange);
        }
        if tokens[index] == "}" {
          var closing := Take(Some("}"));
          return Success(Object(fields));
        }
      }
    }
  }
}
