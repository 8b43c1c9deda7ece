/** What a rejection says: the tokens were cut short, and may yet become a value, or they never will. */
module LiteralErrors {
  import opened Prelude
  import opened Literals

  predicate CutShort(r: Result<Parsed, Error>) {
    r == Failure(Truncated) || r == Failure(OutOfRange)
  }

  /** `part` is what is said of the first `n` tokens, `whole` of all of them. */
  predicate Foretells(part: Result<Parsed, Error>, whole: Result<Parsed, Error>, n: nat) {
    && (!CutShort(part) ==> whole == part)
    && (CutShort(part) && whole.Success? ==> n < whole.value.next)
  }

  lemma {:induction false} ValueForetold(unquote: Unquote, ts: seq<string>, n: nat, i: nat, depth: nat)
    requires n <= |ts|
    ensures Foretells(Parse(unquote, ts[..n], i, depth), Parse(unquote, ts, i, depth), n)
    decreases |ts| - i, 0
  {
    if depth <= MAX_DEPTH && i + 1 < n && ts[i] == "{" && ts[i + 1] != "}" {
      FieldsForetold(unquote, ts, n, i + 1, depth, []);
    } else if depth <= MAX_DEPTH && i + 1 == n < |ts| && ts[i] == "{" && ts[i + 1] != "}" {
      NextIsLater(unquote, ts, i + 1, depth);
    }
  }

  lemma NextIsLater(unquote: Unquote, ts: seq<string>, i: nat, depth: nat)
    ensures
      var r := ParseFields(unquote, ts, i, depth, []);
      r.Success? ==> i < r.value.next
  {}

  lemma {:induction false} FieldsForetold(
    unquote: Unquote, ts: seq<string>, n: nat, i: nat, depth: nat, fields: seq<(string, Value)>)
    requires n <= |ts|
    ensures
      Foretells(ParseFields(unquote, ts[..n], i, depth, fields), ParseFields(unquote, ts, i, depth, fields), n)
    decreases |ts| - i, 1
  {
    hide HasKey, ParseTail, Parse, Key;
    if i + 1 < n && ts[i + 1] == ":" {
      ValueForetold(unquote, ts, n, i + 2, depth + 1);
      var value := Parse(unquote, ts, i + 2, depth + 1);
      var key := Key(unquote, ts[i]);
      if value.Success? && key.Some? {
        var longer := fields + [(key.value, value.value.value)];
        TailForetold(unquote, ts, n, value.value.next, depth, longer);
      }
    }
  }

  lemma {:induction false} TailForetold(
    unquote: Unquote, ts: seq<string>, n: nat, j: nat, depth: nat, fields: seq<(string, Value)>)
    requires n <= |ts|
    ensures Foretells(ParseTail(unquote, ts[..n], j, depth, fields), ParseTail(unquote, ts, j, depth, fields), n)
    decreases |ts| - j, 0
  {
    hide ParseFields;
    if j + 1 < n && ts[j] == "," {
      FieldsForetold(unquote, ts, n, j + 1, depth, fields);
    }
  }

  /** Every beginning of a value but the whole of it is rejected as cut short, and nothing that follows a value,
      or a token that fits no value, changes the answer. */
  lemma BeginningsAreCutShort(unquote: Unquote, ts: seq<string>, more: seq<string>, depth: nat)
    ensures
      var part, whole := Parse(unquote, ts, 0, depth), Parse(unquote, ts + more, 0, depth);
      && (!CutShort(part) ==> whole == part)
      && (whole.Success? ==> (CutShort(part) <==> |ts| < whole.value.next))
  {
    ValueForetold(unquote, ts + more, |ts|, 0, depth);
    assert (ts + more)[..|ts|] == ts;
    hide Parse;
  }
}
