/** Placeholder lists: the comma-separated parameter list of a stored-procedure
    call, built either from the field names of a request or from raw tokens. */
module Placeholders {

  /** The separator `implode` is given in both parameter modes. */
  const Separator: string := ", "

  /** The request field that is never turned into a placeholder (the anti-forgery token). */
  const TokenField: string := "_token"

  /** `implode(", ", tokens)`: the tokens in order, separated by ", ". */
  function Join(tokens: seq<string>): string
  {
    if tokens == [] then ""
    else if |tokens| == 1 then tokens[0]
    else tokens[0] + Separator + Join(tokens[1..])
  }

  /** Reads a placeholder list back into its tokens, cutting at every ", ".
      It is the inverse of Join (see JoinSplit and SplitJoin). */
  function Split(s: string): (parts: seq<string>)
    ensures |parts| >= 1
    decreases |s|
  {
    if |s| >= 2 && s[..2] == Separator then [""] + Split(s[2..])
    else if s == "" then [""]
    else
      var rest := Split(s[1..]);
      [[s[0]] + rest[0]] + rest[1..]
  }

  /** A token in which the separator ", " does not occur. */
  predicate SeparatorFree(t: string)
  {
    forall i :: 0 <= i < |t| - 1 ==> !(t[i] == ',' && t[i + 1] == ' ')
  }

  /** The request's field names once the anti-forgery field has been unset,
      in the request's own order. */
  function WithoutToken(keys: seq<string>): (r: seq<string>)
    ensures |r| <= |keys|
    ensures forall k :: k in r <==> k in keys && k != TokenField
    ensures TokenField !in keys ==> r == keys
  {
    if keys == [] then []
    else if keys[0] == TokenField then WithoutToken(keys[1..])
    else [keys[0]] + WithoutToken(keys[1..])
  }

  /** Each field name `k` turned into the named placeholder `:k`. */
  function Named(keys: seq<string>): (r: seq<string>)
    ensures |r| == |keys|
    ensures forall i :: 0 <= i < |keys| ==> r[i] == ":" + keys[i]
  {
    if keys == [] then [] else [":" + keys[0]] + Named(keys[1..])
  }

  // ---------------------------------------------------------------------------
  // Join and Split are inverse to each other.

  /** Prepending a character to the first token prepends it to the joined list. */
  lemma JoinPrepend(c: char, tokens: seq<string>)
    requires tokens != []
    ensures Join([[c] + tokens[0]] + tokens[1..]) == [c] + Join(tokens)
  {
    var parts := [[c] + tokens[0]] + tokens[1..];
    if |tokens| > 1 {
      assert parts[1..] == tokens[1..];
    }
  }

  /** Joining what Split cut out gives back the string, for every string. */
  lemma {:induction false} JoinSplit(s: string)
    ensures Join(Split(s)) == s
    decreases |s|
  {
    if |s| >= 2 && s[..2] == Separator {
      JoinSplit(s[2..]);
      assert s == Separator + s[2..];
    } else if s != "" {
      JoinSplit(s[1..]);
      JoinPrepend(s[0], Split(s[1..]));
      assert s == [s[0]] + s[1..];
    }
  }

  /** Split stops at the first separator after a separator-free token. */
  lemma {:induction false} SplitAfterToken(t: string, rest: string)
    requires SeparatorFree(t)
    ensures Split(t + Separator + rest) == [t] + Split(rest)
    decreases |t|
  {
    var s := t + Separator + rest;
    if t == [] {
      assert s == Separator + rest;
      assert s[..2] == Separator && s[2..] == rest;
    } else {
      assert s[1] == (if |t| >= 2 then t[1] else ',');
      if |t| >= 2 { assert !(t[0] == ',' && t[1] == ' '); }
      assert s[..2][0] == t[0] && s[..2][1] == s[1] && Separator[1] == ' ';
      assert s[1..] == t[1..] + Separator + rest;
      SplitAfterToken(t[1..], rest);
      assert [t[0]] + t[1..] == t;
    }
  }

  /** Split of a single separator-free token is that token. */
  lemma {:induction false} SplitToken(t: string)
    requires SeparatorFree(t)
    ensures Split(t) == [t]
    decreases |t|
  {
    if t != [] {
      if |t| >= 2 {
        assert !(t[0] == ',' && t[1] == ' ');
        assert t[..2][0] == t[0] && t[..2][1] == t[1];
      }
      SplitToken(t[1..]);
      assert [t[0]] + t[1..] == t;
    }
  }

  /** A non-empty list of separator-free tokens is recovered from its placeholder list. */
  lemma {:induction false} SplitJoin(tokens: seq<string>)
    requires tokens != []
    requires forall i :: 0 <= i < |tokens| ==> SeparatorFree(tokens[i])
    ensures Split(Join(tokens)) == tokens
    decreases |tokens|
  {
    if |tokens| == 1 {
      SplitToken(tokens[0]);
    } else {
      SplitAfterToken(tokens[0], Join(tokens[1..]));
      SplitJoin(tokens[1..]);
      assert [tokens[0]] + tokens[1..] == tokens;
    }
  }

  // ---------------------------------------------------------------------------
  // Order and count of the request-mode placeholders.

  /** Unsetting the token field keeps the relative order of the other fields:
      it distributes over concatenation. */
  lemma {:induction false} WithoutTokenAppend(a: seq<string>, b: seq<string>)
    ensures WithoutToken(a + b) == WithoutToken(a) + WithoutToken(b)
    decreases |a|
  {
    if a != [] {
      assert (a + b)[1..] == a[1..] + b;
      WithoutTokenAppend(a[1..], b);
    } else {
      assert a + b == b;
    }
  }

  /** A request-mode placeholder list names one token per non-token field,
      provided no field name contains the separator. */
  lemma RequestTokenCount(keys: seq<string>)
    requires WithoutToken(keys) != []
    requires forall k :: k in keys ==> SeparatorFree(k)
    ensures Split(Join(Named(WithoutToken(keys)))) == Named(WithoutToken(keys))
    ensures |Split(Join(Named(WithoutToken(keys))))| == |WithoutToken(keys)|
  {
    var fields := WithoutToken(keys);
    var tokens := Named(fields);
    forall i | 0 <= i < |tokens|
      ensures SeparatorFree(tokens[i])
    {
      assert fields[i] in fields;
      var t := tokens[i];
      assert t == ":" + fields[i];
      forall j | 0 <= j < |t| - 1
        ensures !(t[j] == ',' && t[j + 1] == ' ')
      {
        if j > 0 { assert t[j] == fields[i][j - 1] && t[j + 1] == fields[i][j]; }
      }
    }
    SplitJoin(tokens);
  }
}
