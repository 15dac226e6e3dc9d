/**
  Argument formatting (`formatArgPair`, `formatArgs`) and the separator join
  that the renderer shares with it.  An argument mapping is an ordered
  sequence of key/value pairs: insertion order is rendering order.
  The reading side (`ReadArgs`) is the partner of `FormatArgs`: an argument
  list whose keys are GraphQL names reads back exactly, order included.
 */
module Format {
  import opened Errors
  import opened Json

  /** An argument mapping in its insertion order. */
  type Args = seq<(string, Lit)>

  /** The `join` helper: the parts in order, separated by a comma and a space. */
  function Join(parts: seq<string>): (r: string)
    ensures parts == [] ==> r == ""
    ensures |parts| == 1 ==> r == parts[0]
  {
    if parts == [] then ""
    else if |parts| == 1 then parts[0]
    else parts[0] + ", " + Join(parts[1..])
  }

  lemma {:induction false} JoinAppend(parts: seq<string>, x: string)
    requires parts != []
    ensures Join(parts + [x]) == Join(parts) + ", " + x
    decreases |parts|
  {
    if |parts| == 1 {
      assert parts + [x] == [parts[0], x];
    } else {
      assert (parts + [x])[1..] == parts[1..] + [x];
      JoinAppend(parts[1..], x);
    }
  }

  /** `key: <JSON of value>`: the key, the separator, then the value's JSON text. */
  function FormatArgPair(pair: (string, Lit)): (r: string)
    ensures |r| > |pair.0| + 2
    ensures r[..|pair.0|] == pair.0 && r[|pair.0|..|pair.0| + 2] == ": "
    ensures r[|pair.0| + 2..] == Encode(pair.1)
  {
    pair.0 + ": " + Encode(pair.1)
  }

  /** The pairs formatted one by one, in key order. */
  function FormatArgPairs(args: Args): (r: seq<string>)
    ensures |r| == |args|
    ensures forall k :: 0 <= k < |args| ==> r[k] == FormatArgPair(args[k])
  {
    if args == [] then [] else [FormatArgPair(args[0])] + FormatArgPairs(args[1..])
  }

  /** Nothing for an empty mapping, else ` (k: v, ...)`. */
  function FormatArgs(args: Args): (r: string)
    ensures r == "" <==> args == []
    ensures args != [] ==> |r| >= 3 && r[..2] == " (" && r[|r| - 1] == ')'
  {
    if args == [] then "" else " (" + Join(FormatArgPairs(args)) + ")"
  }

  lemma FormatArgsSingle(key: string, value: Lit)
    ensures FormatArgs([(key, value)]) == " (" + key + ": " + Encode(value) + ")"
  {
  }

  // ---------------------------------------------------------------- names

  predicate IsNameStart(c: char) { c == '_' || 'A' <= c <= 'Z' || 'a' <= c <= 'z' }

  predicate IsNameChar(c: char) { IsNameStart(c) || IsDigit(c) }

  /** A GraphQL name: a letter or underscore, then letters, digits or underscores. */
  predicate IsName(s: string)
  {
    |s| > 0 && IsNameStart(s[0]) && forall k :: 0 <= k < |s| ==> IsNameChar(s[k])
  }

  /** The longest prefix of name characters, and what follows it. */
  function SplitName(s: string): (r: (string, string))
    ensures r.0 + r.1 == s
    ensures forall k :: 0 <= k < |r.0| ==> IsNameChar(r.0[k])
    ensures r.1 == [] || !IsNameChar(r.1[0])
  {
    if s == [] || !IsNameChar(s[0]) then ([], s)
    else var t := SplitName(s[1..]); ([s[0]] + t.0, t.1)
  }

  /** A name at the front of `s`, and the text after it. */
  function ReadName(s: string): (r: Option<(string, string)>)
    ensures r.Some? ==> IsName(r.value.0) && r.value.0 + r.value.1 == s
  {
    var (n, rest) := SplitName(s);
    if n != [] && IsNameStart(n[0]) then Some((n, rest)) else None
  }

  lemma {:induction false} SplitNameOf(n: string, rest: string)
    requires forall k :: 0 <= k < |n| ==> IsNameChar(n[k])
    requires rest == [] || !IsNameChar(rest[0])
    ensures SplitName(n + rest) == (n, rest)
    decreases |n|
  {
    if n != [] {
      assert (n + rest)[0] == n[0] && (n + rest)[1..] == n[1..] + rest;
      SplitNameOf(n[1..], rest);
      assert [n[0]] + n[1..] == n;
    } else {
      assert n + rest == rest;
    }
  }

  lemma ReadNameOf(n: string, rest: string)
    requires IsName(n)
    requires rest == [] || !IsNameChar(rest[0])
    ensures ReadName(n + rest) == Some((n, rest))
  {
    SplitNameOf(n, rest);
  }

  // ---------------------------------------------------------------- reading arguments

  /** `key: literal` at the front of `s`. */
  function ReadArgPair(s: string): (r: Option<((string, Lit), string)>)
    ensures r.Some? ==> |r.value.1| < |s|
  {
    match ReadName(s)
    case None => None
    case Some((key, afterKey)) =>
      if !StartsWith(afterKey, ": ") then None
      else
        match ReadLit(afterKey[2..])
        case None => None
        case Some((v, rest)) => Some(((key, v), rest))
  }

  /** Pairs separated by `, ` up to and including the closing parenthesis. */
  function ReadArgPairs(s: string): (r: Option<(Args, string)>)
    ensures r.Some? ==> |r.value.1| < |s|
    decreases |s|
  {
    match ReadArgPair(s)
    case None => None
    case Some((pair, rest)) =>
      if StartsWith(rest, ", ") then
        match ReadArgPairs(rest[2..])
        case None => None
        case Some((more, after)) => Some(([pair] + more, after))
      else if StartsWith(rest, ")") then Some(([pair], rest[1..]))
      else None
  }

  /** An optional argument list at the front of `s`: none when `s` does not open one. */
  function ReadArgs(s: string): (r: Option<(Args, string)>)
    ensures r.Some? ==> |r.value.1| <= |s|
  {
    if StartsWith(s, " (") then ReadArgPairs(s[2..]) else Some(([], s))
  }

  predicate KeysAreNames(args: Args)
  {
    forall k :: 0 <= k < |args| ==> IsName(args[k].0)
  }

  lemma ReadArgPairOf(pair: (string, Lit), rest: string)
    requires IsName(pair.0)
    requires rest == [] || !IsDigit(rest[0])
    ensures ReadArgPair(FormatArgPair(pair) + rest) == Some((pair, rest))
  {
    var tail := ": " + Encode(pair.1) + rest;
    assert FormatArgPair(pair) + rest == pair.0 + tail;
    ReadNameOf(pair.0, tail);
    assert tail[2..] == Encode(pair.1) + rest;
    ReadEncoded(pair.1, rest);
  }

  /** The last pair of a list, followed by its closing parenthesis. */
  lemma ReadLastArgPair(pair: (string, Lit), rest: string)
    requires IsName(pair.0)
    ensures ReadArgPairs(FormatArgPair(pair) + ")" + rest) == Some(([pair], rest))
  {
    var tail := ")" + rest;
    assert FormatArgPair(pair) + ")" + rest == FormatArgPair(pair) + tail;
    ReadArgPairOf(pair, tail);
    assert StartsWith(tail, ")") && !StartsWith(tail, ", ");
    assert tail[1..] == rest;
  }

  /** A pair followed by a separator: the reading continues after the separator. */
  lemma ReadArgPairThenMore(pair: (string, Lit), more: string)
    requires IsName(pair.0)
    ensures ReadArgPairs(FormatArgPair(pair) + ", " + more) ==
      match ReadArgPairs(more)
      case None => None
      case Some((ps, after)) => Some(([pair] + ps, after))
  {
    var tail := ", " + more;
    assert FormatArgPair(pair) + ", " + more == FormatArgPair(pair) + tail;
    ReadArgPairOf(pair, tail);
    assert StartsWith(tail, ", ") && tail[2..] == more;
  }

  lemma {:induction false} ReadArgPairsOf(args: Args, rest: string)
    requires args != [] && KeysAreNames(args)
    ensures ReadArgPairs(Join(FormatArgPairs(args)) + ")" + rest) == Some((args, rest))
    decreases |args|
  {
    var ps := FormatArgPairs(args);
    if |args| == 1 {
      ReadLastArgPair(args[0], rest);
      assert [args[0]] == args;
    } else {
      var more := Join(FormatArgPairs(args[1..]));
      assert ps[1..] == FormatArgPairs(args[1..]);
      assert Join(ps) + ")" + rest == FormatArgPair(args[0]) + ", " + (more + ")" + rest);
      ReadArgPairThenMore(args[0], more + ")" + rest);
      ReadArgPairsOf(args[1..], rest);
      assert [args[0]] + args[1..] == args;
    }
  }

  /**
    Formatting loses nothing: an argument list whose keys are names reads
    back as the same pairs in the same order, from the front of any text
    that does not itself open an argument list.
   */
  lemma ReadFormattedArgs(args: Args, rest: string)
    requires KeysAreNames(args)
    requires !StartsWith(rest, " (")
    ensures ReadArgs(FormatArgs(args) + rest) == Some((args, rest))
  {
    if args == [] {
      assert FormatArgs(args) + rest == rest;
    } else {
      var body := Join(FormatArgPairs(args)) + ")" + rest;
      assert FormatArgs(args) + rest == " (" + body;
      assert (" (" + body)[..2] == " (" && (" (" + body)[2..] == body;
      ReadArgPairsOf(args, rest);
    }
  }
}
