/**
  Builder callbacks and the trailing parameters of a builder call.
  A callback is a script of builder calls that the builder runs on the
  child set it hands over; `noop` is the empty script.  The trailing
  `...paramArgsCallback` of `addField`/`addConnection` is a sequence of
  parameters, each an argument mapping or a callback, and
  `getArgsAndCallback` decides which is which.
 */
module Commands {
  import opened Format

  datatype Callback = Script(cmds: seq<Cmd>)

  datatype Param = ArgsParam(args: Args) | CallbackParam(cb: Callback)

  datatype Cmd =
    | CallAddField(name: string, params: seq<Param>)
    | CallAddConnection(name: string, params: seq<Param>)
    | CallAddInlineFragmentOn(typeName: string, cb: Callback)

  /** The `noop` callback. */
  const Noop: Callback := Script([])

  /** The `args` and `callback` slots after dispatch. */
  datatype Dispatch = Dispatch(args: Param, callback: Param)

  const Defaults: Dispatch := Dispatch(ArgsParam([]), CallbackParam(Noop))

  /**
    `getArgsAndCallback`: one parameter fills the slot its kind names; two
    are taken positionally as (args, callback), whatever their kinds; none,
    or three and more, leave both slots at their defaults.
   */
  function GetArgsAndCallback(params: seq<Param>): (r: Dispatch)
    ensures r.args in params || r.args == Defaults.args
    ensures r.callback in params || r.callback == Defaults.callback
    ensures |params| == 1 ==> (r.callback == params[0] <==> params[0].CallbackParam?)
    ensures |params| == 1 ==> (r.args == params[0] <==> params[0].ArgsParam?)
    ensures |params| == 2 ==> r.args == params[0] && r.callback == params[1]
    ensures |params| != 1 && |params| != 2 ==> r == Defaults
  {
    var r := Dispatch(ArgsParam([]), CallbackParam(Noop));
    if |params| == 1 then
      if params[0].CallbackParam? then r.(callback := params[0]) else r.(args := params[0])
    else if |params| == 2 then Dispatch(params[0], params[1])
    else r
  }

  /**
    The argument mapping a slot stands for when it is formatted: a callback
    in the args slot is a function object, which has no enumerable keys.
   */
  function ArgsOf(p: Param): Args
  {
    if p.ArgsParam? then p.args else []
  }

  /** The parameter lists a caller writes on purpose: nothing, args, a callback, or args then a callback. */
  predicate IntendedCall(params: seq<Param>)
  {
    || params == []
    || (|params| == 1)
    || (|params| == 2 && params[0].ArgsParam? && params[1].CallbackParam?)
  }

  /** What a caller means by such a list: every args parameter is the args, every callback is the callback. */
  ghost function Intended(params: seq<Param>): Dispatch
  {
    var args := if exists k :: 0 <= k < |params| && params[k].ArgsParam?
                then var k :| 0 <= k < |params| && params[k].ArgsParam?; params[k] else Defaults.args;
    var callback := if exists k :: 0 <= k < |params| && params[k].CallbackParam?
                    then var k :| 0 <= k < |params| && params[k].CallbackParam?; params[k] else Defaults.callback;
    Dispatch(args, callback)
  }

  /** On every intended call the dispatch recovers what the caller meant, in either form of the call. */
  lemma DispatchRecoversIntent(params: seq<Param>)
    requires IntendedCall(params)
    ensures GetArgsAndCallback(params) == Intended(params)
  {
    if |params| == 2 {
      assert forall k :: 0 <= k < 2 && params[k].ArgsParam? ==> k == 0;
      assert forall k :: 0 <= k < 2 && params[k].CallbackParam? ==> k == 1;
    }
  }

  // ---------------------------------------------------------------- termination measure

  /*
    The builder calls are mutually recursive: a call runs its callback, whose
    calls run theirs.  A connection call runs two fixed scripts of its own, so
    the measure counts connection calls first and the size of the script second.
   */

  function Conns(c: Cmd): nat
  {
    match c
    case CallAddField(_, ps) => ConnsParams(ps)
    case CallAddConnection(_, ps) => 1 + ConnsParams(ps)
    case CallAddInlineFragmentOn(_, cb) => ConnsSeq(cb.cmds)
  }

  function ConnsSeq(cs: seq<Cmd>): nat
  {
    if cs == [] then 0 else Conns(cs[0]) + ConnsSeq(cs[1..])
  }

  function ConnsParam(p: Param): nat
  {
    if p.ArgsParam? then 0 else ConnsSeq(p.cb.cmds)
  }

  function ConnsParams(ps: seq<Param>): nat
  {
    if ps == [] then 0 else ConnsParam(ps[0]) + ConnsParams(ps[1..])
  }

  function Size(c: Cmd): nat
  {
    match c
    case CallAddField(_, ps) => 1 + SizeParams(ps)
    case CallAddConnection(_, ps) => 1 + SizeParams(ps)
    case CallAddInlineFragmentOn(_, cb) => 1 + SizeSeq(cb.cmds)
  }

  function SizeSeq(cs: seq<Cmd>): nat
  {
    if cs == [] then 0 else Size(cs[0]) + SizeSeq(cs[1..])
  }

  function SizeParam(p: Param): nat
  {
    if p.ArgsParam? then 1 else 1 + SizeSeq(p.cb.cmds)
  }

  function SizeParams(ps: seq<Param>): nat
  {
    if ps == [] then 0 else SizeParam(ps[0]) + SizeParams(ps[1..])
  }

  lemma {:induction false} ParamWithin(ps: seq<Param>, p: Param)
    requires p in ps
    ensures ConnsParam(p) <= ConnsParams(ps) && SizeParam(p) <= SizeParams(ps)
    decreases |ps|
  {
    if ps[0] != p {
      ParamWithin(ps[1..], p);
    }
  }

  lemma {:induction false} CmdWithin(cs: seq<Cmd>, k: nat)
    requires k < |cs|
    ensures Conns(cs[k]) <= ConnsSeq(cs) && Size(cs[k]) <= SizeSeq(cs)
    decreases |cs|
  {
    if k > 0 {
      CmdWithin(cs[1..], k - 1);
    }
  }

  /** The dispatched callback is no larger than the parameters it came from. */
  lemma DispatchedWithin(params: seq<Param>)
    ensures ConnsParam(GetArgsAndCallback(params).callback) <= ConnsParams(params)
    ensures SizeParam(GetArgsAndCallback(params).callback) <= SizeParams(params) + 1
  {
    var cb := GetArgsAndCallback(params).callback;
    if cb in params {
      ParamWithin(params, cb);
    }
  }
}
