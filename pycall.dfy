/** How CPython binds the arguments of a call to a plain Python function
    (positional-or-keyword parameters, some with defaults, no `*args` and no
    `**kwargs`), and the `TypeError` text it raises when they do not fit.
    Two calls in the bot do not fit the functions they call, so this decides
    what those calls do. */
module PyCall {

  import opened PyText

  datatype Param = Param(name: string, hasDefault: bool)

  /** `qualname` is the function's `__qualname__`; `params` its parameters in
      order. */
  datatype Signature = Signature(qualname: string, params: seq<Param>)

  /** A call site: how many positional arguments it passes and the names of
      its keyword arguments, in order. */
  datatype Call = Call(positional: nat, keywords: seq<string>)

  datatype Outcome = Binds | TypeError(message: string)

  /** Python refuses a `def` that repeats a parameter name. */
  predicate DistinctNames(ps: seq<Param>) {
    forall i, j :: 0 <= i < j < |ps| ==> ps[i].name != ps[j].name
  }

  function Names(ps: seq<Param>): seq<string> {
    seq(|ps|, i requires 0 <= i < |ps| => ps[i].name)
  }

  function Quote(name: string): string {
    "'" + name + "'"
  }

  /** CPython's list of missing names: `'a'`, `'a' and 'b'`,
      `'a', 'b', and 'c'`, `'a', 'b', 'c', and 'd'`: the names are separated
      by commas, and with three or more the last comma is followed by
      "and". */
  function JoinNames(names: seq<string>): (r: string)
    ensures names == [] <==> r == []
    ensures names != [] ==> StartsWith(r, Quote(names[0])) && EndsWith(r, Quote(names[|names| - 1]))
    ensures |names| == 2 ==> EndsWith(r, " and " + Quote(names[1]))
    ensures |names| >= 3 ==> EndsWith(r, ", and " + Quote(names[|names| - 1]))
    decreases |names|
  {
    if |names| == 0 then ""
    else if |names| == 1 then
      ConcatEnds(Quote(names[0]), []);
      Quote(names[0])
    else if |names| == 2 then
      TwoNames(Quote(names[0]), Quote(names[1]));
      Quote(names[0]) + (" and " + Quote(names[1]))
    else if |names| == 3 then
      ThreeNames(Quote(names[0]), Quote(names[1]), Quote(names[2]));
      Quote(names[0]) + (", " + Quote(names[1]) + (", and " + Quote(names[2])))
    else
      var rest := JoinNames(names[1..]);
      assert names[1..][|names| - 2] == names[|names| - 1];
      MoreNames(Quote(names[0]), rest, Quote(names[|names| - 1]));
      Quote(names[0]) + (", " + rest)
  }

  lemma TwoNames(a: string, b: string)
    ensures var r := a + (" and " + b);
      StartsWith(r, a) && EndsWith(r, b) && EndsWith(r, " and " + b)
  {
    ConcatEnds(a, " and " + b);
    ConcatEnds(" and ", b);
    EndsWithTrans(a + (" and " + b), " and " + b, b);
  }

  lemma ThreeNames(a: string, b: string, c: string)
    ensures var r := a + (", " + b + (", and " + c));
      StartsWith(r, a) && EndsWith(r, c) && EndsWith(r, ", and " + c)
  {
    var tail := ", and " + c;
    ConcatEnds(a, ", " + b + tail);
    ConcatEnds(", " + b, tail);
    ConcatEnds(", and ", c);
    EndsWithTrans(a + (", " + b + tail), ", " + b + tail, tail);
    EndsWithTrans(a + (", " + b + tail), tail, c);
  }

  lemma MoreNames(a: string, rest: string, last: string)
    requires EndsWith(rest, ", and " + last) && EndsWith(rest, last)
    ensures var r := a + (", " + rest);
      StartsWith(r, a) && EndsWith(r, last) && EndsWith(r, ", and " + last)
  {
    ConcatEnds(a, ", " + rest);
    ConcatEnds(", ", rest);
    EndsWithTrans(a + (", " + rest), ", " + rest, rest);
    EndsWithTrans(a + (", " + rest), rest, ", and " + last);
    EndsWithTrans(a + (", " + rest), rest, last);
  }

  function Plural(n: nat, word: string): string {
    if n == 1 then word else word + "s"
  }

  /** The required parameters a call leaves unfilled: those past the
      positional arguments, with no default, not named by a keyword. */
  function Missing(ps: seq<Param>, positional: nat, keywords: seq<string>): (m: seq<string>)
    ensures |m| <= |ps|
    ensures forall x :: x in m ==> x !in keywords
    ensures forall x :: x in m ==> exists j :: positional <= j < |ps| && ps[j].name == x && !ps[j].hasDefault
    ensures forall j :: positional <= j < |ps| && !ps[j].hasDefault && ps[j].name !in keywords ==> ps[j].name in m
    decreases |ps|
  {
    if ps == [] then []
    else
      var rest := Missing(ps[1..], if positional == 0 then 0 else positional - 1, keywords);
      assert forall j :: 1 <= j < |ps| ==> ps[1..][j - 1] == ps[j];
      if positional == 0 && !ps[0].hasDefault && ps[0].name !in keywords then [ps[0].name] + rest
      else rest
  }

  /** The first keyword that names no parameter, or one already filled
      positionally, with its message; CPython checks keywords first. */
  function KeywordError(sig: Signature, positional: nat, keywords: seq<string>): (e: Outcome)
    requires DistinctNames(sig.params)
    ensures e.Binds? <==> forall i :: 0 <= i < |keywords| ==>
      exists j :: positional <= j < |sig.params| && sig.params[j].name == keywords[i]
  {
    var names := Names(sig.params);
    assert |names| == |sig.params| && forall j :: 0 <= j < |names| ==> names[j] == sig.params[j].name;
    if keywords == [] then Binds
    else if keywords[0] !in names then
      TypeError(sig.qualname + "() got an unexpected keyword argument " + Quote(keywords[0]))
    else if keywords[0] in names[..if positional < |names| then positional else |names|] then
      TypeError(sig.qualname + "() got multiple values for argument " + Quote(keywords[0]))
    else
      var k0 := keywords[0];
      assert exists j :: positional <= j < |sig.params| && sig.params[j].name == k0 by {
        var j :| 0 <= j < |names| && names[j] == k0;
        assert !(j < positional);
      }
      KeywordError(sig, positional, keywords[1..])
  }

  /** How many parameters have a default: none exactly when every
      parameter is required, all exactly when none is. */
  function CountDefaults(ps: seq<Param>): (d: nat)
    ensures d <= |ps|
    ensures d == 0 <==> forall i :: 0 <= i < |ps| ==> !ps[i].hasDefault
    ensures d == |ps| <==> forall i :: 0 <= i < |ps| ==> ps[i].hasDefault
  {
    if ps == [] then 0 else (if ps[0].hasDefault then 1 else 0) + CountDefaults(ps[1..])
  }

  /** What calling a function with signature `sig` the way `call` does
      gives: either the arguments bind, or the `TypeError` CPython raises,
      checked in CPython's order (keywords, too many positionals, missing
      required ones). */
  function Bind(sig: Signature, call: Call): (o: Outcome)
    requires DistinctNames(sig.params)
    ensures o.Binds? ==> call.positional <= |sig.params|
    ensures o.Binds? ==> Missing(sig.params, call.positional, call.keywords) == []
  {
    var n := |sig.params|;
    var kw := KeywordError(sig, call.positional, call.keywords);
    if kw.TypeError? then kw
    else if call.positional > n then
      var lo := n - CountDefaults(sig.params);
      TypeError(sig.qualname + "() takes "
        + (if lo == n then NatToString(n) else "from " + NatToString(lo) + " to " + NatToString(n))
        + " positional " + (if lo == n then Plural(n, "argument") else "arguments") + " but " + NatToString(call.positional)
        + (if call.positional == 1 then " was given" else " were given"))
    else
      var missing := Missing(sig.params, call.positional, call.keywords);
      if missing == [] then Binds
      else TypeError(sig.qualname + "() missing " + NatToString(|missing|) + " required positional "
        + Plural(|missing|, "argument") + ": " + JoinNames(missing))
  }

  /** A call binds exactly when every keyword names a parameter not already
      filled positionally, there are no more positionals than parameters, and
      every required parameter is filled. */
  lemma BindsIff(sig: Signature, call: Call)
    requires DistinctNames(sig.params)
    ensures Bind(sig, call).Binds? <==>
      && (forall i :: 0 <= i < |call.keywords| ==>
            exists j :: call.positional <= j < |sig.params| && sig.params[j].name == call.keywords[i])
      && call.positional <= |sig.params|
      && (forall j :: call.positional <= j < |sig.params| && !sig.params[j].hasDefault ==>
            sig.params[j].name in call.keywords)
  {
    var kw := KeywordError(sig, call.positional, call.keywords);
    var missing := Missing(sig.params, call.positional, call.keywords);
    assert Bind(sig, call).Binds? <==> kw.Binds? && call.positional <= |sig.params| && missing == [];
    MissingEmptyIff(sig.params, call.positional, call.keywords);
  }

  lemma {:induction false} MissingEmptyIff(ps: seq<Param>, positional: nat, keywords: seq<string>)
    ensures Missing(ps, positional, keywords) == [] <==>
      forall j :: positional <= j < |ps| && !ps[j].hasDefault ==> ps[j].name in keywords
    decreases |ps|
  {
    if ps != [] {
      var p' := if positional == 0 then 0 else positional - 1;
      MissingEmptyIff(ps[1..], p', keywords);
      if positional == 0 {
        assert forall j :: 1 <= j < |ps| ==> ps[1..][j - 1] == ps[j];
      } else {
        assert forall j :: positional <= j < |ps| ==> ps[1..][j - 1] == ps[j];
      }
    }
  }
}
