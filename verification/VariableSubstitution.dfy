/** Replacing $names in a query template by their values: one leftmost-longest scan, one pass. */
module VariableSubstitution {

  import opened Prelude
  import opened Decimals

  // ----- scanning -----

  predicate IsNameStart(c: char) {
    'a' <= c <= 'z' || 'A' <= c <= 'Z' || c == '_'
  }

  predicate IsNameChar(c: char) {
    IsNameStart(c) || '0' <= c <= '9' || c == '.'
  }

  /** A piece of a template: a character that stands for itself, or a variable. */
  datatype Token = Text(c: char) | Var(name: string)

  /** How many name characters the string begins with. */
  function NameLength(s: string): (n: nat)
    ensures n <= |s| && forall i :: 0 <= i < n ==> IsNameChar(s[i])
    ensures n < |s| ==> !IsNameChar(s[n])
  {
    if s == "" || !IsNameChar(s[0]) then 0 else 1 + NameLength(s[1..])
  }

  predicate StartsVariable(s: string) {
    |s| >= 2 && s[0] == '$' && IsNameStart(s[1])
  }

  /** The matches of `\\$([a-zA-Z_][a-zA-Z0-9_.]*)`, leftmost first and as long as they go, and what lies between. */
  function Tokens(s: string): seq<Token>
    decreases |s|
  {
    if s == "" then []
    else if StartsVariable(s) then
      var n := NameLength(s[1..]);
      [Var(s[1..1 + n])] + Tokens(s[1 + n..])
    else [Text(s[0])] + Tokens(s[1..])
  }

  function TokenString(t: Token): string {
    if t.Text? then [t.c] else "$" + t.name
  }

  function Unparse(ts: seq<Token>): string {
    if ts == [] then "" else TokenString(ts[0]) + Unparse(ts[1..])
  }

  lemma UnparseOne(t: Token, ts: seq<Token>)
    ensures Unparse([t] + ts) == TokenString(t) + Unparse(ts)
  {
    assert ([t] + ts)[1..] == ts;
  }

  /** The scan loses nothing. */
  lemma {:induction false} TokensAreLossless(s: string)
    ensures Unparse(Tokens(s)) == s
    decreases |s|
  {
    if s == "" {
    } else if StartsVariable(s) {
      var n := NameLength(s[1..]);
      var name, rest := s[1..1 + n], s[1 + n..];
      TokensAreLossless(rest);
      assert s == "$" + name + rest;
      assert Tokens(s) == [Var(name)] + Tokens(rest);
      UnparseOne(Var(name), Tokens(rest));
    } else {
      TokensAreLossless(s[1..]);
      UnparseOne(Text(s[0]), Tokens(s[1..]));
      assert s == [s[0]] + s[1..];
    }
  }

  predicate IsName(s: string) {
    s != "" && IsNameStart(s[0]) && forall i :: 0 <= i < |s| ==> IsNameChar(s[i])
  }

  /** A token that the text after it does not change: a name that could not be longer, a dollar that begins no name. */
  predicate EndsBefore(t: Token, rest: string) {
    match t
    case Var(name) => IsName(name) && (rest == "" || !IsNameChar(rest[0]))
    case Text(c) => c == '$' ==> rest == "" || !IsNameStart(rest[0])
  }

  predicate IsMaximalMunch(ts: seq<Token>) {
    ts == [] || (EndsBefore(ts[0], Unparse(ts[1..])) && IsMaximalMunch(ts[1..]))
  }

  lemma {:induction false} TokensAreMaximalMunch(s: string)
    ensures IsMaximalMunch(Tokens(s))
    decreases |s|
  {
    if s == "" {
    } else if StartsVariable(s) {
      var n := NameLength(s[1..]);
      TokensAreMaximalMunch(s[1 + n..]);
      TokensAreLossless(s[1 + n..]);
      assert Tokens(s)[1..] == Tokens(s[1 + n..]);
      assert n > 0 && IsName(s[1..1 + n]);
      assert n < |s[1..]| ==> s[1 + n..][0] == s[1..][n];
    } else {
      TokensAreMaximalMunch(s[1..]);
      TokensAreLossless(s[1..]);
      assert Tokens(s)[1..] == Tokens(s[1..]);
    }
  }

  lemma {:induction false} NameLengthIs(name: string, rest: string)
    requires forall i :: 0 <= i < |name| ==> IsNameChar(name[i])
    requires rest == "" || !IsNameChar(rest[0])
    ensures NameLength(name + rest) == |name|
  {
    if name == "" {
      assert name + rest == rest;
    } else {
      NameLengthIs(name[1..], rest);
      assert (name + rest)[1..] == name[1..] + rest;
    }
  }

  lemma ScanVariable(name: string, rest: string)
    requires EndsBefore(Var(name), rest)
    ensures Tokens("$" + name + rest) == [Var(name)] + Tokens(rest)
  {
    var s := "$" + name + rest;
    NameLengthIs(name, rest);
    assert s[1..] == name + rest && s[1] == name[0];
    assert s[1..1 + |name|] == name && s[1 + |name|..] == rest;
  }

  lemma ScanText(c: char, rest: string)
    requires EndsBefore(Text(c), rest)
    ensures Tokens([c] + rest) == [Text(c)] + Tokens(rest)
  {
    var s := [c] + rest;
    assert s[1..] == rest;
    assert !StartsVariable(s);
  }

  lemma ScanToken(t: Token, rest: string)
    requires EndsBefore(t, rest)
    ensures Tokens(TokenString(t) + rest) == [t] + Tokens(rest)
  {
    match t
    case Var(name) => ScanVariable(name, rest);
    case Text(c) => ScanText(c, rest);
  }

  /** There is only one maximal-munch reading of a template, and the scan finds it. */
  lemma {:induction false} TokensAreUnique(ts: seq<Token>)
    requires IsMaximalMunch(ts)
    ensures Tokens(Unparse(ts)) == ts
  {
    if ts != [] {
      TokensAreUnique(ts[1..]);
      ScanToken(ts[0], Unparse(ts[1..]));
      assert ts == [ts[0]] + ts[1..];
    }
  }

  // ----- substituting -----

  type Bindings = map<string, string>

  /** What a token is replaced by. */
  function Piece(t: Token, merged: Bindings): string {
    if t.Var? && t.name in merged then merged[t.name] else TokenString(t)
  }

  function Expand(ts: seq<Token>, merged: Bindings): string {
    if ts == [] then "" else Piece(ts[0], merged) + Expand(ts[1..], merged)
  }

  function Unresolved(template: string, merged: Bindings): set<string> {
    set t | t in Tokens(template) && t.Var? && t.name !in merged :: t.name
  }

  /** An ISO 8601 span in whole seconds, rounded up; None where a time is malformed. */
  type Span = (string, string) -> Option<int>

  datatype Result = Ok(query: string) | UnresolvedVariables(names: set<string>) | BadTime

  const INTERVAL := "interval"
  const DURATION := "DURATION_SECONDS"

  predicate IsSet(s: Option<string>) {
    s.Some? && s.value != ""
  }

  method Substitute(template: string, variables: Bindings, startIso: Option<string>, endIso: Option<string>,
                    intervalOverride: Option<string>, span: Span)
    returns (result: Result, ghost merged: Bindings)
    ensures IsMerged(variables, startIso, endIso, intervalOverride, span, merged)
    ensures result.BadTime?
      <==> ComputesDuration(variables, startIso, endIso, intervalOverride) && span(startIso.value, endIso.value).None?
    ensures result.UnresolvedVariables? ==> result.names != {} && result.names == Unresolved(template, merged)
    ensures result.Ok? ==> Unresolved(template, merged) == {} && result.query == Expand(Tokens(template), merged)
  {
    var bound := variables;
    if intervalOverride.Some? {
      bound := bound[INTERVAL := intervalOverride.value];
    }
    merged := bound;
    if DURATION !in bound && IsSet(startIso) && IsSet(endIso) {
      var seconds := span(startIso.value, endIso.value);
      if seconds.None? {
        return BadTime, merged;
      }
      bound := bound[DURATION := IntString(seconds.value) + "s"];
      merged := bound;
    }
    var unresolved := Unresolved(template, bound);
    if unresolved != {} {
      return UnresolvedVariables(unresolved), merged;
    }
    result := Ok(Expand(Tokens(template), bound));
  }

  /** The duration is computed when both times are given and the caller has not bound it. */
  predicate ComputesDuration(variables: Bindings, startIso: Option<string>, endIso: Option<string>,
      intervalOverride: Option<string>)
  {
    DURATION !in variables && IsSet(startIso) && IsSet(endIso)
  }

  /**
    * Precedence: the interval override over the variables, the variables over the computed duration; nothing else
    * is bound.
    */
  ghost predicate IsMerged(variables: Bindings, startIso: Option<string>, endIso: Option<string>,
                           intervalOverride: Option<string>, span: Span, merged: Bindings) {
    forall name :: Lookup(merged, name) ==
      if name == INTERVAL && intervalOverride.Some? then intervalOverride
      else if name in variables then Some(variables[name])
      else if name == DURATION && ComputesDuration(variables, startIso, endIso, intervalOverride)
        && span(startIso.value, endIso.value).Some?
      then Some(IntString(span(startIso.value, endIso.value).value) + "s")
      else None
  }

  function Lookup(merged: Bindings, name: string): Option<string> {
    if name in merged then Some(merged[name]) else None
  }

  // ----- what the output is -----

  lemma Regroup(x: string, y: string, z: string)
    ensures x + (y + z) == (x + y) + z
  {}

  lemma ExpandOne(t: Token, ts: seq<Token>, merged: Bindings)
    ensures Expand([t] + ts, merged) == Piece(t, merged) + Expand(ts, merged)
  {
    assert ([t] + ts)[1..] == ts;
  }

  /** The output, token by token: each token of the template yields its own piece, wherever it stands. */
  lemma {:induction false} ExpandJoins(a: seq<Token>, b: seq<Token>, merged: Bindings)
    ensures Expand(a + b, merged) == Expand(a, merged) + Expand(b, merged)
  {
    if a == [] {
      assert a + b == b;
    } else {
      ExpandJoins(a[1..], b, merged);
      assert (a + b)[1..] == a[1..] + b;
      Regroup(Piece(a[0], merged), Expand(a[1..], merged), Expand(b, merged));
    }
  }

  lemma VariableYieldsValue(before: seq<Token>, name: string, after: seq<Token>, merged: Bindings)
    requires name in merged
    ensures Expand(before + ([Var(name)] + after), merged)
      == Expand(before, merged) + (merged[name] + Expand(after, merged))
  {
    ExpandJoins(before, [Var(name)] + after, merged);
    ExpandOne(Var(name), after, merged);
  }

  /** A value is put in as it is, dollars and all, and is not looked at again. */
  lemma ValuesAreNotRescanned(template: string, before: seq<Token>, name: string, after: seq<Token>, merged: Bindings)
    requires name in merged && Tokens(template) == before + ([Var(name)] + after)
    ensures Expand(Tokens(template), merged) == Expand(before, merged) + (merged[name] + Expand(after, merged))
    ensures template == Unparse(before) + ("$" + name + Unparse(after))
  {
    VariableYieldsValue(before, name, after, merged);
    TokensAreLossless(template);
    var self: Bindings := map[];
    ExpandSelf(Tokens(template), self);
    ExpandSelf(before, self);
    ExpandSelf(after, self);
    ExpandJoins(before, [Var(name)] + after, self);
    ExpandOne(Var(name), after, self);
  }

  /** Binding every name to its own placeholder gives the template back. */
  lemma SelfBindingIsIdentity(template: string, merged: Bindings)
    requires forall name :: name in merged ==> merged[name] == "$" + name
    ensures Expand(Tokens(template), merged) == template
  {
    ExpandSelf(Tokens(template), merged);
    TokensAreLossless(template);
  }

  lemma {:induction false} ExpandSelf(ts: seq<Token>, merged: Bindings)
    requires forall name :: name in merged ==> merged[name] == "$" + name
    ensures Expand(ts, merged) == Unparse(ts)
  {
    if ts != [] { ExpandSelf(ts[1..], merged); }
  }

  /** Only the names in the template matter. */
  lemma {:induction false} OtherBindingsDoNotMatter(ts: seq<Token>, m1: Bindings, m2: Bindings)
    requires forall t :: t in ts && t.Var? ==> Lookup(m1, t.name) == Lookup(m2, t.name)
    ensures Expand(ts, m1) == Expand(ts, m2)
  {
    if ts != [] {
      assert ts[0] in ts;
      OtherBindingsDoNotMatter(ts[1..], m1, m2);
    }
  }
}
