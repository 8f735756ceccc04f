/**
  Route matching (lib/simpler/router/route.rb).

  A route template such as "/tests/:id" is compiled into a list of tokens:
  a literal character, or a named parameter that stands for one or more
  characters none of which is '/'. The source builds an anchored regular
  expression by replacing every `:name` with `(?<name>[^/]+)`; the token list
  is that regular expression, and `Fill` describes exactly the set of paths it
  accepts. `MatchTokens` is a deterministic matcher, proved sound and complete
  for that set.
 */
module Router {
  import opened Wrappers

  datatype Token = Lit(c: char) | Param(name: string)

  /** Length of the longest prefix of `s` containing no '/'. */
  function SegmentLength(s: string): (k: nat)
    ensures k <= |s|
    ensures forall i :: 0 <= i < k ==> s[i] != '/'
    ensures k < |s| ==> s[k] == '/'
  {
    if |s| == 0 || s[0] == '/' then 0 else 1 + SegmentLength(s[1..])
  }

  /** A path segment as a parameter captures it: non-empty, without '/'. */
  predicate IsSegment(s: string) {
    |s| > 0 && forall i :: 0 <= i < |s| ==> s[i] != '/'
  }

  // ---------------------------------------------------------------------
  // Compiling a template (build_path_pattern)
  // ---------------------------------------------------------------------

  /** Scans the template left to right as `gsub(/:[^\/]+/)` does: a ':'
      followed by at least one non-'/' character starts a parameter whose
      name runs up to the next '/' or the end; every other character is
      literal text. */
  function Tokenize(t: string): seq<Token>
    decreases |t|
  {
    if |t| == 0 then []
    else if t[0] == ':' && SegmentLength(t[1..]) > 0 then
      var k := SegmentLength(t[1..]);
      [Param(t[1..k + 1])] + Tokenize(t[k + 1..])
    else
      [Lit(t[0])] + Tokenize(t[1..])
  }

  /** The template text a token list stands for. */
  function Template(toks: seq<Token>): string {
    if |toks| == 0 then []
    else match toks[0]
      case Lit(c) => [c] + Template(toks[1..])
      case Param(n) => [':'] + n + Template(toks[1..])
  }

  /** The template text of one token. */
  function TokenText(x: Token): string {
    match x
    case Lit(c) => [c]
    case Param(n) => [':'] + n
  }

  lemma TemplateCons(x: Token, rest: seq<Token>)
    ensures Template([x] + rest) == TokenText(x) + Template(rest)
  {
    assert ([x] + rest)[1..] == rest;
  }

  /** Compilation keeps all literal text in place: the template can be read back. */
  lemma {:induction false} TokenizeRoundTrip(t: string)
    ensures Template(Tokenize(t)) == t
    decreases |t|
  {
    if |t| > 0 {
      var n := TokenizeHead(t);
      TokenizeRoundTrip(t[n..]);
      TemplateCons(Tokenize(t)[0], Tokenize(t[n..]));
    }
  }

  /** The first token of a non-empty template stands for its first `n`
      characters, and the rest is compiled from what follows. */
  lemma TokenizeHead(t: string) returns (n: nat)
    requires |t| > 0
    ensures 0 < n <= |t|
    ensures Tokenize(t) == [Tokenize(t)[0]] + Tokenize(t[n..])
    ensures TokenText(Tokenize(t)[0]) + t[n..] == t
  {
    if t[0] == ':' && SegmentLength(t[1..]) > 0 {
      n := SegmentLength(t[1..]) + 1;
      assert t[1..n] + t[n..] == t[1..];
    } else {
      n := 1;
    }
    assert [t[0]] + t[1..] == t;
  }

  /** Every parameter has a non-empty name without '/' and is followed by a
      literal '/' or by the end of the template. */
  ghost predicate WellFormed(toks: seq<Token>) {
    forall i :: 0 <= i < |toks| && toks[i].Param? ==>
      IsSegment(toks[i].name) && (i + 1 == |toks| || toks[i + 1] == Lit('/'))
  }

  lemma {:induction false} TokenizeWellFormed(t: string)
    ensures WellFormed(Tokenize(t))
    decreases |t|
  {
    if |t| == 0 {
    } else if t[0] == ':' && SegmentLength(t[1..]) > 0 {
      var k := SegmentLength(t[1..]);
      var rest := Tokenize(t[k + 1..]);
      TokenizeWellFormed(t[k + 1..]);
      if k + 1 < |t| {
        assert t[k + 1] == '/';
        assert rest[0] == Lit('/');
      }
      var toks := [Param(t[1..k + 1])] + rest;
      assert toks == Tokenize(t);
      forall i | 0 <= i < |toks| && toks[i].Param?
        ensures IsSegment(toks[i].name) && (i + 1 == |toks| || toks[i + 1] == Lit('/'))
      {
        if i > 0 {
          assert toks[i] == rest[i - 1];
        }
      }
    } else {
      var rest := Tokenize(t[1..]);
      TokenizeWellFormed(t[1..]);
      var toks := [Lit(t[0])] + rest;
      assert toks == Tokenize(t);
      forall i | 0 <= i < |toks| && toks[i].Param?
        ensures IsSegment(toks[i].name) && (i + 1 == |toks| || toks[i + 1] == Lit('/'))
      {
        assert toks[i] == rest[i - 1];
      }
    }
  }

  /** A ':' stays literal text only where `:[^/]+` cannot match at it: just
      before a '/' or at the end of the template. */
  ghost predicate ColonsLiteral(toks: seq<Token>) {
    forall i :: 0 <= i < |toks| && toks[i] == Lit(':') ==> i + 1 == |toks| || toks[i + 1] == Lit('/')
  }

  lemma ColonsLiteralPrepend(x: Token, rest: seq<Token>)
    requires ColonsLiteral(rest)
    requires x == Lit(':') ==> rest == [] || rest[0] == Lit('/')
    ensures ColonsLiteral([x] + rest)
  {
    var toks := [x] + rest;
    forall i | 0 <= i < |toks| && toks[i] == Lit(':')
      ensures i + 1 == |toks| || toks[i + 1] == Lit('/')
    {
      if i > 0 {
        assert toks[i] == rest[i - 1];
      }
      if i + 1 < |toks| {
        assert toks[i + 1] == rest[i];
      }
    }
  }

  /** With the two lemmas above this fixes the token list as gsub's
      left-to-right, longest split. */
  lemma {:induction false} TokenizeColonsLiteral(t: string)
    ensures ColonsLiteral(Tokenize(t))
    decreases |t|
  {
    if |t| == 0 {
    } else if t[0] == ':' && SegmentLength(t[1..]) > 0 {
      var k := SegmentLength(t[1..]);
      TokenizeColonsLiteral(t[k + 1..]);
      ColonsLiteralPrepend(Param(t[1..k + 1]), Tokenize(t[k + 1..]));
    } else {
      var rest := Tokenize(t[1..]);
      TokenizeColonsLiteral(t[1..]);
      if t[0] == ':' && |t| > 1 {
        assert t[1..][0] == '/';
        assert rest[0] == Lit('/');
      }
      ColonsLiteralPrepend(Lit(t[0]), rest);
    }
  }

  /** The parameter names in the order they appear (MatchData#names). */
  function ParamNames(toks: seq<Token>): (names: seq<string>)
    ensures |names| <= |toks|
  {
    if |toks| == 0 then []
    else match toks[0]
      case Lit(_) => ParamNames(toks[1..])
      case Param(n) => [n] + ParamNames(toks[1..])
  }

  predicate Distinct(names: seq<string>) {
    forall i, j :: 0 <= i < j < |names| ==> names[i] != names[j]
  }

  /** Characters that mean something else than themselves in a Ruby regular expression. */
  const RegexMeta: set<char> := {'.', '*', '+', '?', '(', ')', '[', ']', '{', '}', '|', '^', '$', '\\'}

  predicate IsWordStart(c: char) {
    ('a' <= c <= 'z') || ('A' <= c <= 'Z') || c == '_'
  }

  /** An ASCII name Ruby accepts in `(?<name>...)`: a letter or '_', then
      letters, digits and '_'. Ruby also accepts non-ASCII word characters,
      which the model does not cover. */
  predicate IsGroupName(n: string) {
    |n| > 0 && IsWordStart(n[0]) &&
    forall i :: 0 < i < |n| ==> IsWordStart(n[i]) || ('0' <= n[i] <= '9')
  }

  /** Templates the model covers: literal text matches itself, and each
      parameter becomes a distinct, valid named group. */
  predicate SupportedTemplate(t: string) {
    var toks := Tokenize(t);
    (forall i :: 0 <= i < |toks| ==>
       (toks[i].Lit? ==> toks[i].c !in RegexMeta) &&
       (toks[i].Param? ==> IsGroupName(toks[i].name))) &&
    Distinct(ParamNames(toks))
  }

  // ---------------------------------------------------------------------
  // The language of a compiled template, and matching against it
  // ---------------------------------------------------------------------

  /** The path obtained by putting `caps[j]` in place of the j-th parameter. */
  function Fill(toks: seq<Token>, caps: seq<string>): string
    requires |caps| == |ParamNames(toks)|
  {
    if |toks| == 0 then []
    else match toks[0]
      case Lit(c) => [c] + Fill(toks[1..], caps)
      case Param(_) => caps[0] + Fill(toks[1..], caps[1..])
  }

  /** Anchored match of a whole path (path_matches?): the captures in order,
      or None. A parameter takes every character up to the next '/'. */
  function MatchTokens(toks: seq<Token>, p: string): (r: Option<seq<string>>)
    ensures r.Some? ==> |r.value| == |ParamNames(toks)|
    ensures r.Some? ==> forall j :: 0 <= j < |r.value| ==> IsSegment(r.value[j])
  {
    if |toks| == 0 then (if |p| == 0 then Some([]) else None)
    else match toks[0]
      case Lit(c) =>
        if |p| > 0 && p[0] == c then MatchTokens(toks[1..], p[1..]) else None
      case Param(_) =>
        var k := SegmentLength(p);
        if k == 0 then None
        else match MatchTokens(toks[1..], p[k..])
          case None => None
          case Some(rest) => Some([p[..k]] + rest)
  }

  /** Soundness: a successful match consumes the whole path, which is the
      template with the captures put back in place of its parameters. */
  lemma {:induction false} MatchSound(toks: seq<Token>, p: string)
    requires MatchTokens(toks, p).Some?
    ensures Fill(toks, MatchTokens(toks, p).value) == p
  {
    var caps := MatchTokens(toks, p).value;
    if |toks| > 0 {
      match toks[0]
      case Lit(c) =>
        MatchSound(toks[1..], p[1..]);
        assert [p[0]] + p[1..] == p;
      case Param(_) =>
        var k := SegmentLength(p);
        MatchSound(toks[1..], p[k..]);
        assert caps[1..] == MatchTokens(toks[1..], p[k..]).value;
        assert p[..k] + p[k..] == p;
    }
  }

  lemma {:induction false} SegmentLengthOfConcat(a: string, b: string)
    requires forall i :: 0 <= i < |a| ==> a[i] != '/'
    requires |b| == 0 || b[0] == '/'
    ensures SegmentLength(a + b) == |a|
    decreases |a|
  {
    if |a| > 0 {
      SegmentLengthOfConcat(a[1..], b);
      assert (a + b)[1..] == a[1..] + b;
    } else {
      assert a + b == b;
    }
  }

  /** Completeness: on a well-formed template, every path of the template's
      language is matched, with exactly the segments it was built from. */
  lemma {:induction false} MatchComplete(toks: seq<Token>, caps: seq<string>)
    requires WellFormed(toks)
    requires |caps| == |ParamNames(toks)|
    requires forall j :: 0 <= j < |caps| ==> IsSegment(caps[j])
    ensures MatchTokens(toks, Fill(toks, caps)) == Some(caps)
  {
    if |toks| > 0 {
      var rest := toks[1..];
      assert WellFormed(rest) by {
        forall i | 0 <= i < |rest| && rest[i].Param?
          ensures IsSegment(rest[i].name) && (i + 1 == |rest| || rest[i + 1] == Lit('/'))
        {
          assert rest[i] == toks[i + 1];
        }
      }
      match toks[0]
      case Lit(c) =>
        var p := Fill(toks, caps);
        MatchComplete(rest, caps);
        assert p[1..] == Fill(rest, caps);
      case Param(_) =>
        var tail := Fill(rest, caps[1..]);
        var p := Fill(toks, caps);
        assert p == caps[0] + tail;
        if |rest| > 0 {
          assert rest[0] == Lit('/');
          assert tail[0] == '/';
        }
        SegmentLengthOfConcat(caps[0], tail);
        MatchComplete(rest, caps[1..]);
        assert p[..|caps[0]|] == caps[0];
        assert p[|caps[0]|..] == tail;
        assert [caps[0]] + caps[1..] == caps;
    }
  }

  // ---------------------------------------------------------------------
  // Anchoring: '/' separators are counted exactly
  // ---------------------------------------------------------------------

  /** Number of literal '/' characters of a template. */
  function SlashLits(toks: seq<Token>): nat {
    if |toks| == 0 then 0
    else (if toks[0] == Lit('/') then 1 else 0) + SlashLits(toks[1..])
  }

  lemma {:induction false} SlashesOfFill(toks: seq<Token>, caps: seq<string>)
    requires |caps| == |ParamNames(toks)|
    requires forall j :: 0 <= j < |caps| ==> IsSegment(caps[j])
    ensures multiset(Fill(toks, caps))['/'] == SlashLits(toks)
  {
    if |toks| > 0 {
      match toks[0]
      case Lit(c) =>
        SlashesOfFill(toks[1..], caps);
        assert Fill(toks, caps) == [c] + Fill(toks[1..], caps);
      case Param(_) =>
        SlashesOfFill(toks[1..], caps[1..]);
        assert '/' !in caps[0];
        assert Fill(toks, caps) == caps[0] + Fill(toks[1..], caps[1..]);
    }
  }

  /** A matched path has exactly as many '/' as the template has literal ones. */
  lemma MatchedSlashes(toks: seq<Token>, p: string)
    requires MatchTokens(toks, p).Some?
    ensures multiset(p)['/'] == SlashLits(toks)
  {
    MatchSound(toks, p);
    SlashesOfFill(toks, MatchTokens(toks, p).value);
  }

  /** So a path that extends a matched path by anything containing '/'
      (such as "/tests/42/extra" after "/tests/42") never matches: matching
      is anchored and parameters never cross '/'. */
  lemma AnchoredAgainstExtraSegments(toks: seq<Token>, p: string, extra: string)
    requires MatchTokens(toks, p).Some?
    requires '/' in extra
    ensures MatchTokens(toks, p + extra).None?
  {
    MatchedSlashes(toks, p);
    assert multiset(p + extra) == multiset(p) + multiset(extra);
    assert multiset(p + extra)['/'] != SlashLits(toks);
    if MatchTokens(toks, p + extra).Some? {
      MatchedSlashes(toks, p + extra);
    }
  }

  // ---------------------------------------------------------------------
  // Parameters (extract_params)
  // ---------------------------------------------------------------------

  /** `names.zip(captures).to_h`: a later pair overwrites an earlier one. */
  function ExtractParams(names: seq<string>, caps: seq<string>): map<string, string>
    requires |names| == |caps|
  {
    if |names| == 0 then map[]
    else
      var n := |names| - 1;
      ExtractParams(names[..n], caps[..n])[names[n] := caps[n]]
  }

  /** With distinct names, the map has exactly the names as keys and sends
      each to its own capture. */
  lemma {:induction false} ExtractParamsLookup(names: seq<string>, caps: seq<string>)
    requires |names| == |caps|
    requires Distinct(names)
    ensures forall x :: x in ExtractParams(names, caps) <==> x in names
    ensures forall i :: 0 <= i < |names| ==> ExtractParams(names, caps)[names[i]] == caps[i]
  {
    if |names| > 0 {
      var n := |names| - 1;
      ExtractParamsLookup(names[..n], caps[..n]);
      var m := ExtractParams(names, caps);
      forall x ensures x in m <==> x in names {
        if x in names[..n] {
          var i :| 0 <= i < n && names[..n][i] == x;
          assert names[i] == x;
        }
        if x in names && x != names[n] {
          var i :| 0 <= i < |names| && names[i] == x;
          assert names[..n][i] == x;
        }
      }
      forall i | 0 <= i < |names|
        ensures m[names[i]] == caps[i]
      {
        if i < n {
          assert names[..n][i] == names[i] && caps[..n][i] == caps[i];
          assert names[i] != names[n];
        }
      }
    }
  }

  /** A match of the whole path, turned into the parameter map. */
  function MatchPath(toks: seq<Token>, p: string): Option<map<string, string>> {
    match MatchTokens(toks, p)
    case None => None
    case Some(caps) => Some(ExtractParams(ParamNames(toks), caps))
  }

  /** Every parameter of the template is a key of `m`. */
  ghost predicate Covers(toks: seq<Token>, m: map<string, string>) {
    forall i :: 0 <= i < |toks| && toks[i].Param? ==> toks[i].name in m
  }

  /** The template with each parameter replaced by its value in `m`. */
  function Substitute(toks: seq<Token>, m: map<string, string>): string
    requires Covers(toks, m)
  {
    if |toks| == 0 then []
    else match toks[0]
      case Lit(c) => [c] + Substitute(toks[1..], m)
      case Param(n) => m[n] + Substitute(toks[1..], m)
  }

  /** A template's parameter tokens are exactly its parameter names. */
  lemma {:induction false} CoversIffNames(toks: seq<Token>, m: map<string, string>)
    ensures Covers(toks, m) <==> forall x :: x in ParamNames(toks) ==> x in m
  {
    if |toks| > 0 {
      var rest := toks[1..];
      CoversIffNames(rest, m);
      assert Covers(toks, m) <==> (toks[0].Param? ==> toks[0].name in m) && Covers(rest, m) by {
        if Covers(toks, m) {
          forall i | 0 <= i < |rest| && rest[i].Param? ensures rest[i].name in m {
            assert rest[i] == toks[i + 1];
          }
        }
        if (toks[0].Param? ==> toks[0].name in m) && Covers(rest, m) {
          forall i | 0 <= i < |toks| && toks[i].Param? ensures toks[i].name in m {
            if i > 0 { assert toks[i] == rest[i - 1]; }
          }
        }
      }
    }
  }

  lemma {:induction false} SubstituteIsFill(toks: seq<Token>, m: map<string, string>, caps: seq<string>)
    requires Covers(toks, m)
    requires |caps| == |ParamNames(toks)|
    requires forall j :: 0 <= j < |caps| ==> ParamNames(toks)[j] in m && m[ParamNames(toks)[j]] == caps[j]
    ensures Substitute(toks, m) == Fill(toks, caps)
  {
    if |toks| > 0 {
      var rest := toks[1..];
      assert Covers(rest, m) by {
        forall i | 0 <= i < |rest| && rest[i].Param? ensures rest[i].name in m {
          assert rest[i] == toks[i + 1];
        }
      }
      match toks[0]
      case Lit(c) =>
        SubstituteIsFill(rest, m, caps);
      case Param(n) =>
        assert ParamNames(toks)[0] == n;
        forall j | 0 <= j < |caps[1..]|
          ensures ParamNames(rest)[j] in m && m[ParamNames(rest)[j]] == caps[1..][j]
        {
          assert ParamNames(rest)[j] == ParamNames(toks)[j + 1];
        }
        SubstituteIsFill(rest, m, caps[1..]);
    }
  }

  /** Round trip: putting the extracted parameters back into the template
      reproduces the matched path. */
  lemma ParamsRoundTrip(toks: seq<Token>, p: string)
    requires Distinct(ParamNames(toks))
    requires MatchPath(toks, p).Some?
    ensures Covers(toks, MatchPath(toks, p).value)
    ensures Substitute(toks, MatchPath(toks, p).value) == p
  {
    var caps := MatchTokens(toks, p).value;
    var m := MatchPath(toks, p).value;
    ExtractParamsLookup(ParamNames(toks), caps);
    CoversIffNames(toks, m);
    SubstituteIsFill(toks, m, caps);
    MatchSound(toks, p);
  }

  /** The converse round trip: any assignment of segments to the template's
      parameters yields a path that matches, giving back that assignment. */
  lemma SubstituteMatches(toks: seq<Token>, m: map<string, string>)
    requires WellFormed(toks)
    requires Distinct(ParamNames(toks))
    requires Covers(toks, m)
    requires forall n :: n in m && n in ParamNames(toks) ==> IsSegment(m[n])
    ensures MatchPath(toks, Substitute(toks, m))
         == Some(map n | n in m && n in ParamNames(toks) :: m[n])
  {
    var names := ParamNames(toks);
    CoversIffNames(toks, m);
    var caps := Lookups(names, m);
    assert forall j :: 0 <= j < |caps| ==> IsSegment(caps[j]);
    SubstituteIsFill(toks, m, caps);
    MatchComplete(toks, caps);
    assert MatchPath(toks, Substitute(toks, m)) == Some(ExtractParams(names, caps));
    ExtractParamsRestricts(names, m);
  }

  /** Zipping names with their own values in `m` restricts `m` to those names. */
  lemma ExtractParamsRestricts(names: seq<string>, m: map<string, string>)
    requires Distinct(names)
    requires forall x :: x in names ==> x in m
    ensures ExtractParams(names, Lookups(names, m)) == map n | n in m && n in names :: m[n]
  {
    var caps := Lookups(names, m);
    ExtractParamsLookup(names, caps);
    var got := ExtractParams(names, caps);
    var want := map n | n in m && n in names :: m[n];
    assert got.Keys == want.Keys;
    forall n | n in got ensures got[n] == want[n] {
      var j :| 0 <= j < |names| && names[j] == n;
    }
  }

  /** The values of `names` in `m`, in order. */
  function Lookups(names: seq<string>, m: map<string, string>): (vals: seq<string>)
    requires forall x :: x in names ==> x in m
    ensures |vals| == |names|
    ensures forall j :: 0 <= j < |names| ==> vals[j] == m[names[j]]
  {
    if |names| == 0 then [] else [m[names[0]]] + Lookups(names[1..], m)
  }

  // ---------------------------------------------------------------------
  // The Route object
  // ---------------------------------------------------------------------

  /** A method+template binding. The only state that changes is `params`,
      which a successful `Match` overwrites. */
  class Route {
    const verb: string
    const path: string
    const controller: string
    const action: string
    const pattern: seq<Token>
    var params: map<string, string>

    /** Method and action are kept as symbols (equal exactly when their
        names are equal), the template is compiled, and params start empty. */
    constructor (verb: string, path: string, controller: string, action: string)
      requires SupportedTemplate(path)
      ensures this.verb == verb && this.path == path
      ensures this.controller == controller && this.action == action
      ensures pattern == Tokenize(path) && WellFormed(pattern)
      ensures Distinct(ParamNames(pattern))
      ensures params == map[]
    {
      this.verb := verb;
      this.path := path;
      this.controller := controller;
      this.action := action;
      this.pattern := Tokenize(path);
      this.params := map[];
      TokenizeWellFormed(path);
    }

    /** `match?`: the method first, then the whole path; on success the
        captured parameters replace `params`, on failure nothing changes. */
    method Match(requestMethod: string, requestPath: string) returns (matched: bool)
      modifies this`params
      ensures matched <==> requestMethod == verb && MatchPath(pattern, requestPath).Some?
      ensures matched ==> params == MatchPath(pattern, requestPath).value
      ensures !matched ==> params == old(params)
    {
      if requestMethod != verb {
        return false;
      }
      var captures := MatchTokens(pattern, requestPath);
      if captures.Some? {
        params := ExtractParams(ParamNames(pattern), captures.value);
        matched := true;
      } else {
        matched := false;
      }
    }
  }

  // ---------------------------------------------------------------------
  // The route table's own templates as examples
  // ---------------------------------------------------------------------

  /** Literal text as tokens. */
  function Lits(s: string): (toks: seq<Token>)
    ensures |toks| == |s|
  {
    if |s| == 0 then [] else [Lit(s[0])] + Lits(s[1..])
  }

  lemma {:induction false} TokenizeLiteralPrefix(lit: string, rest: string)
    requires ':' !in lit
    ensures Tokenize(lit + rest) == Lits(lit) + Tokenize(rest)
  {
    if |lit| > 0 {
      TokenizeLiteralPrefix(lit[1..], rest);
      assert (lit + rest)[1..] == lit[1..] + rest;
    } else {
      assert lit + rest == rest;
    }
  }

  lemma {:induction false} MatchLiteralPrefix(lit: string, toks: seq<Token>, p: string)
    ensures MatchTokens(Lits(lit) + toks, lit + p) == MatchTokens(toks, p)
    ensures ParamNames(Lits(lit) + toks) == ParamNames(toks)
  {
    if |lit| > 0 {
      MatchLiteralPrefix(lit[1..], toks, p);
      assert (Lits(lit) + toks)[1..] == Lits(lit[1..]) + toks;
      assert (lit + p)[1..] == lit[1..] + p;
    } else {
      assert Lits(lit) + toks == toks;
      assert lit + p == p;
    }
  }

  /** The compiled form of "/tests/:id". */
  const TestsId: seq<Token> := Lits("/tests/") + [Param("id")]

  lemma TestsIdCompiles()
    ensures Tokenize("/tests/:id") == TestsId
  {
    assert "/tests/:id" == "/tests/" + ":id";
    TokenizeLiteralPrefix("/tests/", ":id");
    assert SegmentLength("id") == 2;
    assert ":id"[1..] == "id" && ":id"[1..3] == "id" && ":id"[3..] == "";
    assert Tokenize(":id") == [Param("id")];
  }

  lemma MatchId(seg: string)
    requires IsSegment(seg)
    ensures MatchTokens(TestsId, "/tests/" + seg) == Some([seg])
  {
    var id := [Param("id")];
    MatchLiteralPrefix("/tests/", id, seg);
    SegmentLengthOfConcat(seg, "");
    assert seg + "" == seg;
    assert id[1..] == [];
    assert seg[|seg|..] == "";
    assert MatchTokens(id[1..], seg[|seg|..]) == Some([]);
    assert [seg[..|seg|]] + [] == [seg];
  }

  /** "/tests/:id" takes "/tests/42" with id "42". */
  lemma TestsIdTakesOneSegment()
    ensures MatchPath(TestsId, "/tests/42") == Some(map["id" := "42"])
  {
    MatchId("42");
    assert "/tests/" + "42" == "/tests/42";
    assert ParamNames(TestsId) == ["id"] by {
      MatchLiteralPrefix("/tests/", [Param("id")], "");
    }
    assert ExtractParams(["id"], ["42"]) == map["id" := "42"];
  }

  /** "/tests/:id" refuses a missing segment ... */
  lemma TestsIdRefusesEmpty()
    ensures MatchPath(TestsId, "/tests/").None?
  {
    MatchLiteralPrefix("/tests/", [Param("id")], "");
    assert "/tests/" + "" == "/tests/";
  }

  /** ... and extra segments. */
  lemma TestsIdRefusesExtra()
    ensures MatchPath(TestsId, "/tests/42/extra").None?
  {
    MatchLiteralPrefix("/tests/", [Param("id")], "42/extra");
    assert "/tests/" + "42/extra" == "/tests/42/extra";
    assert SegmentLength("42/extra") == 2;
  }

  lemma TestsIdRefusesTwoSegments()
    ensures MatchPath(TestsId, "/tests/a/b").None?
  {
    MatchLiteralPrefix("/tests/", [Param("id")], "a/b");
    assert "/tests/" + "a/b" == "/tests/a/b";
    assert SegmentLength("a/b") == 1;
  }
}
