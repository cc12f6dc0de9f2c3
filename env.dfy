/**
 * The workspace identifier `namespace/workspace` that the CLI writes to its
 * marker file and reads back: validation against `^[a-z0-9-]+/[a-z0-9-]+$`,
 * parsing, defaulting of the namespace and the two accessors. The regular
 * expression is replaced by an explicit character-class check, and
 * `strings.Split(s, "/")` by the function Split below.
 */
module Env {
  import opened Api

  const Pattern: string := "^[a-z0-9-]+/[a-z0-9-]+$"
  const DefaultNamespace: string := "default"

  /** The character class `[a-z0-9-]`. */
  predicate IsNameChar(c: char) {
    ('a' <= c <= 'z') || ('0' <= c <= '9') || c == '-'
  }

  /** `[a-z0-9-]+`: a non-empty run of name characters (so never containing '/'). */
  predicate IsName(s: string) {
    |s| > 0 && forall i :: 0 <= i < |s| ==> IsNameChar(s[i])
  }

  /** The language of the pattern, stated as "some '/' splits s into two names". */
  ghost predicate InPattern(s: string) {
    exists i :: 0 <= i < |s| && s[i] == '/' && IsName(s[..i]) && IsName(s[i + 1..])
  }

  /** The position of the first `c` in `s`, or |s| when there is none. */
  function IndexOf(s: string, c: char): (r: nat)
    ensures r <= |s|
    ensures r < |s| ==> s[r] == c
    ensures forall j :: 0 <= j < r ==> s[j] != c
    ensures r == |s| <==> c !in s
  {
    if |s| == 0 then 0
    else if s[0] == c then 0
    else 1 + IndexOf(s[1..], c)
  }

  /** The match of the pattern, as the scanner computes it. */
  function MatchesPattern(s: string): (r: bool)
    ensures r <==> InPattern(s)
  {
    PatternAtFirstSlash(s);
    var i := IndexOf(s, '/');
    i < |s| && IsName(s[..i]) && IsName(s[i + 1..])
  }

  /** A match can only split at the first '/', as names hold none. */
  lemma PatternAtFirstSlash(s: string)
    ensures InPattern(s) <==>
      var i := IndexOf(s, '/'); i < |s| && IsName(s[..i]) && IsName(s[i + 1..])
  {
    if InPattern(s) {
      var j :| 0 <= j < |s| && s[j] == '/' && IsName(s[..j]) && IsName(s[j + 1..]);
      NamesHaveNoSlash(s[..j]);
      FirstSlashAt(s, j);
    }
  }

  /** A '/' with none before it is the first one. */
  lemma FirstSlashAt(s: string, j: nat)
    requires j < |s| && s[j] == '/' && '/' !in s[..j]
    ensures IndexOf(s, '/') == j
  {
  }

  /** `strings.Split(s, "/")`. */
  function Split(s: string): (parts: seq<string>)
    ensures |parts| >= 1
    ensures |parts| == 1 <==> '/' !in s
    ensures forall k :: 0 <= k < |parts| ==> '/' !in parts[k]
    decreases |s|
  {
    var i := IndexOf(s, '/');
    if i == |s| then
      [s]
    else
      var rest := Split(s[i + 1..]);
      assert '/' !in s[..i] by {
        forall j | 0 <= j < i ensures s[..i][j] != '/' { }
      }
      [s[..i]] + rest
  }

  /** Splitting `a/b` where a holds no '/' gives a followed by the parts of b. */
  lemma {:induction false} SplitAtFirstSlash(a: string, b: string)
    requires '/' !in a
    ensures Split(a + "/" + b) == [a] + Split(b)
  {
    var s := a + "/" + b;
    IndexOfPrefix(a, b);
    assert s[..|a|] == a;
    assert s[|a| + 1..] == b;
  }

  /** The first '/' of `a/b` is the one right after a, when a holds none. */
  lemma {:induction false} IndexOfPrefix(a: string, b: string)
    requires '/' !in a
    ensures IndexOf(a + "/" + b, '/') == |a|
  {
    if |a| > 0 {
      assert (a + "/" + b)[1..] == a[1..] + "/" + b;
      IndexOfPrefix(a[1..], b);
    }
  }

  /** A namespaced workspace identifier; the string is the whole value. */
  datatype StokEnv = StokEnv(value: string) {

    /** The first part of the split. */
    function Namespace(): (r: string)
      ensures '/' !in r
    {
      Split(value)[0]
    }

    /**
     * The second part of the split. Go indexes it without a check, so a
     * string without '/' is outside the accessor's domain.
     */
    function Workspace(): (r: string)
      requires '/' in value
      ensures '/' !in r
    {
      Split(value)[1]
    }
  }

  /** r is the '/'-free field of s that starts at `start` and ends at the next '/' or the end. */
  predicate FieldAt(s: string, start: nat, r: string) {
    '/' !in r && start + |r| <= |s| && s[start..start + |r|] == r
    && (start + |r| == |s| || s[start + |r|] == '/')
  }

  /** Namespace() is the text before the first '/' (the whole string when there is none). */
  lemma {:induction false} NamespaceIsFirstField(env: StokEnv)
    ensures FieldAt(env.value, 0, env.Namespace())
  {
    var s := env.value;
    var i := IndexOf(s, '/');
    if i < |s| {
      assert Split(s)[0] == s[..i];
    }
  }

  /** Workspace() is the text between the first '/' and the next one (or the end). */
  lemma {:induction false} WorkspaceIsSecondField(env: StokEnv)
    requires '/' in env.value
    ensures FieldAt(env.value, |env.Namespace()| + 1, env.Workspace())
  {
    var s := env.value;
    var i := IndexOf(s, '/');
    SplitUnfold(s);
    NamespaceIsFirstField(StokEnv(s[i + 1..]));
    FieldOfSuffix(s, |env.Namespace()| + 1, env.Workspace());
  }

  /** A field at the start of the suffix s[k..] is a field of s at k. */
  lemma FieldOfSuffix(s: string, k: nat, r: string)
    requires k <= |s| && FieldAt(s[k..], 0, r)
    ensures FieldAt(s, k, r)
  {
    assert s[k..k + |r|] == s[k..][..|r|];
  }

  /** One unfolding of Split at the first '/'. */
  lemma {:induction false} SplitUnfold(s: string)
    requires '/' in s
    ensures var i := IndexOf(s, '/');
      Split(s)[0] == s[..i] && |Split(s)[0]| == i && Split(s)[1] == Split(s[i + 1..])[0]
  {
  }

  /** `Validate`: none on a matching identifier, the pattern error otherwise. */
  function Validate(s: string): (r: Option<Error>)
    ensures r == None <==> InPattern(s)
    ensures r != None ==> r == Some(PatternMismatch(Pattern))
  {
    if !MatchesPattern(s) then Some(PatternMismatch(Pattern)) else None
  }

  datatype Parsed = Parsed(namespace: string, workspace: string, err: Option<Error>)

  /** `ValidateAndParse`: split a valid identifier at its single '/'. */
  function ValidateAndParse(s: string): (r: Parsed)
    ensures r.err == None <==> InPattern(s)
    ensures r.err == None ==>
      && IsName(r.namespace) && IsName(r.workspace)
      && NewStokEnv(r.namespace, r.workspace).value == s
    ensures r.err != None ==>
      r == Parsed("", "", Some(PatternMismatch(Pattern)))
  {
    var err := Validate(s);
    if err.Some? then
      // the Go code returns its named results in swapped order here; both are empty
      Parsed("", "", err)
    else
      var i :| 0 <= i < |s| && s[i] == '/' && IsName(s[..i]) && IsName(s[i + 1..]);
      SplitOfValid(s, i);
      var parts := Split(s);
      Parsed(parts[0], parts[1], None)
  }

  /** A valid identifier splits into exactly its two names. */
  lemma {:induction false} SplitOfValid(s: string, i: nat)
    requires i < |s| && s[i] == '/' && IsName(s[..i]) && IsName(s[i + 1..])
    ensures Split(s) == [s[..i], s[i + 1..]]
    ensures s[..i] + "/" + s[i + 1..] == s
  {
    NamesHaveNoSlash(s[..i]);
    NamesHaveNoSlash(s[i + 1..]);
    assert s == s[..i] + "/" + s[i + 1..];
    SplitAtFirstSlash(s[..i], s[i + 1..]);
    assert Split(s[i + 1..]) == [s[i + 1..]];
  }

  lemma NamesHaveNoSlash(s: string)
    requires IsName(s)
    ensures '/' !in s
  {
  }

  /** `NewStokEnv`: the identifier `ns/ws`. */
  function NewStokEnv(ns: string, ws: string): (r: StokEnv)
    ensures |r.value| == |ns| + 1 + |ws| && r.value[|ns|] == '/'
    ensures r.value[..|ns|] == ns && r.value[|ns| + 1..] == ws
  {
    StokEnv(ns + "/" + ws)
  }

  /** Building an identifier from two slash-free parts and reading it back gives the parts. */
  lemma {:induction false} AccessorsRoundTrip(ns: string, ws: string)
    requires '/' !in ns && '/' !in ws
    ensures NewStokEnv(ns, ws).Namespace() == ns
    ensures NewStokEnv(ns, ws).Workspace() == ws
  {
    SplitAtFirstSlash(ns, ws);
    assert Split(ws) == [ws];
  }

  /** Building a valid identifier and parsing it gives the two names and no error. */
  lemma {:induction false} ParseRoundTrip(ns: string, ws: string)
    requires IsName(ns) && IsName(ws)
    ensures ValidateAndParse(NewStokEnv(ns, ws).value) == Parsed(ns, ws, None)
  {
    var s := NewStokEnv(ns, ws).value;
    assert s[..|ns|] == ns && s[|ns| + 1..] == ws;
    assert InPattern(s);
    NamesHaveNoSlash(ns);
    NamesHaveNoSlash(ws);
    SplitAtFirstSlash(ns, ws);
    assert Split(ws) == [ws];
  }

  /** Parsing agrees with the accessors on every valid identifier. */
  lemma {:induction false} ParseAgreesWithAccessors(s: string)
    requires InPattern(s)
    ensures '/' in s
    ensures ValidateAndParse(s) == Parsed(StokEnv(s).Namespace(), StokEnv(s).Workspace(), None)
  {
    var p := ValidateAndParse(s);
    NamesHaveNoSlash(p.namespace);
    NamesHaveNoSlash(p.workspace);
    AccessorsRoundTrip(p.namespace, p.workspace);
  }

  /** `WithOptionalNamespace`: prefix the default namespace when none is given. */
  function WithOptionalNamespace(s: string): (r: StokEnv)
    ensures r.value == if '/' in s then s else DefaultNamespace + "/" + s
    ensures '/' in r.value
  {
    var parts := Split(s);
    if |parts| == 1 then
      var r := StokEnv(DefaultNamespace + "/" + parts[0]);
      assert r.value[|DefaultNamespace|] == '/';
      r
    else
      StokEnv(s)
  }

  /** Defaulting the namespace twice is the same as doing it once. */
  lemma WithOptionalNamespaceIdempotent(s: string)
    ensures WithOptionalNamespace(WithOptionalNamespace(s).value) == WithOptionalNamespace(s)
  {
  }

  /** A bare workspace name gets the default namespace and keeps its name. */
  lemma {:induction false} DefaultedNamespace(ws: string)
    requires '/' !in ws
    ensures WithOptionalNamespace(ws).Namespace() == DefaultNamespace
    ensures WithOptionalNamespace(ws).Workspace() == ws
  {
    AccessorsRoundTrip(DefaultNamespace, ws);
  }
}
