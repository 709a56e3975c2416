/**
 * `#include` handling in the engine's shader loader. The directives are
 * collected once, by scanning the original shader text for the pattern
 * `#include\s+"([^"]+)"` left to right; then, in that order, each
 * directive's text is replaced by the fetched file at its first occurrence
 * in the current text. Text that the included files bring in is not scanned
 * again.
 *
 * Fetching is a total function from URL to text. The replacement is
 * literal: the `$` patterns of `String.prototype.replace` are not modelled.
 */
module ShaderInclude {
  import opened Common

  const Keyword: string := "#include"

  /** `\s` of an ECMAScript regular expression: the WhiteSpace and LineTerminator code points. */
  predicate IsSpace(c: char) {
    var n := c as int;
    n == 0x09 || n == 0x0A || n == 0x0B || n == 0x0C || n == 0x0D || n == 0x20 || n == 0xA0
    || n == 0x1680 || (0x2000 <= n <= 0x200A) || n == 0x2028 || n == 0x2029 || n == 0x202F
    || n == 0x205F || n == 0x3000 || n == 0xFEFF
  }

  /** The length of the longest run of `\s` characters starting at `i` (what a greedy `\s+` takes). */
  function SpaceRun(s: string, i: nat): (k: nat)
    requires i <= |s|
    ensures i + k <= |s|
    ensures forall j :: i <= j < i + k ==> IsSpace(s[j])
    ensures i + k == |s| || !IsSpace(s[i + k])
    decreases |s| - i
  {
    if i < |s| && IsSpace(s[i]) then 1 + SpaceRun(s, i + 1) else 0
  }

  /** The length of the longest run of characters other than `"` starting at `i` (a greedy `[^"]+`). */
  function PathRun(s: string, i: nat): (k: nat)
    requires i <= |s|
    ensures i + k <= |s|
    ensures forall j :: i <= j < i + k ==> s[j] != '"'
    ensures i + k == |s| || s[i + k] == '"'
    decreases |s| - i
  {
    if i < |s| && s[i] != '"' then 1 + PathRun(s, i + 1) else 0
  }

  /** One match of the include pattern: where it starts, the matched text and the captured path. */
  datatype Directive = Directive(start: nat, text: string, path: string)

  /** `text` is `#include`, one or more `\s`, then `"path"` with a non-empty path free of quotes. */
  predicate Wellformed(d: Directive) {
    && |d.path| >= 1
    && (forall j :: 0 <= j < |d.path| ==> d.path[j] != '"')
    && |d.text| >= |Keyword| + 1 + |d.path| + 2
    && d.text[..|Keyword|] == Keyword
    && (forall j :: |Keyword| <= j < |d.text| - |d.path| - 2 ==> IsSpace(d.text[j]))
    && d.text[|d.text| - |d.path| - 2..] == "\"" + d.path + "\""
  }

  /** The directive's text stands in `s` at its start position. */
  predicate Occurs(s: string, d: Directive) {
    d.start + |d.text| <= |s| && s[d.start..d.start + |d.text|] == d.text
  }

  /** The pattern tried at position `p`; backtracking cannot help either greedy run, so a match is unique. */
  function MatchAt(s: string, p: nat): (r: Option<Directive>)
    requires p <= |s|
    ensures r.Some? ==> r.value.start == p && Wellformed(r.value) && Occurs(s, r.value)
    ensures r.Some? ==> p + |Keyword| <= |s| && s[p..p + |Keyword|] == Keyword
  {
    if p + |Keyword| <= |s| && s[p..p + |Keyword|] == Keyword then
      var k := SpaceRun(s, p + |Keyword|);
      var q := p + |Keyword| + k;
      if k >= 1 && q < |s| && s[q] == '"' then
        var m := PathRun(s, q + 1);
        var e := q + 1 + m;
        if m >= 1 && e < |s| then
          MatchedDirective(s, p, q, e);
          Some(Directive(p, s[p..e + 1], s[q + 1..e]))
        else None
      else None
    else None
  }

  /** The text from `p` to the closing quote at `e`, when the scan found its parts, is a well-formed directive. */
  lemma MatchedDirective(s: string, p: nat, q: nat, e: nat)
    requires p + |Keyword| < q && q + 1 < e < |s|
    requires s[p..p + |Keyword|] == Keyword
    requires forall j :: p + |Keyword| <= j < q ==> IsSpace(s[j])
    requires s[q] == '"' && s[e] == '"'
    requires forall j :: q < j < e ==> s[j] != '"'
    ensures var d := Directive(p, s[p..e + 1], s[q + 1..e]); Wellformed(d) && Occurs(s, d)
  {
    var d := Directive(p, s[p..e + 1], s[q + 1..e]);
    assert d.text[..|Keyword|] == s[p..p + |Keyword|];
    assert |d.text| - |d.path| - 2 == q - p;
    assert forall j :: |Keyword| <= j < q - p ==> d.text[j] == s[p + j];
    assert d.text[q - p..] == s[q..e + 1] == [s[q]] + s[q + 1..e] + [s[e]];
  }

  /** `matchAll` with the global flag from position `p`: after a match the scan resumes at its end. */
  function ScanFrom(s: string, p: nat): (r: seq<Directive>)
    requires p <= |s|
    ensures forall i :: 0 <= i < |r| ==> Wellformed(r[i]) && Occurs(s, r[i]) && p <= r[i].start
    ensures forall i :: 0 <= i < |r| - 1 ==> r[i].start + |r[i].text| <= r[i + 1].start
    decreases |s| - p
  {
    if p == |s| then []
    else
      match MatchAt(s, p)
      case Some(d) => [d] + ScanFrom(s, p + |d.text|)
      case None => ScanFrom(s, p + 1)
  }

  /** Every match of the include pattern in `s`, in order and without overlap. */
  function Directives(s: string): seq<Directive> {
    ScanFrom(s, 0)
  }

  /** `pat` stands in `s` at position `j`. */
  predicate OccursAt(s: string, pat: string, j: nat) {
    j + |pat| <= |s| && s[j..j + |pat|] == pat
  }

  /** The first position at or after `from` where `pat` occurs, as `String.prototype.indexOf`. */
  function IndexOf(s: string, pat: string, from: nat): (r: Option<nat>)
    ensures r.Some? ==> from <= r.value && OccursAt(s, pat, r.value)
    ensures r.Some? ==> forall j :: from <= j < r.value ==> !OccursAt(s, pat, j)
    ensures r.None? ==> forall j :: from <= j ==> !OccursAt(s, pat, j)
    decreases |s| - from
  {
    if from + |pat| > |s| then None
    else if OccursAt(s, pat, from) then Some(from)
    else IndexOf(s, pat, from + 1)
  }

  /** `s.includes(pat)`. */
  predicate Includes(s: string, pat: string) {
    IndexOf(s, pat, 0).Some?
  }

  /** `s.replace(pat, rep)` with a string pattern: only the first occurrence is replaced, literally. */
  function ReplaceFirst(s: string, pat: string, rep: string): (r: string)
    ensures !Includes(s, pat) ==> r == s
    ensures Includes(s, pat) ==> var i := IndexOf(s, pat, 0).value;
      && |r| == |s| - |pat| + |rep|
      && r[..i] == s[..i] && OccursAt(r, rep, i) && r[i + |rep|..] == s[i + |pat|..]
  {
    match IndexOf(s, pat, 0)
    case None => s
    case Some(i) => s[..i] + rep + s[i + |pat|..]
  }

  /** The URL a shader file is fetched from. */
  function ShaderUrl(name: string): string {
    "/shaders/" + name
  }

  /** The replacements of `ds`, applied in order, each to the text the previous one left. */
  function ApplyAll(code: string, ds: seq<Directive>, fetch: string -> string): string
    decreases |ds|
  {
    if |ds| == 0 then code
    else ApplyAll(ReplaceFirst(code, ds[0].text, fetch(ShaderUrl(ds[0].path))), ds[1..], fetch)
  }

  /**
   * The shader text after include handling: untouched unless it contains
   * `#include`. The guard only saves work: the result is always the
   * directives of the original text applied in order.
   */
  function Resolve(code: string, fetch: string -> string): (r: string)
    ensures r == ApplyAll(code, Directives(code), fetch)
  {
    if Includes(code, Keyword) then ApplyAll(code, Directives(code), fetch)
    else
      NoKeywordNoDirectives(code);
      code
  }

  /** What `loadShaderModule` compiles for the file `name`: its text, fetched, with includes resolved. */
  function ShaderSource(name: string, fetch: string -> string): string {
    Resolve(fetch(ShaderUrl(name)), fetch)
  }

  /**
   * The loader's loop: the matches are taken from the original text once,
   * then each one rewrites the current text.
   */
  method ResolveIncludes(code: string, fetch: string -> string) returns (shaderCode: string)
    ensures shaderCode == Resolve(code, fetch)
  {
    shaderCode := code;
    if IndexOf(code, Keyword, 0).Some? {
      var matches := Directives(code);
      var i := 0;
      while i < |matches|
        invariant 0 <= i <= |matches|
        invariant ApplyAll(shaderCode, matches[i..], fetch) == ApplyAll(code, matches, fetch)
      {
        assert matches[i..][1..] == matches[i + 1..];
        var includeCode := fetch(ShaderUrl(matches[i].path));
        shaderCode := ReplaceFirst(shaderCode, matches[i].text, includeCode);
        i := i + 1;
      }
    }
  }

  /** Every directive found starts with `#include`, so text without it has no directives. */
  lemma NoKeywordNoDirectives(code: string)
    requires !Includes(code, Keyword)
    ensures Directives(code) == []
  {
    var ds := Directives(code);
    if |ds| > 0 {
      var d := ds[0];
      assert code[d.start..d.start + |d.text|][..|Keyword|] == Keyword;
      assert OccursAt(code, Keyword, d.start);
      assert false;
    }
  }

  /** Text without any directive comes back unchanged. */
  lemma NoDirectivesUnchanged(code: string, fetch: string -> string)
    requires Directives(code) == []
    ensures Resolve(code, fetch) == code
  {
  }

  /** The quote-free run of `prefix + path + "\""` from the start of `path` is `path` itself. */
  lemma {:induction false} PathRunOfPath(s: string, i: nat, path: string)
    requires i + |path| < |s| && s[i..i + |path|] == path && s[i + |path|] == '"'
    requires forall j :: 0 <= j < |path| ==> path[j] != '"'
    ensures PathRun(s, i) == |path|
    decreases |path|
  {
    if |path| > 0 {
      assert s[i] == path[0];
      assert s[i + 1..i + 1 + |path[1..]|] == path[1..];
      PathRunOfPath(s, i + 1, path[1..]);
    }
  }

  /**
   * A file that is a single directive resolves to the fetched text, whatever
   * that text contains: directives inside an included file stay unexpanded.
   */
  lemma SingleDirective(path: string, fetch: string -> string)
    requires |path| >= 1 && forall j :: 0 <= j < |path| ==> path[j] != '"'
    ensures Resolve(Keyword + " \"" + path + "\"", fetch) == fetch(ShaderUrl(path))
  {
    var code := Keyword + " \"" + path + "\"";
    var n := |Keyword|;
    assert code[..n] == Keyword;
    assert code[n] == ' ' && code[n + 1] == '"';
    assert SpaceRun(code, n + 1) == 0;
    assert SpaceRun(code, n) == 1;
    assert code[n + 2..n + 2 + |path|] == path;
    PathRunOfPath(code, n + 2, path);
    assert code[0..|code|] == code;
    var d := Directive(0, code, path);
    assert MatchAt(code, 0) == Some(d);
    assert ScanFrom(code, |code|) == [];
    assert Directives(code) == [d];
    assert IndexOf(code, code, 0) == Some(0);
    assert ApplyAll(code, [d], fetch) == ApplyAll(ReplaceFirst(code, code, fetch(ShaderUrl(path))), [], fetch);
  }
}
