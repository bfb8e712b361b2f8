/**
 * Route templates and their compiled patterns (route.go `addRoute`,
 * ngamux.go `paramsFinder`).
 *
 * A template is scanned for parameter tokens the way
 * `paramsFinder.FindAllStringSubmatch` finds them: a `:` followed by a
 * letter and then the longest run of letters and digits, or a single `+`.
 * The tokens are replaced by a capture group (`ReplaceAllString`), and the
 * resulting regular-expression text is compiled, anchored at both ends.
 *
 * Compilation is modelled for the fragment that this produces: literal
 * characters, `.` (any character but a newline) and the two capture-group
 * texts.  Any other regular-expression metacharacter in the literal part of
 * a template is reported as a compile failure.
 */
module Patterns {
  import opened Wrappers
  import opened Strs

  predicate IsLetter(c: char) { 'a' <= c <= 'z' || 'A' <= c <= 'Z' }
  predicate IsDigit(c: char) { '0' <= c <= '9' }
  predicate IsAlnum(c: char) { IsLetter(c) || IsDigit(c) }

  /** A scanned template: literal characters and parameter tokens. */
  datatype Piece = Text(c: char) | Param(name: string)

  /** Length of the longest prefix of `s` made of letters and digits. */
  function AlnumRun(s: string): (n: nat)
    ensures n <= |s|
    ensures forall i :: 0 <= i < n ==> IsAlnum(s[i])
    ensures n < |s| ==> !IsAlnum(s[n])
  {
    if s == [] || !IsAlnum(s[0]) then 0 else 1 + AlnumRun(s[1..])
  }

  /**
   * The tokens `(:[a-zA-Z]+[0-9a-zA-Z]*|\+)` finds, left to right, with the
   * characters between them.  The name of a token is its text without its
   * first character, so `+` has the empty name.
   */
  function Scan(t: string): seq<Piece>
    decreases |t|
  {
    if t == [] then []
    else if t[0] == '+' then [Param("")] + Scan(t[1..])
    else if t[0] == ':' && |t| > 1 && IsLetter(t[1]) then
      var n := AlnumRun(t[1..]);
      [Param(t[1..1 + n])] + Scan(t[1 + n..])
    else [Text(t[0])] + Scan(t[1..])
  }

  /** The template text a piece list stands for. */
  function Unscan(ps: seq<Piece>): string {
    if ps == [] then ""
    else match ps[0]
      case Text(c) => [c] + Unscan(ps[1..])
      case Param(name) => (if name == "" then "+" else ":" + name) + Unscan(ps[1..])
  }

  /** Scanning loses nothing: the pieces spell out the template again. */
  lemma {:induction false} ScanRoundTrip(t: string)
    ensures Unscan(Scan(t)) == t
    decreases |t|
  {
    if t != [] {
      if t[0] == '+' {
        ScanRoundTrip(t[1..]);
      } else if t[0] == ':' && |t| > 1 && IsLetter(t[1]) {
        var n := AlnumRun(t[1..]);
        ScanRoundTrip(t[1 + n..]);
        assert t == [':'] + t[1..1 + n] + t[1 + n..];
      } else {
        ScanRoundTrip(t[1..]);
        assert t == [t[0]] + t[1..];
      }
    }
  }

  /** Names of the parameter tokens, in template order. */
  function ParamNames(ps: seq<Piece>): (names: seq<string>)
    ensures |names| <= |ps|
  {
    if ps == [] then []
    else if ps[0].Param? then [ps[0].name] + ParamNames(ps[1..])
    else ParamNames(ps[1..])
  }

  /** The text of each token found, `+` or `:name`, in template order. */
  function TokenTexts(ps: seq<Piece>): (ts: seq<string>)
    ensures |ts| == |ParamNames(ps)|
    ensures forall i :: 0 <= i < |ts| ==> |ts[i]| >= 1 && ts[i][1..] == ParamNames(ps)[i]
  {
    if ps == [] then []
    else match ps[0]
      case Param(name) => [if name == "" then "+" else ":" + name] + TokenTexts(ps[1..])
      case Text(_) => TokenTexts(ps[1..])
  }

  /** Every name found is `""` (from `+`) or a letter followed by letters and digits. */
  lemma {:induction false} ScanNames(t: string)
    ensures forall i :: 0 <= i < |ParamNames(Scan(t))| ==>
      var nm := ParamNames(Scan(t))[i];
      nm == "" || (IsLetter(nm[0]) && forall j :: 0 <= j < |nm| ==> IsAlnum(nm[j]))
    ensures forall i :: 0 <= i < |Scan(t)| ==> Scan(t)[i] != Text('+')
    decreases |t|
  {
    if t != [] {
      if t[0] == '+' {
        ScanNames(t[1..]);
      } else if t[0] == ':' && |t| > 1 && IsLetter(t[1]) {
        ScanNames(t[1 + AlnumRun(t[1..])..]);
      } else {
        ScanNames(t[1..]);
      }
    }
  }

  /** The capture group each token becomes. */
  const ClassNoSlash: string := "([0-9a-zA-Z\\.\\-_]+)"
  const ClassSlash: string := "([0-9a-zA-Z\\.\\-/_]+)"

  function ClassText(allowSlash: bool): string {
    if allowSlash then ClassSlash else ClassNoSlash
  }

  /** A character the capture group admits. */
  predicate InClass(c: char, allowSlash: bool) {
    IsAlnum(c) || c == '.' || c == '-' || c == '_' || (allowSlash && c == '/')
  }

  /** `ReplaceAllString`: the regular-expression text of a scanned template. */
  function RegexText(ps: seq<Piece>, allowSlash: bool): string {
    if ps == [] then ""
    else match ps[0]
      case Text(c) => [c] + RegexText(ps[1..], allowSlash)
      case Param(_) => ClassText(allowSlash) + RegexText(ps[1..], allowSlash)
  }

  /** Characters with a meaning in Go's regular-expression syntax. */
  predicate IsMeta(c: char) {
    c in {'\\', '.', '+', '*', '?', '(', ')', '|', '[', ']', '{', '}', '^', '$'}
  }

  /** One element of a compiled pattern. */
  datatype Atom =
    | Lit(c: char)             // the character itself
    | AnyChar                  // `.`: any character but a newline
    | Slot(allowSlash: bool)   // a capture group: one or more class characters

  type Pattern = seq<Atom>

  /**
   * `regexp.Compile("^" + s + "$")` over the modelled fragment: `None` for a
   * text that is malformed or uses syntax outside the fragment.
   */
  function ParseRegex(s: string): Option<Pattern>
    decreases |s|
  {
    if s == [] then Some([])
    else if HasPrefix(s, ClassNoSlash) then
      match ParseRegex(s[|ClassNoSlash|..])
      case Some(rest) => Some([Slot(false)] + rest)
      case None => None
    else if HasPrefix(s, ClassSlash) then
      match ParseRegex(s[|ClassSlash|..])
      case Some(rest) => Some([Slot(true)] + rest)
      case None => None
    else if s[0] == '.' then
      match ParseRegex(s[1..])
      case Some(rest) => Some([AnyChar] + rest)
      case None => None
    else if IsMeta(s[0]) then None
    else
      match ParseRegex(s[1..])
      case Some(rest) => Some([Lit(s[0])] + rest)
      case None => None
  }

  /** Literal text the fragment covers: no metacharacter but `.`. */
  predicate Supported(ps: seq<Piece>) {
    forall i :: 0 <= i < |ps| && ps[i].Text? ==> ps[i].c == '.' || !IsMeta(ps[i].c)
  }

  /** The pattern a supported template compiles to. */
  function Atoms(ps: seq<Piece>, allowSlash: bool): (p: Pattern)
    ensures |p| == |ps|
    ensures forall i :: 0 <= i < |ps| ==>
      p[i] == (match ps[i]
               case Param(_) => Slot(allowSlash)
               case Text(c) => if c == '.' then AnyChar else Lit(c))
  {
    if ps == [] then []
    else match ps[0]
      case Text(c) => [if c == '.' then AnyChar else Lit(c)] + Atoms(ps[1..], allowSlash)
      case Param(_) => [Slot(allowSlash)] + Atoms(ps[1..], allowSlash)
  }

  /** Number of capture groups in a pattern. */
  function SlotCount(p: Pattern): nat {
    if p == [] then 0 else (if p[0].Slot? then 1 else 0) + SlotCount(p[1..])
  }

  /** Each token becomes one capture group: a template has as many groups as names. */
  lemma {:induction false} AtomsSlotCount(ps: seq<Piece>, allowSlash: bool)
    ensures SlotCount(Atoms(ps, allowSlash)) == |ParamNames(ps)|
    decreases |ps|
  {
    if ps != [] {
      AtomsSlotCount(ps[1..], allowSlash);
      assert Atoms(ps, allowSlash)[1..] == Atoms(ps[1..], allowSlash);
    }
  }

  /**
   * Compiling the text produced for a template succeeds exactly when its
   * literal part stays in the fragment, and then yields the template's
   * pieces one atom each.
   */
  lemma {:induction false} CompileRegexText(ps: seq<Piece>, allowSlash: bool)
    requires forall i :: 0 <= i < |ps| ==> ps[i] != Text('+')
    ensures Supported(ps) ==> ParseRegex(RegexText(ps, allowSlash)) == Some(Atoms(ps, allowSlash))
    ensures !Supported(ps) ==> ParseRegex(RegexText(ps, allowSlash)) == None
    decreases |ps|
  {
    if ps != [] {
      CompileRegexText(ps[1..], allowSlash);
      assert Supported(ps) ==> Supported(ps[1..]);
      assert Atoms(ps, allowSlash)[1..] == Atoms(ps[1..], allowSlash);
      if ps[0].Param? {
        CompileParam(ps, allowSlash);
      } else {
        CompileText(ps, allowSlash);
      }
    }
  }

  /** A token in front: its group text is read back as one group. */
  lemma CompileParam(ps: seq<Piece>, allowSlash: bool)
    requires ps != [] && ps[0].Param?
    ensures ParseRegex(RegexText(ps, allowSlash)) ==
      match ParseRegex(RegexText(ps[1..], allowSlash))
      case Some(rest) => Some([Slot(allowSlash)] + rest)
      case None => None
  {
    var s := RegexText(ps, allowSlash);
    var rest := RegexText(ps[1..], allowSlash);
    assert s == ClassText(allowSlash) + rest;
    if allowSlash {
      assert !HasPrefix(s, ClassNoSlash) by { assert s[15] == '/'; }
      assert s[|ClassSlash|..] == rest;
    } else {
      assert s[|ClassNoSlash|..] == rest;
    }
  }

  /** A literal character in front: read back as itself, as `.`, or a failure. */
  lemma CompileText(ps: seq<Piece>, allowSlash: bool)
    requires ps != [] && ps[0].Text?
    requires forall i :: 1 <= i < |ps| ==> ps[i] != Text('+')
    ensures ParseRegex(RegexText(ps, allowSlash)) ==
      if ps[0].c != '.' && IsMeta(ps[0].c) then None
      else match ParseRegex(RegexText(ps[1..], allowSlash))
        case Some(rest) => Some([if ps[0].c == '.' then AnyChar else Lit(ps[0].c)] + rest)
        case None => None
  {
    var s := RegexText(ps, allowSlash);
    var rest := RegexText(ps[1..], allowSlash);
    assert s == [ps[0].c] + rest;
    assert s[1..] == rest;
    if ps[0].c == '(' {
      NoClassAfterParen(rest, ps[1..], allowSlash);
    } else {
      assert !HasPrefix(s, ClassNoSlash) && !HasPrefix(s, ClassSlash) by {
        assert s[0] != ClassNoSlash[0] && s[0] != ClassSlash[0];
      }
    }
  }

  /** A `(` written in a template can never be read back as a capture group. */
  lemma NoClassAfterParen(rest: string, ps: seq<Piece>, allowSlash: bool)
    requires rest == RegexText(ps, allowSlash)
    requires forall i :: 0 <= i < |ps| ==> ps[i] != Text('+')
    ensures !HasPrefix(['('] + rest, ClassNoSlash)
    ensures !HasPrefix(['('] + rest, ClassSlash)
  {
    var s := ['('] + rest;
    if HasPrefix(s, ClassNoSlash) {
      assert rest[16] == s[17] == '+';
      var p := PlusFollowsParen(ps, allowSlash, 16);
      assert s[p + 1] == '(';
      assert ClassNoSlash[p + 1] == '(';
      ClassParenOnlyFirst();
    }
    if HasPrefix(s, ClassSlash) {
      assert rest[17] == s[18] == '+';
      var p := PlusFollowsParen(ps, allowSlash, 17);
      assert s[p + 1] == '(';
      assert ClassSlash[p + 1] == '(';
      ClassParenOnlyFirst();
    }
  }

  lemma ClassParenOnlyFirst()
    ensures forall j :: 1 <= j < |ClassNoSlash| ==> ClassNoSlash[j] != '('
    ensures forall j :: 1 <= j < |ClassSlash| ==> ClassSlash[j] != '('
  {
  }

  /** Every `+` of a regular-expression text belongs to a group opened earlier. */
  lemma {:induction false} PlusFollowsParen(ps: seq<Piece>, allowSlash: bool, i: nat) returns (p: nat)
    requires forall k :: 0 <= k < |ps| ==> ps[k] != Text('+')
    requires i < |RegexText(ps, allowSlash)| && RegexText(ps, allowSlash)[i] == '+'
    ensures p <= i && RegexText(ps, allowSlash)[p] == '('
    decreases |ps|
  {
    var rest := RegexText(ps[1..], allowSlash);
    match ps[0]
    case Param(_) =>
      assert RegexText(ps, allowSlash) == ClassText(allowSlash) + rest;
      p := 0;
    case Text(c) =>
      assert RegexText(ps, allowSlash) == [c] + rest;
      var q := PlusFollowsParen(ps[1..], allowSlash, i - 1);
      p := q + 1;
  }

  /** The class characters at the start of `s`: how far a group can reach. */
  function ClassRun(s: string, allowSlash: bool): (n: nat)
    ensures n <= |s|
    ensures forall i :: 0 <= i < n ==> InClass(s[i], allowSlash)
    ensures n < |s| ==> !InClass(s[n], allowSlash)
  {
    if s == [] || !InClass(s[0], allowSlash) then 0 else 1 + ClassRun(s[1..], allowSlash)
  }

  /**
   * Anchored matching with captures, the way Go's `regexp` resolves them:
   * each group is greedy and gives characters back only when the rest of
   * the pattern cannot match otherwise.
   */
  function Match(p: Pattern, s: string): Option<seq<string>>
    decreases |p|, |s| + 1
  {
    if p == [] then (if s == [] then Some([]) else None)
    else match p[0]
      case Lit(c) => if s != [] && s[0] == c then Match(p[1..], s[1..]) else None
      case AnyChar => if s != [] && s[0] != '\n' then Match(p[1..], s[1..]) else None
      case Slot(b) => MatchGroup(p[1..], s, ClassRun(s, b))
  }

  /** Tries the group at lengths `k`, `k - 1`, ..., 1, keeping the first that lets `rest` match. */
  function MatchGroup(rest: Pattern, s: string, k: nat): Option<seq<string>>
    requires k <= |s|
    decreases |rest| + 1, k
  {
    if k == 0 then None
    else match Match(rest, s[k..])
      case Some(caps) => Some([s[..k]] + caps)
      case None => MatchGroup(rest, s, k - 1)
  }

  /** True when `s` is all class characters. */
  predicate AllInClass(s: string, allowSlash: bool) {
    forall i :: 0 <= i < |s| ==> InClass(s[i], allowSlash)
  }

  /** `caps` is one way for pattern `p` to match all of `s`, capture by capture. */
  predicate Accepts(p: Pattern, s: string, caps: seq<string>)
    decreases |p|
  {
    if p == [] then s == [] && caps == []
    else match p[0]
      case Lit(c) => s != [] && s[0] == c && Accepts(p[1..], s[1..], caps)
      case AnyChar => s != [] && s[0] != '\n' && Accepts(p[1..], s[1..], caps)
      case Slot(b) =>
        caps != [] && 0 < |caps[0]| <= |s| && s[..|caps[0]|] == caps[0] &&
        AllInClass(caps[0], b) && Accepts(p[1..], s[|caps[0]|..], caps[1..])
  }

  /** A match reports one capture per group. */
  lemma {:induction false} AcceptsCount(p: Pattern, s: string, caps: seq<string>)
    requires Accepts(p, s, caps)
    ensures |caps| == SlotCount(p)
    decreases |p|
  {
    if p != [] {
      match p[0]
      case Lit(_) => AcceptsCount(p[1..], s[1..], caps);
      case AnyChar => AcceptsCount(p[1..], s[1..], caps);
      case Slot(_) => AcceptsCount(p[1..], s[|caps[0]|..], caps[1..]);
    }
  }

  /** What `Match` reports is a way of matching. */
  lemma {:induction false} MatchSound(p: Pattern, s: string)
    ensures Match(p, s).Some? ==> Accepts(p, s, Match(p, s).value)
    decreases |p|, |s| + 1
  {
    if p != [] {
      match p[0]
      case Lit(_) => if s != [] { MatchSound(p[1..], s[1..]); }
      case AnyChar => if s != [] { MatchSound(p[1..], s[1..]); }
      case Slot(b) => MatchGroupSound(p[1..], s, ClassRun(s, b), b);
    }
  }

  lemma {:induction false} MatchGroupSound(rest: Pattern, s: string, k: nat, b: bool)
    requires k <= ClassRun(s, b)
    ensures MatchGroup(rest, s, k).Some? ==> Accepts([Slot(b)] + rest, s, MatchGroup(rest, s, k).value)
    decreases |rest| + 1, k
  {
    if k > 0 {
      MatchSound(rest, s[k..]);
      MatchGroupSound(rest, s, k - 1, b);
      var r := MatchGroup(rest, s, k);
      if Match(rest, s[k..]).Some? {
        var caps := [s[..k]] + Match(rest, s[k..]).value;
        assert ([Slot(b)] + rest)[1..] == rest;
        assert caps[1..] == Match(rest, s[k..]).value;
        assert Accepts([Slot(b)] + rest, s, caps);
      }
    }
  }

  /** If any way of matching exists, `Match` finds one. */
  lemma {:induction false} MatchComplete(p: Pattern, s: string, caps: seq<string>)
    requires Accepts(p, s, caps)
    ensures Match(p, s).Some?
    decreases |p|, |s| + 1
  {
    if p != [] {
      match p[0]
      case Lit(_) => MatchComplete(p[1..], s[1..], caps);
      case AnyChar => MatchComplete(p[1..], s[1..], caps);
      case Slot(b) =>
        var k := |caps[0]|;
        assert forall i :: 0 <= i < k ==> s[i] == caps[0][i];
        MatchComplete(p[1..], s[k..], caps[1..]);
        MatchGroupComplete(p[1..], s, ClassRun(s, b), k);
    }
  }

  lemma {:induction false} MatchGroupComplete(rest: Pattern, s: string, n: nat, k: nat)
    requires 1 <= k <= n <= |s|
    requires Match(rest, s[k..]).Some?
    ensures MatchGroup(rest, s, n).Some?
    decreases n
  {
    if n > k && Match(rest, s[n..]).None? {
      MatchGroupComplete(rest, s, n - 1, k);
    }
  }

  /** A pattern matches a path exactly when some capture list accounts for the path. */
  lemma MatchIff(p: Pattern, s: string)
    ensures Match(p, s).Some? <==> exists caps :: Accepts(p, s, caps)
  {
    if Match(p, s).Some? {
      MatchSound(p, s);
      var caps: seq<string> := Match(p, s).value;
      assert Accepts(p, s, caps);
      assert exists c :: Accepts(p, s, c);
    } else if exists caps :: Accepts(p, s, caps) {
      var caps :| Accepts(p, s, caps);
      MatchComplete(p, s, caps);
      assert false;
    }
  }

  /**
   * Patterns whose groups each end at a `/` or at the end of the path, and
   * whose groups followed by `/` do not admit `/` themselves.
   */
  predicate SegmentGroups(p: Pattern) {
    forall i :: 0 <= i < |p| && p[i].Slot? ==>
      i == |p| - 1 || (p[i + 1] == Lit('/') && !p[i].allowSlash)
  }

  /** For such patterns the captures are determined by the path: each is one segment (or the tail). */
  lemma {:induction false} SegmentCapturesUnique(p: Pattern, s: string, c1: seq<string>, c2: seq<string>)
    requires SegmentGroups(p)
    requires Accepts(p, s, c1) && Accepts(p, s, c2)
    ensures c1 == c2
    decreases |p|
  {
    if p != [] {
      assert SegmentGroups(p[1..]) by {
        forall i | 0 <= i < |p[1..]| && p[1..][i].Slot?
          ensures i == |p[1..]| - 1 || (p[1..][i + 1] == Lit('/') && !p[1..][i].allowSlash)
        {
          assert p[1..][i] == p[i + 1];
        }
      }
      match p[0]
      case Lit(_) => SegmentCapturesUnique(p[1..], s[1..], c1, c2);
      case AnyChar => SegmentCapturesUnique(p[1..], s[1..], c1, c2);
      case Slot(b) =>
        var k1, k2 := |c1[0]|, |c2[0]|;
        if |p| == 1 {
          assert s[k1..] == [] && s[k2..] == [];
          assert c1[0] == s && c2[0] == s;
        } else {
          assert p[1] == Lit('/') && !b;
          assert s[k1] == '/' && s[k2] == '/';
          assert forall i :: 0 <= i < k1 ==> s[i] == c1[0][i];
          assert forall i :: 0 <= i < k2 ==> s[i] == c2[0][i];
          assert k1 == k2;
          assert c1[0] == c2[0];
        }
        SegmentCapturesUnique(p[1..], s[k1..], c1[1..], c2[1..]);
        assert c1 == [c1[0]] + c1[1..];
        assert c2 == [c2[0]] + c2[1..];
    }
  }
}
