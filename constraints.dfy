// The PHP-version constraint of a module's composer.json ("^8.1",
// ">=8.1 <8.4", "8.1 || 8.3", "8.1 - 8.3", ...), parsed into alternatives of
// conjunctions of atoms and evaluated against "M.m" runtime versions.
module Constraints {
  import opened Util
  import opened Catalog

  /** A version written in a constraint; missing parts are absent. */
  datatype Ver = Ver(major: nat, minor: Option<nat>, patch: Option<nat>)

  datatype Op = Lt | Le | Gt | Ge | Eq

  datatype Atom =
    | Any                              // "*" or "*.*"
    | Caret(v: Ver)                    // "^8.1"
    | Tilde(v: Ver)                    // "~8.1"
    | Exact(v: Ver)                    // "8.1" or "8.1.2"
    | Wild(major: nat, minor: Option<nat>)  // "8.*" or "8.1.*"
    | Cmp(op: Op, v: Ver)              // ">=8.1", "<8.4", "=8.2", ...
    | Range(lo: Ver, hi: Ver)          // "8.1 - 8.3" or "8.1-8.3"

  /** A conjunction of atoms (space separated). */
  type Branch = seq<Atom>

  /** Alternatives (separated by "|" or "||"). */
  type Constraint = seq<Branch>

  // ---------------------------------------------------------------------------
  // Semantics

  function Or0(o: Option<nat>): nat {
    if o.Some? then o.value else 0
  }

  /**
   * Compares a runtime version with a written version on major and minor;
   * a missing minor counts as 0 and the patch is not looked at, since the
   * runtime versions name minors only.
   */
  function Compare(p: PhpVersion, v: Ver): int {
    if p.major != v.major then (if p.major < v.major then -1 else 1)
    else if p.minor != Or0(v.minor) then (if p.minor < Or0(v.minor) then -1 else 1)
    else 0
  }

  predicate SatOp(p: PhpVersion, op: Op, v: Ver) {
    match op
    case Lt => Compare(p, v) < 0
    case Le => Compare(p, v) <= 0
    case Gt => Compare(p, v) > 0
    case Ge => Compare(p, v) >= 0
    case Eq => Compare(p, v) == 0
  }

  predicate SatAtom(p: PhpVersion, a: Atom) {
    match a
    case Any => true
    case Caret(v) => p.major == v.major && Compare(p, v) >= 0
    case Tilde(v) =>
      p.major == v.major
      && (v.minor.None? || (if v.patch.None? then p.minor >= v.minor.value else p.minor == v.minor.value))
    case Exact(v) => p.major == v.major && (v.minor.None? || p.minor == v.minor.value)
    case Wild(m, n) => p.major == m && (n.None? || p.minor == n.value)
    case Cmp(op, v) => SatOp(p, op, v)
    case Range(lo, hi) => Compare(p, lo) >= 0 && Compare(p, hi) <= 0
  }

  predicate SatBranch(p: PhpVersion, b: Branch) {
    forall i :: 0 <= i < |b| ==> SatAtom(p, b[i])
  }

  /** A runtime version satisfies a constraint when some alternative admits it. */
  predicate Sat(p: PhpVersion, c: Constraint)
    ensures Sat(p, c) ==> |c| > 0
    ensures [] in c ==> Sat(p, c)
  {
    exists i :: 0 <= i < |c| && SatBranch(p, c[i])
  }

  /** The constraint that admits everything: one empty conjunction. */
  const Unconstrained: Constraint := [[]]

  lemma SatUnconstrained(p: PhpVersion)
    ensures Sat(p, Unconstrained)
  {
    assert SatBranch(p, Unconstrained[0]);
  }

  // ---------------------------------------------------------------------------
  // Parsing

  /** "M", "M.m" or "M.m.p". */
  function ParseVer(s: string): (r: Option<Ver>)
    ensures r.Some? <==> 1 <= |Split(s, '.')| <= 3 && Numeric(Split(s, '.'))
  {
    var parts := Split(s, '.');
    if 1 <= |parts| <= 3 && Numeric(parts) then
      Some(Ver(ParseNat(parts[0]).value,
               if |parts| >= 2 then Some(ParseNat(parts[1]).value) else None,
               if |parts| == 3 then Some(ParseNat(parts[2]).value) else None))
    else
      None
  }

  predicate HasPrefix(s: string, p: string) {
    |p| <= |s| && s[..|p|] == p
  }

  function WithOp(op: Op, v: Option<Ver>): Option<Atom> {
    if v.Some? then Some(Cmp(op, v.value)) else None
  }

  /** "M.*" or "M.m.*". */
  function ParseWild(t: string): Option<Atom> {
    var parts := Split(t, '.');
    if 2 <= |parts| <= 3 && parts[|parts| - 1] == "*" && Numeric(parts[..|parts| - 1]) then
      Some(Wild(ParseNat(parts[0]).value,
                if |parts| == 3 then Some(ParseNat(parts[1]).value) else None))
    else
      None
  }

  /** One space-free token of a constraint. */
  function ParseAtom(t: string): Option<Atom> {
    if t == "*" || t == "*.*" then Some(Any)
    else if HasPrefix(t, ">=") then WithOp(Ge, ParseVer(t[2..]))
    else if HasPrefix(t, "<=") then WithOp(Le, ParseVer(t[2..]))
    else if HasPrefix(t, "==") then WithOp(Eq, ParseVer(t[2..]))
    else if HasPrefix(t, ">") then WithOp(Gt, ParseVer(t[1..]))
    else if HasPrefix(t, "<") then WithOp(Lt, ParseVer(t[1..]))
    else if HasPrefix(t, "=") then WithOp(Eq, ParseVer(t[1..]))
    else if HasPrefix(t, "^") then
      (var v := ParseVer(t[1..]); if v.Some? then Some(Caret(v.value)) else None)
    else if HasPrefix(t, "~") then
      (var v := ParseVer(t[1..]); if v.Some? then Some(Tilde(v.value)) else None)
    else if '-' in t then
      var i := IndexOf(t, '-');
      var lo, hi := ParseVer(t[..i]), ParseVer(t[i + 1..]);
      if lo.Some? && hi.Some? then Some(Range(lo.value, hi.value)) else None
    else if ParseWild(t).Some? then ParseWild(t)
    else
      var v := ParseVer(t);
      if v.Some? then Some(Exact(v.value)) else None
  }

  /** The words of one alternative; "A - B" is a range, everything else one atom each. */
  function ParseBranch(words: seq<string>): Option<Branch>
    decreases |words|
  {
    if |words| == 0 then Some([])
    else if |words| >= 3 && words[1] == "-" then
      var lo, hi := ParseVer(words[0]), ParseVer(words[2]);
      var rest := ParseBranch(words[3..]);
      if lo.Some? && hi.Some? && rest.Some? then Some([Range(lo.value, hi.value)] + rest.value) else None
    else
      var a := ParseAtom(words[0]);
      var rest := ParseBranch(words[1..]);
      if a.Some? && rest.Some? then Some([a.value] + rest.value) else None
  }

  /** The pieces between "|" characters; blank pieces are skipped. */
  function ParsePieces(pieces: seq<string>): Option<Constraint> {
    if |pieces| == 0 then Some([])
    else
      var rest := ParsePieces(pieces[1..]);
      var w := Words(pieces[0]);
      if w == [] then rest
      else
        var b := ParseBranch(w);
        if b.Some? && rest.Some? then Some([b.value] + rest.value) else None
  }

  /**
   * Parses a whole constraint; a blank one admits every version, and text
   * that is not in the dialect is rejected.
   */
  function ParseConstraint(s: string): (r: Option<Constraint>)
    ensures r.Some? ==> |r.value| > 0
    ensures s == "" ==> r == Some(Unconstrained)
  {
    var cs := ParsePieces(Split(s, '|'));
    if cs == Some([]) then Some(Unconstrained) else cs
  }

  // ---------------------------------------------------------------------------
  // Properties of the parser

  /** Parsing pieces distributes over concatenation of the piece lists. */
  lemma {:induction false} ParsePiecesConcat(a: seq<string>, b: seq<string>)
    ensures ParsePieces(a + b) ==
      (if ParsePieces(a).Some? && ParsePieces(b).Some?
       then Some(ParsePieces(a).value + ParsePieces(b).value) else None)
    decreases |a|
  {
    if |a| == 0 {
      assert a + b == b;
      if ParsePieces(b).Some? {
        assert [] + ParsePieces(b).value == ParsePieces(b).value;
      }
    } else {
      assert (a + b)[1..] == a[1..] + b;
      ParsePiecesConcat(a[1..], b);
      var w := Words(a[0]);
      if w != [] {
        var bb := ParseBranch(w);
        if bb.Some? && ParsePieces(a[1..]).Some? && ParsePieces(b).Some? {
          assert [bb.value] + (ParsePieces(a[1..]).value + ParsePieces(b).value)
              == [bb.value] + ParsePieces(a[1..]).value + ParsePieces(b).value;
        }
      }
    }
  }

  /** "||" and "|" separate alternatives alike. */
  lemma DoublePipe(a: string, b: string)
    ensures ParseConstraint(a + "||" + b) == ParseConstraint(a + "|" + b)
  {
    assert a + "||" + b == a + ['|'] + ("" + ['|'] + b);
    assert a + "|" + b == a + ['|'] + b;
    SplitConcat(a, '|', "" + ['|'] + b);
    SplitConcat("", '|', b);
    SplitConcat(a, '|', b);
    var pa, pb := Split(a, '|'), Split(b, '|');
    assert Split("", '|') == [""];
    assert Words("") == [];
    ParsePiecesConcat([""], pb);
    assert ParsePieces([""] + pb) == ParsePieces(pb);
    ParsePiecesConcat(pa, [""] + pb);
    ParsePiecesConcat(pa, pb);
  }

  /** A token without spaces or pipes is parsed as that one atom. */
  lemma SingleToken(t: string)
    requires |t| > 0 && ' ' !in t && '|' !in t
    ensures ParseConstraint(t) ==
      (if ParseAtom(t).Some? then Some([[ParseAtom(t).value]]) else None)
  {
    SplitWithout(t, '|');
    SplitWithout(t, ' ');
    assert [t][1..] == [];
    assert NonEmpty([t]) == [t] + NonEmpty([]);
    assert Words(t) == [t];
    assert ParsePieces([t][1..]) == Some([]);
    assert [t][1..] == [];
    var a := ParseAtom(t);
    if a.Some? {
      assert ParseBranch([t]) == Some([a.value] + []);
      assert [a.value] + [] == [a.value];
      assert [[a.value]] + [] == [[a.value]];
    }
  }

  /** A dot-free, dash-free token that starts with a letter is no atom. */
  lemma WordAtom(t: string)
    requires |t| > 0 && 'a' <= t[0] <= 'z' && '.' !in t && '-' !in t
    ensures ParseAtom(t) == None
  {
    assert ParseVer(t) == None && ParseWild(t) == None by {
      SplitWithout(t, '.');
      assert !IsDigit(t[0]) && ParseNat(t).None?;
      assert [t][0] == t && !Numeric([t]);
    }
    assert t[0] != '*' && t[0] != '>' && t[0] != '<' && t[0] != '=' && t[0] != '^' && t[0] != '~';
  }

  /** The word "none" is not a constraint. */
  lemma NoneRejected()
    ensures ParseConstraint("none") == None
  {
    SingleToken("none");
    WordAtom("none");
  }
}
