// The PHP versions each job runs for the constraint forms a module's
// composer.json may declare, over a release line supporting three versions
// of one PHP major (p0 < p1 < p2): the constraint text is parsed and the
// four job slots are filled from what it admits.
module PhpTable {
  import opened Util
  import opened Lines
  import opened Catalog
  import opened Constraints
  import opened PhpResolution

  /** A runtime version as written in a constraint. */
  function VerOf(v: PhpVersion): Ver {
    Ver(v.major, Some(v.minor), None)
  }

  /** Three ascending versions of one PHP major. */
  predicate ThreeOfOneMajor(u: seq<PhpVersion>) {
    |u| == 3 && Ascending(u) && u[1].major == u[0].major && u[2].major == u[0].major
  }

  lemma RenderFacts(v: PhpVersion)
    ensures Split(Render(v), '.') == [NatToString(v.major), NatToString(v.minor)]
    ensures ' ' !in Render(v) && '|' !in Render(v) && '-' !in Render(v)
    ensures |Render(v)| > 0 && IsDigit(Render(v)[0])
  {
    assert Render(v) == NatToString(v.major) + ['.'] + NatToString(v.minor);
    SplitDotted(v.major, v.minor);
    NoCharInDigits(v.major, ' ');
    NoCharInDigits(v.minor, ' ');
    NoCharInDigits(v.major, '|');
    NoCharInDigits(v.minor, '|');
    NoCharInDigits(v.major, '-');
    NoCharInDigits(v.minor, '-');
  }

  /** A rendered runtime version reads back as that version. */
  lemma ParseRendered(v: PhpVersion)
    ensures ParseVer(Render(v)) == Some(VerOf(v))
  {
    RenderFacts(v);
    ParseNatToString(v.major);
    ParseNatToString(v.minor);
  }

  /** A rendered runtime version with a patch reads back with that patch. */
  lemma ParseRenderedPatch(v: PhpVersion, patch: nat)
    ensures ParseVer(Render(v) + "." + NatToString(patch)) == Some(Ver(v.major, Some(v.minor), Some(patch)))
    ensures ' ' !in Render(v) + "." + NatToString(patch) && '|' !in Render(v) + "." + NatToString(patch)
    ensures '-' !in Render(v) + "." + NatToString(patch)
    ensures Split(Render(v) + "." + NatToString(patch), '.')
         == [NatToString(v.major), NatToString(v.minor), NatToString(patch)]
  {
    RenderFacts(v);
    SplitNat(patch);
    NoCharInDigits(patch, ' ');
    NoCharInDigits(patch, '|');
    NoCharInDigits(patch, '-');
    assert Render(v) + "." + NatToString(patch) == Render(v) + ['.'] + NatToString(patch);
    SplitConcat(Render(v), '.', NatToString(patch));
    ParseNatToString(v.major);
    ParseNatToString(v.minor);
    ParseNatToString(patch);
  }

  /** A constraint of one atom admits what the atom admits. */
  lemma SatSingle(p: PhpVersion, a: Atom)
    ensures Sat(p, [[a]]) <==> SatAtom(p, a)
  {
    assert [[a]][0] == [a];
    assert [a][0] == a;
    if SatAtom(p, a) {
      assert SatBranch(p, [[a]][0]);
    }
  }

  /** The atom a token made of a prefix and a version stands for. */
  function PrefixAtom(prefix: string, w: Ver): Atom {
    if prefix == ">=" then Cmp(Ge, w)
    else if prefix == "<=" then Cmp(Le, w)
    else if prefix == ">" then Cmp(Gt, w)
    else if prefix == "<" then Cmp(Lt, w)
    else if prefix == "^" then Caret(w)
    else Tilde(w)
  }

  /** A one-token constraint: a prefix followed by a version that reads back. */
  lemma PrefixedToken(prefix: string, body: string, w: Ver)
    requires prefix in [">=", "<=", ">", "<", "^", "~"]
    requires |body| > 0 && IsDigit(body[0]) && ' ' !in body && '|' !in body
    requires ParseVer(body) == Some(w)
    ensures ParseAtom(prefix + body) == Some(PrefixAtom(prefix, w))
    ensures ParseConstraint(prefix + body) == Some([[PrefixAtom(prefix, w)]])
  {
    var t := prefix + body;
    PrefixedAtom(prefix, body, w);
    assert ' ' !in t && '|' !in t;
    SingleToken(t);
  }

  /** A prefix followed by a version that reads back is that prefix's atom. */
  lemma PrefixedAtom(prefix: string, body: string, w: Ver)
    requires prefix in [">=", "<=", ">", "<", "^", "~"]
    requires |body| > 0 && IsDigit(body[0])
    requires ParseVer(body) == Some(w)
    ensures ParseAtom(prefix + body) == Some(PrefixAtom(prefix, w))
  {
    var t := prefix + body;
    assert t[|prefix|..] == body;
    assert t[|prefix|] == body[0];
    assert t != "*" && t != "*.*";
    if |prefix| == 1 {
      assert t[..2][1] == body[0];
      assert !HasPrefix(t, ">=") && !HasPrefix(t, "<=") && !HasPrefix(t, "==");
    }
  }


  /** An operator followed by a rendered runtime version is one atom of that version. */
  lemma RenderedToken(prefix: string, v: PhpVersion)
    requires prefix in [">=", "<=", ">", "<", "^", "~"]
    ensures Token(prefix + Render(v)) && prefix + Render(v) != "-"
    ensures ParseAtom(prefix + Render(v)) == Some(PrefixAtom(prefix, VerOf(v)))
    ensures ParseConstraint(prefix + Render(v)) == Some([[PrefixAtom(prefix, VerOf(v))]])
  {
    RenderFacts(v);
    ParseRendered(v);
    PrefixedToken(prefix, Render(v), VerOf(v));
  }

  /** A token that starts with a digit carries no operator. */
  lemma DigitLed(t: string)
    requires |t| > 0 && IsDigit(t[0])
    ensures t != "*" && t != "*.*"
    ensures !HasPrefix(t, ">=") && !HasPrefix(t, "<=") && !HasPrefix(t, "==")
    ensures !HasPrefix(t, ">") && !HasPrefix(t, "<") && !HasPrefix(t, "=")
    ensures !HasPrefix(t, "^") && !HasPrefix(t, "~")
  {
    assert t[0] != '*';
    if |t| >= 2 {
      assert t[..2][0] == t[0];
    }
    assert |t| >= 1 ==> t[..1][0] == t[0];
  }

  /** The first occurrence of a character is right after a prefix that lacks it. */
  lemma {:induction false} IndexAfter(a: string, c: char, b: string)
    requires c !in a
    ensures IndexOf(a + [c] + b, c) == |a|
    decreases |a|
  {
    var s := a + [c] + b;
    if |a| > 0 {
      assert s[0] == a[0];
      assert s[1..] == a[1..] + [c] + b;
      IndexAfter(a[1..], c, b);
    }
  }

  /** A version-led token and its atom, for the digit-led forms of the table. */
  lemma RangeToken(lo: PhpVersion, hi: PhpVersion)
    ensures ParseAtom(Render(lo) + "-" + Render(hi)) == Some(Range(VerOf(lo), VerOf(hi)))
    ensures ' ' !in Render(lo) + "-" + Render(hi) && '|' !in Render(lo) + "-" + Render(hi)
  {
    var t := Render(lo) + "-" + Render(hi);
    RenderFacts(lo);
    RenderFacts(hi);
    ParseRendered(lo);
    ParseRendered(hi);
    assert t[0] == Render(lo)[0];
    DigitLed(t);
    assert t == Render(lo) + ['-'] + Render(hi);
    IndexAfter(Render(lo), '-', Render(hi));
    var i := IndexOf(t, '-');
    assert t[..i] == Render(lo);
    assert t[i + 1..] == Render(hi);
  }

  /** A major followed by ".*": any minor of that major. */
  lemma MajorWildToken(major: nat)
    ensures ParseAtom(NatToString(major) + ".*") == Some(Wild(major, None))
    ensures ' ' !in NatToString(major) + ".*" && '|' !in NatToString(major) + ".*"
  {
    NoCharInDigits(major, ' ');
    NoCharInDigits(major, '|');
    NoCharInDigits(major, '-');
    var m := NatToString(major) + ".*";
    assert ParseWild(m) == Some(Wild(major, None)) by {
      ParseNatToString(major);
      SplitNat(major);
      SplitWithout("*", '.');
      assert m == NatToString(major) + ['.'] + "*";
      SplitConcat(NatToString(major), '.', "*");
      assert Split(m, '.')[..1] == [NatToString(major)];
    }
    assert m[0] == NatToString(major)[0];
    DigitAtom(m);
  }

  /** A runtime version followed by ".*": that minor only. */
  lemma MinorWildToken(v: PhpVersion)
    ensures ParseAtom(Render(v) + ".*") == Some(Wild(v.major, Some(v.minor)))
    ensures ' ' !in Render(v) + ".*" && '|' !in Render(v) + ".*"
  {
    RenderFacts(v);
    var w := Render(v) + ".*";
    assert ParseWild(w) == Some(Wild(v.major, Some(v.minor))) by {
      ParseNatToString(v.major);
      ParseNatToString(v.minor);
      SplitWithout("*", '.');
      assert w == Render(v) + ['.'] + "*";
      SplitConcat(Render(v), '.', "*");
      assert Split(w, '.')[..2] == [NatToString(v.major), NatToString(v.minor)];
    }
    assert w[0] == Render(v)[0];
    DigitAtom(w);
  }

  /** A dash-free token led by a digit is a wildcard when it reads as one, else an exact version. */
  lemma DigitAtom(t: string)
    requires |t| > 0 && IsDigit(t[0]) && '-' !in t
    ensures ParseWild(t).Some? ==> ParseAtom(t) == ParseWild(t)
    ensures ParseWild(t).None? && ParseVer(t).Some? ==> ParseAtom(t) == Some(Exact(ParseVer(t).value))
  {
    DigitLed(t);
  }

  /** A token: non-empty, without spaces or pipes. */
  predicate Token(t: string) {
    |t| > 0 && ' ' !in t && '|' !in t
  }

  lemma OneWord(a: string)
    requires Token(a)
    ensures Words(a) == [a] && Words(a + " ") == [a] && Words(" " + a) == [a]
  {
    SplitWithout(a, ' ');
    assert Split("", ' ') == [""];
    assert a + " " == a + [' '] + "";
    SplitConcat(a, ' ', "");
    assert " " + a == "" + [' '] + a;
    SplitConcat("", ' ', a);
    assert NonEmpty([a]) == [a] + NonEmpty([]);
    assert NonEmpty([a, ""]) == [a] + NonEmpty([""]);
    assert NonEmpty([""]) == NonEmpty([]);
    assert NonEmpty(["", a]) == NonEmpty([a]);
  }

  /** Two space-separated tokens are one alternative of two atoms. */
  lemma Conjunction(a: string, b: string)
    requires Token(a) && Token(b) && b != "-"
    requires ParseAtom(a).Some? && ParseAtom(b).Some?
    ensures ParseConstraint(a + " " + b) == Some([[ParseAtom(a).value, ParseAtom(b).value]])
  {
    var s := a + " " + b;
    assert Split(s, '|') == [s] by {
      assert '|' !in s;
      SplitWithout(s, '|');
    }
    TwoWords(a, b);
    var x, y := ParseAtom(a).value, ParseAtom(b).value;
    assert ParseBranch([a, b]) == Some([x, y]) by {
      assert [b][1..] == [] && [a, b][1..] == [b];
      assert ParseBranch([b]) == Some([y] + []);
      assert [y] + [] == [y];
      assert ParseBranch([a, b]) == Some([x] + [y]);
      assert [x] + [y] == [x, y];
    }
    assert [s][1..] == [];
    assert ParsePieces([s]) == Some([[x, y]] + []);
    assert [[x, y]] + [] == [[x, y]];
  }

  /** Two tokens joined by a space are two words. */
  lemma TwoWords(a: string, b: string)
    requires Token(a) && Token(b)
    ensures Words(a + " " + b) == [a, b]
  {
    assert a + " " + b == a + [' '] + b;
    SplitConcat(a, ' ', b);
    SplitWithout(a, ' ');
    SplitWithout(b, ' ');
    assert NonEmpty([a, b]) == [a] + NonEmpty([b]);
    assert NonEmpty([b]) == [b] + NonEmpty([]);
  }


  /** A token padded with a space on either side is one alternative of one atom. */
  lemma PaddedAtom(a: string)
    requires Token(a) && ParseAtom(a).Some?
    ensures ParsePieces([a + " "]) == Some([[ParseAtom(a).value]])
    ensures ParsePieces([" " + a]) == Some([[ParseAtom(a).value]])
  {
    OneWord(a);
    var x := ParseAtom(a).value;
    assert [a][1..] == [] && [a + " "][1..] == [] && [" " + a][1..] == [];
    assert ParseBranch([a]) == Some([x] + []);
    assert [x] + [] == [x];
    assert [[x]] + [] == [[x]];
  }

  /** "a | b" with padded tokens splits into the two padded pieces. */
  lemma PipePieces(a: string, b: string)
    requires Token(a) && Token(b)
    ensures Split((a + " ") + "|" + (" " + b), '|') == [a + " ", " " + b]
  {
    assert (a + " ") + "|" + (" " + b) == (a + " ") + ['|'] + (" " + b);
    SplitConcat(a + " ", '|', " " + b);
    SplitWithout(a + " ", '|');
    SplitWithout(" " + b, '|');
  }

  /** The padded pieces of "a | b" parse to the two alternatives. */
  lemma PipeAlternatives(a: string, b: string)
    requires Token(a) && Token(b)
    requires ParseAtom(a).Some? && ParseAtom(b).Some?
    ensures ParsePieces(Split((a + " ") + "|" + (" " + b), '|'))
         == Some([[ParseAtom(a).value], [ParseAtom(b).value]])
  {
    PipePieces(a, b);
    PaddedAtom(a);
    PaddedAtom(b);
    ParsePiecesConcat([a + " "], [" " + b]);
    assert [a + " "] + [" " + b] == [a + " ", " " + b];
    assert [[ParseAtom(a).value]] + [[ParseAtom(b).value]] == [[ParseAtom(a).value], [ParseAtom(b).value]];
  }

  /** Two tokens separated by " || " are two alternatives. */
  lemma Alternatives(a: string, b: string)
    requires Token(a) && Token(b)
    requires ParseAtom(a).Some? && ParseAtom(b).Some?
    ensures ParseConstraint(a + " || " + b) == Some([[ParseAtom(a).value], [ParseAtom(b).value]])
  {
    var c := Some([[ParseAtom(a).value], [ParseAtom(b).value]]);
    assert ParseConstraint((a + " ") + "|" + (" " + b)) == c by {
      PipeAlternatives(a, b);
    }
    PipeSpacing(a, b);
    DoublePipe(a + " ", " " + b);
  }

  /** Regrouping a concatenation around a literal split in two. */
  lemma Regroup(x: string, s: string, t: string, y: string)
    ensures x + (s + t) + y == x + s + (t + y)
  {
  }

  /** " || " is a space, the double pipe and a space. */
  lemma PipeSpacing(a: string, b: string)
    ensures a + " || " + b == (a + " ") + "||" + (" " + b)
  {
    assert " || " == " " + "||" + " ";
    assert a + " || " + b == a + (" " + "||" + " ") + b;
  }

  lemma SatPair(p: PhpVersion, a: Atom, b: Atom)
    ensures Sat(p, [[a, b]]) <==> SatAtom(p, a) && SatAtom(p, b)
  {
    assert [[a, b]][0] == [a, b];
    assert [a, b][0] == a && [a, b][1] == b;
    if SatAtom(p, a) && SatAtom(p, b) {
      assert SatBranch(p, [[a, b]][0]);
    }
  }

  lemma SatEither(p: PhpVersion, a: Atom, b: Atom)
    ensures Sat(p, [[a], [b]]) <==> SatAtom(p, a) || SatAtom(p, b)
  {
    assert [[a], [b]][0] == [a] && [[a], [b]][1] == [b];
    assert [a][0] == a && [b][0] == b;
    if SatAtom(p, a) {
      assert SatBranch(p, [[a], [b]][0]);
    }
    if SatAtom(p, b) {
      assert SatBranch(p, [[a], [b]][1]);
    }
  }

  /** A one-atom constraint admitting all three versions: [p0, p1, p2, p2]. */
  lemma AtomAll(u: seq<PhpVersion>, lowest: bool, a: Atom)
    requires |u| == 3 && Ascending(u)
    requires SatAtom(u[0], a) && SatAtom(u[1], a) && SatAtom(u[2], a)
    ensures var p := Plan(u, [[a]], lowest);
      ValidPlan(p) && Slots(p, 4) == [u[0], u[1], u[2], u[2]]
  {
    SatSingle(u[0], a);
    SatSingle(u[1], a);
    SatSingle(u[2], a);
    SpreadAll(Plan(u, [[a]], lowest));
  }

  /** An operator and a rendered version whose atom admits all three versions. */
  lemma RenderedAll(u: seq<PhpVersion>, lowest: bool, prefix: string, v: PhpVersion)
    requires |u| == 3 && Ascending(u) && prefix in [">=", "<=", ">", "<", "^", "~"]
    requires SatAtom(u[0], PrefixAtom(prefix, VerOf(v))) && SatAtom(u[1], PrefixAtom(prefix, VerOf(v)))
    requires SatAtom(u[2], PrefixAtom(prefix, VerOf(v)))
    ensures ParseConstraint(prefix + Render(v)).Some?
    ensures var p := Plan(u, ParseConstraint(prefix + Render(v)).value, lowest);
      ValidPlan(p) && Slots(p, 4) == [u[0], u[1], u[2], u[2]]
  {
    RenderedToken(prefix, v);
    AtomAll(u, lowest, PrefixAtom(prefix, VerOf(v)));
  }


  /** A one-atom constraint dropping the lowest version: [p1, p1, p2, p2]. */
  lemma AtomFromMiddle(u: seq<PhpVersion>, lowest: bool, a: Atom)
    requires |u| == 3 && Ascending(u)
    requires !SatAtom(u[0], a) && SatAtom(u[1], a) && SatAtom(u[2], a)
    ensures var p := Plan(u, [[a]], lowest);
      ValidPlan(p) && Slots(p, 4) == [u[1], u[1], u[2], u[2]]
  {
    SatSingle(u[0], a);
    SatSingle(u[1], a);
    SatSingle(u[2], a);
    SpreadWithoutLowest(Plan(u, [[a]], lowest));
  }

  /** A one-atom constraint dropping the highest version: [p0, p1, p1, p1]. */
  lemma AtomWithoutHighest(u: seq<PhpVersion>, lowest: bool, a: Atom)
    requires |u| == 3 && Ascending(u)
    requires SatAtom(u[0], a) && SatAtom(u[1], a) && !SatAtom(u[2], a)
    ensures var p := Plan(u, [[a]], lowest);
      ValidPlan(p) && Slots(p, 4) == [u[0], u[1], u[1], u[1]]
  {
    SatSingle(u[0], a);
    SatSingle(u[1], a);
    SatSingle(u[2], a);
    SpreadWithoutHighest(Plan(u, [[a]], lowest));
  }

  /** A one-atom constraint admitting only the middle version: p1 on every slot. */
  lemma AtomOnlyMiddle(u: seq<PhpVersion>, lowest: bool, a: Atom)
    requires |u| == 3 && Ascending(u)
    requires !SatAtom(u[0], a) && SatAtom(u[1], a) && !SatAtom(u[2], a)
    ensures var p := Plan(u, [[a]], lowest);
      ValidPlan(p) && Slots(p, 4) == [u[1], u[1], u[1], u[1]]
  {
    SatSingle(u[0], a);
    SatSingle(u[1], a);
    SatSingle(u[2], a);
    SpreadOnlyMiddle(Plan(u, [[a]], lowest));
  }

  /** A two-atom constraint admitting the lower two versions: [p0, p1, p1, p1]. */
  lemma PairWithoutHighest(u: seq<PhpVersion>, lowest: bool, x: Atom, y: Atom)
    requires |u| == 3 && Ascending(u)
    requires SatAtom(u[0], x) && SatAtom(u[0], y) && SatAtom(u[1], x) && SatAtom(u[1], y)
    requires !(SatAtom(u[2], x) && SatAtom(u[2], y))
    ensures var p := Plan(u, [[x, y]], lowest);
      ValidPlan(p) && Slots(p, 4) == [u[0], u[1], u[1], u[1]]
  {
    SatPair(u[0], x, y);
    SatPair(u[1], x, y);
    SatPair(u[2], x, y);
    SpreadWithoutHighest(Plan(u, [[x, y]], lowest));
  }

  /** A two-atom constraint admitting only the middle version: p1 on every slot. */
  lemma PairOnlyMiddle(u: seq<PhpVersion>, lowest: bool, x: Atom, y: Atom)
    requires |u| == 3 && Ascending(u)
    requires !(SatAtom(u[0], x) && SatAtom(u[0], y)) && SatAtom(u[1], x) && SatAtom(u[1], y)
    requires !(SatAtom(u[2], x) && SatAtom(u[2], y))
    ensures var p := Plan(u, [[x, y]], lowest);
      ValidPlan(p) && Slots(p, 4) == [u[1], u[1], u[1], u[1]]
  {
    SatPair(u[0], x, y);
    SatPair(u[1], x, y);
    SatPair(u[2], x, y);
    SpreadOnlyMiddle(Plan(u, [[x, y]], lowest));
  }

  /** "lo-hi" is one range. */
  lemma RangeConstraint(lo: PhpVersion, hi: PhpVersion)
    ensures ParseConstraint(Render(lo) + "-" + Render(hi)) == Some([[Range(VerOf(lo), VerOf(hi))]])
  {
    RangeToken(lo, hi);
    RenderFacts(lo);
    SingleToken(Render(lo) + "-" + Render(hi));
  }

  /** "^M <v" is a caret on a bare major and a strict upper bound. */
  lemma CaretBelowToken(m: nat, v: PhpVersion)
    ensures ParseConstraint("^" + NatToString(m) + " <" + Render(v))
         == Some([[Caret(Ver(m, None, None)), Cmp(Lt, VerOf(v))]])
  {
    var t := "^" + NatToString(m);
    assert Token(t) && ParseAtom(t) == Some(Caret(Ver(m, None, None))) by {
      SplitNat(m);
      ParseNatToString(m);
      NoCharInDigits(m, ' ');
      NoCharInDigits(m, '|');
      PrefixedToken("^", NatToString(m), Ver(m, None, None));
    }
    RenderedToken("<", v);
    assert " <" == " " + "<";
    Regroup(t, " ", "<", Render(v));
    Conjunction(t, "<" + Render(v));
  }


  /** ">=a <b" is a lower bound and a strict upper bound. */
  lemma GeLtToken(a: PhpVersion, b: PhpVersion)
    ensures ParseConstraint(">=" + Render(a) + " <" + Render(b))
         == Some([[Cmp(Ge, VerOf(a)), Cmp(Lt, VerOf(b))]])
  {
    RenderedToken(">=", a);
    RenderedToken("<", b);
    assert " <" == " " + "<";
    Regroup(">=" + Render(a), " ", "<", Render(b));
    Conjunction(">=" + Render(a), "<" + Render(b));
  }


  // ---------------------------------------------------------------------------
  // The table

  /** No constraint, "*" and "*.*" admit everything: [p0, p1, p2, p2]. */
  lemma AnyVersion(u: seq<PhpVersion>, lowest: bool, text: string)
    requires ThreeOfOneMajor(u)
    requires text == "" || text == "*" || text == "*.*"
    ensures ParseConstraint(text).Some?
    ensures var p := Plan(u, ParseConstraint(text).value, lowest);
      ValidPlan(p) && Slots(p, 4) == [u[0], u[1], u[2], u[2]]
  {
    var c: Constraint;
    if text == "" {
      assert Split(text, '|') == [""];
      assert Words("") == [];
      c := Unconstrained;
      forall i | 0 <= i < 3 ensures Sat(u[i], c) {
        SatUnconstrained(u[i]);
      }
    } else {
      SingleToken(text);
      c := [[Any]];
      forall i | 0 <= i < 3 ensures Sat(u[i], c) {
        SatSingle(u[i], Any);
      }
    }
    assert ParseConstraint(text) == Some(c);
    SpreadAll(Plan(u, c, lowest));
  }

  /** "M.*", the line's major with any minor, admits everything: [p0, p1, p2, p2]. */
  lemma MajorWildcard(u: seq<PhpVersion>, lowest: bool)
    requires ThreeOfOneMajor(u)
    ensures ParseConstraint(NatToString(u[0].major) + ".*").Some?
    ensures var p := Plan(u, ParseConstraint(NatToString(u[0].major) + ".*").value, lowest);
      ValidPlan(p) && Slots(p, 4) == [u[0], u[1], u[2], u[2]]
  {
    var a := Wild(u[0].major, None);
    MajorWildToken(u[0].major);
    SingleToken(NatToString(u[0].major) + ".*");
    forall i | 0 <= i < 3 ensures Sat(u[i], [[a]]) {
      SatSingle(u[i], a);
    }
    SpreadAll(Plan(u, [[a]], lowest));
  }

  /**
   * ">=p0", "<=p2", "^p0" and "~p0" admit every version of the line:
   * [p0, p1, p2, p2].
   */
  lemma FullRange(u: seq<PhpVersion>, lowest: bool, text: string)
    requires ThreeOfOneMajor(u)
    requires || text == ">=" + Render(u[0]) || text == "<=" + Render(u[2])
             || text == "^" + Render(u[0]) || text == "~" + Render(u[0])
    ensures ParseConstraint(text).Some?
    ensures var p := Plan(u, ParseConstraint(text).value, lowest);
      ValidPlan(p) && Slots(p, 4) == [u[0], u[1], u[2], u[2]]
  {
    if text == "<=" + Render(u[2]) {
      RenderedAll(u, lowest, "<=", u[2]);
    } else if text == ">=" + Render(u[0]) {
      RenderedAll(u, lowest, ">=", u[0]);
    } else if text == "^" + Render(u[0]) {
      RenderedAll(u, lowest, "^", u[0]);
    } else {
      RenderedAll(u, lowest, "~", u[0]);
    }
  }


  /** ">p0", "^p1" and "~p1" start from the middle version: [p1, p1, p2, p2]. */
  lemma FromMiddle(u: seq<PhpVersion>, lowest: bool, text: string)
    requires ThreeOfOneMajor(u)
    requires text == ">" + Render(u[0]) || text == "^" + Render(u[1]) || text == "~" + Render(u[1])
    ensures ParseConstraint(text).Some?
    ensures var p := Plan(u, ParseConstraint(text).value, lowest);
      ValidPlan(p) && Slots(p, 4) == [u[1], u[1], u[2], u[2]]
  {
    if text == ">" + Render(u[0]) {
      RenderedToken(">", u[0]);
      AtomFromMiddle(u, lowest, Cmp(Gt, VerOf(u[0])));
    } else if text == "^" + Render(u[1]) {
      RenderedToken("^", u[1]);
      AtomFromMiddle(u, lowest, Caret(VerOf(u[1])));
    } else {
      RenderedToken("~", u[1]);
      AtomFromMiddle(u, lowest, Tilde(VerOf(u[1])));
    }
  }

  /** "^p1.n", a caret with a patch, also starts from the middle version. */
  lemma CaretWithPatch(u: seq<PhpVersion>, lowest: bool, patch: nat)
    requires ThreeOfOneMajor(u)
    ensures ParseConstraint("^" + Render(u[1]) + "." + NatToString(patch)).Some?
    ensures var p := Plan(u, ParseConstraint("^" + Render(u[1]) + "." + NatToString(patch)).value, lowest);
      ValidPlan(p) && Slots(p, 4) == [u[1], u[1], u[2], u[2]]
  {
    var body := Render(u[1]) + "." + NatToString(patch);
    assert "^" + Render(u[1]) + "." + NatToString(patch) == "^" + body;
    RenderFacts(u[1]);
    ParseRenderedPatch(u[1], patch);
    assert body[0] == Render(u[1])[0];
    var a := Caret(Ver(u[1].major, Some(u[1].minor), Some(patch)));
    PrefixedToken("^", body, a.v);
    SatSingle(u[0], a);
    SatSingle(u[1], a);
    SatSingle(u[2], a);
    SpreadWithoutLowest(Plan(u, [[a]], lowest));
  }

  /** "p1-p2", a range without spaces, starts from the middle version: [p1, p1, p2, p2]. */
  lemma RangeOtherSyntax(u: seq<PhpVersion>, lowest: bool)
    requires ThreeOfOneMajor(u)
    ensures ParseConstraint(Render(u[1]) + "-" + Render(u[2])).Some?
    ensures var p := Plan(u, ParseConstraint(Render(u[1]) + "-" + Render(u[2])).value, lowest);
      ValidPlan(p) && Slots(p, 4) == [u[1], u[1], u[2], u[2]]
  {
    RangeConstraint(u[1], u[2]);
    AtomFromMiddle(u, lowest, Range(VerOf(u[1]), VerOf(u[2])));
  }


  /** "<p2" drops the highest version: [p0, p1, p1, p1]. */
  lemma LessThanHighest(u: seq<PhpVersion>, lowest: bool)
    requires ThreeOfOneMajor(u)
    ensures ParseConstraint("<" + Render(u[2])).Some?
    ensures var p := Plan(u, ParseConstraint("<" + Render(u[2])).value, lowest);
      ValidPlan(p) && Slots(p, 4) == [u[0], u[1], u[1], u[1]]
  {
    RenderedToken("<", u[2]);
    AtomWithoutHighest(u, lowest, Cmp(Lt, VerOf(u[2])));
  }

  /** "^M <p2", a caret on the bare major narrowed from above: [p0, p1, p1, p1]. */
  lemma CaretMajorBelowHighest(u: seq<PhpVersion>, lowest: bool)
    requires ThreeOfOneMajor(u)
    ensures ParseConstraint("^" + NatToString(u[0].major) + " <" + Render(u[2])).Some?
    ensures var p := Plan(u, ParseConstraint("^" + NatToString(u[0].major) + " <" + Render(u[2])).value, lowest);
      ValidPlan(p) && Slots(p, 4) == [u[0], u[1], u[1], u[1]]
  {
    CaretBelowToken(u[0].major, u[2]);
    PairWithoutHighest(u, lowest, Caret(Ver(u[0].major, None, None)), Cmp(Lt, VerOf(u[2])));
  }


  /** "~M.m.0" is a tilde with a patch. */
  lemma TildePatchToken(v: PhpVersion)
    ensures ParseConstraint("~" + Render(v) + ".0") == Some([[Tilde(Ver(v.major, Some(v.minor), Some(0)))]])
  {
    var body := Render(v) + "." + NatToString(0);
    assert NatToString(0) == "0";
    assert "~" + Render(v) + ".0" == "~" + body;
    RenderFacts(v);
    ParseRenderedPatch(v, 0);
    assert body[0] == Render(v)[0];
    PrefixedToken("~", body, Ver(v.major, Some(v.minor), Some(0)));
  }

  /** "M.m.p", a bare version with a patch, is an exact version. */
  lemma ExactToken(v: PhpVersion, patch: nat)
    ensures ParseConstraint(Render(v) + "." + NatToString(patch))
         == Some([[Exact(Ver(v.major, Some(v.minor), Some(patch)))]])
  {
    var text := Render(v) + "." + NatToString(patch);
    RenderFacts(v);
    ParseRenderedPatch(v, patch);
    assert text[0] == Render(v)[0];
    DigitLed(text);
    NoCharInDigits(patch, '*');
    assert NatToString(patch) != "*" by {
      assert NatToString(patch)[0] in NatToString(patch);
    }
    assert ParseWild(text).None?;
    assert ParseAtom(text) == Some(Exact(Ver(v.major, Some(v.minor), Some(patch))));
    SingleToken(text);
  }

  /** "~p1.0", "p1.n" and "p1.*" pin the middle minor: every slot runs p1. */
  lemma PinnedMiddle(u: seq<PhpVersion>, lowest: bool, text: string, patch: nat)
    requires ThreeOfOneMajor(u)
    requires || text == "~" + Render(u[1]) + ".0" || text == Render(u[1]) + "." + NatToString(patch)
             || text == Render(u[1]) + ".*"
    ensures ParseConstraint(text).Some?
    ensures var p := Plan(u, ParseConstraint(text).value, lowest);
      ValidPlan(p) && Slots(p, 4) == [u[1], u[1], u[1], u[1]]
  {
    if text == "~" + Render(u[1]) + ".0" {
      TildePatchToken(u[1]);
      AtomOnlyMiddle(u, lowest, Tilde(Ver(u[1].major, Some(u[1].minor), Some(0))));
    } else if text == Render(u[1]) + ".*" {
      MinorWildToken(u[1]);
      SingleToken(text);
      AtomOnlyMiddle(u, lowest, Wild(u[1].major, Some(u[1].minor)));
    } else {
      ExactToken(u[1], patch);
      AtomOnlyMiddle(u, lowest, Exact(Ver(u[1].major, Some(u[1].minor), Some(patch))));
    }
  }

  /** ">=p1 <p2", a range of two comparisons, pins the middle minor. */
  lemma RangeMiddle(u: seq<PhpVersion>, lowest: bool)
    requires ThreeOfOneMajor(u)
    ensures ParseConstraint(">=" + Render(u[1]) + " <" + Render(u[2])).Some?
    ensures var p := Plan(u, ParseConstraint(">=" + Render(u[1]) + " <" + Render(u[2])).value, lowest);
      ValidPlan(p) && Slots(p, 4) == [u[1], u[1], u[1], u[1]]
  {
    GeLtToken(u[1], u[2]);
    PairOnlyMiddle(u, lowest, Cmp(Ge, VerOf(u[1])), Cmp(Lt, VerOf(u[2])));
  }


  /**
   * "^q || ^p0" and "^q || ^p1", where q is of another major: the other
   * alternative adds nothing, so the spread is that of "^p0" or "^p1".
   */
  lemma OtherMajorAlternative(u: seq<PhpVersion>, lowest: bool, q: PhpVersion, k: nat)
    requires ThreeOfOneMajor(u) && q.major != u[0].major && k <= 1
    ensures ParseConstraint("^" + Render(q) + " || ^" + Render(u[k])).Some?
    ensures var p := Plan(u, ParseConstraint("^" + Render(q) + " || ^" + Render(u[k])).value, lowest);
      ValidPlan(p) && Slots(p, 4) == (if k == 0 then [u[0], u[1], u[2], u[2]] else [u[1], u[1], u[2], u[2]])
  {
    CaretAlternatives(q, u[k]);
    var x, y := Caret(VerOf(q)), Caret(VerOf(u[k]));
    SatEither(u[0], x, y);
    SatEither(u[1], x, y);
    SatEither(u[2], x, y);
    if k == 0 {
      SpreadAll(Plan(u, [[x], [y]], lowest));
    } else {
      SpreadWithoutLowest(Plan(u, [[x], [y]], lowest));
    }
  }

  /** "^q || ^v" is two caret alternatives. */
  lemma CaretAlternatives(q: PhpVersion, v: PhpVersion)
    ensures ParseConstraint("^" + Render(q) + " || ^" + Render(v))
         == Some([[Caret(VerOf(q))], [Caret(VerOf(v))]])
  {
    RenderedToken("^", q);
    RenderedToken("^", v);
    assert " || ^" == " || " + "^";
    Regroup("^" + Render(q), " || ", "^", Render(v));
    Alternatives("^" + Render(q), "^" + Render(v));
  }
}
