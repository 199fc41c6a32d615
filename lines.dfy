// Release lines of the CMS and of the modules built against it: the
// "major" or "major.minor" strings that branch names, installer branches
// and catalog keys are written in, and the classification of a git ref.
module Lines {
  import opened Util

  /** A release line: a major with an optional minor ("5" or "5.2"). */
  datatype Line = Line(major: nat, minor: Option<nat>)

  /** What a ref says about the release line it belongs to. */
  datatype RefClass = Resolved(line: Line) | Unresolved

  function FormatLine(l: Line): (s: string)
    ensures |s| > 0 && IsDigit(s[0])
  {
    NatToString(l.major) + (if l.minor.Some? then "." + NatToString(l.minor.value) else "")
  }

  /** The composer branch alias of a line: "5.x-dev" or "5.2.x-dev". */
  function Dev(l: Line): string {
    FormatLine(l) + ".x-dev"
  }

  const DevSuffix: string := ".x-dev"

  const PullPrefix: string := "pulls"

  /**
   * The branch a ref stands for: a pull-request ref "pulls/<branch>/<name>"
   * stands for its base branch, any other ref for itself.
   */
  function CleanBranch(ref: string): (b: string)
    ensures (Split(ref, '/')[0] != PullPrefix || |Split(ref, '/')| < 3) ==> b == ref
  {
    var parts := Split(ref, '/');
    if |parts| >= 3 && parts[0] == PullPrefix then parts[1] else ref
  }

  /**
   * Classifies a branch: "M", "M.m" and the tag form "M.m.p" belong to a
   * release line (the patch is ignored); any other name is unresolved.
   */
  function Classify(b: string): (c: RefClass)
    ensures c.Resolved? <==> 1 <= |Split(b, '.')| <= 3 && Numeric(Split(b, '.'))
    ensures c.Resolved? ==> (c.line.minor.Some? <==> |Split(b, '.')| >= 2)
  {
    var parts := Split(b, '.');
    if 1 <= |parts| <= 3 && Numeric(parts) then
      Resolved(Line(ParseNat(parts[0]).value,
                    if |parts| >= 2 then Some(ParseNat(parts[1]).value) else None))
    else
      Unresolved
  }

  lemma SplitNat(n: nat)
    ensures Split(NatToString(n), '.') == [NatToString(n)]
  {
    NoCharInDigits(n, '.');
    SplitWithout(NatToString(n), '.');
  }

  lemma SplitDotted(a: nat, b: nat)
    ensures Split(NatToString(a) + ['.'] + NatToString(b), '.') == [NatToString(a), NatToString(b)]
  {
    SplitNat(a);
    SplitNat(b);
    SplitConcat(NatToString(a), '.', NatToString(b));
  }

  /** How a formatted line splits at its dots. */
  lemma SplitFormatLine(l: Line)
    ensures l.minor.None? ==> Split(FormatLine(l), '.') == [NatToString(l.major)]
    ensures l.minor.Some? ==>
      Split(FormatLine(l), '.') == [NatToString(l.major), NatToString(l.minor.value)]
  {
    if l.minor.Some? {
      assert FormatLine(l) == NatToString(l.major) + ['.'] + NatToString(l.minor.value);
      SplitDotted(l.major, l.minor.value);
    } else {
      assert FormatLine(l) == NatToString(l.major);
      SplitNat(l.major);
    }
  }

  /** A branch named after a release line classifies as that line. */
  lemma ClassifyFormatLine(l: Line)
    ensures Classify(FormatLine(l)) == Resolved(l)
  {
    SplitFormatLine(l);
    ParseNatToString(l.major);
    if l.minor.Some? {
      ParseNatToString(l.minor.value);
    }
  }

  /** A patch tag "M.m.p" classifies as its minor line "M.m". */
  lemma ClassifyTag(major: nat, minor: nat, patch: nat)
    ensures Classify(FormatLine(Line(major, Some(minor))) + "." + NatToString(patch))
         == Resolved(Line(major, Some(minor)))
  {
    var l := Line(major, Some(minor));
    SplitFormatLine(l);
    SplitNat(patch);
    SplitConcat(FormatLine(l), '.', NatToString(patch));
    assert FormatLine(l) + "." + NatToString(patch) == FormatLine(l) + ['.'] + NatToString(patch);
    ParseNatToString(major);
    ParseNatToString(minor);
    ParseNatToString(patch);
  }

  /** A name holding a character that is neither a digit nor a dot is unresolved. */
  lemma ClassifyNonVersion(b: string, i: nat)
    requires i < |b| && !IsDigit(b[i]) && b[i] != '.'
    ensures Classify(b) == Unresolved
  {
    var k, j := SplitKeepsNonDigit(b, i);
    assert ParseNat(Split(b, '.')[k]).None?;
  }

  /** A character that is neither a digit nor a dot survives into some piece. */
  lemma {:induction false} SplitKeepsNonDigit(b: string, i: nat) returns (k: nat, j: nat)
    requires i < |b| && !IsDigit(b[i]) && b[i] != '.'
    ensures k < |Split(b, '.')| && j < |Split(b, '.')[k]| && !IsDigit(Split(b, '.')[k][j])
    decreases |b|
  {
    var rest := Split(b[1..], '.');
    if i == 0 {
      k, j := 0, 0;
      assert Split(b, '.')[0] == [b[0]] + rest[0];
    } else {
      var k', j' := SplitKeepsNonDigit(b[1..], i - 1);
      if b[0] == '.' {
        k, j := k' + 1, j';
        assert Split(b, '.')[k] == rest[k'];
      } else if k' == 0 {
        k, j := 0, j' + 1;
        assert Split(b, '.')[0] == [b[0]] + rest[0];
      } else {
        k, j := k', j';
        assert Split(b, '.')[k] == rest[k'];
      }
    }
  }

  /** A pull-request ref stands for the branch embedded in it. */
  lemma CleanPullRef(branch: string, name: string)
    requires '/' !in branch
    ensures CleanBranch(PullPrefix + "/" + branch + "/" + name) == branch
  {
    SplitWithout(PullPrefix, '/');
    SplitWithout(branch, '/');
    SplitConcat(branch, '/', name);
    assert branch + "/" + name == branch + ['/'] + name;
    SplitConcat(PullPrefix, '/', branch + "/" + name);
    assert PullPrefix + "/" + branch + "/" + name == PullPrefix + ['/'] + (branch + "/" + name);
  }

  /** Reads a branch alias "M.x-dev" / "M.m.x-dev" back into its line. */
  function ParseDev(s: string): (r: Option<Line>)
  {
    if |s| > |DevSuffix| && s[|s| - |DevSuffix|..] == DevSuffix then
      var c := Classify(s[..|s| - |DevSuffix|]);
      if c.Resolved? && |Split(s[..|s| - |DevSuffix|], '.')| <= 2 then Some(c.line) else None
    else
      None
  }

  /** Every branch alias is read back as the line it was made from. */
  lemma ParseDevOfDev(l: Line)
    ensures ParseDev(Dev(l)) == Some(l)
  {
    var s := Dev(l);
    assert s[..|s| - |DevSuffix|] == FormatLine(l);
    assert s[|s| - |DevSuffix|..] == DevSuffix;
    ClassifyFormatLine(l);
    SplitFormatLine(l);
  }

  // ---------------------------------------------------------------------------
  // Natural order of release-line keys

  /**
   * The natural order PHP's natsort gives keys of one major: the bare major
   * first, then minors by number ("5" < "5.0" < "5.4" < "5.10").
   */
  predicate NaturalLe(a: Line, b: Line) {
    a.major < b.major
    || (a.major == b.major
        && (a.minor.None? || (b.minor.Some? && a.minor.value <= b.minor.value)))
  }

  lemma NaturalLeTotal(a: Line, b: Line)
    ensures NaturalLe(a, b) || NaturalLe(b, a)
  {
  }

  /**
   * The most recent line of a major among the given keys: the greatest in
   * natural order among those of that major.
   */
  function LatestOfMajor(keys: seq<Line>, major: nat): (r: Option<Line>)
    ensures r.Some? <==> exists k :: k in keys && k.major == major
    ensures r.Some? ==> r.value in keys && r.value.major == major
    ensures r.Some? ==> forall k :: k in keys && k.major == major ==> NaturalLe(k, r.value)
  {
    if |keys| == 0 then None
    else
      var rest := LatestOfMajor(keys[1..], major);
      assert forall k :: k in keys <==> k == keys[0] || k in keys[1..];
      if keys[0].major != major then rest
      else if rest.Some? && NaturalLe(keys[0], rest.value) then rest
      else Some(keys[0])
  }
}
