// Whole builds: the PHP plan and the unit-test jobs of a build, from the
// repository, the branch and composer.json, for the rows of the test tables
// that go through every step (installer version, release line, constraint,
// spread and layout).
module Scenarios {
  import opened Util
  import opened Lines
  import opened Catalog
  import opened Constraints
  import opened PhpResolution
  import opened PhpTable
  import opened Installer
  import opened Jobs
  import opened Creator

  /**
   * A lockstepped repository on branch `l` with a php constraint takes its
   * line's own list, narrowed by the constraint: every row of the constraint
   * table over that list is a row of the build.
   */
  lemma LockstepPlan(cat: Catalog, repo: string, l: Line, parentBranch: string,
                     manifest: Option<Manifest>, installerBranches: seq<string>)
    requires WellFormed(cat) && repo !in cat.neverInstaller && Lockstepped(cat, repo)
    requires FormatLine(l) !in cat.pinnedTags
    ensures var line := Shift(l, cat.lockstepOffset[repo]);
      var iv := InstallerVersion(cat, repo, FormatLine(l), parentBranch, manifest, installerBranches);
      var r := BuildPlan(cat, repo, FormatLine(l), iv, manifest);
      var c := ConstraintOf(PhpConstraintText(manifest));
      && iv == Dev(line)
      && (c.Some? ==> (r.Ok? <==> exists v :: v in PhpFor(cat, line) && Sat(v, c.value)))
      && (c.Some? && r.Ok? ==> r.value == Plan(PhpFor(cat, line), c.value, line.major == cat.lowestMajor))
  {
    LockstepReleaseLine(cat, repo, l, parentBranch, manifest, installerBranches);
  }

  /**
   * The framework on a line of three versions of one PHP major, with `>p0`,
   * `^p1` or `~p1` in composer.json: the four unit-test slots run
   * `[p1, p1, p2, p2]`.
   */
  lemma LockstepFromMiddle(cat: Catalog, repo: string, l: Line, parentBranch: string,
                           manifest: Option<Manifest>, installerBranches: seq<string>, text: string)
    requires WellFormed(cat) && repo !in cat.neverInstaller && Lockstepped(cat, repo)
    requires FormatLine(l) !in cat.pinnedTags
    requires var u := PhpFor(cat, Shift(l, cat.lockstepOffset[repo]));
      && ThreeOfOneMajor(u)
      && (text == ">" + Render(u[0]) || text == "^" + Render(u[1]) || text == "~" + Render(u[1]))
    requires PhpConstraintText(manifest) == Some(text)
    ensures var u := PhpFor(cat, Shift(l, cat.lockstepOffset[repo]));
      var iv := InstallerVersion(cat, repo, FormatLine(l), parentBranch, manifest, installerBranches);
      var r := BuildPlan(cat, repo, FormatLine(l), iv, manifest);
      r.Ok? && Slots(r.value, 4) == [u[1], u[1], u[2], u[2]]
  {
    var line := Shift(l, cat.lockstepOffset[repo]);
    var u := PhpFor(cat, line);
    FromMiddle(u, line.major == cat.lowestMajor, text);
    var p := Plan(u, ParseConstraint(text).value, line.major == cat.lowestMajor);
    assert u[1] in u && Sat(u[1], p.constraint) by {
      assert PhpAt(p, 0) == Slots(p, 4)[0];
    }
    LockstepPlan(cat, repo, l, parentBranch, manifest, installerBranches);
  }

  /** Every supported version of one PHP major, and the newest also supported by a higher CMS major. */
  predicate OnePhpMajor(cat: Catalog) {
    && |cat.allPhp| > 0
    && (forall i :: 0 <= i < |cat.allPhp| ==> cat.allPhp[i].major == cat.allPhp[0].major)
    && exists r :: r in cat.releases && r.line.major > cat.lowestMajor && cat.allPhp[|cat.allPhp| - 1] in r.php
  }

  /** Over one PHP major, `^v` admits exactly the supported versions from `v` on. */
  lemma CaretFrom(cat: Catalog, j: nat)
    requires WellFormed(cat) && OnePhpMajor(cat) && j < |cat.allPhp|
    ensures ParseConstraint("^" + Render(cat.allPhp[j])).Some?
    ensures var c := ParseConstraint("^" + Render(cat.allPhp[j])).value;
      && c != Unconstrained
      && (forall i :: 0 <= i < |cat.allPhp| ==> (Sat(cat.allPhp[i], c) <==> j <= i))
      && Filter(cat.allPhp, c) == cat.allPhp[j..]
      && HigherMajorAdmits(cat, c)
  {
    var a := cat.allPhp;
    var atom := Caret(VerOf(a[j]));
    RenderedToken("^", a[j]);
    assert PrefixAtom("^", VerOf(a[j])) == atom;
    var c := [[atom]];
    assert c[0] != Unconstrained[0];
    forall i | 0 <= i < |a| ensures Sat(a[i], c) <==> j <= i {
      SatSingle(a[i], atom);
      assert a[i].major == a[j].major;
      if i < j {
        assert PhpLt(a[i], a[j]);
      } else if j < i {
        assert PhpLt(a[j], a[i]);
      }
    }
    FilterSuffix(a, c, j);
    var r :| r in cat.releases && r.line.major > cat.lowestMajor && a[|a| - 1] in r.php;
    assert Sat(a[|a| - 1], c);
  }

  /**
   * An unknown repository with `^v` in composer.json, `v` a supported
   * version: no installer, and the plan holds every supported version from
   * `v` on, all admitted, on the layout of the higher majors.
   */
  lemma UnplacedCaret(cat: Catalog, repo: string, branch: string, parentBranch: string,
                      m: Manifest, installerBranches: seq<string>, j: nat)
    requires WellFormed(cat) && OnePhpMajor(cat) && j < |cat.allPhp|
    requires !Known(cat, repo) && !IsModule(m) && Classify(parentBranch) == Unresolved
    requires PhpConstraintText(Some(m)) == Some("^" + Render(cat.allPhp[j]))
    ensures var iv := InstallerVersion(cat, repo, branch, parentBranch, Some(m), installerBranches);
      && iv == ""
      && BuildPlan(cat, repo, branch, iv, Some(m)) == Ok(Plan(cat.allPhp[j..], Unconstrained, false))
  {
    UnknownUnplaced(cat, repo, branch, parentBranch, m, installerBranches);
    CaretFrom(cat, j);
    var c := ParseConstraint("^" + Render(cat.allPhp[j])).value;
    assert cat.allPhp[j] in cat.allPhp && Sat(cat.allPhp[j], c);
  }

  /**
   * Doorman on branch "5" with `^p0`, the oldest supported version: the
   * three unit-test slots run the three oldest supported versions.
   */
  lemma UnplacedCaretOldest(cat: Catalog, repo: string, branch: string, parentBranch: string,
                            m: Manifest, installerBranches: seq<string>)
    requires WellFormed(cat) && OnePhpMajor(cat) && |cat.allPhp| >= 3
    requires !Known(cat, repo) && !IsModule(m) && Classify(parentBranch) == Unresolved
    requires PhpConstraintText(Some(m)) == Some("^" + Render(cat.allPhp[0]))
    ensures var iv := InstallerVersion(cat, repo, branch, parentBranch, Some(m), installerBranches);
      var r := BuildPlan(cat, repo, branch, iv, Some(m));
      && iv == ""
      && r.Ok? && !r.value.lowest
      && Slots(r.value, 3) == cat.allPhp[..3]
  {
    UnplacedCaret(cat, repo, branch, parentBranch, m, installerBranches, 0);
    assert cat.allPhp[0..] == cat.allPhp;
    OpenSlots(cat.allPhp);
  }

  /** Over a list of three or more versions with nothing to narrow by, slot k runs the k-th version. */
  lemma OpenSlots(u: seq<PhpVersion>)
    requires |u| >= 3 && Ascending(u)
    ensures ValidPlan(Plan(u, Unconstrained, false))
    ensures Slots(Plan(u, Unconstrained, false), 3) == u[..3]
  {
    var p := Plan(u, Unconstrained, false);
    SatUnconstrained(u[0]);
    SatUnconstrained(u[1]);
    SatUnconstrained(u[2]);
    PickKept(u, Unconstrained, 0);
    PickKept(u, Unconstrained, 1);
    PickKept(u, Unconstrained, 2);
    assert Slots(p, 3) == [u[0], u[1], u[2]];
  }

  /**
   * The same with `^h0`, where `h0` and `h1` are the two newest supported
   * versions: the three unit-test slots run `[h0, h0, h1]`.
   */
  lemma UnplacedCaretNewest(cat: Catalog, repo: string, branch: string, parentBranch: string,
                            m: Manifest, installerBranches: seq<string>)
    requires WellFormed(cat) && OnePhpMajor(cat) && |cat.allPhp| >= 2
    requires !Known(cat, repo) && !IsModule(m) && Classify(parentBranch) == Unresolved
    requires PhpConstraintText(Some(m)) == Some("^" + Render(cat.allPhp[|cat.allPhp| - 2]))
    ensures var n := |cat.allPhp|;
      var iv := InstallerVersion(cat, repo, branch, parentBranch, Some(m), installerBranches);
      var r := BuildPlan(cat, repo, branch, iv, Some(m));
      && iv == ""
      && r.Ok? && !r.value.lowest
      && Slots(r.value, 3) == [cat.allPhp[n - 2], cat.allPhp[n - 2], cat.allPhp[n - 1]]
  {
    var a := cat.allPhp;
    var n := |a|;
    var iv := InstallerVersion(cat, repo, branch, parentBranch, Some(m), installerBranches);
    assert iv == "" && BuildPlan(cat, repo, branch, iv, Some(m)) == Ok(Plan(a[n - 2..], Unconstrained, false)) by {
      UnplacedCaret(cat, repo, branch, parentBranch, m, installerBranches, n - 2);
    }
    NarrowSlots(a);
  }

  /** The two newest versions of a list, with nothing to narrow by: the three slots run `[v0, v0, v1]`. */
  lemma NarrowSlots(a: seq<PhpVersion>)
    requires |a| >= 2 && Ascending(a)
    ensures ValidPlan(Plan(a[|a| - 2..], Unconstrained, false))
    ensures Slots(Plan(a[|a| - 2..], Unconstrained, false), 3) == [a[|a| - 2], a[|a| - 2], a[|a| - 1]]
  {
    var h := a[|a| - 2..];
    assert h == [a[|a| - 2], a[|a| - 1]];
    var p := Plan(h, Unconstrained, false);
    SatUnconstrained(h[0]);
    SatUnconstrained(h[1]);
    PickKept(h, Unconstrained, 0);
    PickKept(h, Unconstrained, 1);
    assert Slots(p, 3) == [h[0], h[0], h[1]];
  }

  /**
   * The unit-test jobs of a build resolved to a plan outside the lowest
   * major: three jobs, on mariadb (with `--prefer-lowest`), mysql80 and
   * mysql84, running the plan's first three slots.
   */
  lemma HigherMajorUnitJobs(installerVersion: string, p: Plan)
    requires ValidPlan(p) && !p.lowest
    ensures var js := PhpunitJobs(installerVersion, p);
      && |js| == 3
      && js[0].db == Mariadb && js[1].db == Mysql80 && js[2].db == Mysql84
      && js[0].composerArgs == PreferLowest && js[1].composerArgs != PreferLowest && js[2].composerArgs != PreferLowest
      && js[0].php == Render(PhpAt(p, 0)) && js[1].php == Render(PhpAt(p, 1)) && js[2].php == Render(PhpAt(p, 2))
  {
    var js := PhpunitJobs(installerVersion, p);
    var layout := PhpunitLayout(false);
    assert |js| == 3 && js[0] == SlotJob(installerVersion, p, layout[0], PhpunitOptions)
      && js[1] == SlotJob(installerVersion, p, layout[1], PhpunitOptions)
      && js[2] == SlotJob(installerVersion, p, layout[2], PhpunitOptions);
    SlotJobFields(installerVersion, p, layout[0], PhpunitOptions);
    SlotJobFields(installerVersion, p, layout[1], PhpunitOptions);
    SlotJobFields(installerVersion, p, layout[2], PhpunitOptions);
  }
}
