// Which branch of silverstripe/installer a module's CI builds against
// ("" for none, "5.x-dev", "5.2.x-dev" or a pinned tag), and the CMS release
// line that decides the module's PHP versions.
module Installer {
  import opened Util
  import opened Lines
  import opened Catalog

  /** What the generator reads from a module's composer.json. */
  datatype Manifest = Manifest(
    packageType: Option<string>,
    require: map<string, string>,
    platformPhp: Option<string>)

  /** Package types that build against the installer when their dependencies say so. */
  const ModuleTypes: set<string> :=
    {"silverstripe-module", "silverstripe-vendormodule", "silverstripe-recipe", "silverstripe-theme"}

  /**
   * The core packages scanned, in order, with the offset from their major to
   * the CMS major. Plugin packages (recipe-plugin, vendor-plugin) are never
   * scanned.
   */
  const CoreDeps: seq<(string, nat)> :=
    [("silverstripe/framework", 0), ("silverstripe/cms", 0), ("silverstripe/admin", 3)]

  predicate EndsWith(s: string, suffix: string) {
    |suffix| <= |s| && s[|s| - |suffix|..] == suffix
  }

  /** The installer minor for a CMS major: its current minor when the installer has that branch. */
  function CurrentMinorDev(cat: Catalog, major: nat, installerBranches: seq<string>): string {
    var cm := CurrentMinor(cat, major);
    if cm.Some? && FormatLine(cm.value) in installerBranches then Dev(cm.value)
    else Dev(Line(major, None))
  }

  /**
   * What one core dependency says: a dev branch is taken as it is; a caret
   * constraint "^M" names CMS major M + offset, built on its bare major when
   * the module branch is a bare major, else on that major's current minor.
   */
  function FromDependency(cat: Catalog, constraint: string, offset: nat, branch: RefClass,
                          installerBranches: seq<string>): Option<string>
  {
    if EndsWith(constraint, DevSuffix) then Some(constraint)
    else if |constraint| > 1 && constraint[0] == '^' && Classify(constraint[1..]).Resolved? then
      var major := Classify(constraint[1..]).line.major + offset;
      if branch.Resolved? && branch.line.minor.None? then Some(Dev(Line(major, None)))
      else Some(CurrentMinorDev(cat, major, installerBranches))
    else
      None
  }

  /** What a core dependency names is always a branch alias. */
  lemma FromDependencyDev(cat: Catalog, constraint: string, offset: nat, branch: RefClass,
                          installerBranches: seq<string>)
    ensures var r := FromDependency(cat, constraint, offset, branch, installerBranches);
      r.Some? ==> EndsWith(r.value, DevSuffix)
  {
  }

  /** The first core dependency, in `deps` order, that names an installer branch. */
  function FromDependencies(cat: Catalog, require: map<string, string>, deps: seq<(string, nat)>,
                            branch: RefClass, installerBranches: seq<string>): (r: Option<string>)
    ensures r.Some? ==>
              exists i :: 0 <= i < |deps| && deps[i].0 in require
                          && FromDependency(cat, require[deps[i].0], deps[i].1, branch, installerBranches) == r
    ensures r.Some? ==> EndsWith(r.value, DevSuffix)
  {
    if |deps| == 0 then None
    else
      var d := deps[0];
      var here := if d.0 in require then FromDependency(cat, require[d.0], d.1, branch, installerBranches) else None;
      assert here.Some? ==> EndsWith(here.value, DevSuffix) by {
        if d.0 in require { FromDependencyDev(cat, require[d.0], d.1, branch, installerBranches); }
      }
      if here.Some? then here
      else
        var r := FromDependencies(cat, require, deps[1..], branch, installerBranches);
        assert forall i :: 1 <= i < |deps| ==> deps[i] == deps[1..][i - 1];
        r
  }

  predicate IsModule(m: Manifest) {
    m.packageType.Some? && m.packageType.value in ModuleTypes
  }

  /** The installer branch the composer.json points at, for module package types only. */
  function ManifestInstaller(cat: Catalog, manifest: Option<Manifest>, branch: RefClass,
                             installerBranches: seq<string>): Option<string>
  {
    if manifest.Some? && IsModule(manifest.value) then
      FromDependencies(cat, manifest.value.require, CoreDeps, branch, installerBranches)
    else
      None
  }

  /**
   * The installer version, by the first rule that applies:
   * a repository that never uses the installer gets "";
   * a lockstepped repository on a pinned tag gets the pinned version;
   * a lockstepped repository on a version branch gets that line (moved by
   * its offset); a mapped repository on a mapped line gets its installer
   * line; a module whose composer.json names a core dependency gets what
   * that says; a version-shaped parent branch gets its own line; any other
   * repository the catalog knows gets the current minor of the lowest major;
   * anything else gets "".
   */
  function InstallerVersion(cat: Catalog, repo: string, branch: string, parentBranch: string,
                            manifest: Option<Manifest>, installerBranches: seq<string>): (v: string)
    requires WellFormed(cat)
    ensures repo in cat.neverInstaller ==> v == ""
    ensures v == "" || v in cat.pinnedTags.Values || EndsWith(v, DevSuffix)
    ensures repo !in cat.neverInstaller && branch !in cat.pinnedTags ==>
      (v != "" <==> Known(cat, repo)
                    || ManifestInstaller(cat, manifest, Classify(branch), installerBranches).Some?
                    || Classify(parentBranch).Resolved?)
  {
    var bc := Classify(branch);
    var mapped := if bc.Resolved? then MappedInstaller(cat.installerMinors, repo, bc.line) else None;
    var fromManifest := ManifestInstaller(cat, manifest, bc, installerBranches);
    var parent := Classify(parentBranch);
    if repo in cat.neverInstaller then ""
    else if Lockstepped(cat, repo) && branch in cat.pinnedTags then cat.pinnedTags[branch]
    else if Lockstepped(cat, repo) && bc.Resolved? then Dev(Shift(bc.line, cat.lockstepOffset[repo]))
    else if mapped.Some? then Dev(mapped.value)
    else if fromManifest.Some? then fromManifest.value
    else if parent.Resolved? then Dev(parent.line)
    else if Known(cat, repo) then Dev(LowestCurrentMinor(cat))
    else ""
  }

  /**
   * The CMS release line of a build: the installer branch when it is one,
   * else the repository's own line as the catalog places it, else the current
   * minor of the lowest major for repositories the catalog knows; none for
   * the rest.
   */
  function ReleaseLine(cat: Catalog, repo: string, branch: string, installerVersion: string): (r: Option<Line>)
    requires WellFormed(cat)
    ensures ParseDev(installerVersion).Some? ==> r == ParseDev(installerVersion)
    ensures r.None? ==> !Known(cat, repo)
  {
    var bc := Classify(branch);
    var dev := ParseDev(installerVersion);
    if dev.Some? then dev
    else if Lockstepped(cat, repo) && bc.Resolved? then Some(Shift(bc.line, cat.lockstepOffset[repo]))
    else if bc.Resolved? && MappedInstaller(cat.installerMinors, repo, bc.line).Some? then
      MappedInstaller(cat.installerMinors, repo, bc.line)
    else if Known(cat, repo) then Some(LowestCurrentMinor(cat))
    else None
  }

  /**
   * A lockstepped repository on branch `l` builds against the CMS line `l`
   * moved by its offset, and that is the release line its PHP list comes from.
   */
  lemma LockstepReleaseLine(cat: Catalog, repo: string, l: Line, parentBranch: string,
                            manifest: Option<Manifest>, installerBranches: seq<string>)
    requires WellFormed(cat) && repo !in cat.neverInstaller && Lockstepped(cat, repo)
    requires FormatLine(l) !in cat.pinnedTags
    ensures var iv := InstallerVersion(cat, repo, FormatLine(l), parentBranch, manifest, installerBranches);
      && iv == Dev(Shift(l, cat.lockstepOffset[repo]))
      && ReleaseLine(cat, repo, FormatLine(l), iv) == Some(Shift(l, cat.lockstepOffset[repo]))
  {
    ClassifyFormatLine(l);
    ParseDevOfDev(Shift(l, cat.lockstepOffset[repo]));
  }

  /**
   * A repository the catalog does not know, whose composer.json is not a
   * module's and whose parent branch is not version-shaped, needs no
   * installer and is placed on no release line.
   */
  lemma UnknownUnplaced(cat: Catalog, repo: string, branch: string, parentBranch: string,
                        m: Manifest, installerBranches: seq<string>)
    requires WellFormed(cat) && !Known(cat, repo) && !IsModule(m)
    requires Classify(parentBranch) == Unresolved
    ensures var iv := InstallerVersion(cat, repo, branch, parentBranch, Some(m), installerBranches);
      iv == "" && ReleaseLine(cat, repo, branch, iv).None?
  {
    NonModuleIgnoresManifest(cat, repo, branch, parentBranch, m, installerBranches);
    assert ParseDev("").None?;
    if Classify(branch).Resolved? {
      assert MappedInstaller(cat.installerMinors, repo, Classify(branch).line).None?;
    }
  }

  // ---------------------------------------------------------------------------
  // Properties of the decision table

  /** A repository that never uses the installer gets "" on every branch. */
  lemma NeverInstallerEmpty(cat: Catalog, repo: string, branch: string, parentBranch: string,
                            manifest: Option<Manifest>, installerBranches: seq<string>)
    requires WellFormed(cat) && repo in cat.neverInstaller
    ensures InstallerVersion(cat, repo, branch, parentBranch, manifest, installerBranches) == ""
  {
  }

  /** The result depends on the branch only through its classification (pinned tags aside). */
  lemma SameClassSameInstaller(cat: Catalog, repo: string, b1: string, b2: string, parentBranch: string,
                               manifest: Option<Manifest>, installerBranches: seq<string>)
    requires WellFormed(cat)
    requires Classify(b1) == Classify(b2)
    requires b1 !in cat.pinnedTags && b2 !in cat.pinnedTags
    ensures InstallerVersion(cat, repo, b1, parentBranch, manifest, installerBranches)
         == InstallerVersion(cat, repo, b2, parentBranch, manifest, installerBranches)
  {
  }

  /** A pull-request ref builds against the same installer as its base branch. */
  lemma PullRefSameAsBranch(cat: Catalog, repo: string, branch: string, name: string, parentBranch: string,
                            manifest: Option<Manifest>, installerBranches: seq<string>)
    requires WellFormed(cat) && '/' !in branch
    ensures InstallerVersion(cat, repo, CleanBranch(PullPrefix + "/" + branch + "/" + name), parentBranch, manifest, installerBranches)
         == InstallerVersion(cat, repo, branch, parentBranch, manifest, installerBranches)
  {
    CleanPullRef(branch, name);
  }

  /** A patch tag "M.m.p" builds against the same installer as its line "M.m". */
  lemma TagSameAsLine(cat: Catalog, repo: string, major: nat, minor: nat, patch: nat, parentBranch: string,
                      manifest: Option<Manifest>, installerBranches: seq<string>)
    requires WellFormed(cat)
    requires FormatLine(Line(major, Some(minor))) !in cat.pinnedTags
    requires FormatLine(Line(major, Some(minor))) + "." + NatToString(patch) !in cat.pinnedTags
    ensures InstallerVersion(cat, repo, FormatLine(Line(major, Some(minor))) + "." + NatToString(patch), parentBranch, manifest, installerBranches)
         == InstallerVersion(cat, repo, FormatLine(Line(major, Some(minor))), parentBranch, manifest, installerBranches)
  {
    ClassifyTag(major, minor, patch);
    ClassifyFormatLine(Line(major, Some(minor)));
    SameClassSameInstaller(cat, repo, FormatLine(Line(major, Some(minor))) + "." + NatToString(patch),
      FormatLine(Line(major, Some(minor))), parentBranch, manifest, installerBranches);
  }

  /**
   * A lockstepped repository on branch l builds against the CMS line l moved
   * by its offset: "M" gives "(M+offset).x-dev", "M.m" gives "(M+offset).m.x-dev".
   */
  lemma LockstepBranch(cat: Catalog, repo: string, l: Line, parentBranch: string,
                       manifest: Option<Manifest>, installerBranches: seq<string>)
    requires WellFormed(cat) && repo !in cat.neverInstaller && Lockstepped(cat, repo)
    requires FormatLine(l) !in cat.pinnedTags
    ensures InstallerVersion(cat, repo, FormatLine(l), parentBranch, manifest, installerBranches)
         == Dev(Line(l.major + cat.lockstepOffset[repo], l.minor))
  {
    ClassifyFormatLine(l);
  }

  /**
   * A repository that is not lockstepped, on a line the installer table
   * maps, builds against the mapped installer line whatever its
   * composer.json says, and that line is its release line.
   */
  lemma MappedInstallerWins(cat: Catalog, repo: string, l: Line, parentBranch: string,
                            manifest: Option<Manifest>, installerBranches: seq<string>, il: Line)
    requires WellFormed(cat) && repo !in cat.neverInstaller && !Lockstepped(cat, repo)
    requires MappedInstaller(cat.installerMinors, repo, l) == Some(il)
    ensures InstallerVersion(cat, repo, FormatLine(l), parentBranch, manifest, installerBranches) == Dev(il)
    ensures ReleaseLine(cat, repo, FormatLine(l), Dev(il)) == Some(il)
  {
    ClassifyFormatLine(l);
    ParseDevOfDev(il);
  }

  /**
   * A known repository on a branch that is not version-shaped, with nothing
   * in composer.json and no version-shaped parent branch, builds against the
   * current minor of the lowest major.
   */
  lemma UnresolvedFallsBackToCurrentMinor(cat: Catalog, repo: string, branch: string, parentBranch: string,
                                          manifest: Option<Manifest>, installerBranches: seq<string>)
    requires WellFormed(cat) && repo !in cat.neverInstaller && Known(cat, repo)
    requires branch !in cat.pinnedTags
    requires Classify(branch) == Unresolved && Classify(parentBranch) == Unresolved
    requires ManifestInstaller(cat, manifest, Unresolved, installerBranches).None?
    ensures InstallerVersion(cat, repo, branch, parentBranch, manifest, installerBranches)
         == Dev(LowestCurrentMinor(cat))
  {
  }

  /** A version-shaped parent branch stands in for a feature branch of an unmapped repository. */
  lemma ParentBranchLine(cat: Catalog, repo: string, branch: string, l: Line,
                         manifest: Option<Manifest>, installerBranches: seq<string>)
    requires WellFormed(cat) && repo !in cat.neverInstaller
    requires branch !in cat.pinnedTags && Classify(branch) == Unresolved
    requires ManifestInstaller(cat, manifest, Unresolved, installerBranches).None?
    ensures InstallerVersion(cat, repo, branch, FormatLine(l), manifest, installerBranches) == Dev(l)
  {
    ClassifyFormatLine(l);
  }

  /**
   * Without a module package type (none, or "package") composer.json is not
   * consulted: the result is the one for no composer.json at all, which is
   * "" for a repository the catalog does not know, on a branch with no
   * version-shaped parent.
   */
  lemma NonModuleIgnoresManifest(cat: Catalog, repo: string, branch: string, parentBranch: string,
                                 m: Manifest, installerBranches: seq<string>)
    requires WellFormed(cat) && !IsModule(m)
    ensures InstallerVersion(cat, repo, branch, parentBranch, Some(m), installerBranches)
         == InstallerVersion(cat, repo, branch, parentBranch, None, installerBranches)
    ensures !Known(cat, repo) && Classify(parentBranch) == Unresolved
            && !(Lockstepped(cat, repo) && branch in cat.pinnedTags)
         ==> InstallerVersion(cat, repo, branch, parentBranch, Some(m), installerBranches) == ""
  {
    if Classify(branch).Resolved? && !Known(cat, repo) {
      var l := Classify(branch).line;
      assert MappedInstaller(cat.installerMinors, repo, l).None?;
    }
  }

  /** A dev-branch framework dependency of a module is taken as it is. */
  lemma DevDependencyPassedThrough(cat: Catalog, require: map<string, string>, dev: string,
                                   branch: RefClass, installerBranches: seq<string>)
    requires EndsWith(dev, DevSuffix)
    requires "silverstripe/framework" in require && require["silverstripe/framework"] == dev
    ensures FromDependencies(cat, require, CoreDeps, branch, installerBranches) == Some(dev)
  {
  }

  /** The first core dependency present that names a branch decides. */
  lemma {:induction false} FirstDependencyDecides(cat: Catalog, require: map<string, string>,
                                                  deps: seq<(string, nat)>, d: nat,
                                                  branch: RefClass, installerBranches: seq<string>)
    requires d < |deps| && deps[d].0 in require
    requires forall i :: 0 <= i < d ==> deps[i].0 !in require
    requires FromDependency(cat, require[deps[d].0], deps[d].1, branch, installerBranches).Some?
    ensures FromDependencies(cat, require, deps, branch, installerBranches)
         == FromDependency(cat, require[deps[d].0], deps[d].1, branch, installerBranches)
    decreases d
  {
    if d > 0 {
      assert deps[1..][d - 1] == deps[d];
      FirstDependencyDecides(cat, require, deps[1..], d - 1, branch, installerBranches);
    }
  }

  /**
   * A caret constraint "^M" names CMS major M + offset: its bare major for a
   * bare-major module branch, else its current minor when the installer has
   * that branch.
   */
  lemma CaretDependency(cat: Catalog, m: nat, offset: nat, branch: RefClass, installerBranches: seq<string>)
    ensures FromDependency(cat, "^" + NatToString(m), offset, branch, installerBranches)
         == Some(if branch.Resolved? && branch.line.minor.None? then Dev(Line(m + offset, None))
                 else CurrentMinorDev(cat, m + offset, installerBranches))
  {
    CaretText(m);
  }

  /** "^M" is no dev branch, and what follows the caret reads as the bare major M. */
  lemma CaretText(m: nat)
    ensures var c := "^" + NatToString(m);
      && !EndsWith(c, DevSuffix) && |c| > 1 && c[0] == '^' && Classify(c[1..]) == Resolved(Line(m, None))
  {
    var c := "^" + NatToString(m);
    assert FormatLine(Line(m, None)) == NatToString(m);
    ClassifyFormatLine(Line(m, None));
    assert c[1..] == NatToString(m);
    assert c[|c| - 1] == NatToString(m)[|NatToString(m)| - 1];
    assert IsDigit(c[|c| - 1]);
    assert !EndsWith(c, DevSuffix) by {
      assert DevSuffix[|DevSuffix| - 1] == 'v';
      assert |c| >= |DevSuffix| ==> c[|c| - |DevSuffix|..][|DevSuffix| - 1] == c[|c| - 1];
    }
  }


  /**
   * "^M" on framework (or cms, or "^(M-3)" on admin, when the packages
   * before it in the scan are absent) builds against the current minor of
   * CMS major M when the installer has that branch, for a module branch that
   * is not a bare major.
   */
  lemma CaretDependencyCurrentMinor(cat: Catalog, require: map<string, string>, d: nat, m: nat,
                                    branch: RefClass, installerBranches: seq<string>)
    requires d < |CoreDeps|
    requires forall i :: 0 <= i < d ==> CoreDeps[i].0 !in require
    requires CoreDeps[d].0 in require && require[CoreDeps[d].0] == "^" + NatToString(m)
    requires !(branch.Resolved? && branch.line.minor.None?)
    requires CurrentMinor(cat, m + CoreDeps[d].1).Some?
    requires FormatLine(CurrentMinor(cat, m + CoreDeps[d].1).value) in installerBranches
    ensures FromDependencies(cat, require, CoreDeps, branch, installerBranches)
         == Some(Dev(CurrentMinor(cat, m + CoreDeps[d].1).value))
  {
    CaretDependencyDecides(cat, require, CoreDeps, d, m, branch, installerBranches);
  }

  /** A caret dependency that is the first one present decides, on any dependency list. */
  lemma CaretDependencyDecides(cat: Catalog, require: map<string, string>, deps: seq<(string, nat)>, d: nat,
                               m: nat, branch: RefClass, installerBranches: seq<string>)
    requires d < |deps|
    requires forall i :: 0 <= i < d ==> deps[i].0 !in require
    requires deps[d].0 in require && require[deps[d].0] == "^" + NatToString(m)
    requires !(branch.Resolved? && branch.line.minor.None?)
    requires CurrentMinor(cat, m + deps[d].1).Some?
    requires FormatLine(CurrentMinor(cat, m + deps[d].1).value) in installerBranches
    ensures FromDependencies(cat, require, deps, branch, installerBranches)
         == Some(Dev(CurrentMinor(cat, m + deps[d].1).value))
  {
    var cm := CurrentMinor(cat, m + deps[d].1).value;
    assert FromDependency(cat, require[deps[d].0], deps[d].1, branch, installerBranches) == Some(Dev(cm)) by {
      CaretDependency(cat, m, deps[d].1, branch, installerBranches);
    }
    FirstDependencyDecides(cat, require, deps, d, branch, installerBranches);
  }

  /** Scanning ignores packages that are not among those scanned. */
  lemma {:induction false} UnscannedIgnored(cat: Catalog, require: map<string, string>, deps: seq<(string, nat)>,
                                            other: string, version: string,
                                            branch: RefClass, installerBranches: seq<string>)
    requires forall i :: 0 <= i < |deps| ==> deps[i].0 != other
    ensures FromDependencies(cat, require[other := version], deps, branch, installerBranches)
         == FromDependencies(cat, require, deps, branch, installerBranches)
    decreases |deps|
  {
    if |deps| > 0 {
      assert forall i :: 0 <= i < |deps[1..]| ==> deps[1..][i] == deps[i + 1];
      UnscannedIgnored(cat, require, deps[1..], other, version, branch, installerBranches);
    }
  }

  /** Plugin dependencies never change what the core dependencies say. */
  lemma PluginsIgnored(cat: Catalog, require: map<string, string>, plugin: string, version: string,
                       branch: RefClass, installerBranches: seq<string>)
    requires plugin == "silverstripe/recipe-plugin" || plugin == "silverstripe/vendor-plugin"
    ensures FromDependencies(cat, require[plugin := version], CoreDeps, branch, installerBranches)
         == FromDependencies(cat, require, CoreDeps, branch, installerBranches)
  {
    UnscannedIgnored(cat, require, CoreDeps, plugin, version, branch, installerBranches);
  }
}
