// The static reference data the generator consults: which PHP versions each
// CMS release line supports, which repositories never build against the
// installer, which move in lockstep with the CMS (and at what major offset),
// and which installer minor each non-lockstepped module minor belongs to.
module Catalog {
  import opened Util
  import opened Lines

  /** A PHP runtime version "M.m". */
  datatype PhpVersion = PhpVersion(major: nat, minor: nat)

  function Render(v: PhpVersion): string {
    NatToString(v.major) + "." + NatToString(v.minor)
  }

  predicate PhpLt(a: PhpVersion, b: PhpVersion) {
    a.major < b.major || (a.major == b.major && a.minor < b.minor)
  }

  predicate Ascending(s: seq<PhpVersion>) {
    forall i, j :: 0 <= i < j < |s| ==> PhpLt(s[i], s[j])
  }

  /** One entry of the PHP-versions-per-release table, keyed by a line. */
  datatype Release = Release(line: Line, php: seq<PhpVersion>)

  /**
   * One installer minor together with, per non-lockstepped repository, the
   * repository minors released alongside it.
   */
  datatype InstallerEntry = InstallerEntry(installer: Line, repoMinors: map<string, seq<Line>>)

  datatype Catalog = Catalog(
    lowestMajor: nat,
    releases: seq<Release>,
    allPhp: seq<PhpVersion>,
    neverInstaller: set<string>,
    lockstepOffset: map<string, nat>,
    installerMinors: seq<InstallerEntry>,
    pinnedTags: map<string, string>)

  /**
   * Every PHP list is non-empty and ascending and is drawn from `allPhp`,
   * and the lowest supported major has an entry of its own.
   */
  predicate WellFormed(c: Catalog) {
    && (forall r :: r in c.releases ==> |r.php| > 0 && Ascending(r.php))
    && (forall r, v :: r in c.releases && v in r.php ==> v in c.allPhp)
    && |c.allPhp| > 0 && Ascending(c.allPhp)
    && exists r :: r in c.releases && r.line == Line(c.lowestMajor, None)
  }

  function ReleaseKeys(c: Catalog): (keys: seq<Line>)
    ensures |keys| == |c.releases|
    ensures forall i :: 0 <= i < |keys| ==> keys[i] == c.releases[i].line
  {
    seq(|c.releases|, i requires 0 <= i < |c.releases| => c.releases[i].line)
  }

  /** The PHP list of the first release keyed exactly by `l`. */
  function FindRelease(rs: seq<Release>, l: Line): (r: Option<seq<PhpVersion>>)
    ensures r.Some? <==> exists k :: 0 <= k < |rs| && rs[k].line == l
    ensures r.Some? ==> exists k :: 0 <= k < |rs| && rs[k].line == l && rs[k].php == r.value
  {
    if |rs| == 0 then None
    else if rs[0].line == l then Some(rs[0].php)
    else
      var r := FindRelease(rs[1..], l);
      assert forall k :: 1 <= k < |rs| ==> rs[k] == rs[1..][k - 1];
      r
  }

  /** The most recent minor of a CMS major that the release table knows. */
  function CurrentMinor(c: Catalog, major: nat): Option<Line> {
    LatestOfMajor(ReleaseKeys(c), major)
  }

  lemma LowestKeyPresent(c: Catalog)
    requires WellFormed(c)
    ensures Line(c.lowestMajor, None) in ReleaseKeys(c)
    ensures exists k :: 0 <= k < |c.releases| && c.releases[k].line == Line(c.lowestMajor, None)
  {
    var r :| r in c.releases && r.line == Line(c.lowestMajor, None);
    var k :| 0 <= k < |c.releases| && c.releases[k] == r;
    assert ReleaseKeys(c)[k] == r.line;
  }

  /** The most recent minor of the lowest supported major. */
  function LowestCurrentMinor(c: Catalog): (l: Line)
    requires WellFormed(c)
    ensures l.major == c.lowestMajor
    ensures l in ReleaseKeys(c)
    ensures forall k :: k in ReleaseKeys(c) && k.major == c.lowestMajor ==> NaturalLe(k, l)
  {
    LowestKeyPresent(c);
    CurrentMinor(c, c.lowestMajor).value
  }

  /**
   * The PHP versions of a release line: its own entry, else the entry of its
   * major, else the lowest major's entry.
   */
  function PhpFor(c: Catalog, l: Line): (u: seq<PhpVersion>)
    requires WellFormed(c)
    ensures |u| > 0 && Ascending(u)
    ensures forall v :: v in u ==> v in c.allPhp
    ensures FindRelease(c.releases, l).Some? ==> u == FindRelease(c.releases, l).value
    ensures FindRelease(c.releases, l).None? && FindRelease(c.releases, Line(l.major, None)).Some? ==>
      u == FindRelease(c.releases, Line(l.major, None)).value
    ensures FindRelease(c.releases, l).None? && FindRelease(c.releases, Line(l.major, None)).None? ==>
      u == FindRelease(c.releases, Line(c.lowestMajor, None)).value
  {
    var own := FindRelease(c.releases, l);
    if own.Some? then own.value
    else
      var ofMajor := FindRelease(c.releases, Line(l.major, None));
      if ofMajor.Some? then ofMajor.value
      else
        LowestKeyPresent(c);
        FindRelease(c.releases, Line(c.lowestMajor, None)).value
  }

  predicate Lockstepped(c: Catalog, repo: string) {
    repo in c.lockstepOffset
  }

  /** A lockstepped branch line moved onto the CMS numbering. */
  function Shift(l: Line, offset: nat): Line {
    Line(l.major + offset, l.minor)
  }

  /** Whether an installer entry lists `l` for the repository (any minor of it for a bare major). */
  predicate Covers(minors: seq<Line>, l: Line) {
    if l.minor.Some? then l in minors else exists k :: k in minors && k.major == l.major
  }

  /**
   * The installer line a non-lockstepped repository line is released with:
   * the first entry covering it; a bare major maps to a bare major.
   */
  function MappedInstaller(entries: seq<InstallerEntry>, repo: string, l: Line): (r: Option<Line>)
    ensures r.None? <==>
      forall e :: e in entries && repo in e.repoMinors ==> !Covers(e.repoMinors[repo], l)
    ensures r.Some? ==>
      exists e :: e in entries && repo in e.repoMinors && Covers(e.repoMinors[repo], l)
        && r.value == (if l.minor.Some? then e.installer else Line(e.installer.major, None))
  {
    if |entries| == 0 then None
    else
      var e := entries[0];
      assert forall x :: x in entries <==> x == e || x in entries[1..];
      if repo in e.repoMinors && Covers(e.repoMinors[repo], l) then
        Some(if l.minor.Some? then e.installer else Line(e.installer.major, None))
      else
        MappedInstaller(entries[1..], repo, l)
  }

  predicate Mapped(c: Catalog, repo: string) {
    exists e :: e in c.installerMinors && repo in e.repoMinors
  }

  /** A repository the catalog knows how to place on a CMS line. */
  predicate Known(c: Catalog, repo: string) {
    Lockstepped(c, repo) || Mapped(c, repo)
  }
}
