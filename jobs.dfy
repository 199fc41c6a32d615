// The job descriptors of the matrix: what one job runs (PHP version,
// database, composer flags, test suites), how its display name is derived,
// and the fixed layouts that pair job slots with databases.
module Jobs {
  import opened Util
  import opened Catalog
  import opened PhpResolution

  datatype Db = Mysql57 | Mysql80 | Mysql84 | Mariadb

  /** The short label a database has in job names. */
  function DbLabel(d: Db): string {
    match d
    case Mysql57 => "mysql57"
    case Mysql80 => "mysql80"
    case Mysql84 => "mysql84"
    case Mariadb => "mariadb"
  }

  const PreferLowest: string := "--prefer-lowest"
  const PreferLowestMark: string := "prf-low"
  const DefaultPhpunitSuite: string := "all"
  const DefaultEndToEndSuite: string := "root"

  /**
   * One job of the matrix. The display name is not a field: it is derived
   * from the fields by `Name`, so two jobs equal in every field are equal
   * as descriptors, whatever their names.
   */
  datatype Job = Job(
    installerVersion: string,
    php: string,
    db: Db,
    composerArgs: string,
    phpunit: bool,
    phpunitSuite: string,
    endtoend: bool,
    endtoendSuite: string,
    endtoendConfig: string,
    endtoendTags: string,
    needsFullSetup: bool)

  /** The fields a caller of createJob (or an extra job) may set; absent ones take their defaults. */
  datatype Options = Options(
    php: Option<string>,
    db: Option<Db>,
    composerArgs: Option<string>,
    phpunit: Option<bool>,
    phpunitSuite: Option<string>,
    endtoend: Option<bool>,
    endtoendSuite: Option<string>,
    endtoendConfig: Option<string>,
    endtoendTags: Option<string>)

  const NoOptions: Options := Options(None, None, None, None, None, None, None, None, None)

  function OrElse<T>(o: Option<T>, d: T): T {
    if o.Some? then o.value else d
  }

  /**
   * A job on the given PHP version, with the options applied over the
   * defaults; it needs the full setup exactly when it builds against an
   * installer branch.
   */
  function MakeJob(installerVersion: string, php: string, o: Options): (j: Job)
    ensures j.needsFullSetup <==> installerVersion != ""
    ensures j.installerVersion == installerVersion
  {
    Job(installerVersion, OrElse(o.php, php), OrElse(o.db, Mysql57), OrElse(o.composerArgs, ""),
        OrElse(o.phpunit, false), OrElse(o.phpunitSuite, DefaultPhpunitSuite),
        OrElse(o.endtoend, false), OrElse(o.endtoendSuite, DefaultEndToEndSuite),
        OrElse(o.endtoendConfig, ""), OrElse(o.endtoendTags, ""),
        installerVersion != "")
  }

  /** With no options a job tests nothing, on mysql57, with plain composer arguments. */
  lemma DefaultJob(installerVersion: string, php: string)
    ensures var j := MakeJob(installerVersion, php, NoOptions);
      && j.php == php && j.db == Mysql57 && j.composerArgs == ""
      && !j.phpunit && j.phpunitSuite == DefaultPhpunitSuite
      && !j.endtoend && j.endtoendSuite == DefaultEndToEndSuite
      && j.endtoendConfig == "" && j.endtoendTags == ""
      && (j.needsFullSetup <==> installerVersion != "")
  {
  }

  // ---------------------------------------------------------------------------
  // Display names

  /**
   * The words of a job's name: its PHP version, "prf-low" when composer
   * runs with --prefer-lowest, the database label, then each active suite
   * with its sub-suite, and the end-to-end tag.
   */
  function NameWords(j: Job): seq<string> {
    [j.php]
    + (if j.composerArgs == PreferLowest then [PreferLowestMark] else [])
    + [DbLabel(j.db)]
    + (if j.phpunit then ["phpunit", j.phpunitSuite] else [])
    + (if j.endtoend then ["endtoend", j.endtoendSuite, j.endtoendTags] else [])
  }

  /**
   * The display name: the non-empty words, space-joined; when no part holds
   * a space, splitting the name at spaces gives those words back.
   */
  function Name(j: Job): (n: string)
    ensures NamePartsSpaceFree(j) ==> Words(n) == NonEmpty(NameWords(j))
  {
    var n := JoinSpaced(NonEmpty(NameWords(j)));
    assert NamePartsSpaceFree(j) ==> Words(n) == NonEmpty(NameWords(j)) by {
      if NamePartsSpaceFree(j) { JoinedWords(j); }
    }
    n
  }

  predicate SpaceFree(w: string) {
    ' ' !in w
  }

  /** Joining words that hold no space and splitting at spaces gives the words back. */
  lemma {:induction false} SplitJoinSpaced(ws: seq<string>)
    requires |ws| > 0
    requires forall i :: 0 <= i < |ws| ==> SpaceFree(ws[i])
    ensures Split(JoinSpaced(ws), ' ') == ws
    decreases |ws|
  {
    if |ws| == 1 {
      SplitWithout(ws[0], ' ');
    } else {
      SplitWithout(ws[0], ' ');
      SplitJoinSpaced(ws[1..]);
      assert JoinSpaced(ws) == ws[0] + [' '] + JoinSpaced(ws[1..]);
      SplitConcat(ws[0], ' ', JoinSpaced(ws[1..]));
      assert [ws[0]] + ws[1..] == ws;
    }
  }

  lemma {:induction false} NonEmptyIdempotent(ws: seq<string>)
    ensures NonEmpty(NonEmpty(ws)) == NonEmpty(ws)
    decreases |ws|
  {
    if |ws| > 0 {
      NonEmptyIdempotent(ws[1..]);
      if ws[0] != "" {
        assert NonEmpty(ws) == [ws[0]] + NonEmpty(ws[1..]);
        assert NonEmpty(ws)[1..] == NonEmpty(ws[1..]);
      }
    }
  }

  /** The parts a job's name is made from hold no space. */
  predicate NamePartsSpaceFree(j: Job) {
    SpaceFree(j.php) && SpaceFree(j.phpunitSuite) && SpaceFree(j.endtoendSuite) && SpaceFree(j.endtoendTags)
  }

  /** Joining the non-empty name words and splitting at spaces gives them back. */
  lemma JoinedWords(j: Job)
    requires NamePartsSpaceFree(j)
    ensures Words(JoinSpaced(NonEmpty(NameWords(j)))) == NonEmpty(NameWords(j))
  {
    var ws := NonEmpty(NameWords(j));
    assert |ws| > 0 && forall i :: 0 <= i < |ws| ==> SpaceFree(ws[i]) by {
      assert DbLabel(j.db) in NameWords(j);
      assert DbLabel(j.db) in ws;
      assert forall i :: 0 <= i < |ws| ==> ws[i] in NameWords(j);
    }
    SplitJoinSpaced(ws);
    NonEmptyIdempotent(NameWords(j));
  }

  /** A name carries the prefer-lowest mark exactly when composer runs with --prefer-lowest. */
  lemma PreferLowestNamed(j: Job)
    requires NamePartsSpaceFree(j)
    requires j.php != PreferLowestMark && j.phpunitSuite != PreferLowestMark
    requires j.endtoendSuite != PreferLowestMark && j.endtoendTags != PreferLowestMark
    ensures PreferLowestMark in Words(Name(j)) <==> j.composerArgs == PreferLowest
  {
    MarkWord(j);
  }

  /** Of the name words, only the composer mode can be the prefer-lowest mark. */
  lemma MarkWord(j: Job)
    requires j.php != PreferLowestMark && j.phpunitSuite != PreferLowestMark
    requires j.endtoendSuite != PreferLowestMark && j.endtoendTags != PreferLowestMark
    ensures PreferLowestMark in NameWords(j) <==> j.composerArgs == PreferLowest
  {
    var mark := if j.composerArgs == PreferLowest then [PreferLowestMark] else [];
    var unit := if j.phpunit then ["phpunit", j.phpunitSuite] else [];
    var e2e := if j.endtoend then ["endtoend", j.endtoendSuite, j.endtoendTags] else [];
    assert DbLabel(j.db) != PreferLowestMark;
    assert PreferLowestMark !in unit && PreferLowestMark !in e2e;
    assert NameWords(j) == [j.php] + mark + [DbLabel(j.db)] + unit + e2e;
  }

  // ---------------------------------------------------------------------------
  // Slots and layouts

  /** A job slot: the position whose PHP version it runs, its database and composer mode. */
  datatype Slot = Slot(index: nat, db: Db, preferLowest: bool)

  /**
   * The unit-test layout: for the lowest major mysql57 (prefer-lowest),
   * mariadb, mysql80 and mysql84 on slots 0 to 3; for the other majors
   * mariadb (prefer-lowest), mysql80 and mysql84 on slots 0 to 2.
   */
  function PhpunitLayout(lowest: bool): (l: seq<Slot>)
    ensures |l| == (if lowest then 4 else 3)
    ensures forall i :: 0 <= i < |l| ==> l[i].index == i && (l[i].preferLowest <==> i == 0)
  {
    if lowest then [Slot(0, Mysql57, true), Slot(1, Mariadb, false), Slot(2, Mysql80, false), Slot(3, Mysql84, false)]
    else [Slot(0, Mariadb, true), Slot(1, Mysql80, false), Slot(2, Mysql84, false)]
  }

  /** The database of the single job run when composer installs from the lock file. */
  function ComposerInstallDb(lowest: bool): Db {
    if lowest then Mysql57 else Mysql80
  }

  /**
   * The end-to-end layout: the first and the fourth slot, neither with
   * --prefer-lowest, on two different databases.
   */
  function EndToEndLayout(lowest: bool): (l: seq<Slot>)
    ensures |l| == 2 && l[0].index == 0 && l[1].index == 3
    ensures !l[0].preferLowest && !l[1].preferLowest
    ensures l[0].db != l[1].db
  {
    if lowest then [Slot(0, Mysql57, false), Slot(3, Mysql80, false)]
    else [Slot(0, Mysql80, false), Slot(3, Mysql84, false)]
  }

  /**
   * The end-to-end slots run on the database of the composer-install job and
   * on that of the third unit-test slot.
   */
  lemma EndToEndDatabases(lowest: bool)
    ensures EndToEndLayout(lowest)[0].db == ComposerInstallDb(lowest)
    ensures EndToEndLayout(lowest)[1].db == PhpunitLayout(lowest)[2].db
  {
  }

  const PhpunitOptions: Options := NoOptions.(phpunit := Some(true), phpunitSuite := Some(DefaultPhpunitSuite))

  function EndToEndOptions(tag: string): Options {
    NoOptions.(endtoend := Some(true), endtoendSuite := Some(DefaultEndToEndSuite), endtoendTags := Some(tag))
  }

  /** The job of one slot: the slot's PHP version and database over the given options. */
  function SlotJob(installerVersion: string, p: Plan, s: Slot, base: Options): Job
    requires ValidPlan(p)
  {
    MakeJob(installerVersion, Render(PhpAt(p, s.index)),
            base.(db := Some(s.db), composerArgs := Some(if s.preferLowest then PreferLowest else "")))
  }

  /** One job per slot, in layout order. */
  function SlotJobs(installerVersion: string, p: Plan, layout: seq<Slot>, base: Options): (js: seq<Job>)
    requires ValidPlan(p)
    ensures |js| == |layout|
    ensures forall i :: 0 <= i < |layout| ==> js[i] == SlotJob(installerVersion, p, layout[i], base)
  {
    if |layout| == 0 then []
    else SlotJobs(installerVersion, p, layout[..|layout| - 1], base)
         + [SlotJob(installerVersion, p, layout[|layout| - 1], base)]
  }

  /** The unit-test jobs of a build. */
  function PhpunitJobs(installerVersion: string, p: Plan): seq<Job>
    requires ValidPlan(p)
  {
    SlotJobs(installerVersion, p, PhpunitLayout(p.lowest), PhpunitOptions)
  }

  /** What a slot's job takes from the slot. */
  lemma SlotJobFields(installerVersion: string, p: Plan, s: Slot, base: Options)
    requires ValidPlan(p) && base.php.None?
    ensures var j := SlotJob(installerVersion, p, s, base);
      && j.db == s.db
      && (j.composerArgs == PreferLowest <==> s.preferLowest)
      && j.php == Render(PhpAt(p, s.index))
      && j.phpunit == OrElse(base.phpunit, false) && j.endtoend == OrElse(base.endtoend, false)
      && j.phpunitSuite == OrElse(base.phpunitSuite, DefaultPhpunitSuite)
  {
  }

  /** The unit-test layout puts each database on one slot, and only the first slot prefers lowest. */
  lemma PhpunitLayoutShape(lowest: bool)
    ensures var layout := PhpunitLayout(lowest);
      && |layout| == (if lowest then 4 else 3)
      && (forall i, k :: 0 <= i < k < |layout| ==> layout[i].db != layout[k].db && layout[i].index < layout[k].index)
      && (forall i :: 0 <= i < |layout| ==> (layout[i].preferLowest <==> i == 0))
  {
  }

  /**
   * The unit-test matrix: four jobs for the lowest major and three for the
   * others, each on a different database, only the first with
   * --prefer-lowest, every one running the unit tests on the PHP version of
   * its slot, the slots in ascending order.
   */
  lemma PhpunitMatrix(installerVersion: string, p: Plan)
    requires ValidPlan(p)
    ensures var js := PhpunitJobs(installerVersion, p);
      && |js| == (if p.lowest then 4 else 3)
      && (forall i, k :: 0 <= i < k < |js| ==> js[i].db != js[k].db)
      && (forall i :: 0 <= i < |js| ==> (js[i].composerArgs == PreferLowest <==> i == 0))
      && (forall i :: 0 <= i < |js| ==> js[i].phpunit && !js[i].endtoend && js[i].phpunitSuite == DefaultPhpunitSuite)
      && (forall i :: 0 <= i < |js| ==> js[i].php == Render(PhpAt(p, PhpunitLayout(p.lowest)[i].index)))
  {
    var js := PhpunitJobs(installerVersion, p);
    var layout := PhpunitLayout(p.lowest);
    PhpunitLayoutShape(p.lowest);
    assert |js| == |layout|;
    forall i | 0 <= i < |js|
      ensures js[i].db == layout[i].db
      ensures js[i].composerArgs == PreferLowest <==> layout[i].preferLowest
      ensures js[i].phpunit && !js[i].endtoend && js[i].phpunitSuite == DefaultPhpunitSuite
      ensures js[i].php == Render(PhpAt(p, layout[i].index))
    {
      PhpunitJobAt(installerVersion, p, i);
    }
    forall i, k | 0 <= i < k < |js|
      ensures js[i].db != js[k].db
    {
      assert layout[i].db != layout[k].db;
    }
  }

  /** The unit-test job at position `i` is its slot's job. */
  lemma PhpunitJobAt(installerVersion: string, p: Plan, i: nat)
    requires ValidPlan(p) && i < |PhpunitLayout(p.lowest)|
    ensures var j, s := PhpunitJobs(installerVersion, p)[i], PhpunitLayout(p.lowest)[i];
      && j.db == s.db && (j.composerArgs == PreferLowest <==> s.preferLowest)
      && j.phpunit && !j.endtoend && j.phpunitSuite == DefaultPhpunitSuite
      && j.php == Render(PhpAt(p, s.index))
  {
    var s := PhpunitLayout(p.lowest)[i];
    assert PhpunitJobs(installerVersion, p)[i] == SlotJob(installerVersion, p, s, PhpunitOptions);
    SlotJobFields(installerVersion, p, s, PhpunitOptions);
  }

  /** Over the layout, a later job never runs an older PHP version. */
  lemma PhpunitPhpNonDecreasing(p: Plan, i: nat, k: nat)
    requires ValidPlan(p) && i <= k < |PhpunitLayout(p.lowest)|
    ensures var a, b := PhpAt(p, PhpunitLayout(p.lowest)[i].index), PhpAt(p, PhpunitLayout(p.lowest)[k].index);
      a == b || PhpLt(a, b)
  {
    PhpAtMonotone(p, PhpunitLayout(p.lowest)[i].index, PhpunitLayout(p.lowest)[k].index);
  }

  /**
   * The one job run when composer installs from the lock file: slot 0
   * without --prefer-lowest, on the platform PHP version of composer.json
   * when that is version-shaped.
   */
  function ComposerInstallJob(installerVersion: string, p: Plan, platformPhp: Option<string>): (j: Job)
    requires ValidPlan(p)
    ensures j.composerArgs == "" && j.phpunit && !j.endtoend
    ensures j.db == ComposerInstallDb(p.lowest)
  {
    var php := if platformPhp.Some? && Constraints.ParseVer(platformPhp.value).Some? then platformPhp.value
               else Render(PhpAt(p, 0));
    MakeJob(installerVersion, php, PhpunitOptions.(db := Some(ComposerInstallDb(p.lowest)), composerArgs := Some("")))
  }

  /** Without a version-shaped platform PHP the single job runs the first slot's version. */
  lemma ComposerInstallPhp(installerVersion: string, p: Plan, platformPhp: Option<string>)
    requires ValidPlan(p)
    ensures platformPhp.Some? && Constraints.ParseVer(platformPhp.value).Some? ==>
      ComposerInstallJob(installerVersion, p, platformPhp).php == platformPhp.value
    ensures platformPhp.None? || Constraints.ParseVer(platformPhp.value).None? ==>
      ComposerInstallJob(installerVersion, p, platformPhp).php == Render(PhpAt(p, 0))
  {
  }

  // ---------------------------------------------------------------------------
  // End-to-end jobs

  const MissingTag: string := "At least one .feature files missing a @job[0-9]+ tag"

  function TagName(n: nat): string {
    "job" + NatToString(n)
  }

  /** The tag of each feature file, in file order. */
  function TagNames(files: seq<Option<nat>>): (names: seq<string>)
    requires None !in files
    ensures |names| == |files|
    ensures forall i :: 0 <= i < |files| ==> names[i] == TagName(files[i].value)
  {
    if |files| == 0 then []
    else TagNames(files[..|files| - 1]) + [TagName(files[|files| - 1].value)]
  }

  /**
   * The tag filters to run the end-to-end suite with, given the @jobN tag of
   * each feature file (none for a file without one): one untagged run when
   * there are no feature files, else each tag once, by first occurrence; a
   * file without a tag fails the build.
   */
  function TagsToRun(files: seq<Option<nat>>): (r: Result<seq<string>>)
    ensures r.Err? <==> None in files
    ensures r.Err? ==> r.msg == MissingTag
    ensures r.Ok? ==> |r.value| > 0 && NoDuplicates(r.value)
    ensures r.Ok? && |files| == 0 ==> r.value == [""]
    ensures r.Ok? && |files| > 0 ==>
      forall t :: t in r.value <==> exists i :: 0 <= i < |files| && t == TagName(files[i].value)
    ensures r.Ok? && |files| > 0 ==> FirstOccurrenceOrder(r.value, TagNames(files))
    ensures r.Ok? && |files| > 0 && NoDuplicates(TagNames(files)) ==> r.value == TagNames(files)
  {
    if None in files then Err(MissingTag)
    else if |files| == 0 then Ok([""])
    else
      var names := TagNames(files);
      assert names[0] in Dedup(names);
      DedupOrder(names);
      assert NoDuplicates(names) ==> Dedup(names) == names by {
        if NoDuplicates(names) { DedupOfDistinct(names); }
      }
      Ok(Dedup(names))
  }

  /** The end-to-end jobs: the two end-to-end slots once per tag, tag by tag. */
  function EndToEndJobs(installerVersion: string, p: Plan, tags: seq<string>): (js: seq<Job>)
    requires ValidPlan(p)
    ensures |js| == 2 * |tags|
  {
    seq(2 * |tags|, i requires 0 <= i < 2 * |tags| =>
      SlotJob(installerVersion, p, EndToEndLayout(p.lowest)[i % 2], EndToEndOptions(tags[i / 2])))
  }

  /** Appending a tag leaves the jobs of the earlier tags in place. */
  lemma EndToEndAppendFront(installerVersion: string, p: Plan, tags: seq<string>, tag: string, i: nat)
    requires ValidPlan(p) && i < 2 * |tags|
    ensures EndToEndJobs(installerVersion, p, tags + [tag])[i] == EndToEndJobs(installerVersion, p, tags)[i]
  {
    HalfBounds(i, |tags|);
    assert (tags + [tag])[i / 2] == tags[i / 2];
  }

  /** Appending a tag puts its two slots at the end. */
  lemma EndToEndAppendLast(installerVersion: string, p: Plan, tags: seq<string>, tag: string, i: nat)
    requires ValidPlan(p) && 2 * |tags| <= i < 2 * |tags| + 2
    ensures EndToEndJobs(installerVersion, p, tags + [tag])[i]
         == SlotJob(installerVersion, p, EndToEndLayout(p.lowest)[i - 2 * |tags|], EndToEndOptions(tag))
  {
    HalfBounds(i, |tags|);
    assert (tags + [tag])[|tags|] == tag;
  }

  /** Position `i` after appending a tag: an earlier job or one of the new tag's slots. */
  lemma EndToEndAppendAt(installerVersion: string, p: Plan, tags: seq<string>, tag: string, i: nat)
    requires ValidPlan(p) && i < 2 * |tags| + 2
    ensures EndToEndJobs(installerVersion, p, tags + [tag])[i]
         == (EndToEndJobs(installerVersion, p, tags)
             + SlotJobs(installerVersion, p, EndToEndLayout(p.lowest), EndToEndOptions(tag)))[i]
  {
    var all := EndToEndJobs(installerVersion, p, tags + [tag]);
    var front := EndToEndJobs(installerVersion, p, tags);
    var layout := EndToEndLayout(p.lowest);
    var group := SlotJobs(installerVersion, p, layout, EndToEndOptions(tag));
    if i < |front| {
      assert all[i] == front[i] by {
        EndToEndAppendFront(installerVersion, p, tags, tag, i);
      }
      assert (front + group)[i] == front[i];
    } else {
      var k := i - |front|;
      assert all[i] == SlotJob(installerVersion, p, layout[k], EndToEndOptions(tag)) by {
        EndToEndAppendLast(installerVersion, p, tags, tag, i);
      }
      assert (front + group)[i] == group[k];
    }
  }

  /** The jobs of one more tag follow those of the tags before it. */
  lemma EndToEndAppendTag(installerVersion: string, p: Plan, tags: seq<string>, tag: string)
    requires ValidPlan(p)
    ensures EndToEndJobs(installerVersion, p, tags + [tag])
         == EndToEndJobs(installerVersion, p, tags)
            + SlotJobs(installerVersion, p, EndToEndLayout(p.lowest), EndToEndOptions(tag))
  {
    var front := EndToEndJobs(installerVersion, p, tags);
    var group := SlotJobs(installerVersion, p, EndToEndLayout(p.lowest), EndToEndOptions(tag));
    var all := EndToEndJobs(installerVersion, p, tags + [tag]);
    assert |front + group| == |all|;
    forall i | 0 <= i < |all|
      ensures all[i] == (front + group)[i]
    {
      EndToEndAppendAt(installerVersion, p, tags, tag, i);
    }
  }

  /** Job `2k + s` is end-to-end slot `s` run with tag `k`. */
  lemma EndToEndGrouped(installerVersion: string, p: Plan, tags: seq<string>, k: nat, s: nat)
    requires ValidPlan(p) && k < |tags| && s < 2
    ensures 2 * k + s < 2 * |tags|
    ensures EndToEndJobs(installerVersion, p, tags)[2 * k + s]
         == SlotJob(installerVersion, p, EndToEndLayout(p.lowest)[s], EndToEndOptions(tags[k]))
  {
    var i := 2 * k + s;
    HalfOf(k, s);
    var js, layout := EndToEndJobs(installerVersion, p, tags), EndToEndLayout(p.lowest);
    assert i / 2 == k && i % 2 == s && i < |js|;
    assert js[i] == SlotJob(installerVersion, p, layout[i % 2], EndToEndOptions(tags[i / 2]));
  }

  /** Positions before `2n` belong to the first `n` groups; the next two to group `n`. */
  lemma HalfBounds(i: nat, n: nat)
    ensures i < 2 * n ==> i / 2 < n
    ensures 2 * n <= i < 2 * n + 2 ==> i / 2 == n && i % 2 == i - 2 * n
  {
  }

  /** The group and the slot of position `2k + s`. */
  lemma HalfOf(k: nat, s: nat)
    requires s < 2
    ensures (2 * k + s) / 2 == k && (2 * k + s) % 2 == s
  {
  }

  /**
   * An end-to-end job: the behat suite only, without --prefer-lowest, with
   * the given tag, on the database and the PHP version of the slot.
   */
  predicate EndToEndJobOn(j: Job, p: Plan, s: Slot, tag: string)
    requires ValidPlan(p)
  {
    && j.endtoend && !j.phpunit && j.composerArgs == ""
    && j.endtoendSuite == DefaultEndToEndSuite && j.endtoendTags == tag
    && j.db == s.db && j.php == Render(PhpAt(p, s.index))
  }

  /** Job `2k + s` of the end-to-end jobs runs end-to-end slot `s` with tag `k`. */
  lemma EndToEndMatrix(installerVersion: string, p: Plan, tags: seq<string>, k: nat, s: nat)
    requires ValidPlan(p) && k < |tags| && s < 2
    ensures 2 * k + s < |EndToEndJobs(installerVersion, p, tags)|
    ensures EndToEndJobOn(EndToEndJobs(installerVersion, p, tags)[2 * k + s], p, EndToEndLayout(p.lowest)[s], tags[k])
  {
    var layout := EndToEndLayout(p.lowest);
    EndToEndGrouped(installerVersion, p, tags, k, s);
    var j := SlotJob(installerVersion, p, layout[s], EndToEndOptions(tags[k]));
    assert EndToEndJobOn(j, p, layout[s], tags[k]);
  }

  /**
   * The jobs a build generates: the unit-test jobs (one composer-install job
   * instead when composer installs from the lock file), then, when behat is
   * set up, the end-to-end jobs for every tag.
   */
  function GeneratedJobs(installerVersion: string, p: Plan, phpunit: bool, endtoend: bool,
                         composerInstall: bool, platformPhp: Option<string>,
                         behatPresent: bool, featureTags: seq<Option<nat>>): (r: Result<seq<Job>>)
    requires ValidPlan(p)
    ensures r.Err? <==> endtoend && behatPresent && None in featureTags
  {
    var unit :=
      if !phpunit then []
      else if composerInstall then [ComposerInstallJob(installerVersion, p, platformPhp)]
      else PhpunitJobs(installerVersion, p);
    if endtoend && behatPresent then
      var tags := TagsToRun(featureTags);
      if tags.Err? then Err(tags.msg)
      else Ok(unit + EndToEndJobs(installerVersion, p, tags.value))
    else
      Ok(unit)
  }

  /** With composer installing from the lock file, exactly one unit-test job is generated. */
  lemma ComposerInstallSingleJob(installerVersion: string, p: Plan, platformPhp: Option<string>,
                                 featureTags: seq<Option<nat>>)
    requires ValidPlan(p)
    ensures var r := GeneratedJobs(installerVersion, p, true, false, true, platformPhp, false, featureTags);
      r.Ok? && |r.value| == 1 && r.value[0].phpunit && r.value[0].composerArgs == ""
  {
  }

  // ---------------------------------------------------------------------------
  // The loops that build the lists

  /** Appends the job of every slot, one after another. */
  method BuildSlotJobs(installerVersion: string, p: Plan, layout: seq<Slot>, base: Options) returns (js: seq<Job>)
    requires ValidPlan(p)
    ensures js == SlotJobs(installerVersion, p, layout, base)
  {
    js := [];
    var i := 0;
    while i < |layout|
      invariant 0 <= i <= |layout|
      invariant js == SlotJobs(installerVersion, p, layout[..i], base)
    {
      assert layout[..i + 1][..i] == layout[..i];
      js := js + [SlotJob(installerVersion, p, layout[i], base)];
      i := i + 1;
    }
    assert layout[..|layout|] == layout;
  }

  /** For each tag in turn, appends the job of every end-to-end slot. */
  method BuildEndToEndJobs(installerVersion: string, p: Plan, tags: seq<string>) returns (js: seq<Job>)
    requires ValidPlan(p)
    ensures js == EndToEndJobs(installerVersion, p, tags)
  {
    js := [];
    var t := 0;
    assert |EndToEndJobs(installerVersion, p, tags[..0])| == 0;
    while t < |tags|
      invariant 0 <= t <= |tags|
      invariant js == EndToEndJobs(installerVersion, p, tags[..t])
    {
      var group := BuildSlotJobs(installerVersion, p, EndToEndLayout(p.lowest), EndToEndOptions(tags[t]));
      EndToEndAppendTag(installerVersion, p, tags[..t], tags[t]);
      assert tags[..t + 1] == tags[..t] + [tags[t]];
      js := js + group;
      t := t + 1;
    }
    assert tags[..|tags|] == tags;
  }

  /** Reads the tag of every feature file, failing on the first file without one. */
  method ScanFeatureTags(files: seq<Option<nat>>) returns (r: Result<seq<string>>)
    ensures r == TagsToRun(files)
  {
    var names: seq<string> := [];
    var i := 0;
    while i < |files|
      invariant 0 <= i <= |files|
      invariant None !in files[..i]
      invariant names == TagNames(files[..i])
    {
      if files[i].None? {
        assert files[i] in files;
        return Err(MissingTag);
      }
      assert files[..i + 1][..i] == files[..i];
      assert files[..i + 1] == files[..i] + [files[i]];
      names := names + [TagName(files[i].value)];
      i := i + 1;
    }
    assert files[..|files|] == files;
    if |files| == 0 {
      return Ok([""]);
    }
    var tags := RemoveDuplicates(names);
    return Ok(tags);
  }

  /** Builds the generated jobs with the loops above. */
  method GenerateJobs(installerVersion: string, p: Plan, phpunit: bool, endtoend: bool,
                      composerInstall: bool, platformPhp: Option<string>,
                      behatPresent: bool, featureTags: seq<Option<nat>>) returns (r: Result<seq<Job>>)
    requires ValidPlan(p)
    ensures r == GeneratedJobs(installerVersion, p, phpunit, endtoend, composerInstall, platformPhp,
                               behatPresent, featureTags)
  {
    var unit: seq<Job> := [];
    if phpunit {
      if composerInstall {
        unit := [ComposerInstallJob(installerVersion, p, platformPhp)];
      } else {
        unit := BuildSlotJobs(installerVersion, p, PhpunitLayout(p.lowest), PhpunitOptions);
      }
    }
    if endtoend && behatPresent {
      var tags := ScanFeatureTags(featureTags);
      if tags.Err? {
        return Err(tags.msg);
      }
      var e2e := BuildEndToEndJobs(installerVersion, p, tags.value);
      return Ok(unit + e2e);
    }
    return Ok(unit);
  }
}
