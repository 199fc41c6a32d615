// The job creator: from the validated request (repository, ref, flags,
// extra jobs) and what the checkout holds (composer.json, the installer's
// branches, behat set-up and feature-file tags) to the de-duplicated list of
// jobs of the CI matrix.
module Creator {
  import opened Util
  import opened Lines
  import opened Catalog
  import opened Constraints
  import opened PhpResolution
  import opened Installer
  import opened Jobs

  /** The validated request of a build. */
  datatype Inputs = Inputs(
    githubRepository: string,
    githubMyRef: string,
    parentBranch: string,
    phpunit: bool,
    endtoend: bool,
    composerInstall: bool,
    dynamicMatrix: Option<bool>,
    extraJobs: seq<Options>)

  /** What the build finds in the checkout and the installer repository. */
  datatype Env = Env(
    manifest: Option<Manifest>,
    installerBranches: seq<string>,
    behatPresent: bool,
    featureTags: seq<Option<nat>>)

  /** The bare repository name: the segment after the owner. */
  function RepoName(githubRepository: string): string {
    var parts := Split(githubRepository, '/');
    if |parts| >= 2 then parts[1] else ""
  }

  lemma RepoNameOf(owner: string, name: string)
    requires '/' !in owner && '/' !in name
    ensures RepoName(owner + "/" + name) == name
  {
    assert owner + "/" + name == owner + ['/'] + name;
    SplitConcat(owner, '/', name);
    SplitWithout(owner, '/');
    SplitWithout(name, '/');
  }

  /** The php constraint composer.json requires, if any. */
  function PhpConstraintText(manifest: Option<Manifest>): Option<string> {
    if manifest.Some? && "php" in manifest.value.require then Some(manifest.value.require["php"]) else None
  }

  function PlatformPhp(manifest: Option<Manifest>): Option<string> {
    if manifest.Some? then manifest.value.platformPhp else None
  }

  /**
   * The PHP plan of a build on `branch` of `repo` building against
   * `installerVersion`: the list of the build's release line narrowed by the
   * php constraint of composer.json; for a module placed on no line, the
   * lowest major's list, or every supported version the constraint admits.
   */
  function BuildPlan(cat: Catalog, repo: string, branch: string, installerVersion: string,
                     manifest: Option<Manifest>): (r: Result<Plan>)
    requires WellFormed(cat)
    ensures r.Ok? ==> ValidPlan(r.value)
    ensures ConstraintOf(PhpConstraintText(manifest)).None? ==> r == Err(UnparseableConstraint)
    ensures var line := ReleaseLine(cat, repo, branch, installerVersion);
      var c := ConstraintOf(PhpConstraintText(manifest));
      line.Some? && c.Some? ==>
        && (r.Ok? <==> exists v :: v in PhpFor(cat, line.value) && Sat(v, c.value))
        && (r.Ok? ==> r.value == Plan(PhpFor(cat, line.value), c.value, line.value.major == cat.lowestMajor))
    ensures var line := ReleaseLine(cat, repo, branch, installerVersion);
      var c := ConstraintOf(PhpConstraintText(manifest));
      line.None? && c.Some? ==>
        && (c.value == Unconstrained ==> r == Ok(Plan(PhpFor(cat, Line(cat.lowestMajor, None)), Unconstrained, true)))
        && (c.value != Unconstrained ==> (r.Ok? <==> exists v :: v in cat.allPhp && Sat(v, c.value)))
        && (c.value != Unconstrained && r.Ok? ==>
              r.value == Plan(Filter(cat.allPhp, c.value), Unconstrained, !HigherMajorAdmits(cat, c.value)))
  {
    ResolvePlan(cat, ReleaseLine(cat, repo, branch, installerVersion), PhpConstraintText(manifest))
  }

  /**
   * The job createJob makes for job slot `phpIndex`: the options over the
   * defaults, on the PHP version of that slot.
   */
  function CreateJobSpec(cat: Catalog, repo: string, branch: string, installerVersion: string,
                         manifest: Option<Manifest>, phpIndex: nat, o: Options): (r: Result<Job>)
    requires WellFormed(cat)
    ensures BuildPlan(cat, repo, branch, installerVersion, manifest).Err? <==> r.Err?
    ensures r.Ok? && o.php.None? ==>
              exists v :: v in cat.allPhp && r.value.php == Render(v)
                          && (PhpConstraintText(manifest).Some? ==>
                                ParseConstraint(PhpConstraintText(manifest).value).Some?
                                && Sat(v, ParseConstraint(PhpConstraintText(manifest).value).value))
  {
    var plan := BuildPlan(cat, repo, branch, installerVersion, manifest);
    if plan.Err? then Err(plan.msg)
    else
      var v := PhpAt(plan.value, phpIndex);
      Ok(MakeJob(installerVersion, Render(v), o))
  }

  /** The extra jobs, each made by createJob for slot 0, in the order given. */
  function ExtraJobs(installerVersion: string, p: Plan, extras: seq<Options>): (js: seq<Job>)
    requires ValidPlan(p)
    ensures |js| == |extras|
    ensures forall i :: 0 <= i < |extras| ==> js[i] == MakeJob(installerVersion, Render(PhpAt(p, 0)), extras[i])
  {
    if |extras| == 0 then []
    else ExtraJobs(installerVersion, p, extras[..|extras| - 1])
         + [MakeJob(installerVersion, Render(PhpAt(p, 0)), extras[|extras| - 1])]
  }

  /** The installer version of a request. */
  function InstallerOf(cat: Catalog, inputs: Inputs, env: Env): string
    requires WellFormed(cat)
  {
    InstallerVersion(cat, RepoName(inputs.githubRepository), CleanBranch(inputs.githubMyRef),
                     inputs.parentBranch, env.manifest, env.installerBranches)
  }

  function PlanOf(cat: Catalog, inputs: Inputs, env: Env): (r: Result<Plan>)
    requires WellFormed(cat)
    ensures r.Ok? ==> ValidPlan(r.value)
  {
    BuildPlan(cat, RepoName(inputs.githubRepository), CleanBranch(inputs.githubMyRef),
              InstallerOf(cat, inputs, env), env.manifest)
  }

  /** The matrix is generated unless the request turns the dynamic matrix off. */
  predicate DynamicOn(inputs: Inputs) {
    inputs.dynamicMatrix != Some(false)
  }

  /** The generated jobs of a request (none with the dynamic matrix off). */
  function GeneratedOf(installerVersion: string, p: Plan, inputs: Inputs, env: Env): Result<seq<Job>>
    requires ValidPlan(p)
  {
    if DynamicOn(inputs) then
      GeneratedJobs(installerVersion, p, inputs.phpunit, inputs.endtoend, inputs.composerInstall,
                    PlatformPhp(env.manifest), env.behatPresent, env.featureTags)
    else Ok([])
  }

  /**
   * The generated jobs followed by the extra jobs, every job kept once, at
   * its first place; a generation error is the result.
   */
  function Combine(installerVersion: string, p: Plan, gen: Result<seq<Job>>, extras: seq<Options>)
    : (r: Result<seq<Job>>)
    requires ValidPlan(p)
    ensures r.Ok? <==> gen.Ok?
    ensures r.Err? ==> r.msg == gen.msg
    ensures r.Ok? ==> NoDuplicates(r.value)
    ensures r.Ok? ==> forall x :: x in r.value <==> x in gen.value || x in ExtraJobs(installerVersion, p, extras)
    ensures r.Ok? ==> FirstOccurrenceOrder(r.value, gen.value + ExtraJobs(installerVersion, p, extras))
  {
    if gen.Err? then Err(gen.msg)
    else
      DedupOrder(gen.value + ExtraJobs(installerVersion, p, extras));
      Ok(Dedup(gen.value + ExtraJobs(installerVersion, p, extras)))
  }

  /**
   * The matrix of a request. With the dynamic matrix off and no extra jobs
   * there is nothing to build; otherwise the PHP plan must resolve and the
   * matrix is built from it.
   */
  function BuildMatrix(cat: Catalog, inputs: Inputs, env: Env): (r: Result<seq<Job>>)
    requires WellFormed(cat)
    ensures r.Ok? ==> NoDuplicates(r.value)
    ensures !DynamicOn(inputs) && |inputs.extraJobs| == 0 ==> r == Ok([])
  {
    if !DynamicOn(inputs) && |inputs.extraJobs| == 0 then Ok([])
    else
      var plan := PlanOf(cat, inputs, env);
      if plan.Err? then Err(plan.msg)
      else
        var iv := InstallerOf(cat, inputs, env);
        Combine(iv, plan.value, GeneratedOf(iv, plan.value, inputs, env), inputs.extraJobs)
  }

  /** Appends the job of every extra job specification, in the order given. */
  method AppendExtraJobs(installerVersion: string, p: Plan, jobs: seq<Job>, extras: seq<Options>)
    returns (r: seq<Job>)
    requires ValidPlan(p)
    ensures r == jobs + ExtraJobs(installerVersion, p, extras)
  {
    r := jobs;
    var i := 0;
    while i < |extras|
      invariant 0 <= i <= |extras|
      invariant r == jobs + ExtraJobs(installerVersion, p, extras[..i])
    {
      assert extras[..i + 1][..i] == extras[..i];
      r := r + [MakeJob(installerVersion, Render(PhpAt(p, 0)), extras[i])];
      i := i + 1;
    }
    assert extras[..|extras|] == extras;
  }

  /** Builds the matrix from a resolved plan with the loops of the generator. */
  method AssembleMatrix(installerVersion: string, p: Plan, inputs: Inputs, env: Env) returns (r: Result<seq<Job>>)
    requires ValidPlan(p)
    ensures r == Combine(installerVersion, p, GeneratedOf(installerVersion, p, inputs, env), inputs.extraJobs)
  {
    var generated: seq<Job> := [];
    if DynamicOn(inputs) {
      var gen := GenerateJobs(installerVersion, p, inputs.phpunit, inputs.endtoend, inputs.composerInstall,
                              PlatformPhp(env.manifest), env.behatPresent, env.featureTags);
      if gen.Err? {
        return Err(gen.msg);
      }
      generated := gen.value;
    }
    assert GeneratedOf(installerVersion, p, inputs, env) == Ok(generated);
    var jobs := AppendExtraJobs(installerVersion, p, generated, inputs.extraJobs);
    var unique := RemoveDuplicates(jobs);
    return Ok(unique);
  }

  // ---------------------------------------------------------------------------
  // Properties of the matrix

  /** An absent dynamic_matrix flag behaves like true. */
  lemma AbsentDynamicFlagIsTrue(cat: Catalog, inputs: Inputs, env: Env)
    requires WellFormed(cat)
    ensures BuildMatrix(cat, inputs.(dynamicMatrix := None), env)
         == BuildMatrix(cat, inputs.(dynamicMatrix := Some(true)), env)
  {
  }

  /**
   * The generated jobs come first, de-duplicated and in their order; the
   * extra jobs only ever follow them.
   */
  lemma GeneratedFirst(cat: Catalog, inputs: Inputs, env: Env)
    requires WellFormed(cat) && DynamicOn(inputs)
    requires BuildMatrix(cat, inputs, env).Ok?
    ensures PlanOf(cat, inputs, env).Ok?
    ensures var gen := GeneratedOf(InstallerOf(cat, inputs, env), PlanOf(cat, inputs, env).value, inputs, env);
      gen.Ok? && |Dedup(gen.value)| <= |BuildMatrix(cat, inputs, env).value|
      && BuildMatrix(cat, inputs, env).value[..|Dedup(gen.value)|] == Dedup(gen.value)
  {
    var p := PlanOf(cat, inputs, env).value;
    var gen := GeneratedOf(InstallerOf(cat, inputs, env), p, inputs, env).value;
    DedupPrefix(gen, ExtraJobs(InstallerOf(cat, inputs, env), p, inputs.extraJobs));
  }

  /** Adding an extra job equal to one already in the list leaves the list as it is. */
  lemma CombineDuplicateExtra(installerVersion: string, p: Plan, gen: Result<seq<Job>>,
                              extras: seq<Options>, extra: Options)
    requires ValidPlan(p) && gen.Ok?
    requires MakeJob(installerVersion, Render(PhpAt(p, 0)), extra) in Combine(installerVersion, p, gen, extras).value
    ensures Combine(installerVersion, p, gen, extras + [extra]) == Combine(installerVersion, p, gen, extras)
  {
    var all := gen.value + ExtraJobs(installerVersion, p, extras);
    var x := MakeJob(installerVersion, Render(PhpAt(p, 0)), extra);
    ExtraJobsAppend(installerVersion, p, extras, extra);
    assert gen.value + ExtraJobs(installerVersion, p, extras + [extra]) == all + [x];
    DedupAppendPresent(all, x);
  }

  lemma ExtraJobsAppend(installerVersion: string, p: Plan, extras: seq<Options>, extra: Options)
    requires ValidPlan(p)
    ensures ExtraJobs(installerVersion, p, extras + [extra])
         == ExtraJobs(installerVersion, p, extras) + [MakeJob(installerVersion, Render(PhpAt(p, 0)), extra)]
  {
    assert (extras + [extra])[..|extras|] == extras;
  }

  /** An extra job equal to one already in the matrix changes nothing. */
  lemma DuplicateExtraJobDropped(cat: Catalog, inputs: Inputs, env: Env, extra: Options)
    requires WellFormed(cat)
    requires BuildMatrix(cat, inputs, env).Ok?
    requires PlanOf(cat, inputs, env).Ok?
    requires MakeJob(InstallerOf(cat, inputs, env), Render(PhpAt(PlanOf(cat, inputs, env).value, 0)), extra)
             in BuildMatrix(cat, inputs, env).value
    ensures BuildMatrix(cat, inputs.(extraJobs := inputs.extraJobs + [extra]), env)
         == BuildMatrix(cat, inputs, env)
  {
    var more := inputs.(extraJobs := inputs.extraJobs + [extra]);
    assert InstallerOf(cat, more, env) == InstallerOf(cat, inputs, env);
    assert PlanOf(cat, more, env) == PlanOf(cat, inputs, env);
    var iv := InstallerOf(cat, inputs, env);
    var p := PlanOf(cat, inputs, env).value;
    assert GeneratedOf(iv, p, more, env) == GeneratedOf(iv, p, inputs, env);
    CombineDuplicateExtra(iv, p, GeneratedOf(iv, p, inputs, env), inputs.extraJobs, extra);
  }

  /** A feature file without a @jobN tag fails the build when behat runs. */
  lemma MissingTagFails(cat: Catalog, inputs: Inputs, env: Env)
    requires WellFormed(cat) && DynamicOn(inputs)
    requires inputs.endtoend && env.behatPresent && None in env.featureTags
    requires PlanOf(cat, inputs, env).Ok?
    ensures BuildMatrix(cat, inputs, env) == Err(MissingTag)
  {
  }

  /** A php constraint that cannot be parsed fails the build. */
  lemma UnparseableConstraintFails(cat: Catalog, inputs: Inputs, env: Env)
    requires WellFormed(cat) && DynamicOn(inputs)
    requires env.manifest.Some? && "php" in env.manifest.value.require
    requires ParseConstraint(env.manifest.value.require["php"]).None?
    ensures BuildMatrix(cat, inputs, env) == Err(UnparseableConstraint)
  {
  }

  /** The constraint "none" fails the build. */
  lemma NoneConstraintFails(cat: Catalog, inputs: Inputs, env: Env)
    requires WellFormed(cat) && DynamicOn(inputs)
    requires env.manifest.Some? && "php" in env.manifest.value.require
    requires env.manifest.value.require["php"] == "none"
    ensures BuildMatrix(cat, inputs, env) == Err(UnparseableConstraint)
  {
    NoneRejected();
    UnparseableConstraintFails(cat, inputs, env);
  }

  /**
   * An unknown repository on a feature branch with no composer.json and no
   * behat set-up gets the four unit-test jobs of the lowest major, unless
   * the dynamic matrix is off.
   */
  lemma UnknownRepositoryMatrix(cat: Catalog, inputs: Inputs, env: Env)
    requires WellFormed(cat)
    requires !Known(cat, RepoName(inputs.githubRepository))
    requires Classify(CleanBranch(inputs.githubMyRef)) == Unresolved && Classify(inputs.parentBranch) == Unresolved
    requires CleanBranch(inputs.githubMyRef) !in cat.pinnedTags
    requires env.manifest.None? && !env.behatPresent
    requires inputs.phpunit && !inputs.composerInstall && |inputs.extraJobs| == 0
    ensures BuildMatrix(cat, inputs, env).Ok?
    ensures |BuildMatrix(cat, inputs, env).value| == if DynamicOn(inputs) then 4 else 0
  {
    if DynamicOn(inputs) {
      UnknownRepositoryPlan(cat, inputs, env);
      var p := PlanOf(cat, inputs, env).value;
      var js := PhpunitJobs("", p);
      assert |js| == 4 && NoDuplicates(js) by { PhpunitMatrix("", p); }
      DedupOfDistinct(js);
      assert BuildMatrix(cat, inputs, env) == Ok(Dedup(js + [])) by {
        assert GeneratedOf("", p, inputs, env) == Ok(js);
        assert ExtraJobs("", p, inputs.extraJobs) == [];
      }
      assert js + [] == js;
    }
  }

  /**
   * An unknown repository on a feature branch with no composer.json needs no
   * installer and runs the PHP versions of the lowest major, unconstrained.
   */
  lemma UnknownRepositoryPlan(cat: Catalog, inputs: Inputs, env: Env)
    requires WellFormed(cat)
    requires !Known(cat, RepoName(inputs.githubRepository))
    requires Classify(CleanBranch(inputs.githubMyRef)) == Unresolved && Classify(inputs.parentBranch) == Unresolved
    requires CleanBranch(inputs.githubMyRef) !in cat.pinnedTags
    requires env.manifest.None?
    ensures InstallerOf(cat, inputs, env) == ""
    ensures PlanOf(cat, inputs, env) == Ok(Plan(PhpFor(cat, Line(cat.lowestMajor, None)), Unconstrained, true))
  {
    var repo := RepoName(inputs.githubRepository);
    assert !Lockstepped(cat, repo);
    assert InstallerOf(cat, inputs, env) == "";
    assert ParseDev("").None?;
    assert ReleaseLine(cat, repo, CleanBranch(inputs.githubMyRef), "").None?;
    var u := PhpFor(cat, Line(cat.lowestMajor, None));
    SatUnconstrained(u[0]);
  }

  /**
   * A lockstepped repository without composer.json: createJob for slot 0
   * runs the lowest PHP version of the branch's line, and for a slot past
   * the end of the list the highest.
   */
  lemma CreateJobEnds(cat: Catalog, repo: string, l: Line, phpIndex: nat, o: Options)
    requires WellFormed(cat) && Lockstepped(cat, repo)
    requires o.php.None?
    ensures var u := PhpFor(cat, Shift(l, cat.lockstepOffset[repo]));
      var r := CreateJobSpec(cat, repo, FormatLine(l), "", None, phpIndex, o);
      && r.Ok?
      && (phpIndex == 0 ==> r.value.php == Render(u[0]))
      && (phpIndex > |u| ==> r.value.php == Render(u[|u| - 1]))
  {
    ClassifyFormatLine(l);
    assert ParseDev("").None?;
    var u := PhpFor(cat, Shift(l, cat.lockstepOffset[repo]));
    var p := Plan(u, Unconstrained, Shift(l, cat.lockstepOffset[repo]).major == cat.lowestMajor);
    SatUnconstrained(u[0]);
    SatUnconstrained(u[|u| - 1]);
    assert BuildPlan(cat, repo, FormatLine(l), "", None) == Ok(p);
    if phpIndex == 0 {
      PickKept(u, Unconstrained, 0);
    }
    if phpIndex > |u| {
      PickKept(u, Unconstrained, |u| - 1);
      assert SlotIndex(|u|, phpIndex) >= |u|;
    }
  }

  // ---------------------------------------------------------------------------
  // The job creator object

  /**
   * The generator's state: the repository and branch it builds for, the
   * parent branch hint, the composer.json it read and the installer version
   * it settled on ("" until resolved).
   */
  class JobCreator {
    const cat: Catalog
    var githubRepository: string
    var repoName: string
    var branch: string
    var parentBranch: string
    var manifest: Option<Manifest>
    var installerVersion: string

    constructor(cat: Catalog)
      requires WellFormed(cat)
      ensures this.cat == cat
      ensures githubRepository == "" && repoName == "" && branch == "" && parentBranch == ""
      ensures manifest.None? && installerVersion == ""
    {
      this.cat := cat;
      githubRepository := "";
      repoName := "";
      branch := "";
      parentBranch := "";
      manifest := None;
      installerVersion := "";
    }

    /** Targets a repository and ref: the bare name and the cleaned branch are derived from them. */
    method SetTarget(githubRepository: string, ref: string)
      modifies this
      ensures this.githubRepository == githubRepository
      ensures repoName == RepoName(githubRepository) && branch == CleanBranch(ref)
      ensures parentBranch == old(parentBranch) && manifest == old(manifest)
      ensures installerVersion == old(installerVersion)
    {
      this.githubRepository := githubRepository;
      repoName := RepoName(githubRepository);
      branch := CleanBranch(ref);
    }

    /** Records what composer.json of the checkout says. */
    method SetManifest(m: Option<Manifest>)
      modifies this
      ensures manifest == m
      ensures githubRepository == old(githubRepository) && repoName == old(repoName)
      ensures branch == old(branch) && parentBranch == old(parentBranch)
      ensures installerVersion == old(installerVersion)
    {
      manifest := m;
    }

    /** The installer version for the current repository, branch and composer.json. */
    method GetInstallerVersion(installerBranches: seq<string>) returns (v: string)
      requires WellFormed(cat)
      ensures v == InstallerVersion(cat, repoName, branch, parentBranch, manifest, installerBranches)
      ensures repoName in cat.neverInstaller ==> v == ""
    {
      v := InstallerVersion(cat, repoName, branch, parentBranch, manifest, installerBranches);
    }

    /** The job for slot `phpIndex`, with the given options over the defaults. */
    method CreateJob(phpIndex: nat, o: Options) returns (r: Result<Job>)
      requires WellFormed(cat)
      ensures r == CreateJobSpec(cat, repoName, branch, installerVersion, manifest, phpIndex, o)
      ensures r.Ok? ==> (r.value.needsFullSetup <==> installerVersion != "")
    {
      var plan := ResolvePlan(cat, ReleaseLine(cat, repoName, branch, installerVersion), PhpConstraintText(manifest));
      if plan.Err? {
        return Err(plan.msg);
      }
      return Ok(MakeJob(installerVersion, Render(PhpAt(plan.value, phpIndex)), o));
    }

    /**
     * Builds the matrix of a request: records the target, resolves the
     * installer version and the PHP plan, generates the jobs, appends the
     * extra jobs and drops repeated jobs.
     */
    method CreateJson(inputs: Inputs, env: Env) returns (r: Result<seq<Job>>)
      requires WellFormed(cat)
      modifies this
      ensures r == BuildMatrix(cat, inputs, env)
      ensures githubRepository == inputs.githubRepository && repoName == RepoName(inputs.githubRepository)
      ensures branch == CleanBranch(inputs.githubMyRef) && parentBranch == inputs.parentBranch
      ensures manifest == env.manifest && installerVersion == InstallerOf(cat, inputs, env)
    {
      SetTarget(inputs.githubRepository, inputs.githubMyRef);
      parentBranch := inputs.parentBranch;
      SetManifest(env.manifest);
      installerVersion := GetInstallerVersion(env.installerBranches);
      if !DynamicOn(inputs) && |inputs.extraJobs| == 0 {
        return Ok([]);
      }
      var plan := ResolvePlan(cat, ReleaseLine(cat, repoName, branch, installerVersion), PhpConstraintText(manifest));
      assert plan == PlanOf(cat, inputs, env);
      if plan.Err? {
        return Err(plan.msg);
      }
      r := AssembleMatrix(installerVersion, plan.value, inputs, env);
    }
  }
}
