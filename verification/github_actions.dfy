/** The GitHub Actions provider (`src/ci_providers/github_actions.rs`) as a
    function of the environment. */
module GithubActions {
  import opened Results
  import opened Errors
  import opened UsizeFromStr
  import opened CiProviders

  const RunIdVar: string := "GITHUB_RUN_ID"
  const ShaVar: string := "GITHUB_SHA"
  const RefVar: string := "GITHUB_REF"

  /** Node total and index are never known; the build id is the run id,
      the commit is the SHA, the branch is the ref or else the SHA, and the
      queue split is always fixed. */
  function GithubActionsProvider(env: Env): (p: CiProvider)
    ensures p.nodeTotal.None? && p.nodeIndex.None?
    ensures p.fixedQueueSplit
    ensures p.nodeBuildId.Some? <==> RunIdVar in env
    ensures p.commitHash.Some? <==> ShaVar in env
    ensures p.branch.Some? <==> RefVar in env || ShaVar in env
    ensures p.nodeBuildId.Some? ==> p.nodeBuildId.value == env[RunIdVar]
    ensures p.commitHash.Some? ==> p.commitHash.value == env[ShaVar]
    ensures p.branch.Some? ==> p.branch.value == if RefVar in env then env[RefVar] else env[ShaVar]
  {
    CiProvider(
      nodeTotal := None,
      nodeIndex := None,
      nodeBuildId := Lookup(env, RunIdVar),
      commitHash := Lookup(env, ShaVar),
      fixedQueueSplit := true,
      branch := match Lookup(env, RefVar) case Some(r) => Some(r) case None => Lookup(env, ShaVar))
  }

  function GithubWrapper(env: Env): CiProviderWrapper {
    CiProviderWrapper(GithubActionsProvider(env), env)
  }

  /** Under GitHub Actions the node total and index always come from the
      `KNAPSACK_PRO_*` variables, and fail exactly when those are missing
      or not `usize` literals. */
  lemma GithubNodeCoordinatesFromEnv(env: Env)
    ensures NodeTotal(GithubWrapper(env)) == UsizeFromEnv(env, NodeTotalVar)
    ensures NodeIndex(GithubWrapper(env)) == UsizeFromEnv(env, NodeIndexVar)
    ensures NodeTotal(GithubWrapper(env)).Ok? <==> NodeTotalVar in env && ParseUsize(env[NodeTotalVar]).Ok?
    ensures NodeIndex(GithubWrapper(env)).Ok? <==> NodeIndexVar in env && ParseUsize(env[NodeIndexVar]).Ok?
  {
  }

  /** Under GitHub Actions the build id is the run id, else the
      `KNAPSACK_PRO_CI_NODE_BUILD_ID` variable, else the sentinel. */
  lemma GithubBuildId(env: Env)
    ensures RunIdVar in env ==> NodeBuildId(GithubWrapper(env)) == env[RunIdVar]
    ensures RunIdVar !in env && NodeBuildIdVar in env ==> NodeBuildId(GithubWrapper(env)) == env[NodeBuildIdVar]
    ensures RunIdVar !in env && NodeBuildIdVar !in env ==> NodeBuildId(GithubWrapper(env)) == MissingBuildId
  {
  }

  /** Under GitHub Actions the branch is available whenever the commit is. */
  lemma GithubBranchWhenCommitKnown(env: Env)
    ensures CommitHash(GithubWrapper(env)).Ok? ==> Branch(GithubWrapper(env)).Ok?
  {
  }
}
