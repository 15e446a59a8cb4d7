/** CI coordinates (`src/ci_providers/ci_provider_base.rs` and
    `src/ci_providers/ci_provider_wrapper.rs`). A provider is what one CI
    system can tell about the current node; the wrapper adds the
    `KNAPSACK_PRO_*` environment fallbacks and turns absences into errors. */
module CiProviders {
  import opened Results
  import opened Errors
  import opened UsizeFromStr

  /** The process environment, read-only for the whole run. */
  type Env = map<string, string>

  const NodeTotalVar: string := "KNAPSACK_PRO_CI_NODE_TOTAL"
  const NodeIndexVar: string := "KNAPSACK_PRO_CI_NODE_INDEX"
  const NodeBuildIdVar: string := "KNAPSACK_PRO_CI_NODE_BUILD_ID"
  const MissingBuildId: string := "missing-build-id"

  /** The `CiProvider` trait as a record of what the provider answers. */
  datatype CiProvider = CiProvider(
    nodeTotal: Option<Usize>,
    nodeIndex: Option<Usize>,
    nodeBuildId: Option<string>,
    commitHash: Option<string>,
    fixedQueueSplit: bool,
    branch: Option<string>)

  datatype CiProviderWrapper = CiProviderWrapper(provider: CiProvider, env: Env)

  function Lookup(env: Env, name: string): Option<string> {
    if name in env then Some(env[name]) else None
  }

  /** `get_ci_node_total_from_env_var` / `get_ci_node_index_from_env_var`:
      the variable must be set and hold a `usize` literal; a failed parse is
      reported with the kind of parse error, not with the variable's text. */
  function UsizeFromEnv(env: Env, name: string): (r: Result<Usize, CiError>)
    ensures r == Err(EnvVarMissing(name)) <==> name !in env
    ensures r.Ok? <==> name in env && ParseUsize(env[name]).Ok?
    ensures r.Ok? ==> ParseUsize(env[name]) == Ok(r.value)
    ensures r.Err? && name in env ==> r.error == EnvVarNotUsize(name, ParseUsize(env[name]).error)
  {
    if name !in env then Err(EnvVarMissing(name))
    else match ParseUsize(env[name])
      case Ok(n) => Ok(n)
      case Err(kind) => Err(EnvVarNotUsize(name, kind))
  }

  /** `get_ci_node_build_id`: never fails; falls back to the environment,
      then to a sentinel. */
  function NodeBuildId(w: CiProviderWrapper): (r: string)
    ensures w.provider.nodeBuildId.Some? ==> r == w.provider.nodeBuildId.value
    ensures w.provider.nodeBuildId.None? && NodeBuildIdVar in w.env ==> r == w.env[NodeBuildIdVar]
    ensures w.provider.nodeBuildId.None? && NodeBuildIdVar !in w.env ==> r == MissingBuildId
  {
    match w.provider.nodeBuildId
    case Some(id) => id
    case None => if NodeBuildIdVar in w.env then w.env[NodeBuildIdVar] else MissingBuildId
  }

  /** `get_ci_node_index`: the provider's value, else the environment's. */
  function NodeIndex(w: CiProviderWrapper): (r: Result<Usize, CiError>)
    ensures w.provider.nodeIndex.Some? ==> r == Ok(w.provider.nodeIndex.value)
    ensures w.provider.nodeIndex.None? ==> r == UsizeFromEnv(w.env, NodeIndexVar)
  {
    match w.provider.nodeIndex
    case Some(i) => Ok(i)
    case None => UsizeFromEnv(w.env, NodeIndexVar)
  }

  /** `get_ci_node_total`: the provider's value, else the environment's. */
  function NodeTotal(w: CiProviderWrapper): (r: Result<Usize, CiError>)
    ensures w.provider.nodeTotal.Some? ==> r == Ok(w.provider.nodeTotal.value)
    ensures w.provider.nodeTotal.None? ==> r == UsizeFromEnv(w.env, NodeTotalVar)
  {
    match w.provider.nodeTotal
    case Some(n) => Ok(n)
    case None => UsizeFromEnv(w.env, NodeTotalVar)
  }

  function IsFixedQueueSplit(w: CiProviderWrapper): bool {
    w.provider.fixedQueueSplit
  }

  /** `get_branch`: no fallback beyond the provider. */
  function Branch(w: CiProviderWrapper): (r: Result<string, CiError>)
    ensures r.Err? <==> w.provider.branch.None?
    ensures r.Err? ==> r.error == NoBranch
    ensures r.Ok? ==> r.value == w.provider.branch.value
  {
    match w.provider.branch
    case Some(b) => Ok(b)
    case None => Err(NoBranch)
  }

  /** `get_commit_hash`: no fallback beyond the provider. */
  function CommitHash(w: CiProviderWrapper): (r: Result<string, CiError>)
    ensures r.Err? <==> w.provider.commitHash.None?
    ensures r.Err? ==> r.error == NoCommitHash
    ensures r.Ok? ==> r.value == w.provider.commitHash.value
  {
    match w.provider.commitHash
    case Some(c) => Ok(c)
    case None => Err(NoCommitHash)
  }

  /** A node index or total supplied by the provider is final: the
      environment is not consulted, whatever it holds. */
  lemma ProviderValueIgnoresEnv(p: CiProvider, env1: Env, env2: Env)
    requires p.nodeIndex.Some? && p.nodeTotal.Some?
    ensures NodeIndex(CiProviderWrapper(p, env1)) == NodeIndex(CiProviderWrapper(p, env2))
    ensures NodeTotal(CiProviderWrapper(p, env1)) == NodeTotal(CiProviderWrapper(p, env2))
  {
  }

  /** Branch, commit hash and the fixed-split flag are the provider's
      answers alone: the environment given to the wrapper never changes them. */
  lemma NoEnvFallbackForBranchOrCommit(p: CiProvider, env1: Env, env2: Env)
    ensures Branch(CiProviderWrapper(p, env1)) == Branch(CiProviderWrapper(p, env2))
    ensures CommitHash(CiProviderWrapper(p, env1)) == CommitHash(CiProviderWrapper(p, env2))
    ensures IsFixedQueueSplit(CiProviderWrapper(p, env1)) == p.fixedQueueSplit
  {
  }

  /** A node index given in the environment as a canonical decimal is read back exactly. */
  lemma IndexFromEnvRoundTrip(p: CiProvider, env: Env, n: Usize)
    requires p.nodeIndex.None?
    requires NodeIndexVar in env && env[NodeIndexVar] == DecimalString(n)
    ensures NodeIndex(CiProviderWrapper(p, env)) == Ok(n)
  {
    ParseDecimalString(n);
  }
}
