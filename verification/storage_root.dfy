/** Storage-root selection: which base directory and which namespace segment
    the script cache lives under, chosen once from the host environment. */
module StorageRoot {
  import opened Wrappers
  import opened Strings

  /** The environment `init` reads through its `Context`: the build mode, the
      external-storage state, the three candidate directories (the private
      one may be unavailable) and the application's package name. */
  datatype Env = Env(
    debug: bool,
    mounted: bool,
    externalCacheDir: string,
    privateDir: Option<string>,
    cacheDir: string,
    packageName: string)

  /** The resolved root: `base` is a directory path already followed by the
      separator, `ns` the namespace segment placed under it. */
  datatype Root = Root(base: string, ns: string)

  /** The namespace used for every non-external root. */
  const PackageNameDefault: string := "luaview"

  /** The sandboxed root: the private directory when the host can provide
      it, otherwise the generic cache directory; always the default namespace. */
  function InternalRoot(env: Env): (r: Root)
    ensures r.ns == PackageNameDefault
    ensures EndsWith(r.base, Separator)
    ensures env.privateDir.Some? ==> r.base[..|r.base| - 1] == env.privateDir.value
    ensures env.privateDir.None? ==> r.base[..|r.base| - 1] == env.cacheDir
  {
    match env.privateDir
    case Some(dir) => Root(dir + Separator, PackageNameDefault)
    case None => Root(env.cacheDir + Separator, PackageNameDefault)
  }

  /** The root `init` commits to for a non-null context. */
  function SelectRoot(env: Env): (r: Root)
    ensures EndsWith(r.base, Separator)
    ensures env.debug && env.mounted ==>
      r == Root(env.externalCacheDir + Separator, env.packageName)
    ensures !(env.debug && env.mounted) && env.privateDir.Some? ==>
      r == Root(env.privateDir.value + Separator, PackageNameDefault)
    ensures !(env.debug && env.mounted) && env.privateDir.None? ==>
      r == Root(env.cacheDir + Separator, PackageNameDefault)
  {
    if !env.debug then InternalRoot(env)
    else if env.mounted then Root(env.externalCacheDir + Separator, env.packageName)
    else InternalRoot(env)
  }

  /** `init`: a null context (`None`) leaves the process-wide root as it was;
      any other context replaces it, whatever it held before. */
  function Init(state: Option<Root>, context: Option<Env>): (r: Option<Root>)
    ensures context.None? ==> r == state
    ensures context.Some? ==> r == Some(SelectRoot(context.value))
  {
    match context
    case None => state
    case Some(env) => Some(SelectRoot(env))
  }

  /** Calling `init` again with a context overwrites whatever an earlier call chose. */
  lemma InitOverwrites(state: Option<Root>, first: Option<Env>, second: Env)
    ensures Init(Init(state, first), Some(second)) == Init(state, Some(second))
    ensures Init(Init(state, Some(second)), Some(second)) == Init(state, Some(second))
  {
  }

  // An independent reading of the selection: the storage tiers in priority
  // order, each with the condition under which it may be used.

  datatype Tier = Tier(usable: bool, root: Root)

  /** External storage (debug builds with mounted media only), then the
      private directory, then the cache directory, which is always usable. */
  function Tiers(env: Env): seq<Tier> {
    [ Tier(env.debug && env.mounted, Root(env.externalCacheDir + Separator, env.packageName)),
      Tier(env.privateDir.Some?, Root(env.privateDir.GetOr("") + Separator, PackageNameDefault)),
      Tier(true, Root(env.cacheDir + Separator, PackageNameDefault)) ]
  }

  /** The position of the first usable tier, or `|tiers|` when none is. */
  function FirstUsable(tiers: seq<Tier>): (i: nat)
    ensures i <= |tiers|
    ensures forall j :: 0 <= j < i ==> !tiers[j].usable
    ensures i < |tiers| ==> tiers[i].usable
  {
    if |tiers| == 0 then 0
    else if tiers[0].usable then 0
    else 1 + FirstUsable(tiers[1..])
  }

  /** The branch table agrees with "first usable tier wins", so selection
      never fails: the last tier is always usable. */
  lemma SelectRootIsFirstUsableTier(env: Env)
    ensures FirstUsable(Tiers(env)) < |Tiers(env)|
    ensures SelectRoot(env) == Tiers(env)[FirstUsable(Tiers(env))].root
  {
    var ts := Tiers(env);
    if !ts[0].usable {
      assert FirstUsable(ts) == 1 + FirstUsable(ts[1..]);
      if !ts[1].usable {
        assert FirstUsable(ts[1..]) == 1 + FirstUsable(ts[2..]);
      }
    }
  }
}
