/**
 * The effects of src/components/MainWindow/useMainWindowIcon.js: every render
 * whose dependencies changed appends one step to a promise chain
 * (`setIconPromiseChainRef`, `setOverlayIconPromiseChainRef`), and each chain
 * runs its steps strictly one after another, each one building its icon
 * against the shared cache and handing it to the window. Here a chain is an
 * explicit FIFO of the steps not yet run.
 */
module MainWindowIconChain {
  import opened Wrappers
  import opened Servers
  import opened NativeImage
  import opened BrowserWindow
  import opened MainWindowIcon

  /** The icons applied, the cache afterwards and the sources loaded, for a run of several steps. */
  datatype ChainOutcome = ChainOutcome(applied: seq<Option<Icon>>, entries: map<CacheKey, Icon>, loads: seq<Source>)

  /** Running queued jobs in order, each against the cache its predecessor left. */
  function RunAll(entries: map<CacheKey, Icon>, decodable: map<Source, Image>, jobs: seq<Job>, env: Env): (out: ChainOutcome)
    // one result per job: no request is dropped
    ensures |out.applied| == |jobs|
    // the cache only grows
    ensures forall k :: k in entries ==> k in out.entries && out.entries[k] == entries[k]
    ensures |out.loads| <= |jobs|
    decreases |jobs|
  {
    if jobs == [] then ChainOutcome([], entries, [])
    else
      var prev := RunAll(entries, decodable, jobs[..|jobs| - 1], env);
      var step := Run(prev.entries, decodable, jobs[|jobs| - 1], env);
      ChainOutcome(prev.applied + [step.icon], step.entries, prev.loads + step.loads)
  }

  /**
   * Every cached icon that a job of `jobs` can hit is the icon that job would
   * build afresh.
   */
  ghost predicate Sound(entries: map<CacheKey, Icon>, decodable: map<Source, Image>, jobs: set<Job>, env: Env) {
    forall j :: j in jobs && !Skips(j) && Key(j, env) in entries ==>
      Fresh(decodable, j, env) == Some(entries[Key(j, env)])
  }

  /** Jobs of `jobs` that share a cache key would build the same icon. */
  ghost predicate KeysInjective(jobs: set<Job>, env: Env) {
    forall j1, j2 :: j1 in jobs && j2 in jobs && !Skips(j1) && !Skips(j2) && Key(j1, env) == Key(j2, env) ==>
      RecipeOf(j1, env) == RecipeOf(j2, env)
  }

  lemma EmptyCacheSound(decodable: map<Source, Image>, jobs: set<Job>, env: Env)
    ensures Sound(map[], decodable, jobs, env)
  {
  }

  /** One step over a sound cache returns the fresh icon and leaves the cache sound. */
  lemma RunFresh(entries: map<CacheKey, Icon>, decodable: map<Source, Image>, j: Job, jobs: set<Job>, env: Env)
    requires j in jobs && Sound(entries, decodable, jobs, env) && KeysInjective(jobs, env)
    ensures Run(entries, decodable, j, env).icon == Fresh(decodable, j, env)
    ensures Sound(Run(entries, decodable, j, env).entries, decodable, jobs, env)
  {
    var out := Run(entries, decodable, j, env);
    forall j' | j' in jobs && !Skips(j') && Key(j', env) in out.entries
      ensures Fresh(decodable, j', env) == Some(out.entries[Key(j', env)])
    {
      if Key(j', env) !in entries {
        assert Key(j', env) == Key(j, env);
        assert RecipeOf(j', env) == RecipeOf(j, env);
      }
    }
  }

  /**
   * Over a sound cache and keys that do not collide, the chain applies, step
   * by step, exactly the icon each request would build afresh: what a hit
   * returns is indistinguishable from a reload.
   */
  lemma {:induction false} ChainAppliesFresh(entries: map<CacheKey, Icon>, decodable: map<Source, Image>,
                                             jobs: seq<Job>, universe: set<Job>, env: Env)
    requires forall i :: 0 <= i < |jobs| ==> jobs[i] in universe
    requires Sound(entries, decodable, universe, env) && KeysInjective(universe, env)
    ensures var out := RunAll(entries, decodable, jobs, env);
      Sound(out.entries, decodable, universe, env)
      && forall i :: 0 <= i < |jobs| ==> out.applied[i] == Fresh(decodable, jobs[i], env)
    decreases |jobs|
  {
    if jobs != [] {
      var n := |jobs| - 1;
      ChainAppliesFresh(entries, decodable, jobs[..n], universe, env);
      var prev := RunAll(entries, decodable, jobs[..n], env);
      RunFresh(prev.entries, decodable, jobs[n], universe, env);
    }
  }

  /**
   * After the chain drains, the icon on the window is the one for the most
   * recent request, whatever was cached before.
   */
  lemma LatestRequestWins(entries: map<CacheKey, Icon>, decodable: map<Source, Image>,
                          jobs: seq<Job>, universe: set<Job>, env: Env)
    requires jobs != []
    requires forall i :: 0 <= i < |jobs| ==> jobs[i] in universe
    requires Sound(entries, decodable, universe, env) && KeysInjective(universe, env)
    ensures RunAll(entries, decodable, jobs, env).applied[|jobs| - 1] == Fresh(decodable, jobs[|jobs| - 1], env)
  {
    ChainAppliesFresh(entries, decodable, jobs, universe, env);
  }

  /**
   * A mounted hook starts from an empty cache, so over keys that do not
   * collide its first chain applies exactly the fresh icon of every request.
   */
  lemma FirstChainAppliesFresh(decodable: map<Source, Image>, jobs: seq<Job>, universe: set<Job>, env: Env)
    requires forall i :: 0 <= i < |jobs| ==> jobs[i] in universe
    requires KeysInjective(universe, env)
    ensures var out := RunAll(map[], decodable, jobs, env);
      forall i :: 0 <= i < |jobs| ==> out.applied[i] == Fresh(decodable, jobs[i], env)
  {
    EmptyCacheSound(decodable, universe, env);
    ChainAppliesFresh(map[], decodable, jobs, universe, env);
  }

  /** Windows keys collide only when a favicon URL equals an overlay badge text. */
  lemma WindowsKeysInjective(jobs: set<Job>, env: Env)
    requires forall j :: j in jobs ==> !j.LinuxJob?
    requires forall w, o :: w in jobs && o in jobs && w.WindowsJob? && o.OverlayJob? && HasBadge(o.badge) ==>
      UrlKey(w.iconUrl) != Text(o.badge.value)
    ensures KeysInjective(jobs, env)
  {
  }

  /** No URL of `hrefs` is another one of them followed by a dash. */
  ghost predicate NoDashExtension(hrefs: set<string>) {
    forall h1, h2 :: h1 in hrefs && h2 in hrefs && |h1| < |h2| ==> h2[..|h1| + 1] != h1 + "-"
  }

  /** Of two equal `${ url }-${ badge }` keys, the longer URL starts with the shorter one and a dash. */
  lemma DashPrefix(short: string, b1: string, long: string, b2: string)
    requires short + "-" + b1 == long + "-" + b2 && |short| < |long|
    ensures long[..|short| + 1] == short + "-"
  {
    var k := short + "-" + b1;
    assert long[..|short| + 1] == k[..|short| + 1];
  }

  /**
   * Linux keys collide only through a URL that extends another one with a
   * dash (see LinuxKeyCollision): without such a pair they are injective.
   */
  lemma LinuxKeysInjective(jobs: set<Job>, hrefs: set<string>, env: Env)
    requires forall j :: j in jobs ==> j.LinuxJob? && Href(j.iconUrl, env) in hrefs
    requires NoDashExtension(hrefs)
    ensures KeysInjective(jobs, env)
  {
    forall j1, j2 | j1 in jobs && j2 in jobs && Key(j1, env) == Key(j2, env)
      ensures RecipeOf(j1, env) == RecipeOf(j2, env)
    {
      var h1, h2 := Href(j1.iconUrl, env), Href(j2.iconUrl, env);
      if HasBadge(j1.badge) && HasBadge(j2.badge) {
        var k1, k2 := h1 + "-" + j1.badge.value, h2 + "-" + j2.badge.value;
        if |h1| < |h2| {
          assert false;
        } else if |h2| < |h1| {
          DashPrefix(h2, j2.badge.value, h1, j1.badge.value);
          assert false;
        } else {
          assert h1 == k1[..|h1|] && h2 == k2[..|h2|];
          assert j1.badge.value == k1[|h1| + 1..] && j2.badge.value == k2[|h2| + 1..];
        }
      } else if HasBadge(j1.badge) {
        assert false;
      } else if HasBadge(j2.badge) {
        assert false;
      }
    }
  }

  // -------------------------------------------------------------- the hook

  /** The dependencies of the effects: the two selector values of one render. */
  datatype Deps = Deps(iconUrl: IconUrl, badge: Option<string>)

  /**
   * The steps one render appends to `setIconPromiseChainRef`: on Linux when
   * the icon URL or the badge changed, on win32 when the icon URL changed, and
   * on the first render in both cases.
   */
  function IconJobs(platform: Platform, previous: Option<Deps>, now: Deps): (r: seq<Job>)
    ensures |r| <= 1
    ensures r != [] <==>
      || (platform == Linux && previous != Some(now))
      || (platform == Win32 && (previous.None? || previous.value.iconUrl != now.iconUrl))
    ensures r != [] && platform == Linux ==> r == [LinuxJob(now.iconUrl, now.badge)]
    ensures r != [] && platform == Win32 ==> r == [WindowsJob(now.iconUrl)]
  {
    if platform == Linux && (previous.None? || previous.value != now) then [LinuxJob(now.iconUrl, now.badge)]
    else if platform == Win32 && (previous.None? || previous.value.iconUrl != now.iconUrl) then [WindowsJob(now.iconUrl)]
    else []
  }

  /**
   * On win32 the main icon does not depend on the badge: a render that changes
   * only the badge appends no icon step, and the icon a Windows step draws
   * carries no badge in any representation.
   */
  lemma WindowsIconIgnoresBadge(iconUrl: IconUrl, b1: Option<string>, b2: Option<string>,
                                decodable: map<Source, Image>, env: Env)
    ensures IconJobs(Win32, Some(Deps(iconUrl, b1)), Deps(iconUrl, b2)) == []
    ensures var icon := Fresh(decodable, WindowsJob(iconUrl), env);
      icon.Some? ==> forall i :: 0 <= i < |icon.value.representations| ==>
        icon.value.representations[i].picture.notch == None
  {
  }

  /** The step one render appends to `setOverlayIconPromiseChainRef`: on win32, when the badge changed. */
  function OverlayJobs(platform: Platform, previous: Option<Deps>, now: Deps): (r: seq<Job>)
    ensures r != [] <==> platform == Win32 && (previous.None? || previous.value.badge != now.badge)
    ensures r != [] ==> r == [OverlayJob(now.badge)]
  {
    if platform == Win32 && (previous.None? || previous.value.badge != now.badge) then [OverlayJob(now.badge)]
    else []
  }

  /** `badge || ''`: empty exactly when the badge is falsy, the badge text otherwise. */
  function OverlayText(j: Job): (t: string)
    ensures t == "" <==> !(j.OverlayJob? && HasBadge(j.badge))
    ensures t != "" ==> j.badge == Some(t)
  {
    if j.OverlayJob? && HasBadge(j.badge) then j.badge.value else ""
  }

  /** The `setOverlayIcon` calls a run of overlay steps makes. */
  function OverlayCalls(applied: seq<Option<Icon>>, jobs: seq<Job>): (r: seq<OverlayCall>)
    requires |applied| == |jobs|
    ensures |r| == |jobs|
    ensures forall i :: 0 <= i < |jobs| ==> r[i] == OverlayCall(applied[i], OverlayText(jobs[i]))
  {
    seq(|jobs|, i requires 0 <= i < |jobs| => OverlayCall(applied[i], OverlayText(jobs[i])))
  }

  lemma OverlayCallsSnoc(applied: seq<Option<Icon>>, jobs: seq<Job>, icon: Option<Icon>, j: Job)
    requires |applied| == |jobs|
    ensures OverlayCalls(applied + [icon], jobs + [j]) == OverlayCalls(applied, jobs) + [OverlayCall(icon, OverlayText(j))]
  {
  }

  /** One mounted `useMainWindowIcon(browserWindow)`. */
  class MainWindowIconHook {
    const platform: Platform
    const env: Env
    const window: Window
    /** `nativeImageCacheRef.current` */
    const cache: IconCache
    const loader: ImageLoader<Source>
    /** The dependencies seen by the last render; `None` before the first. */
    var rendered: Option<Deps>
    /** The steps appended to `setIconPromiseChainRef.current` that have not run yet. */
    var iconChain: seq<Job>
    /** The steps appended to `setOverlayIconPromiseChainRef.current` that have not run yet. */
    var overlayChain: seq<Job>

    /** Mounting the hook gives it a fresh, empty cache (`useRef(new Map())`). */
    constructor (platform: Platform, env: Env, window: Window, loader: ImageLoader<Source>)
      ensures this.platform == platform && this.env == env
      ensures this.window == window && this.loader == loader
      ensures fresh(cache) && cache.entries == map[]
      ensures rendered == None && iconChain == [] && overlayChain == []
    {
      this.platform := platform;
      this.env := env;
      this.window := window;
      this.cache := new IconCache();
      this.loader := loader;
      rendered := None;
      iconChain := [];
      overlayChain := [];
    }

    /**
     * A render against a store snapshot: both selectors run, and each effect
     * whose dependencies changed appends its step to its chain.
     */
    method Render(state: StoreState)
      modifies this`rendered, this`iconChain, this`overlayChain
      ensures rendered == Some(Deps(IconUrlOf(state.servers, state.currentServerUrl), AggregateBadge(state.servers)))
      ensures iconChain == old(iconChain) + IconJobs(platform, old(rendered), rendered.value)
      ensures overlayChain == old(overlayChain) + OverlayJobs(platform, old(rendered), rendered.value)
    {
      var iconUrl := IconUrlOf(state.servers, state.currentServerUrl);
      var badge := AggregateBadge(state.servers);
      var now := Deps(iconUrl, badge);
      var firstRender := rendered.None?;
      if platform == Linux && (firstRender || rendered.value != now) {
        iconChain := iconChain + [LinuxJob(iconUrl, badge)];
      }
      if platform == Win32 && (firstRender || rendered.value.iconUrl != iconUrl) {
        iconChain := iconChain + [WindowsJob(iconUrl)];
      }
      if platform == Win32 && (firstRender || rendered.value.badge != badge) {
        overlayChain := overlayChain + [OverlayJob(badge)];
      }
      rendered := Some(now);
    }

    /** Builds the icon for a job with the builder the job names. */
    method Build(job: Job) returns (icon: Option<Icon>)
      modifies cache, loader
      ensures var out := Run(old(cache.entries), loader.decodable, job, env);
        icon == out.icon && cache.entries == out.entries && loader.requests == old(loader.requests) + out.loads
    {
      match job {
        case LinuxJob(u, b) => icon := cache.CreateIconForLinux(u, b, env, loader);
        case WindowsJob(u) => icon := cache.CreateIconForWindows(u, env, loader);
        case OverlayJob(b) => icon := cache.CreateOverlayIconForWindows(b, env, loader);
      }
    }

    /** The oldest pending step of the icon chain runs: build, then `browserWindow.setIcon(icon)`. */
    method RunIconStep()
      requires iconChain != []
      modifies this`iconChain, cache, loader, window`icon, window`iconHistory
      ensures iconChain == old(iconChain)[1..]
      ensures var out := Run(old(cache.entries), loader.decodable, old(iconChain)[0], env);
        window.icon == out.icon && window.iconHistory == old(window.iconHistory) + [out.icon]
        && cache.entries == out.entries && loader.requests == old(loader.requests) + out.loads
    {
      var job := iconChain[0];
      iconChain := iconChain[1..];
      var icon := Build(job);
      window.SetIcon(icon);
    }

    /** The oldest pending step of the overlay chain runs: build, then `setOverlayIcon(overlayIcon, badge || '')`. */
    method RunOverlayStep()
      requires overlayChain != []
      modifies this`overlayChain, cache, loader, window`overlayIcon, window`overlayText, window`overlayHistory
      ensures overlayChain == old(overlayChain)[1..]
      ensures var out := Run(old(cache.entries), loader.decodable, old(overlayChain)[0], env);
        window.overlayIcon == out.icon && window.overlayText == OverlayText(old(overlayChain)[0])
        && window.overlayHistory == old(window.overlayHistory) + [OverlayCall(out.icon, OverlayText(old(overlayChain)[0]))]
        && cache.entries == out.entries && loader.requests == old(loader.requests) + out.loads
    {
      var job := overlayChain[0];
      overlayChain := overlayChain[1..];
      var icon := Build(job);
      window.SetOverlayIcon(icon, OverlayText(job));
    }

    /**
     * The icon chain settles: its steps run in the order they were appended,
     * and `setIcon` receives their results in that order.
     */
    method SettleIconChain()
      modifies this`iconChain, cache, loader, window`icon, window`iconHistory
      ensures iconChain == []
      ensures var out := RunAll(old(cache.entries), loader.decodable, old(iconChain), env);
        window.iconHistory == old(window.iconHistory) + out.applied
        && cache.entries == out.entries && loader.requests == old(loader.requests) + out.loads
        && window.icon == Latest(old(window.icon), out.applied)
    {
      ghost var jobs := iconChain;
      ghost var k := 0;
      while iconChain != []
        invariant 0 <= k <= |jobs| && iconChain == jobs[k..]
        invariant var out := RunAll(old(cache.entries), loader.decodable, jobs[..k], env);
          window.iconHistory == old(window.iconHistory) + out.applied
          && cache.entries == out.entries && loader.requests == old(loader.requests) + out.loads
          && window.icon == Latest(old(window.icon), out.applied)
        decreases |iconChain|
      {
        RunIconStep();
        k := k + 1;
        assert jobs[..k][..k - 1] == jobs[..k - 1];
      }
      assert jobs[..k] == jobs;
    }

    /**
     * The overlay chain settles: its steps run in order, and `setOverlayIcon`
     * receives each result with that step's badge text.
     */
    method SettleOverlayChain()
      modifies this`overlayChain, cache, loader, window`overlayIcon, window`overlayText, window`overlayHistory
      ensures overlayChain == []
      ensures var out := RunAll(old(cache.entries), loader.decodable, old(overlayChain), env);
        window.overlayHistory == old(window.overlayHistory) + OverlayCalls(out.applied, old(overlayChain))
        && cache.entries == out.entries && loader.requests == old(loader.requests) + out.loads
    {
      ghost var jobs := overlayChain;
      ghost var entries0, requests0, history0 := cache.entries, loader.requests, window.overlayHistory;
      ghost var k := 0;
      while overlayChain != []
        invariant 0 <= k <= |jobs| && overlayChain == jobs[k..]
        invariant cache.entries == RunAll(entries0, loader.decodable, jobs[..k], env).entries
        invariant loader.requests == requests0 + RunAll(entries0, loader.decodable, jobs[..k], env).loads
        invariant window.overlayHistory
          == history0 + OverlayCalls(RunAll(entries0, loader.decodable, jobs[..k], env).applied, jobs[..k])
        decreases |overlayChain|
      {
        ghost var before := RunAll(entries0, loader.decodable, jobs[..k], env);
        ghost var job := jobs[k];
        ghost var step := Run(before.entries, loader.decodable, job, env);
        RunOverlayStep();
        k := k + 1;
        assert jobs[..k][..k - 1] == jobs[..k - 1];
        assert RunAll(entries0, loader.decodable, jobs[..k], env)
          == ChainOutcome(before.applied + [step.icon], step.entries, before.loads + step.loads);
        OverlayCallsSnoc(before.applied, jobs[..k - 1], step.icon, job);
        assert jobs[..k - 1] + [job] == jobs[..k];
      }
      assert jobs[..k] == jobs;
    }
  }
}
