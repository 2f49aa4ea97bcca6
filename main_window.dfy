/**
 * The icon and attention logic of the older `MainWindow` component,
 * src/components/MainWindow/index.js: its own `badge` and `iconURL`
 * selectors, an icon effect that redraws the icon at four sizes through one
 * promise chain (`iconPromiseRef`) without any cache, and the win32 rule
 * for `flashFrame`.
 */
module MainWindow {
  import opened Wrappers
  import opened Servers
  import opened NativeImage
  import opened BrowserWindow
  import MainWindowIcon

  /**
   * The value of this component's `badge` selector. `DotToken` is the
   * literal 'â€¢' the source holds (a mis-encoded bullet): a non-numeric
   * string, different from the '•' of the newer selector.
   */
  datatype LegacyBadge = Undefined | Null | Count(n: int) | DotToken

  /**
   * `undefined` while the tray icon is enabled; otherwise the uncapped sum of
   * the integer badges when it is nonzero, else the dot token when some badge
   * is truthy, else `null`.
   */
  function BadgeOf(state: StoreState): (r: LegacyBadge)
    ensures state.isTrayIconEnabled ==> r == Undefined
    ensures !state.isTrayIconEnabled ==>
      && (r.Count? <==> MentionCount(state.servers) != 0)
      && (r.Count? ==> r.n == MentionCount(state.servers))
      && (r == DotToken <==> MentionCount(state.servers) == 0 && AnyTruthy(state.servers))
      && (r == Null <==> MentionCount(state.servers) == 0 && !AnyTruthy(state.servers))
  {
    if state.isTrayIconEnabled then Undefined
    else
      var mentionCount := MentionCount(state.servers);
      if mentionCount != 0 then Count(mentionCount)
      else if AnyTruthy(state.servers) then DotToken
      else Null
  }

  /**
   * With the tray icon disabled the newer selector is this one's count capped
   * at '+9' and printed, with the dot spelt correctly.
   */
  lemma NewerBadgeCapsThisOne(state: StoreState)
    requires !state.isTrayIconEnabled
    ensures MainWindowIcon.AggregateBadge(state.servers) ==
      match BadgeOf(state)
      case Count(m) => Some(if m > 9 then "+9" else Decimal(m))
      case DotToken => Some("•")
      case _ => None
  {
  }

  /** The selector ignores the order of the servers. */
  lemma BadgeOfPermutation(a: StoreState, b: StoreState)
    requires multiset(a.servers) == multiset(b.servers) && a.isTrayIconEnabled == b.isTrayIconEnabled
    ensures BadgeOf(a) == BadgeOf(b)
  {
    MentionCountPermutation(a.servers, b.servers);
    AnyTruthyPermutation(a.servers, b.servers);
  }

  /** `(currentServer && currentServer.favicon) || String(<default icon URL>)` */
  function IconHref(state: StoreState, defaultHref: string): (r: string)
    ensures forall i :: IsFirstCurrent(state.servers, state.currentServerUrl, i) && state.servers[i].favicon != "" ==>
      r == state.servers[i].favicon
    ensures (forall i :: IsFirstCurrent(state.servers, state.currentServerUrl, i) ==> state.servers[i].favicon == "") ==>
      r == defaultHref
  {
    match FindCurrent(state.servers, state.currentServerUrl)
    case Some(i) => if state.servers[i].favicon != "" then state.servers[i].favicon else defaultHref
    case None => defaultHref
  }

  /** Both components pick the same icon; this one holds it as a string. */
  lemma IconHrefAgrees(state: StoreState, env: MainWindowIcon.Env)
    ensures IconHref(state, env.defaultHref)
      == MainWindowIcon.Href(MainWindowIcon.IconUrlOf(state.servers, state.currentServerUrl), env)
  {
  }

  const LegacySizes: seq<nat> := [16, 20, 24, 32]

  /** The icon the effect draws from a decoded image. */
  function LegacyIcon(image: Image): Icon {
    Icon(seq(|LegacySizes|, i requires 0 <= i < |LegacySizes| =>
      Representation(LegacySizes[i], LegacySizes[i], Ratio(LegacySizes[i], 32), Picture(image, None))))
  }

  /**
   * The drawing loop of the icon effect: one square representation per size of
   * [16, 20, 24, 32], in that order, at scale factor size / 32, and no badge,
   * whatever the badge is.
   */
  method DrawIcon(image: Image) returns (icon: Icon)
    ensures |icon.representations| == |LegacySizes|
    ensures forall i :: 0 <= i < |LegacySizes| ==>
      var rep := icon.representations[i];
      rep.width == rep.height == LegacySizes[i] && rep.scaleFactor == Ratio(rep.width, 32)
      && rep.picture == Picture(image, None)
    ensures icon == LegacyIcon(image)
  {
    icon := EmptyIcon;
    for k := 0 to |LegacySizes|
      invariant |icon.representations| == k
      invariant forall i :: 0 <= i < k ==> icon.representations[i] == LegacyIcon(image).representations[i]
    {
      var size := LegacySizes[k];
      icon := AddRepresentation(icon, Representation(size, size, Ratio(size, 32), Picture(image, None)));
    }
  }

  /**
   * The `setIcon` arguments of a run of steps, one step per icon URL: a step
   * whose image loads sets its icon, a step whose image fails sets nothing.
   */
  function Applied(decodable: map<string, Image>, hrefs: seq<string>): (r: seq<Option<Icon>>)
    ensures |r| <= |hrefs|
    // `setIcon` is never called with `null`
    ensures forall i :: 0 <= i < |r| ==> r[i].Some?
    decreases |hrefs|
  {
    if hrefs == [] then []
    else
      var n := |hrefs| - 1;
      Applied(decodable, hrefs[..n]) + (if hrefs[n] in decodable then [Some(LegacyIcon(decodable[hrefs[n]]))] else [])
  }

  /** One more step appends that step's `setIcon` arguments. */
  lemma AppliedSnoc(decodable: map<string, Image>, hrefs: seq<string>, k: nat)
    requires k < |hrefs|
    ensures Applied(decodable, hrefs[..k + 1]) == Applied(decodable, hrefs[..k]) + Applied(decodable, [hrefs[k]])
  {
    assert hrefs[..k + 1][..k] == hrefs[..k];
    assert [hrefs[k]][..0] == [];
  }

  /**
   * After a run of steps the window shows the icon of the last URL that
   * loaded; when none loaded, `setIcon` was never called and the previous
   * icon stays.
   */
  lemma {:induction false} LastLoadedIconWins(decodable: map<string, Image>, hrefs: seq<string>)
    ensures Applied(decodable, hrefs) == [] <==> forall i :: 0 <= i < |hrefs| ==> hrefs[i] !in decodable
    ensures forall i ::
      (0 <= i < |hrefs| && hrefs[i] in decodable && (forall j :: i < j < |hrefs| ==> hrefs[j] !in decodable)) ==>
      var r := Applied(decodable, hrefs);
      r != [] && r[|r| - 1] == Some(LegacyIcon(decodable[hrefs[i]]))
    decreases |hrefs|
  {
    if hrefs != [] {
      var n := |hrefs| - 1;
      LastLoadedIconWins(decodable, hrefs[..n]);
      forall i | 0 <= i < n && hrefs[..n][i] !in decodable ensures hrefs[i] !in decodable {
      }
    }
  }

  /** `const count = Number.isInteger(badge) ? badge : 0`: only an integer badge counts. */
  function FlashCount(badge: LegacyBadge): (r: int)
    ensures badge.Count? ==> r == badge.n
    ensures !badge.Count? ==> r == 0
  {
    if badge.Count? then badge.n else 0
  }

  /** `!browserWindow.isFocused() && count > 0` */
  predicate ShouldFlash(focused: bool, badge: LegacyBadge)
    ensures ShouldFlash(focused, badge) <==> !focused && badge.Count? && badge.n > 0
  {
    !focused && FlashCount(badge) > 0
  }

  /**
   * The frame flashes exactly when the window is unfocused, the tray icon is
   * off and the integer badges add up to a positive count; the dot token,
   * `null` and `undefined` never flash it.
   */
  lemma FlashIffUnread(state: StoreState, focused: bool)
    ensures ShouldFlash(focused, BadgeOf(state)) <==>
      !focused && !state.isTrayIconEnabled && MentionCount(state.servers) > 0
    ensures BadgeOf(state) in {DotToken, Null, Undefined} ==> !ShouldFlash(focused, BadgeOf(state))
  {
  }

  /** The dependencies of the two effects: the badge and the icon URL of one render. */
  datatype Deps = Deps(badge: LegacyBadge, iconHref: string)

  /** One mounted `MainWindow` component, as far as its icon and flash effects go. */
  class MainWindowHook {
    const platform: Platform
    const defaultHref: string
    const window: Window
    const loader: ImageLoader<string>
    /** The dependencies seen by the last render; `None` before the first. */
    var rendered: Option<Deps>
    /** The icon URLs of the steps appended to `iconPromiseRef.current` that have not run yet. */
    var iconChain: seq<string>

    constructor (platform: Platform, defaultHref: string, window: Window, loader: ImageLoader<string>)
      ensures this.platform == platform && this.defaultHref == defaultHref
      ensures this.window == window && this.loader == loader
      ensures rendered == None && iconChain == []
    {
      this.platform := platform;
      this.defaultHref := defaultHref;
      this.window := window;
      this.loader := loader;
      rendered := None;
      iconChain := [];
    }

    /**
     * A render: on linux and win32 a change of badge or icon URL appends one
     * step for the current icon URL; on win32 a change of badge sets the
     * frame's flashing from the focus state read now.
     */
    method Render(state: StoreState)
      modifies this`rendered, this`iconChain, window`flashing
      ensures rendered == Some(Deps(BadgeOf(state), IconHref(state, defaultHref)))
      ensures iconChain == old(iconChain) +
        if (platform == Linux || platform == Win32) && old(rendered) != rendered
        then [IconHref(state, defaultHref)] else []
      ensures window.flashing ==
        if platform == Win32 && (old(rendered).None? || old(rendered).value.badge != BadgeOf(state))
        then ShouldFlash(window.focused, BadgeOf(state)) else old(window.flashing)
    {
      var badge := BadgeOf(state);
      var iconHref := IconHref(state, defaultHref);
      var now := Deps(badge, iconHref);
      var firstRender := rendered.None?;
      if (platform == Linux || platform == Win32) && (firstRender || rendered.value != now) {
        iconChain := iconChain + [iconHref];
      }
      if platform == Win32 && (firstRender || rendered.value.badge != badge) {
        window.FlashFrame(!window.focused && FlashCount(badge) > 0);
      }
      rendered := Some(now);
    }

    /**
     * The oldest pending step runs: it loads the icon URL; on `onload` it draws
     * the icon and calls `setIcon` once, on `onerror` it only resolves.
     */
    method RunIconStep()
      requires iconChain != []
      modifies this`iconChain, loader, window`icon, window`iconHistory
      ensures iconChain == old(iconChain)[1..]
      ensures loader.requests == old(loader.requests) + [old(iconChain)[0]]
      ensures window.iconHistory == old(window.iconHistory) + Applied(loader.decodable, [old(iconChain)[0]])
      ensures window.icon ==
        if old(iconChain)[0] in loader.decodable then Some(LegacyIcon(loader.decodable[old(iconChain)[0]]))
        else old(window.icon)
    {
      var iconUrl := iconChain[0];
      iconChain := iconChain[1..];
      var iconSvg := loader.Load(iconUrl);
      if iconSvg.Some? {
        var icon := DrawIcon(iconSvg.value);
        window.SetIcon(Some(icon));
      }
    }

    /** The chain settles: its steps run in the order they were appended. */
    method SettleIconChain()
      modifies this`iconChain, loader, window`icon, window`iconHistory
      ensures iconChain == []
      ensures loader.requests == old(loader.requests) + old(iconChain)
      ensures window.iconHistory == old(window.iconHistory) + Applied(loader.decodable, old(iconChain))
      ensures window.icon == Latest(old(window.icon), Applied(loader.decodable, old(iconChain)))
    {
      ghost var hrefs := iconChain;
      ghost var requests0, history0, icon0 := loader.requests, window.iconHistory, window.icon;
      ghost var k := 0;
      while iconChain != []
        invariant 0 <= k <= |hrefs| && iconChain == hrefs[k..]
        invariant loader.requests == requests0 + hrefs[..k]
        invariant window.iconHistory == history0 + Applied(loader.decodable, hrefs[..k])
        invariant window.icon == Latest(icon0, Applied(loader.decodable, hrefs[..k]))
        decreases |iconChain|
      {
        AppliedSnoc(loader.decodable, hrefs, k);
        RunIconStep();
        k := k + 1;
      }
      assert hrefs[..k] == hrefs;
    }
  }
}
