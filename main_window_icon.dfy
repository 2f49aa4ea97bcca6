/**
 * The icon pipeline of src/components/MainWindow/useMainWindowIcon.js: the two
 * selectors (`iconURL`, `badge`), the three icon builders that share one
 * append-only cache (`createIconForLinux`, `createIconForWindows`,
 * `createOverlayIconForWindows`), and a pure description of one builder call
 * (`Run`) that the promise chains of MainWindowIconChain are stated against.
 */
module MainWindowIcon {
  import opened Wrappers
  import opened Servers
  import opened NativeImage

  // ---------------------------------------------------------------- selectors

  /**
   * The value of the `iconURL` selector: a server's favicon string, or the
   * `defaultAppIcon` URL object that `useMemo` keeps for the life of the hook.
   */
  datatype IconUrl = Favicon(href: string) | AppIcon

  /** What the hook reads through `remote`: the default icon's URL text and the display's scale factor. */
  datatype Env = Env(defaultHref: string, displayScale: Ratio)

  /** `(currentServer && currentServer.favicon) || defaultAppIcon` */
  function IconUrlOf(servers: seq<Server>, current: Option<string>): (r: IconUrl)
    ensures r.Favicon? <==> exists i :: IsFirstCurrent(servers, current, i) && servers[i].favicon != ""
    ensures forall i :: IsFirstCurrent(servers, current, i) && servers[i].favicon != "" ==>
      r == Favicon(servers[i].favicon)
  {
    match FindCurrent(servers, current)
    case Some(i) => if servers[i].favicon != "" then Favicon(servers[i].favicon) else AppIcon
    case None => AppIcon
  }

  /**
   * The `badge` selector: the sum of the integer badges, capped at '+9';
   * failing a nonzero sum, a dot when some badge is truthy; else `null`.
   */
  function AggregateBadge(servers: seq<Server>): (r: Option<string>)
    ensures r == Some("+9") <==> MentionCount(servers) > 9
    ensures MentionCount(servers) != 0 && MentionCount(servers) <= 9 ==>
      r == Some(Decimal(MentionCount(servers)))
    ensures r == Some("•") <==> MentionCount(servers) == 0 && AnyTruthy(servers)
    ensures r == None <==> MentionCount(servers) == 0 && !AnyTruthy(servers)
  {
    var mentionCount := MentionCount(servers);
    if mentionCount > 9 then Some("+9")
    else if mentionCount != 0 then Some(Decimal(mentionCount))
    else if AnyTruthy(servers) then Some("•")
    else None
  }

  /** The aggregate badge is the same for every order of the server list. */
  lemma AggregateBadgePermutation(a: seq<Server>, b: seq<Server>)
    requires multiset(a) == multiset(b)
    ensures AggregateBadge(a) == AggregateBadge(b)
  {
    MentionCountPermutation(a, b);
    AnyTruthyPermutation(a, b);
  }

  predicate NonNegativeBadges(servers: seq<Server>) {
    forall i :: 0 <= i < |servers| && servers[i].badge.Int? ==> servers[i].badge.n >= 0
  }

  lemma {:induction false} MentionCountNonNegative(servers: seq<Server>)
    requires NonNegativeBadges(servers)
    ensures MentionCount(servers) >= 0
    ensures MentionCount(servers) == 0 ==> forall i :: 0 <= i < |servers| ==> IntegerPart(servers[i].badge) == 0
    decreases |servers|
  {
    if servers != [] {
      var n := |servers| - 1;
      assert NonNegativeBadges(servers[..n]) by {
        forall i | 0 <= i < n && servers[..n][i].badge.Int?
          ensures servers[..n][i].badge.n >= 0
        {
          assert servers[..n][i] == servers[i];
        }
      }
      MentionCountNonNegative(servers[..n]);
      if MentionCount(servers) == 0 {
        forall i | 0 <= i < |servers| ensures IntegerPart(servers[i].badge) == 0 {
          if i < n {
            assert servers[..n][i] == servers[i];
          }
        }
      }
    }
  }

  /** The glyph `createNotificationImage` draws on its red disc for a badge text. */
  datatype Glyph = Digit(d: nat) | PlusNine | Dot | DiscOnly

  function GlyphFor(badge: string): (g: Glyph)
    ensures g.Digit? ==> 1 <= g.d <= 9 && badge == [DigitChar(g.d)]
    ensures g == PlusNine <==> badge == "+9"
    ensures g == Dot <==> badge == "•"
    // any other text gets the bare disc
    ensures g == DiscOnly <==> badge != "+9" && badge != "•" && !(|badge| == 1 && '1' <= badge[0] <= '9')
  {
    if |badge| == 1 && '1' <= badge[0] <= '9' then Digit(badge[0] as int - '0' as int)
    else if badge == "+9" then PlusNine
    else if badge == "•" then Dot
    else DiscOnly
  }

  /**
   * When no server reports a negative count, every badge the selector can
   * produce has its own glyph: the digit of a count from 1 to 9, '+9' above
   * that, or the dot.
   */
  lemma AggregateBadgeGlyph(servers: seq<Server>)
    requires NonNegativeBadges(servers)
    ensures var m := MentionCount(servers);
      match AggregateBadge(servers)
      case None => !AnyTruthy(servers)
      case Some(t) => GlyphFor(t) == (if m > 9 then PlusNine else if m > 0 then Digit(m) else Dot)
  {
    MentionCountNonNegative(servers);
    var m := MentionCount(servers);
    if 0 < m <= 9 {
      SmallDecimal(m);
    }
  }

  // ------------------------------------------------------------- cache keys

  /** `!!badge` for the selector's string-or-null badge. */
  predicate HasBadge(badge: Option<string>) {
    badge.Some? && badge.value != ""
  }

  /**
   * A key of the shared `Map`: a string, or the `defaultAppIcon` URL object
   * itself, which a `Map` tells apart from every string.
   */
  datatype CacheKey = Text(s: string) | AppIconObject

  /** `String(iconURL)`, as a template literal or `image.src` sees it. */
  function Href(iconUrl: IconUrl, env: Env): string {
    match iconUrl
    case Favicon(h) => h
    case AppIcon => env.defaultHref
  }

  /** `iconURL` used directly as a `Map` key. */
  function UrlKey(iconUrl: IconUrl): CacheKey {
    match iconUrl
    case Favicon(h) => Text(h)
    case AppIcon => AppIconObject
  }

  /** `badge ? `${ iconURL }-${ badge }` : iconURL` */
  function LinuxKey(iconUrl: IconUrl, badge: Option<string>, env: Env): (r: CacheKey)
    ensures !HasBadge(badge) ==> r == UrlKey(iconUrl)
    // a badged key is the URL text, a dash and the badge, so it never reuses the unbadged entry of its own URL
    ensures HasBadge(badge) ==>
      var h := Href(iconUrl, env);
      r.Text? && |r.s| > |h| + 1 && r.s[..|h| + 1] == h + "-" && r.s[|h| + 1..] == badge.value
      && r != UrlKey(iconUrl)
  {
    if HasBadge(badge) then Text(Href(iconUrl, env) + "-" + badge.value) else UrlKey(iconUrl)
  }

  // ------------------------------------------------------------- drawing

  const LinuxSizes: seq<nat> := [64, 48, 40, 32, 24, 20, 16]
  const WindowsSizes: seq<nat> := [256, 64, 48, 40, 32, 24, 20, 16]
  const OverlaySize: nat := 32

  /** The badge text drawn into the notch, if `badge` is truthy. */
  function Notch(badge: Option<string>): Option<string> {
    if HasBadge(badge) then badge else None
  }

  /** What `createIconForLinux` builds from a decoded image, with `notch` the badge text drawn, if any. */
  function LinuxIcon(image: Image, notch: Option<string>, displayScale: Ratio): Icon {
    Icon(seq(|LinuxSizes|, i requires 0 <= i < |LinuxSizes| =>
      Representation(LinuxSizes[i], LinuxSizes[i], displayScale, Picture(image, notch))))
  }

  /** What `createIconForWindows` builds from a decoded image. */
  function WindowsIcon(image: Image): Icon {
    Icon(seq(|WindowsSizes|, i requires 0 <= i < |WindowsSizes| =>
      Representation(WindowsSizes[i], WindowsSizes[i], Ratio(WindowsSizes[i], 32), Picture(image, None))))
  }

  /** What `createOverlayIconForWindows` builds from the decoded notification image. */
  function OverlayIcon(image: Image): Icon {
    Icon([Representation(OverlaySize, OverlaySize, Ratio(1, 1), Picture(image, None))])
  }

  /**
   * The drawing loop of `createIconForLinux`: one square representation per
   * size of [64, 48, 40, 32, 24, 20, 16], in that order, every one at the
   * display's scale factor, with the notch drawn exactly when the badge is truthy.
   */
  method DrawLinuxIcon(image: Image, badge: Option<string>, displayScale: Ratio) returns (icon: Icon)
    ensures |icon.representations| == |LinuxSizes|
    ensures forall i :: 0 <= i < |LinuxSizes| ==>
      var rep := icon.representations[i];
      rep.width == rep.height == LinuxSizes[i] && rep.scaleFactor == displayScale
      && rep.picture == Picture(image, Notch(badge))
    ensures icon == LinuxIcon(image, Notch(badge), displayScale)
  {
    icon := EmptyIcon;
    for k := 0 to |LinuxSizes|
      invariant |icon.representations| == k
      invariant forall i :: 0 <= i < k ==>
        icon.representations[i] == LinuxIcon(image, Notch(badge), displayScale).representations[i]
    {
      var size := LinuxSizes[k];
      icon := AddRepresentation(icon, Representation(size, size, displayScale, Picture(image, Notch(badge))));
    }
  }

  /**
   * The drawing loop of `createIconForWindows`: one square representation per
   * size of [256, 64, 48, 40, 32, 24, 20, 16], in that order, at scale factor
   * size / 32 (so 32 px is 1x and 256 px is 8x), never with a badge.
   */
  method DrawWindowsIcon(image: Image) returns (icon: Icon)
    ensures |icon.representations| == |WindowsSizes|
    ensures forall i :: 0 <= i < |WindowsSizes| ==>
      var rep := icon.representations[i];
      rep.width == rep.height == WindowsSizes[i] && rep.scaleFactor == Ratio(rep.width, 32)
      && rep.picture == Picture(image, None)
    ensures icon == WindowsIcon(image)
  {
    icon := EmptyIcon;
    for k := 0 to |WindowsSizes|
      invariant |icon.representations| == k
      invariant forall i :: 0 <= i < k ==> icon.representations[i] == WindowsIcon(image).representations[i]
    {
      var size := WindowsSizes[k];
      icon := AddRepresentation(icon, Representation(size, size, Ratio(size, 32), Picture(image, None)));
    }
  }

  // ------------------------------------------------------ one builder call

  /** One queued call of a builder, with the selector values it closed over. */
  datatype Job =
    | LinuxJob(iconUrl: IconUrl, badge: Option<string>)
    | WindowsJob(iconUrl: IconUrl)
    | OverlayJob(badge: Option<string>)

  /** `createOverlayIconForWindows` returns `null` for a falsy badge before touching the cache. */
  predicate Skips(j: Job) {
    j.OverlayJob? && !HasBadge(j.badge)
  }

  function Key(j: Job, env: Env): (r: CacheKey)
    requires !Skips(j)
    // only an unbadged request for the default icon uses the URL object as its key
    ensures r == AppIconObject <==>
      || (j.LinuxJob? && j.iconUrl == AppIcon && !HasBadge(j.badge))
      || (j.WindowsJob? && j.iconUrl == AppIcon)
    ensures j.OverlayJob? ==> r == Text(j.badge.value)
  {
    match j
    case LinuxJob(u, b) => LinuxKey(u, b, env)
    case WindowsJob(u) => UrlKey(u)
    case OverlayJob(b) => Text(b.value)
  }

  /** What a builder loads: the icon URL, or the notification SVG for the badge's glyph. */
  datatype Source = Url(href: string) | NotificationSvg(glyph: Glyph)

  /** Which of the three drawings a builder makes. */
  datatype Style = Composite(notch: Option<string>) | MainIcon | Overlay

  /** Everything the icon a builder makes depends on. */
  datatype Recipe = Recipe(source: Source, style: Style)

  function RecipeOf(j: Job, env: Env): Recipe
    requires !Skips(j)
  {
    match j
    case LinuxJob(u, b) => Recipe(Url(Href(u, env)), Composite(Notch(b)))
    case WindowsJob(u) => Recipe(Url(Href(u, env)), MainIcon)
    case OverlayJob(b) => Recipe(NotificationSvg(GlyphFor(b.value)), Overlay)
  }

  function Draw(style: Style, image: Image, env: Env): Icon {
    match style
    case Composite(notch) => LinuxIcon(image, notch, env.displayScale)
    case MainIcon => WindowsIcon(image)
    case Overlay => OverlayIcon(image)
  }

  /** The icon a builder makes for `j` when it does not hit the cache. */
  function Fresh(decodable: map<Source, Image>, j: Job, env: Env): Option<Icon> {
    if Skips(j) then None
    else
      var r := RecipeOf(j, env);
      if r.source in decodable then Some(Draw(r.style, decodable[r.source], env)) else None
  }

  /** The returned icon (`None` is `null`), the cache afterwards, and the sources loaded. */
  datatype Outcome = Outcome(icon: Option<Icon>, entries: map<CacheKey, Icon>, loads: seq<Source>)

  /**
   * One builder call against the shared cache: a hit returns the stored icon
   * and loads nothing; a miss loads the source once, and on success stores the
   * drawn icon under the key and returns it, on failure returns `null` and
   * stores nothing.
   */
  function Run(entries: map<CacheKey, Icon>, decodable: map<Source, Image>, j: Job, env: Env): (out: Outcome)
    // append-only: nothing is evicted or overwritten
    ensures forall k :: k in entries ==> k in out.entries && out.entries[k] == entries[k]
    // at most the job's own key is added, and only holding the icon returned
    ensures out.entries.Keys - entries.Keys <= (if Skips(j) then {} else {Key(j, env)})
    ensures out.icon.Some? ==> !Skips(j) && Key(j, env) in out.entries && out.entries[Key(j, env)] == out.icon.value
    ensures out.icon.None? ==> out.entries == entries
    // a hit returns the stored icon and changes nothing
    ensures !Skips(j) && Key(j, env) in entries ==> out == Outcome(Some(entries[Key(j, env)]), entries, [])
    // the loader is asked at most once, and only on a miss
    ensures |out.loads| <= 1
    ensures out.loads != [] <==> !Skips(j) && Key(j, env) !in entries
    ensures out.loads != [] ==> out.loads == [RecipeOf(j, env).source] && out.icon == Fresh(decodable, j, env)
  {
    if Skips(j) then Outcome(None, entries, [])
    else
      var key := Key(j, env);
      if key in entries then Outcome(Some(entries[key]), entries, [])
      else
        var r := RecipeOf(j, env);
        if r.source in decodable then
          var icon := Draw(r.style, decodable[r.source], env);
          Outcome(Some(icon), entries[key := icon], [r.source])
        else Outcome(None, entries, [r.source])
  }

  /**
   * Asking twice for the same icon: once the first call returned an icon the
   * second is a hit that returns the same icon and loads nothing; after a
   * failure nothing was stored and the second call loads again.
   */
  lemma CacheIdempotent(entries: map<CacheKey, Icon>, decodable: map<Source, Image>, j: Job, env: Env)
    ensures var first := Run(entries, decodable, j, env);
      var second := Run(first.entries, decodable, j, env);
      (first.icon.Some? ==> second == Outcome(first.icon, first.entries, []))
      && (first.icon.None? && !Skips(j) ==> second.loads == [RecipeOf(j, env).source])
  {
  }

  /**
   * The display scale is not part of the Linux key: once an icon is cached,
   * a later request under another scale is a hit that serves the icon drawn
   * at the scale of the first request.
   */
  lemma LinuxHitKeepsOldScale(entries: map<CacheKey, Icon>, decodable: map<Source, Image>,
                              iconUrl: IconUrl, badge: Option<string>, env1: Env, env2: Env)
    requires env1.defaultHref == env2.defaultHref
    ensures var j := LinuxJob(iconUrl, badge);
      var first := Run(entries, decodable, j, env1);
      var second := Run(first.entries, decodable, j, env2);
      first.icon.Some? && Key(j, env1) !in entries ==>
        && second.icon == first.icon && second.loads == []
        && forall i :: 0 <= i < |second.icon.value.representations| ==>
             second.icon.value.representations[i].scaleFactor == env1.displayScale
  {
  }

  /**
   * The Linux key is not injective: a badged key can equal the key of another
   * URL without a badge, and then a hit hands the badged icon to the request
   * that wanted none.
   */
  lemma LinuxKeyCollision(env: Env)
    ensures var badged := LinuxJob(Favicon("a"), Some("1"));
      var plain := LinuxJob(Favicon("a-1"), None);
      Key(badged, env) == Key(plain, env) && RecipeOf(badged, env) != RecipeOf(plain, env)
  {
    assert "a" + "-" + "1" == "a-1";
  }

  /**
   * The shared cache mixes the Windows main-icon keys (the icon URL) with the
   * overlay keys (the badge text): a favicon URL equal to a badge text would
   * receive the overlay icon.
   */
  lemma WindowsKeyCollision(env: Env)
    ensures Key(WindowsJob(Favicon("3")), env) == Key(OverlayJob(Some("3")), env)
    ensures RecipeOf(WindowsJob(Favicon("3")), env) != RecipeOf(OverlayJob(Some("3")), env)
  {
  }

  // ------------------------------------------------------------ the cache

  /** `nativeImageCacheRef.current`: the `Map` the three builders share. */
  class IconCache {
    var entries: map<CacheKey, Icon>

    constructor ()
      ensures entries == map[]
    {
      entries := map[];
    }

    /** `createIconForLinux(iconURL, badge, nativeImageCache)` */
    method CreateIconForLinux(iconUrl: IconUrl, badge: Option<string>, env: Env, loader: ImageLoader<Source>)
      returns (icon: Option<Icon>)
      modifies this, loader
      ensures var out := Run(old(entries), loader.decodable, LinuxJob(iconUrl, badge), env);
        icon == out.icon && entries == out.entries && loader.requests == old(loader.requests) + out.loads
    {
      var cacheKey := LinuxKey(iconUrl, badge, env);
      if cacheKey in entries {
        return Some(entries[cacheKey]);
      }
      var iconSvg := loader.Load(Url(Href(iconUrl, env)));
      if iconSvg.None? {
        return None;
      }
      var drawn := DrawLinuxIcon(iconSvg.value, badge, env.displayScale);
      entries := entries[cacheKey := drawn];
      return Some(drawn);
    }

    /** `createIconForWindows(iconURL, nativeImageCache)` */
    method CreateIconForWindows(iconUrl: IconUrl, env: Env, loader: ImageLoader<Source>)
      returns (icon: Option<Icon>)
      modifies this, loader
      ensures var out := Run(old(entries), loader.decodable, WindowsJob(iconUrl), env);
        icon == out.icon && entries == out.entries && loader.requests == old(loader.requests) + out.loads
    {
      var cacheKey := UrlKey(iconUrl);
      if cacheKey in entries {
        return Some(entries[cacheKey]);
      }
      var iconSvg := loader.Load(Url(Href(iconUrl, env)));
      if iconSvg.None? {
        return None;
      }
      var drawn := DrawWindowsIcon(iconSvg.value);
      entries := entries[cacheKey := drawn];
      return Some(drawn);
    }

    /** `createOverlayIconForWindows(badge, nativeImageCache)` */
    method CreateOverlayIconForWindows(badge: Option<string>, env: Env, loader: ImageLoader<Source>)
      returns (icon: Option<Icon>)
      modifies this, loader
      ensures var out := Run(old(entries), loader.decodable, OverlayJob(badge), env);
        icon == out.icon && entries == out.entries && loader.requests == old(loader.requests) + out.loads
    {
      if !HasBadge(badge) {
        return None;
      }
      var cacheKey := Text(badge.value);
      if cacheKey in entries {
        return Some(entries[cacheKey]);
      }
      var notificationImage := loader.Load(NotificationSvg(GlyphFor(badge.value)));
      if notificationImage.None? {
        return None;
      }
      var drawn := AddRepresentation(EmptyIcon,
        Representation(OverlaySize, OverlaySize, Ratio(1, 1), Picture(notificationImage.value, None)));
      assert drawn == OverlayIcon(notificationImage.value);
      ghost var out := Run(old(entries), loader.decodable, OverlayJob(badge), env);
      assert out.icon == Some(drawn);
      assert out.entries == entries[cacheKey := drawn];
      entries := entries[cacheKey := drawn];
      return Some(drawn);
    }
  }
}
