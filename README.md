# Rocket.Chat desktop: main-window icon, badge and title

This project models the part of the Rocket.Chat Electron client that keeps
the main window's icon, taskbar overlay, attention flash and title in step
with the Redux store. The modelled code has three parts:

- `useMainWindowIcon` works out one aggregate badge and one icon URL from the
  server list. On Linux it draws the icon at seven sizes with a notch holding
  the badge text. On Windows it draws an unbadged icon at eight sizes, plus a
  32 px overlay taken from a notification SVG. All three builders share one
  `Map` cache. Each effect appends one step to a promise chain, so the steps
  of a chain run strictly in order.
- The older `MainWindow` component (`index.js`) has its own selectors. Its
  badge is uncapped, is `undefined` while the tray icon is enabled, and uses a
  mis-encoded dot. It redraws the icon at four sizes without a cache, skips
  `setIcon` when the image fails to load, and flashes the frame on win32.
- `useMainWindowTitle` sets the window title to the current server's title,
  or to the application's name.

The browser's image decoder is an `ImageLoader`. It holds the set of sources
it can decode and logs every request, so a cache hit can be told apart from a
reload. The Electron window is a `Window` object whose setters also record
each call in order. A promise chain is a FIFO of pending steps:
`Render` appends steps, and `RunIconStep`/`Settle…` run them. A drawn icon is
kept as its list of representations: size, scale factor, the decoded image
drawn, and the badge text drawn in the notch. Scale factors are kept as exact
fractions.

Three behaviours of the code are easy to misread, and the model keeps each as written:

- After a failed load, `useMainWindowIcon` still calls `browserWindow.setIcon(null)`
  (src/components/MainWindow/useMainWindowIcon.js:95-97 and :224), and
  `MainWindowIconChain.MainWindowIconHook.RunIconStep` sets the window's icon
  to `None`. `index.js` leaves the icon alone instead (index.js:123-125), as
  `MainWindow.Applied` states.
- The dot is chosen when the integer badges sum to zero and some badge is
  truthy (useMainWindowIcon.js:201-206). This differs from "no integer badge
  at all" when counts cancel or a server reports 0.
- On Linux the representations carry the display's scale factor
  (useMainWindowIcon.js:81), not size / 32.

## Model

| member | source | states |
|---|---|---|
| Servers.FindCurrent | src/components/MainWindow/useMainWindowIcon.js:187 | `servers.find`: the index of a server on the current URL with none before it, and `None` exactly when no server is on that URL |
| Servers.FindCurrentIsFirst | src/components/MainWindow/useMainWindowIcon.js:187 | the first server on the current URL is the one `find` returns |
| Servers.Truthy | src/components/MainWindow/useMainWindowIcon.js:205 | `!!badge`: an integer badge is truthy exactly when it is nonzero |
| Servers.MentionCount | src/components/MainWindow/useMainWindowIcon.js:192-195 | the sum of integer badges is 0 when no server has an integer badge |
| Servers.NonzeroCountIsTruthy | src/components/MainWindow/useMainWindowIcon.js:192-206 | a nonzero sum means some badge is truthy, so the dot rule is reached only with a zero sum |
| Servers.AnyTruthy | src/components/MainWindow/useMainWindowIcon.js:205 | `some` scanning from the front is true exactly when some server's badge is truthy |
| Servers.MentionCountAppend | src/components/MainWindow/useMainWindowIcon.js:192-195 | the sum of integer badges over two lists joined is the sum of their sums |
| Servers.MentionCountRemove | src/components/MainWindow/useMainWindowIcon.js:192-195 | removing one server takes away exactly its integer badge from the sum |
| Servers.MentionCountPermutation | src/components/MainWindow/useMainWindowIcon.js:192-195 | the mention count is the same for every order of the servers |
| Servers.AnyTruthyPermutation | src/components/MainWindow/useMainWindowIcon.js:205 | whether some badge is truthy does not depend on the order of the servers |
| Servers.NatDecimal | src/components/MainWindow/useMainWindowIcon.js:202 | `toString(10)` of a natural number is a non-empty string of digits with no leading zero |
| Servers.Decimal | src/components/MainWindow/useMainWindowIcon.js:202 | `toString(10)` is non-empty, starts with '-' exactly for a negative number, and is all digits otherwise |
| Servers.NatDecimalRoundTrip | src/components/MainWindow/useMainWindowIcon.js:202 | reading the decimal text of a natural number gives the number back |
| Servers.DecimalRoundTrip | src/components/MainWindow/useMainWindowIcon.js:202 | reading the decimal text of any integer gives that integer back, so distinct counts give distinct badges |
| Servers.SmallDecimal | src/components/MainWindow/useMainWindowIcon.js:202 | a count from 0 to 9 prints as its single digit |
| NativeImage.AddRepresentation | src/components/MainWindow/useMainWindowIcon.js:83-88 | adding a representation keeps the earlier ones in order and puts the new one last |
| NativeImage.ImageLoader.Load | src/components/MainWindow/useMainWindowIcon.js:8-13 | loading logs the source, and succeeds exactly for a decodable source, with that source's image |
| BrowserWindow.Window.SetIcon | src/components/MainWindow/useMainWindowIcon.js:224 | `setIcon` replaces the icon and appends the argument to the call log |
| BrowserWindow.Window.SetOverlayIcon | src/components/MainWindow/useMainWindowIcon.js:244 | `setOverlayIcon` replaces the overlay and its text and appends the call to the log |
| BrowserWindow.Window.SetTitle | src/components/MainWindow/useMainWindowTitle.js:17 | `setTitle` replaces the title |
| BrowserWindow.Window.FlashFrame | src/components/MainWindow/index.js:135 | `flashFrame` sets the flashing flag to its argument |
| MainWindowIcon.IconUrlOf | src/components/MainWindow/useMainWindowIcon.js:183-189 | the icon URL is the first current server's favicon exactly when that server exists and its favicon is non-empty; otherwise it is the default icon |
| MainWindowIcon.AggregateBadge | src/components/MainWindow/useMainWindowIcon.js:191-210 | '+9' exactly when the count exceeds 9; the decimal count when it is nonzero and at most 9; '•' exactly when the count is 0 and some badge is truthy; `null` exactly when the count is 0 and no badge is truthy |
| MainWindowIcon.AggregateBadgePermutation | src/components/MainWindow/useMainWindowIcon.js:191-210 | the aggregate badge does not depend on the order of the servers |
| MainWindowIcon.MentionCountNonNegative | src/components/MainWindow/useMainWindowIcon.js:193-195 | with no negative badge the count is non-negative, and it is 0 only when every integer badge is 0 |
| MainWindowIcon.AggregateBadgeGlyph | src/components/MainWindow/useMainWindowIcon.js:20-33 | with no negative badge, every badge the selector makes has its own glyph: the digit of a count from 1 to 9, '+9' above 9, the dot otherwise |
| MainWindowIcon.GlyphFor | src/components/MainWindow/useMainWindowIcon.js:23-33 | a digit glyph for exactly the texts "1" to "9", the plus-nine glyph exactly for "+9", the dot exactly for "•", the bare disc for any other text |
| MainWindowIcon.LinuxKey | src/components/MainWindow/useMainWindowIcon.js:41 | the plain icon URL without a truthy badge; otherwise the URL text, a dash and the badge, which never equals the unbadged key of the same URL |
| MainWindowIcon.Key | src/components/MainWindow/useMainWindowIcon.js:41-143 | the key rules of lines 41, 101 and 143: the URL object is the key exactly of an unbadged request for the default icon; an overlay is keyed by its badge text |
| MainWindowIcon.DrawLinuxIcon | src/components/MainWindow/useMainWindowIcon.js:51-89 | one square representation per size of [64, 48, 40, 32, 24, 20, 16], in order, each at the display's scale factor, with the notch and badge text exactly when the badge is truthy |
| MainWindowIcon.DrawWindowsIcon | src/components/MainWindow/useMainWindowIcon.js:111-127 | one square representation per size of [256, 64, 48, 40, 32, 24, 20, 16], in order, at scale size / 32, never badged |
| MainWindowIcon.Run | src/components/MainWindow/useMainWindowIcon.js:40-98 | one builder call: a hit returns the stored icon and changes nothing; the cache only grows, and only under the job's own key holding the icon returned; a failure stores nothing; the loader is asked once exactly on a miss, and then the result is the freshly drawn icon |
| MainWindowIcon.CacheIdempotent | src/components/MainWindow/useMainWindowIcon.js:43-45 | a second identical call after a success is a hit that returns the same icon and loads nothing; after a failure it loads again |
| MainWindowIcon.LinuxKeyCollision | src/components/MainWindow/useMainWindowIcon.js:41 | the Linux key `${iconURL}-${badge}` can equal the plain key of another URL that needs a different icon |
| MainWindowIcon.WindowsKeyCollision | src/components/MainWindow/useMainWindowIcon.js:143 | an overlay key (the badge text) can equal a main-icon key (a favicon URL) in the shared cache |
| MainWindowIcon.LinuxHitKeepsOldScale | src/components/MainWindow/useMainWindowIcon.js:41-81 | the Linux key has no display scale in it, so after a scale change a hit serves the icon drawn at the old scale, without loading |
| MainWindowIcon.IconCache.constructor | src/components/MainWindow/useMainWindowIcon.js:212 | the cache starts empty |
| MainWindowIcon.IconCache.CreateIconForLinux | src/components/MainWindow/useMainWindowIcon.js:40-98 | returns the icon, leaves the cache and logs the loads that `Run` gives for a Linux job |
| MainWindowIcon.IconCache.CreateIconForWindows | src/components/MainWindow/useMainWindowIcon.js:100-136 | returns the icon, leaves the cache and logs the loads that `Run` gives for a Windows job |
| MainWindowIcon.IconCache.CreateOverlayIconForWindows | src/components/MainWindow/useMainWindowIcon.js:138-177 | returns `null` for a falsy badge without touching the cache; otherwise does what `Run` gives for an overlay job |
| MainWindowIconChain.RunAll | src/components/MainWindow/useMainWindowIcon.js:222-224 | a chain of steps gives one result per step, never evicts a cache entry, and loads at most once per step |
| MainWindowIconChain.EmptyCacheSound | src/components/MainWindow/useMainWindowIcon.js:212 | the empty cache holds no stale icon |
| MainWindowIconChain.RunFresh | src/components/MainWindow/useMainWindowIcon.js:43-45 | over a cache with no stale icons and keys that do not collide, a step returns the freshly drawn icon and leaves the cache with no stale icons |
| MainWindowIconChain.ChainAppliesFresh | src/components/MainWindow/useMainWindowIcon.js:222-224 | under the same conditions every step of a chain applies exactly the icon its request would draw afresh |
| MainWindowIconChain.LatestRequestWins | src/components/MainWindow/useMainWindowIcon.js:222-224 | once the chain drains, the window shows the icon of the most recent request |
| MainWindowIconChain.FirstChainAppliesFresh | src/components/MainWindow/useMainWindowIcon.js:212 | starting from the empty cache a hook is mounted with, and over keys that do not collide, every step applies the icon its request would draw afresh |
| MainWindowIconChain.WindowsKeysInjective | src/components/MainWindow/useMainWindowIcon.js:101 | Windows keys collide only when a favicon URL equals an overlay badge text |
| MainWindowIconChain.LinuxKeysInjective | src/components/MainWindow/useMainWindowIcon.js:41 | Linux keys collide only when one URL is another one followed by a dash |
| MainWindowIconChain.WindowsIconIgnoresBadge | src/components/MainWindow/useMainWindowIcon.js:232-235 | on win32 a render that changes only the badge appends no icon step, and a Windows main icon has no badge in any representation |
| MainWindowIconChain.IconJobs | src/components/MainWindow/useMainWindowIcon.js:217-235 | a render appends a step on Linux exactly when the icon URL or badge changed, on win32 exactly when the icon URL changed, each on the first render too; the step carries the current values |
| MainWindowIconChain.OverlayJobs | src/components/MainWindow/useMainWindowIcon.js:237-245 | a render appends an overlay step exactly on win32 when the badge changed or on the first render |
| MainWindowIconChain.OverlayText | src/components/MainWindow/useMainWindowIcon.js:244 | `badge \|\| ''` is empty exactly when the badge is falsy, and is the badge text otherwise |
| MainWindowIconChain.MainWindowIconHook.constructor | src/components/MainWindow/useMainWindowIcon.js:212-215 | a mounted hook owns a fresh, empty cache, has rendered nothing, and both chains are empty |
| MainWindowIconChain.MainWindowIconHook.Render | src/components/MainWindow/useMainWindowIcon.js:183-245 | a render records both selector values and appends to each chain the steps its effect fires |
| MainWindowIconChain.MainWindowIconHook.Build | src/components/MainWindow/useMainWindowIcon.js:223 | a step builds with the builder its job names, as `Run` says |
| MainWindowIconChain.MainWindowIconHook.RunIconStep | src/components/MainWindow/useMainWindowIcon.js:222-224 | the oldest icon step runs and `setIcon` receives its result, `null` included |
| MainWindowIconChain.MainWindowIconHook.RunOverlayStep | src/components/MainWindow/useMainWindowIcon.js:242-244 | the oldest overlay step runs and `setOverlayIcon` receives its result and text |
| MainWindowIconChain.MainWindowIconHook.SettleIconChain | src/components/MainWindow/useMainWindowIcon.js:222-224 | the icon chain drains in order: `setIcon` receives exactly the results `RunAll` gives, and the window ends on the last of them |
| MainWindowIconChain.MainWindowIconHook.SettleOverlayChain | src/components/MainWindow/useMainWindowIcon.js:242-244 | the overlay chain drains in order: `setOverlayIcon` receives exactly the calls `RunAll` gives |
| MainWindow.BadgeOf | src/components/MainWindow/index.js:67-77 | `undefined` when the tray icon is on; otherwise the uncapped count exactly when it is nonzero, the dot token exactly when it is 0 and some badge is truthy, `null` exactly when it is 0 and none is |
| MainWindow.NewerBadgeCapsThisOne | src/components/MainWindow/index.js:76 | with the tray icon off, the newer badge is this count capped at '+9' and printed, or the correctly spelt dot, or `null` |
| MainWindow.BadgeOfPermutation | src/components/MainWindow/index.js:72-76 | the badge does not depend on the order of the servers |
| MainWindow.IconHref | src/components/MainWindow/index.js:79-86 | the first current server's favicon when it is non-empty, else the default icon URL |
| MainWindow.IconHrefAgrees | src/components/MainWindow/index.js:83-85 | both components pick the same icon URL text |
| MainWindow.DrawIcon | src/components/MainWindow/index.js:101-117 | one square representation per size of [16, 20, 24, 32], in order, at scale size / 32, never badged |
| MainWindow.Applied | src/components/MainWindow/index.js:97-126 | a run of steps calls `setIcon` at most once per step and never with `null` |
| MainWindow.LastLoadedIconWins | src/components/MainWindow/index.js:97-126 | after a run the last `setIcon` holds the icon of the last URL that loaded; when none loaded, `setIcon` was not called |
| MainWindow.FlashCount | src/components/MainWindow/index.js:134 | an integer badge counts as itself, any other badge as zero |
| MainWindow.ShouldFlash | src/components/MainWindow/index.js:135 | flash exactly when the window is unfocused and the badge is a positive integer |
| MainWindow.FlashIffUnread | src/components/MainWindow/index.js:129-136 | the frame flashes exactly when the window is unfocused, the tray icon is off and the count is positive; the dot, `null` and `undefined` never flash it |
| MainWindow.MainWindowHook.constructor | src/components/MainWindow/index.js:88 | a mounted component has rendered nothing and its chain is empty |
| MainWindow.MainWindowHook.Render | src/components/MainWindow/index.js:90-136 | on linux and win32 a change of badge or icon URL appends a step for the current URL; on win32 a change of badge sets flashing from the current focus |
| MainWindow.MainWindowHook.RunIconStep | src/components/MainWindow/index.js:97-126 | a step loads its URL; on success it sets the four-size icon, on failure the icon stays |
| MainWindow.MainWindowHook.SettleIconChain | src/components/MainWindow/index.js:97-126 | the chain drains in order, loading each URL once; `setIcon` receives exactly `Applied`, and the icon ends as the last applied or unchanged |
| MainWindowTitle.TitleOf | src/components/MainWindow/useMainWindowTitle.js:8-14 | the first current server's title when it is non-empty, else the application's name |
| MainWindowTitle.MainWindowTitleHook.constructor | src/components/MainWindow/useMainWindowTitle.js:6 | a mounted hook has rendered no title |
| MainWindowTitle.MainWindowTitleHook.Render | src/components/MainWindow/useMainWindowTitle.js:16-18 | after every render the window shows the title of the current state |

## Left out

- Pixels are not modelled: canvas drawing, the notch geometry and font, the SVG text, `btoa` and `toDataURL`. An icon records what was drawn into each representation, not the bytes.
- Image decoding is asynchronous, and so are the promise chains. Steps run only when `RunIconStep`/`RunOverlayStep`/`Settle…` are called. How the two chains of `useMainWindowIcon` interleave with each other and with renders is left to the caller.
- A rejected step is not modelled: every builder catches its own errors, and `setIcon`/`setOverlayIcon` are taken not to throw.
- React's effect scheduling is reduced to "fire when a dependency changed, and on the first render". `browserWindow` is treated as a constant dependency. Unmounting is not modelled.
- `remote.app.getAppPath()`, `url.pathToFileURL` and `remote.app.name` are parameters: the default icon's URL text and the application's name.
- `remote.screen.getPrimaryDisplay().scaleFactor` is read inside the Linux loop on every cache miss in the source. A `MainWindowIconHook` reads it once, when mounted, as its constant `env`; the `IconCache` methods take it per call.
- Servers.MentionCount: sums exact integers. JavaScript sums doubles, which lose precision above 2^53.
- MainWindowIconChain.LatestRequestWins: holds only when cache keys do not collide and the cache holds no stale icons. The key collisions shown by `LinuxKeyCollision` and `WindowsKeyCollision` break the promise in the source. It also takes the display scale as fixed for the hook's life. In the source a cached Linux icon keeps the scale it was drawn at, so after a scale change a hit serves the old scale (`LinuxHitKeepsOldScale`). The same holds for `ChainAppliesFresh` and `FirstChainAppliesFresh`.
- The focus and edit-flag listeners of `index.js` (lines 18-65) are not modelled: they dispatch actions and do not touch the icon. Neither is `useSaga(mainWindowStateSaga)`.
- `app.js` and `ErrorCatcher.js` are not part of this model: they only mount the component and report errors.
- The title effect fires only when the title changes. Nothing else writes the title, so `MainWindowTitleHook.Valid` assumes that.
- MainWindowIconChain.ChainAppliesFresh: relies on a loader that answers the same for a source every time. An image that changes behind its URL, or a failure that goes away, is not modelled.
- MainWindowIcon.Run: treats one builder call as atomic. In the source the win32 icon chain and overlay chain can interleave at the `await` between `has` and `set`. Under a `WindowsKeyCollision` the later `set` then overwrites an entry, which `Run` rules out.
- Servers.Decimal: prints every digit. JavaScript's `toString(10)` switches to exponent form at magnitudes of 1e21 and above.
