/**
 * src/components/MainWindow/useMainWindowTitle.js: the window title is the
 * current server's title, or the application's name.
 */
module MainWindowTitle {
  import opened Wrappers
  import opened Servers
  import opened BrowserWindow

  /** `(currentServer && currentServer.title) || defaultAppTitle` */
  function TitleOf(state: StoreState, appName: string): (r: string)
    // the first server on the current URL decides, when its title is not empty
    ensures forall i :: IsFirstCurrent(state.servers, state.currentServerUrl, i) && state.servers[i].title != "" ==>
      r == state.servers[i].title
    // no server on the current URL, or an empty title: the application's name
    ensures (forall i :: IsFirstCurrent(state.servers, state.currentServerUrl, i) ==> state.servers[i].title == "") ==>
      r == appName
  {
    match FindCurrent(state.servers, state.currentServerUrl)
    case Some(i) => if state.servers[i].title != "" then state.servers[i].title else appName
    case None => appName
  }

  /** One mounted `useMainWindowTitle(browserWindow)`. */
  class MainWindowTitleHook {
    const window: Window
    /** `remote.app.name`, read once */
    const appName: string
    /** The title seen by the last render; `None` before the first. */
    var rendered: Option<string>

    /** The window's title is the last title this hook computed (nothing else sets it). */
    ghost predicate Valid()
      reads this, window
    {
      rendered.Some? ==> window.title == rendered.value
    }

    constructor (window: Window, appName: string)
      ensures this.window == window && this.appName == appName && rendered == None
      ensures Valid()
    {
      this.window := window;
      this.appName := appName;
      rendered := None;
    }

    /**
     * A render: when the computed title changed (or on the first render),
     * `setTitle` is called with it; afterwards the window shows the title of
     * the current state.
     */
    method Render(state: StoreState)
      requires Valid()
      modifies this`rendered, window`title
      ensures Valid()
      ensures rendered == Some(TitleOf(state, appName))
      ensures window.title == TitleOf(state, appName)
    {
      var title := TitleOf(state, appName);
      if rendered != Some(title) {
        window.SetTitle(title);
      }
      rendered := Some(title);
    }
  }
}
