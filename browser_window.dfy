/**
 * The Electron `BrowserWindow` as the main-window hooks use it: the setters
 * they call and the focus state they read. Each icon setter also keeps the
 * list of the values it was called with, so that the order of the calls can
 * be stated.
 */
module BrowserWindow {
  import opened Wrappers
  import opened NativeImage

  /** `process.platform` */
  datatype Platform = Linux | Win32 | Darwin | OtherPlatform(name: string)

  /** The arguments of one `setOverlayIcon(overlayIcon, description)` call. */
  datatype OverlayCall = OverlayCall(icon: Option<Icon>, text: string)

  /**
   * The icon a window shows after the `setIcon` calls `applied`, starting from
   * `icon`: the last argument, or `icon` when there was no call.
   */
  function Latest(icon: Option<Icon>, applied: seq<Option<Icon>>): Option<Icon> {
    if applied == [] then icon else applied[|applied| - 1]
  }

  class Window {
    /** The icon last passed to `setIcon`; `None` is `null`. */
    var icon: Option<Icon>
    var overlayIcon: Option<Icon>
    var overlayText: string
    var title: string
    /** The argument of the last `flashFrame` call. */
    var flashing: bool
    /** What `isFocused()` answers; changed by the user, not by the hooks. */
    var focused: bool
    /** Every `setIcon` argument, oldest first. */
    var iconHistory: seq<Option<Icon>>
    /** Every `setOverlayIcon` call, oldest first. */
    var overlayHistory: seq<OverlayCall>

    constructor (icon: Option<Icon>, title: string, focused: bool)
      ensures this.icon == icon && this.title == title && this.focused == focused
      ensures overlayIcon == None && overlayText == "" && !flashing
      ensures iconHistory == [] && overlayHistory == []
    {
      this.icon := icon;
      this.title := title;
      this.focused := focused;
      overlayIcon := None;
      overlayText := "";
      flashing := false;
      iconHistory := [];
      overlayHistory := [];
    }

    method SetIcon(icon: Option<Icon>)
      modifies this`icon, this`iconHistory
      ensures this.icon == icon && iconHistory == old(iconHistory) + [icon]
    {
      this.icon := icon;
      iconHistory := iconHistory + [icon];
    }

    method SetOverlayIcon(icon: Option<Icon>, text: string)
      modifies this`overlayIcon, this`overlayText, this`overlayHistory
      ensures overlayIcon == icon && overlayText == text
      ensures overlayHistory == old(overlayHistory) + [OverlayCall(icon, text)]
    {
      overlayIcon := icon;
      overlayText := text;
      overlayHistory := overlayHistory + [OverlayCall(icon, text)];
    }

    method SetTitle(title: string)
      modifies this`title
      ensures this.title == title
    {
      this.title := title;
    }

    method FlashFrame(flag: bool)
      modifies this`flashing
      ensures flashing == flag
    {
      flashing := flag;
    }
  }
}
