/**
 * WindowTile (src/windowtile.cpp): the widget for one window. It keeps the
 * record it shows, an active flag that decides its style sheet, and the
 * shift-click-close switch; a mouse press turns into the tile's signals.
 * The tile's dimensions come from the loaded settings.
 */
module WindowTiles {
  import opened Common
  import opened Geometry
  import Strings
  import opened WindowRecords
  import Settings

  datatype MouseButton = LeftButton | RightButton | MiddleButton | OtherButton(code: nat)

  /** Qt::ShiftModifier. */
  const ShiftModifier: bv32 := 0x0200_0000

  /** The tile's signals. */
  datatype Signal = Activated(hwnd: Hwnd) | Closed(hwnd: Hwnd) | LaunchRequested(processPath: Strings.Text)

  /** What the icon label shows: the icon as a pixmap of the configured size, or a text. */
  datatype IconLabel = Pixmap(icon: Icon, size: int) | Text(text: string)

  /** The two colours setupStyle puts into the style sheet. */
  datatype Style = Style(background: string, border: string)

  /** setupStyle's colours: light blue with a blue border when active, white with grey otherwise. */
  function StyleFor(active: bool): Style {
    if active then Style("#E3F2FD", "#2196F3") else Style("#FFFFFF", "#ccc")
  }

  lemma ActiveStyleDiffers()
    ensures StyleFor(true) != StyleFor(false)
  {
  }

  /** The context menu: the launch entry (maybe disabled) and the close entry, with what each emits. */
  datatype ContextMenu = ContextMenu(launchEnabled: bool, launchSignal: Signal, closeSignal: Signal)

  datatype MenuAction = LaunchAction | CloseAction

  /** Choosing a menu entry: a disabled entry cannot be chosen. */
  function Trigger(menu: ContextMenu, action: MenuAction): (r: Option<Signal>)
    ensures action == CloseAction ==> r == Some(menu.closeSignal)
    ensures action == LaunchAction ==> (r.Some? <==> menu.launchEnabled)
    ensures r.Some? && action == LaunchAction ==> r.value == menu.launchSignal
  {
    match action
    case LaunchAction => if menu.launchEnabled then Some(menu.launchSignal) else None
    case CloseAction => Some(menu.closeSignal)
  }

  /** The width setInfo gives the elided title: the tile minus both margins, the spacing and the icon. */
  function TitleWidth(cfg: Settings.Config): (w: int)
    ensures w + cfg.tileIconSize + cfg.tileInternalSpacing + 2 * cfg.tileContentMargin == cfg.tileWidth
  {
    cfg.tileWidth - cfg.tileContentMargin * 2 - cfg.tileInternalSpacing - cfg.tileIconSize
  }

  /** With the default settings the title gets 225 of the tile's 250 pixels. */
  lemma DefaultTitleWidth(cfg: Settings.Config)
    requires cfg == Settings.DefaultConfig
    ensures TitleWidth(cfg) == 225
  {
  }

  /** setInfo's icon label: a pixmap of the icon, or "?" for a null icon. */
  function IconLabelFor(icon: Icon, iconSize: int): (l: IconLabel)
    ensures l.Text? <==> icon == NoIcon
    ensures l.Text? ==> l.text == "?"
    ensures l.Pixmap? ==> l.icon == icon && l.size == iconSize
  {
    if icon != NoIcon then Pixmap(icon, iconSize) else Text("?")
  }

  class WindowTile {
    /** The settings the tile reads its dimensions from. */
    const config: Settings.Config
    /** The widget's object identity, which the layout item that holds it refers to. */
    const id: nat
    /** m_info. */
    var info: WindowInfo
    /** m_isActive, false at construction. */
    var isActive: bool
    /** m_enableShiftClickClose, false at construction. */
    var enableShiftClickClose: bool
    var iconLabel: IconLabel
    /** The width the title label's text is elided to. */
    var titleWidth: int
    /** The title label's tooltip: the full title. */
    var toolTip: Strings.Text
    var styleSheet: Style
    /** How many times setupStyle has run. */
    var restyles: nat

    /** The style sheet matches the active flag. */
    predicate StyleMatches()
      reads this
    {
      styleSheet == StyleFor(isActive)
    }

    /** WindowTile(info): setupUi (which calls setInfo), then setupStyle. */
    constructor (initial: WindowInfo, cfg: Settings.Config, widgetId: nat)
      ensures config == cfg && id == widgetId && info == initial
      ensures !isActive && !enableShiftClickClose
      ensures iconLabel == IconLabelFor(initial.icon, cfg.tileIconSize)
      ensures titleWidth == TitleWidth(cfg) && toolTip == initial.title
      ensures StyleMatches() && restyles == 1
    {
      config := cfg;
      id := widgetId;
      info := initial;
      isActive := false;
      enableShiftClickClose := false;
      iconLabel := Text("?");
      titleWidth := 0;
      toolTip := [];
      styleSheet := StyleFor(false);
      restyles := 0;
      new;
      SetInfo(initial);
      SetupStyle();
    }

    /** sizeHint(): the configured tile size, whatever the tile shows. */
    function SizeHint(): (s: Size)
      ensures s.width == config.tileWidth && s.height == config.tileHeight
    {
      Size(config.tileWidth, config.tileHeight)
    }

    /** setInfo(info): stores the record and refreshes the labels from it. */
    method SetInfo(newInfo: WindowInfo)
      modifies this`info, this`iconLabel, this`titleWidth, this`toolTip
      ensures info == newInfo
      ensures iconLabel == IconLabelFor(newInfo.icon, config.tileIconSize)
      ensures titleWidth == TitleWidth(config) && toolTip == newInfo.title
    {
      info := newInfo;
      if info.icon != NoIcon {
        iconLabel := Pixmap(info.icon, config.tileIconSize);
      } else {
        iconLabel := Text("?");
      }
      titleWidth := config.tileWidth - (config.tileContentMargin * 2) - config.tileInternalSpacing - config.tileIconSize;
      toolTip := info.title;
    }

    /** setupStyle(): rebuilds the style sheet from the active flag. */
    method SetupStyle()
      modifies this`styleSheet, this`restyles
      ensures StyleMatches() && restyles == old(restyles) + 1
    {
      styleSheet := StyleFor(isActive);
      restyles := restyles + 1;
    }

    /** setActive(active): only a change of the flag restyles the tile. */
    method SetActive(active: bool)
      modifies this`isActive, this`styleSheet, this`restyles
      ensures isActive == active
      ensures old(isActive) != active ==> StyleMatches() && restyles == old(restyles) + 1
      ensures old(isActive) == active ==> styleSheet == old(styleSheet) && restyles == old(restyles)
      ensures old(StyleMatches()) ==> StyleMatches()
    {
      if isActive != active {
        isActive := active;
        SetupStyle();
      }
    }

    /** setEnableShiftClickClose(enabled): writes only the switch. */
    method SetEnableShiftClickClose(enabled: bool)
      modifies this`enableShiftClickClose
      ensures enableShiftClickClose == enabled
    {
      enableShiftClickClose := enabled;
    }

    /** showContextMenu: the launch entry is disabled when the record has no executable path. */
    function ContextMenuNow(): (menu: ContextMenu)
      reads this
      ensures menu.launchEnabled <==> info.processPath != []
      ensures menu.launchSignal == LaunchRequested(info.processPath) && menu.closeSignal == Closed(info.hwnd)
    {
      ContextMenu(info.processPath != [], LaunchRequested(info.processPath), Closed(info.hwnd))
    }

    /**
     * mousePressEvent: a left click closes when shift-click close is on and
     * Shift is held, and activates otherwise; a right click opens the
     * context menu without a signal; other buttons do nothing.
     */
    method MousePressEvent(button: MouseButton, modifiers: bv32) returns (signals: seq<Signal>, menu: Option<ContextMenu>)
      ensures button == LeftButton ==> menu == None && |signals| == 1
      ensures button == LeftButton ==>
                (signals[0] == Closed(info.hwnd) <==> enableShiftClickClose && modifiers & ShiftModifier != 0)
      ensures button == LeftButton ==> signals[0] in {Closed(info.hwnd), Activated(info.hwnd)}
      ensures button == RightButton ==> signals == [] && menu == Some(ContextMenuNow())
      ensures button != LeftButton && button != RightButton ==> signals == [] && menu == None
    {
      signals := [];
      menu := None;
      if button == LeftButton {
        if enableShiftClickClose && (modifiers & ShiftModifier) != 0 {
          signals := [Closed(info.hwnd)];
        } else {
          signals := [Activated(info.hwnd)];
        }
      } else if button == RightButton {
        menu := Some(ContextMenuNow());
      }
    }
  }
}
