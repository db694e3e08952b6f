# WinSelector, modelled in Dafny

WinSelector is a Windows tray application. It shows the desktop's open
top-level windows as a column of tiles along the right edge of a screen.
A timer refreshes this panel:

- The scanner lists the relevant windows: visible, not a bare tool window, and with a title.
- The panel sorts them by process name and then by title.
- It reuses the tile of a window it already shows, creates tiles for new windows, and deletes the tiles of windows that are gone, dropping their cached icons.
- A right-to-left flow layout stacks the tiles in columns. The panel is then resized to exactly the width those columns need, with a minimum width.

Clicking a tile activates its window. Shift-click, when enabled, closes the window. A right click opens a small menu. A global hotkey and the tray icon show or hide the panel. All settings come from an INI file whose missing keys are filled in with defaults.

This project models that core:

- Flow layout. The class `Flow.FlowLayout` keeps its item list and its RTL flag. Its `doLayout` loop is proved against the pure fold `FlowGeometry.Walk`/`Placements`. `FlowColumns` gives an independent, column-by-column reading of the same layout, and `FlowMonotone` states how the layout's width reacts to more height.
- The refresh pipeline. `MainWindows.MainWindow` holds the tiles, the geometry and the visibility flag. The steps are fetch-and-sort, the three loops of `updateTiles`, `adjustWindowGeometry` and the target-screen choice, plus the activation, close, hotkey and tray slots.
- Win32 helpers. `Win32` covers them over an abstract desktop, with the memoising icon cache as the class `Win32.IconCache`.
- The window scanner. `WindowScanner` covers the relevance filter and the `EnumWindows` callback.
- Window records. `WindowRecords` covers `WindowInfo` equality, and `WindowOrder` covers the sort comparator and the sort.
- Tiles. `WindowTiles.WindowTile` covers the tile's state, its style, its labels and its mouse handling.
- Text. Titles, process names and paths are `Strings.Text`, sequences of UTF-16 code units as QString and the wide-character Win32 API hold them. The sort compares them code unit by code unit, and the title buffer of `getWindowTitle` counts code units.
- Settings. `Settings` covers key mapping, modifier masking, writing defaults for missing keys, and `load()`'s fallbacks and conversions.

The operating system and Qt enter only as data:

- A `Win32.Desktop` lists the windows in enumeration order. For each window it records what the window answers to every query the program makes (visibility, styles, text, icons, whether `QImage::fromHICON` converts the icon it reports, whether `SetForegroundWindow` or `PostMessage` succeed), plus the process queries and the foreground window.
- A screen is its geometry and available geometry.
- A layout item is an identity and its size hints.

What the code does with these is modelled branch by branch. Where the written description of the program and the code disagree, the model follows the code:

- Windows with an empty title are dropped. This happens twice: `isWindowRelevant` tests `GetWindowTextLength`, and the callback tests the fetched title.
- No `SendMessageTimeout` is used. Icons are asked for with plain `SendMessage`.
- A window without a title is not given its process name as a title. It is skipped.
- The scanner never resolves an executable path. `WindowInfo` in `src/windowscanner.h` has no `processPath` at all, though the tile's context menu reads one. The model's record carries the field, and every scan leaves it empty, so the launch entry of the menu is always disabled (`MainWindows.ScannedTilesCannotLaunch`).
- The sort is `std::sort`, which is not stable. The model sorts by insertion, and `WindowOrder.SortedKeysUnique` and `WindowOrder.ThreeWindowsScenario` show which parts of the order do not depend on the tie-break.

Some properties of the layout hold only in a qualified form:

- In left-to-right mode, `doLayout`'s returned width counts the left margin twice. The model keeps that (`FlowColumns.LtrWidthCountsLeftMarginTwice`). The application only uses right-to-left mode (`src/mainwindow.cpp:52`).
- "More height never needs more width" holds only for items of one size and a positive effective height (`FlowMonotone.WidthForHeightNonIncreasing`). For mixed sizes it fails: heights 20 and 26 give widths 110 and 200 (`FlowMonotone.MixedSizesCanNeedMoreWidth`). With `QRect`'s inclusive bottom edge, a height of 25 still wraps the second item, so 26 is the first height at which the widths differ. Because every tile reports the same size hint, the panel itself still never widens when the height grows (`MainWindows.PanelWidthNonIncreasing`).

## Model

| member | source | states |
|---|---|---|
| Geometry.RectXYWH | src/flowlayout.cpp:142-147 | QRect(x, y, w, h) has left x, top y, width w and height h, with inclusive right and bottom edges x+w-1 and y+h-1 |
| FlowGeometry.EffectiveRect | src/flowlayout.cpp:153-155 | the rectangle shrunk by each contents margin on its own side |
| FlowGeometry.TopOfColumnNeverWraps | src/flowlayout.cpp:129-135 | an item at or above the top edge never wraps, so every column holds at least one item |
| FlowGeometry.ItemGeometry | src/flowlayout.cpp:137-149 | the item gets its own size at offset y; in RTL mode x is its exclusive right edge, otherwise its left edge |
| FlowGeometry.Placements | src/flowlayout.cpp:161-184 | one rectangle per item |
| FlowGeometry.WalkAppend | src/flowlayout.cpp:161-184 | running the loop over a concatenation runs it over the first part and continues with the second |
| FlowGeometry.PlacementsAppend | src/flowlayout.cpp:161-184 | the rectangles for a concatenation are those for the first part followed by those for the second, from where the first stopped |
| FlowGeometry.PrefixStep | src/flowlayout.cpp:161-184 | one more item adds one loop step and one rectangle at the end, leaving the earlier rectangles alone |
| Flow.ItemSize | src/flowlayout.cpp:118-127 | a measuring pass takes a widget's own size hint, and a placing pass or a widget-less item takes the item's hint |
| Flow.ExpandedTo | src/flowlayout.cpp:110 | QSize::expandedTo: each dimension is the larger of the two |
| Flow.MinimumExtentBounds | src/flowlayout.cpp:105-111 | starting from QSize()'s (-1, -1), the expanded size bounds every item's minimum size and is attained by some item in each dimension |
| Flow.PlaceItem | src/flowlayout.cpp:163-183 | one loop iteration: the new cursor is one Step of the old, and the rectangle is placed at the cursor after the wrap test |
| Flow.FlowLayout.constructor | src/flowlayout.cpp:5-9 | all four contents margins are `margin`, or the style's margins when `margin` is negative; the spacings are as given, the list is empty and RTL is off |
| Flow.FlowLayout.HorizontalSpacing | src/flowlayout.cpp:40-47 | the configured horizontal spacing unless it is negative, else the style's |
| Flow.FlowLayout.VerticalSpacing | src/flowlayout.cpp:49-56 | the configured vertical spacing unless it is negative, else the style's |
| Flow.FlowLayout.Count | src/flowlayout.cpp:58-61 | the number of items |
| Flow.FlowLayout.ItemAt | src/flowlayout.cpp:63-66 | the item at a valid index, and null for any other index |
| Flow.FlowLayout.AddItem | src/flowlayout.cpp:26-30 | the item is appended and nothing else changes |
| Flow.FlowLayout.TakeAt | src/flowlayout.cpp:68-77 | a valid index removes and returns exactly that item, keeping the others in order; an invalid one returns null and changes nothing |
| Flow.FlowLayout.SetRTL | src/flowlayout.h:118 | only the RTL flag changes |
| Flow.FlowLayout.DoLayout | src/flowlayout.cpp:151-192 | returns the width LayoutWidth computes from the fold over the item sizes; a placing pass calls setItemGeometry once per item, in order, with that item's Placements rectangle, and a measuring pass places nothing |
| Flow.FlowLayout.TotalWidthForHeight | src/flowlayout.cpp:32-38 | the width a measuring pass reports over QRect(0, 0, 10000, height) |
| Flow.FlowLayout.SetGeometry | src/flowlayout.cpp:94-98 | stores the rectangle, keeps the items, and places every item at its Placements rectangle in it |
| Flow.FlowLayout.MinimumSize | src/flowlayout.cpp:105-116 | the items' minimum sizes expanded together, plus left+right and top+bottom margins |
| Flow.FlowLayout.SizeHint | src/flowlayout.cpp:100-103 | the same size as minimumSize |
| FlowColumns.ColumnLength | src/flowlayout.cpp:161-184 | a column takes no more items than remain, and at least one when it starts at the top edge |
| FlowColumns.ColumnsPartition | src/flowlayout.cpp:161-184 | the columns, concatenated, are exactly the items in order, and no column is empty |
| FlowColumns.ColumnRun | src/flowlayout.cpp:163-183 | from inside a column the loop takes ColumnLength items, the column width becomes the largest of their widths, and the next column starts at the top, moved by that width plus the spacing |
| FlowColumns.WalkByColumns | src/flowlayout.cpp:161-184 | over whole columns the cursor moves by the sum of the column widths plus one spacing per gap, and the last column's width is kept |
| FlowColumns.RtlWidthIsColumnsPlusGaps | src/flowlayout.cpp:186-190 | in RTL mode the result is both margins plus the column widths plus one horizontal spacing between neighbouring columns, or just the margins with no items |
| FlowColumns.LtrWidthCountsLeftMarginTwice | src/flowlayout.cpp:191 | in LTR mode the result counts the left margin twice: twice the left margin plus the right one plus columns and gaps |
| FlowColumns.UnboundedColumnTakesAll | src/flowlayout.cpp:132 | with an effective height of zero or less the wrap test never fires |
| FlowColumns.SingleColumnWithoutHeight | src/flowlayout.cpp:132 | with an effective height of zero or less every item lands in one column |
| FlowColumns.OversizedEndsColumn | src/flowlayout.cpp:129-135 | below the top edge, an item taller than the effective height ends the column before it |
| FlowColumns.FirstColumnWithOversized | src/flowlayout.cpp:129-135 | an oversized item in a column started at the top is that column's only item |
| FlowColumns.OversizedItemAlone | src/flowlayout.cpp:129-135 | every item taller than the effective height sits alone, at the top of its own column |
| FlowMonotone.ColumnLengthPrefix | src/flowlayout.cpp:161-184 | a column over a prefix of the items ends where the whole column does, or at the prefix's end |
| FlowMonotone.ColumnLengthGrowsWithHeight | src/flowlayout.cpp:129-135 | a taller rectangle never makes a column take fewer items |
| FlowMonotone.FewerColumnsWhenTaller | src/flowlayout.cpp:161-184 | for equal-sized items, more height and no more items never give more columns |
| FlowMonotone.MaxWidthFromUniform | src/flowlayout.cpp:182 | folding qMax over items of one width gives the larger of the start and that width |
| FlowMonotone.UniformColumnsWidth | src/flowlayout.cpp:182 | for equal-sized items every column is one item wide (0 for a negative width) |
| FlowMonotone.UniformWidthByColumnCount | src/flowlayout.cpp:186-191 | for equal-sized items the returned width is the margins plus n columns and n-1 spacings |
| FlowMonotone.WidthForHeightNonIncreasing | src/flowlayout.cpp:32-38 | for equal-sized items, a positive effective height and a non-negative column pitch, more height never needs more width |
| FlowMonotone.MixedSizesCanNeedMoreWidth | src/flowlayout.cpp:32-38 | items of different sizes: the width at height 26 (200) exceeds the width at height 20 (110) |
| FlowMonotone.WalkThree | src/flowlayout.cpp:161-184 | over three items the loop is three steps |
| FlowMonotone.TwoPerColumn | src/flowlayout.cpp:129-135 | two 100x30 tiles fill a column of height 65 with spacing 2 |
| FlowMonotone.FiveInThreeColumns | src/flowlayout.cpp:161-184 | five such tiles form three columns |
| FlowMonotone.FiveTilesThreeColumns | src/flowlayout.cpp:32-38 | the probe rectangle of height 65 holds five such tiles in three columns |
| FlowMonotone.ThreeUniformColumns | src/flowlayout.cpp:186-190 | three RTL columns of identical items need both margins, three item widths and two spacings |
| FlowMonotone.FiveTilesNeedThreeColumns | src/flowlayout.cpp:32-38 | five 100x30 tiles at height 65 with spacing 2 need 304 pixels |
| Strings.LessIrreflexive | src/mainwindow.cpp:81-83 | no text sorts before itself |
| Strings.LessTransitive | src/mainwindow.cpp:81-83 | QString ordering is transitive |
| Strings.LessTrichotomy | src/mainwindow.cpp:81-83 | two texts are equal or ordered one way, and never both ways |
| Strings.PrefixIsLess | src/mainwindow.cpp:81-83 | a proper prefix sorts before the longer text |
| Strings.SurrogatePairSortsBeforeHighBmp | src/mainwindow.cpp:81-83 | QString compares UTF-16 code units, so U+1F600 (the pair D83D DE00) sorts before U+FF01 although its scalar value is larger |
| WindowRecords.EqualIgnoresPresentation | src/windowscanner.h:20-24 | changing the icon, the process name or the path never changes equality |
| WindowRecords.RetitledIsNotEqual | src/windowscanner.h:20-24 | the same window under another title is not equal |
| WindowRecords.EqualIsEquivalence | src/windowscanner.h:20-24 | equality is reflexive, symmetric and transitive |
| WindowOrder.BeforeTrichotomy | src/mainwindow.cpp:77-84 | two records have the same (process name, title) key or the comparator orders them one way, never both, and never when the keys are equal |
| WindowOrder.BeforeTransitive | src/mainwindow.cpp:77-84 | the comparator is transitive |
| WindowOrder.NotBeforeTransitive | src/mainwindow.cpp:77-84 | "not before" is transitive, as std::sort requires of a strict weak order |
| WindowOrder.InsertPermutes | src/mainwindow.cpp:76-84 | inserting adds exactly the one record |
| WindowOrder.HeadIsLeast | src/mainwindow.cpp:76-84 | no record of a sorted sequence comes before its head |
| WindowOrder.InsertSorted | src/mainwindow.cpp:76-84 | inserting into a sorted sequence keeps it sorted |
| WindowOrder.InsertBehindHead | src/mainwindow.cpp:76-84 | the head stays first when the new record goes behind it |
| WindowOrder.InsertAtFront | src/mainwindow.cpp:76-84 | a record not after the head can go in front |
| WindowOrder.SortWindowsCorrect | src/mainwindow.cpp:71-87 | fetchAndSortWindows returns a permutation of the scan that is ordered by process name, then title |
| WindowOrder.RunSharesKey | src/mainwindow.cpp:76-84 | in a sorted sequence, the records between two with the same key share it |
| WindowOrder.RemoveKeepsSorted | src/mainwindow.cpp:76-84 | dropping one record keeps a sequence sorted |
| WindowOrder.KeysAfterRemoval | src/mainwindow.cpp:76-84 | dropping a record from a leading run of one key shifts the keys by one place |
| WindowOrder.KeysCons | src/mainwindow.cpp:76-84 | the keys of a non-empty sequence are the head's key followed by the tail's |
| WindowOrder.SortedKeysUnique | src/mainwindow.cpp:76-84 | any two sorted arrangements of the same records list the same keys in the same order, however std::sort breaks ties |
| WindowOrder.HeadsShareKey | src/mainwindow.cpp:76-84 | the heads of two sorted arrangements of the same records share a key |
| WindowOrder.SortedTail | src/mainwindow.cpp:76-84 | the tail of a sorted sequence is sorted |
| WindowOrder.RemovedMultiset | src/mainwindow.cpp:76-84 | removing matching records from two permutations of each other leaves permutations |
| WindowOrder.ExpectedOrderSorted | src/mainwindow.cpp:76-84 | a/y, a/z, b/x is sorted |
| WindowOrder.ThreeWindowsScenario | src/mainwindow.cpp:71-87 | windows b/x, a/z, a/y come out as a/y, a/z, b/x in every sorted arrangement |
| WindowOrder.SameKeysSameRecords | src/mainwindow.cpp:76-84 | with pairwise different keys, equal key sequences fix the arrangement |
| Win32.LogWin32Error | src/win32utils.cpp:18-24 | exactly one log line, naming the function and its code, when the code is nonzero; nothing otherwise |
| Win32.GetProcessName | src/win32utils.cpp:31-74 | the module's base name when opening, listing and naming all succeed, "Unknown" otherwise; the handle is closed exactly when it was opened; which failure is logged and that access denied is not |
| Win32.ProtectedProcessIsUnknown | src/win32utils.cpp:35-45 | a process opened with access denied yields "Unknown", no close and no log |
| Win32.GetWindowTitle | src/win32utils.cpp:134-170 | success exactly for a valid window with text and a buffer of two or more units; then at most maxLength-1 units of the text; otherwise an empty title, with an invalid handle logged |
| Win32.ActivateWindow | src/win32utils.cpp:172-197 | succeeds exactly for a valid window whose SetForegroundWindow succeeds; a minimised window is restored first; an invalid handle makes no call and is logged |
| Win32.CloseWindow | src/win32utils.cpp:199-215 | posts WM_CLOSE exactly to a valid window and succeeds when the post does; an invalid handle is logged |
| Win32.FirstNonNull | src/win32utils.cpp:90-119 | the index of the first non-null icon answer, every earlier answer null |
| Win32.InvalidHandleLeavesCache | src/win32utils.cpp:78-82 | an invalid handle gets the null icon, makes no query and leaves the cache alone |
| Win32.MissQueriesInOrder | src/win32utils.cpp:84-131 | a cache miss asks big, small, class and small class icon in that order, stops at the first answer and caches what it returns: a non-null icon exactly when some query answered and `QImage::fromHICON` converts that handle, and then the icon of that handle |
| Win32.RepeatLookupIsCached | src/win32utils.cpp:84-89 | a second lookup with no clear in between returns the first icon, makes no query and changes nothing |
| Win32.IconCache.constructor | src/win32utils.cpp:10 | the cache starts empty |
| Win32.IconCache.GetWindowIcon | src/win32utils.cpp:76-132 | the icon, the new cache and the queries are those of IconLookup, so a handle that fails to convert yields and caches the null icon; an invalid handle is logged, a hit logs nothing, and a miss logs the error of each class-icon query it reaches that answers null |
| Win32.IconCache.ClearIconCache | src/win32utils.cpp:217-229 | the null handle empties the cache; any other handle removes just its own entry |
| WindowScanner.ToolWindowRule | src/windowscanner.cpp:14-21 | a visible, titled tool window is relevant exactly when it also has the app-window flag |
| WindowScanner.InvisibleOrUntitledIsIrrelevant | src/windowscanner.cpp:5-29 | an invisible window, or one with title length 0, is dropped whatever else it reports |
| WindowScanner.AcceptedTitle | src/windowscanner.cpp:38-48 | an accepted window is valid and its title is a non-empty prefix of its text, shorter than the buffer |
| WindowScanner.AcceptedHandlesSnoc | src/windowscanner.cpp:31-63 | one more enumerated handle adds itself exactly when it is accepted |
| WindowScanner.ScanKeepsAcceptedInOrder | src/windowscanner.cpp:65-70 | the scan's records are exactly the accepted handles, in enumeration order |
| WindowScanner.AcceptedHandlesFrom | src/windowscanner.cpp:31-63 | every handle kept was enumerated and passed the filter |
| WindowScanner.DistinctHandlesStayDistinct | src/windowscanner.cpp:65-70 | an enumeration that lists each handle once yields each record's handle once |
| WindowScanner.ScanRecordsFaithful | src/windowscanner.cpp:50-60 | every record carries its window's handle, fetched title, process id and process name, the cached icon, or on a miss the first non-null query answer converted to an icon (null if there is none or the conversion fails), and no path; the cache only gains entries |
| WindowScanner.EnumWindowsProc | src/windowscanner.cpp:31-63 | the callback always continues the enumeration and appends a record exactly for an accepted window |
| WindowScanner.GetWindows | src/windowscanner.cpp:65-70 | the records and the cache are those of the scan over the enumeration order |
| Settings.LettersAndDigitsKeepTheirCode | src/settings.cpp:100-107 | letters A to Z and digits 0 to 9 keep their code |
| Settings.FunctionKeysInOrder | src/settings.cpp:108-131 | F1 to F12 map to VK_F1 to VK_F12 in order |
| Settings.HomeIsTheDefault | src/settings.cpp:98-137 | the result is VK_HOME exactly for Home and for every key the switch does not list |
| Settings.ResultIsVirtualKey | src/settings.cpp:98-137 | every result is a virtual-key code between 1 and 254 |
| Settings.OnlyReturnAndEnterCollide | src/settings.cpp:98-137 | Return and Enter are the only two listed keys that share a virtual-key code |
| Settings.ModifiersNeverMatter | src/settings.cpp:73-96 | modifier bits on the first combination, and any later combination, never change the hotkey's code |
| Settings.PlainKeyShortcut | src/settings.cpp:73-96 | a shortcut of one plain key gives that key's mapping |
| Settings.DigitsRoundTrip | src/settings.cpp:45-63 | the digits of n read back as n |
| Settings.IntTextRoundTrip | src/settings.cpp:45-63 | a 32-bit int written to the file reads back as itself |
| Settings.BoolTextRoundTrip | src/settings.cpp:32 | a boolean written as text reads back as itself |
| Settings.WithDefaultsKeepsExisting | src/settings.cpp:16-36 | after the defaults are written every key is present, every value the file had is kept, and reading with the default as fallback is unchanged |
| Settings.WriteOneMore | src/settings.cpp:16-36 | one `if (!contains) setValue` line extends the keys already defaulted by one |
| Settings.AllDone | src/settings.cpp:16-36 | once every key is done, the store has every default written |
| Settings.WithDefaultsIdempotent | src/settings.cpp:16-36 | writing the defaults twice is writing them once |
| Settings.LoadFallbacksAreTheDefaults | src/settings.cpp:42-71 | load()'s fallbacks equal the written defaults, so filling in the defaults first changes nothing load() reads |
| Settings.SameMainWindowAndLayoutReads | src/settings.cpp:45-56 | stores that read alike under the defaults agree on the main-window, layout and scanner reads |
| Settings.SameTileAndDisplayReads | src/settings.cpp:59-70 | such stores agree on the tile, display and shortcut reads |
| Settings.SameReadsLoadSame | src/settings.cpp:42-71 | two stores that read alike under the defaults load the same values |
| Settings.EmptyStoreLoadsDefaults | src/settings.cpp:11-71 | an empty settings file loads the default configuration |
| Settings.SettingsStore.constructor | src/settings.cpp:11-40 | the store gains every missing default and the fields are what load() reads |
| Settings.SettingsStore.WriteDefaults | src/settings.cpp:16-36 | the sixteen lines together write exactly the missing defaults |
| Settings.SettingsStore.WriteMainWindowDefaults | src/settings.cpp:16-19 | the main-window group's four keys are defaulted |
| Settings.SettingsStore.WriteLayoutAndScannerDefaults | src/settings.cpp:21-25 | the layout and scanner keys are defaulted |
| Settings.SettingsStore.WriteTileSizeDefaults | src/settings.cpp:27-29 | the tile width, height and icon size are defaulted |
| Settings.SettingsStore.WriteTileContentDefaults | src/settings.cpp:30-32 | the tile margin, spacing and shift-click flag are defaulted |
| Settings.SettingsStore.WriteDisplayAndShortcutDefaults | src/settings.cpp:34-36 | the display index and toggle shortcut are defaulted |
| Settings.SettingsStore.WriteDefaultIfMissing | src/settings.cpp:16 | a missing key gets its default; a present one is kept |
| Settings.SettingsStore.Load | src/settings.cpp:42-71 | every field is re-read from the store with its fallback and conversion |
| WindowTiles.ActiveStyleDiffers | src/windowtile.cpp:64-83 | the active and inactive style sheets differ |
| WindowTiles.Trigger | src/windowtile.cpp:99-120 | the close entry always emits closed(hwnd); the launch entry emits launchRequested(path) exactly when it is enabled |
| WindowTiles.TitleWidth | src/windowtile.cpp:37-39 | the title's width plus the icon, the spacing and both margins is the tile width |
| WindowTiles.DefaultTitleWidth | src/windowtile.cpp:37-39 | with the default settings the title gets 225 pixels |
| WindowTiles.IconLabelFor | src/windowtile.cpp:28-35 | a null icon shows "?"; any other shows its pixmap at the icon size |
| WindowTiles.WindowTile.constructor | src/windowtile.cpp:7-16 | the tile holds the record, is inactive, has shift-click close off, shows the record's icon and title, and is styled once |
| WindowTiles.WindowTile.SizeHint | src/windowtile.cpp:18-22 | the configured tile size, whatever the tile shows |
| WindowTiles.WindowTile.SetInfo | src/windowtile.cpp:24-44 | the tile holds the new record, and its icon label, title width and tooltip follow from it |
| WindowTiles.WindowTile.SetupStyle | src/windowtile.cpp:64-83 | the style sheet matches the active flag |
| WindowTiles.WindowTile.SetActive | src/windowtile.cpp:85-92 | the flag is set; only a change restyles the tile |
| WindowTiles.WindowTile.SetEnableShiftClickClose | src/windowtile.cpp:94-97 | only the switch changes |
| WindowTiles.WindowTile.ContextMenuNow | src/windowtile.cpp:99-120 | the launch entry is enabled exactly when the record has a path; the entries' signals carry the path and the handle |
| WindowTiles.WindowTile.MousePressEvent | src/windowtile.cpp:122-140 | a left click emits closed exactly when shift-click close is on and Shift is held, and activated otherwise; a right click opens the menu; other buttons do nothing |
| MainWindows.TargetScreen | src/mainwindow.cpp:233-246 | the screen at the configured index when it is in range, else the primary screen |
| MainWindows.PanelGeometry | src/mainwindow.cpp:150-159 | the required width raised to the minimum, flush with the available area's right edge, at its full height |
| MainWindows.PanelInsideAvailableArea | src/mainwindow.cpp:144-163 | a panel no wider than the available area lies inside it |
| MainWindows.InitialGeometryAsWritten | src/mainwindow.cpp:55-61 | setupUi's rectangle as written: left edge at screen width minus the initial width, ignoring the screen's x |
| MainWindows.InitialGeometryMissesSecondScreen | src/mainwindow.cpp:55-61 | on a screen at x = 1920, the as-written rectangle starts at 1620, entirely left of the screen |
| MainWindows.InitialGeometry | src/mainwindow.cpp:55-61 | the intended rectangle: against the target screen's right edge, at its full height |
| MainWindows.InitialGeometryOnScreen | src/mainwindow.cpp:55-61 | the intended rectangle lies on its screen, and equals the as-written one on a screen at x = 0 |
| MainWindows.TileItemsTail | src/mainwindow.cpp:94 | taking the first item off the layout leaves the items of the remaining tiles |
| MainWindows.TileItemsSnoc | src/mainwindow.cpp:132 | addWidget appends the new tile's item |
| MainWindows.PanelWidthNonIncreasing | src/mainwindow.cpp:146-148 | for any number of tiles, a taller available area never needs a wider panel |
| MainWindows.TilesByHandleSnoc | src/mainwindow.cpp:94-99 | one more drained tile is inserted under its own handle |
| MainWindows.TilesByHandleHasEveryTile | src/mainwindow.cpp:94-99 | every drained tile's handle is a key |
| MainWindows.TilesByHandleLastWins | src/mainwindow.cpp:98 | each key maps to the last tile in layout order that showed that handle |
| MainWindows.TilesByHandleKeyed | src/mainwindow.cpp:98 | every value shows its own key and comes from the layout |
| MainWindows.HandlesUpToNext | src/mainwindow.cpp:111-117 | one more record adds its handle to those the loop has taken |
| MainWindows.ClearedCacheStep | src/mainwindow.cpp:136-141 | one more clearIconCache call extends the set of cleared handles |
| MainWindows.AscendingSnoc | src/mainwindow.cpp:136 | appending the least remaining handle keeps the QMap iteration order ascending |
| MainWindows.MinimumExists | src/mainwindow.cpp:136 | a non-empty set of handles has a least one, which QMap visits first |
| MainWindows.MainWindow.constructor | src/mainwindow.cpp:16-62 | setupUi then the first refresh: the tiles show the sorted scan and the panel has its adjusted geometry |
| MainWindows.MainWindow.FetchAndSortWindows | src/mainwindow.cpp:71-87 | the scan's records, sorted and a permutation of the scan; the icon cache is the scan's |
| MainWindows.MainWindow.DrainLayout | src/mainwindow.cpp:92-106 | the layout ends empty and the map holds the removed tiles by handle, the last tile for a handle winning |
| MainWindows.MainWindow.PlaceTiles | src/mainwindow.cpp:111-133 | one tile per record, each showing its record, active exactly for the foreground window; a tile is reused exactly when its handle was in the map and no earlier record took it, and is new otherwise; no tile appears twice; the map loses exactly the handles the records named |
| MainWindows.MainWindow.PlaceNext | src/mainwindow.cpp:111-133 | one round of that loop: the record's tile goes last and its handle leaves the map |
| MainWindows.MainWindow.ChooseTile | src/mainwindow.cpp:113-131 | the map's tile for the handle, refreshed, or a new tile, placed for the record |
| MainWindows.MainWindow.AppendTile | src/mainwindow.cpp:132 | the tile goes last in the tile list and in the layout |
| MainWindows.MainWindow.RefreshTile | src/mainwindow.cpp:117-131 | a reused tile shows the new record, the configured shift-click setting and the right active state |
| MainWindows.MainWindow.NewTile | src/mainwindow.cpp:124-131 | a new tile for the record, in the placed state |
| MainWindows.MainWindow.DeleteUnused | src/mainwindow.cpp:136-141 | every leftover tile's handle is cleared from the icon cache exactly once, in ascending handle order |
| MainWindows.MainWindow.DeleteLeast | src/mainwindow.cpp:136-141 | one round of that loop: the least remaining handle is cleared |
| MainWindows.MainWindow.RebuildLayout | src/mainwindow.cpp:92-133 | the first two loops together: placed tiles, reuse exactly as for PlaceTiles, and the leftovers returned |
| MainWindows.MainWindow.UpdateTiles | src/mainwindow.cpp:89-142 | the layout shows the records in order with the foreground marked; tiles are reused exactly for handles already shown; the cache is cleared for exactly the handles no longer shown, in ascending order |
| MainWindows.MainWindow.AdjustWindowGeometry | src/mainwindow.cpp:144-163 | the panel gets PanelGeometry for the target screen's available area and the tiles' required width; the layout is placed in the new client rectangle, one setGeometry per tile, tile k getting the k-th rectangle of the placing pass over the configured tile size |
| MainWindows.MainWindow.Refresh | src/mainwindow.cpp:64-69 | the tiles show the sorted scan, which is sorted and a permutation of the scan; the panel has its adjusted geometry and tile k is placed at the k-th rectangle of the placing pass |
| MainWindows.MainWindow.ActivateWindow | src/mainwindow.cpp:165-168 | forwards to Win32Utils::activateWindow, which succeeds exactly for a valid window that takes the foreground |
| MainWindows.MainWindow.CloseWindow | src/mainwindow.cpp:170-178 | posts WM_CLOSE, clears the window's cached icon whatever the outcome, and asks for a refresh after the configured delay |
| MainWindows.MainWindow.ToggleVisibility | src/mainwindow.cpp:219-231 | a shown panel is hidden; a hidden one is shown and activated |
| MainWindows.MainWindow.NativeEvent | src/mainwindow.cpp:205-217 | WM_HOTKEY with id 1 toggles the panel and is reported handled; every other message is passed on, unhandled |
| MainWindows.MainWindow.OnTrayIconActivated | src/mainwindow.cpp:195-203 | a single click shows and activates the panel; other reasons change nothing |
| MainWindows.ScannedTilesCannotLaunch | src/windowtile.cpp:105-108 | every record of a sorted scan has an empty path, so the launch entry is always disabled |

## Left out

- Qt rendering is left out: painting, style sheets as text, mouse cursors, fonts, and the text of elided titles. A tile's style is the pair of colours that setupStyle picks, and the elided title is represented by the width it is elided to.
- Timers are not modelled. The refresh timer and the `QTimer::singleShot` after a close are reduced to the refresh method and a returned delay.
- The system tray icon and its menu are not modelled.
- Hotkey registration and unregistration are left out. `nativeEvent` is modelled from the decoded message number and `wParam` onwards.
- QSettings file I/O is left out. The store is a map from key to value.
- `QKeySequence` parsing is left out. The parsed sequence is a parameter of `Settings.ToggleKeyVk`.
- `WinSelectorConfig::WindowScanner::MAX_TITLE_LENGTH` is used at src/win32utils.cpp:148 but defined neither in src/config.h nor in any other source file of this model. The model takes it as a parameter of at least 1. The configurable `windowScannerMaxTitleLength` is loaded but, like the source, used nowhere else.
- The bodies of `Win32Utils::getForegroundWindow`, `registerHotKey` and `unregisterHotKey` are thin Win32 wrappers. The foreground window is a field of the desktop.
- `getProcessPath` and `launchProcess` are not modelled: no code for them is part of this model. Records carry an empty path.
- `FlowLayout::smartSpacing` asks the parent widget's style. The two spacings it would report are constructor parameters.
- `expandingDirections`, `hasHeightForWidth` and `heightForWidth` return constants and have no behaviour to model.
- The destructors are not modelled. Deleting a tile is not modelled beyond clearing its cached icon; a deleted tile simply leaves the layout.
- MainWindows.MainWindow.AdjustWindowGeometry: two Qt facts are assumed rather than modelled. First, `m_containerWidget->rect()` is taken to be (0, 0, w, h) for the panel's new width and height; Qt resizes the central widget only when it delivers the resize event, which for a hidden panel waits until it is shown. Second, every tile's item reports the tile's full size. In Qt a tile created during this refresh is still hidden when the placing pass runs (`addWidget` queues its show), and `QWidgetItem` reports (0, 0) for a hidden widget, which is why src/flowlayout.cpp:118-127 measures with the widget's own hint. So the placements the model states are those of the relayout Qt runs once the new tiles are shown; `setVisible(true)` on a reused tile (src/mainwindow.cpp:119) is what makes a reused tile count at its full size, and it is not modelled separately.
- Non-tile widgets in the layout (the branch that deletes them in `updateTiles`) are not modelled. The panel's layout holds only tiles.
- Widget identity: each tile has a `nat` id that stands for its object address, so that layout items can name their widget.
- Integer widths: `int`, `DWORD`, `HWND` and `LONG_PTR` are unbounded integers. Only the 32-bit range of `QString::toInt` is modelled. The extended style is a 64-bit vector and key combinations are 32-bit vectors, where the source masks bits.
- WindowScanner.EnumWindowsProc: the log lines of the `getWindowTitle`, `getProcessName` and `getWindowIcon` calls it makes are discarded, not collected into one scan log. What each of those calls logs is stated by `Win32.GetWindowTitle`, `Win32.GetProcessName` and `Win32.IconCache.GetWindowIcon`.
- Flow.FlowLayout.DoLayout: the model adds each item's size without 32-bit wrap-around. The source's `int` arithmetic would overflow only for sizes far beyond any screen.
- WindowOrder.SortWindows is an insertion sort, not the unstable `std::sort`. Only properties shared by every sorted permutation are claimed for the source (`WindowOrder.SortedKeysUnique`, `WindowOrder.ThreeWindowsScenario`).

## Findings

| source | as written | input that shows it | evidently intended | confidence | as-written member | corrected member |
|---|---|---|---|---|---|---|
| src/mainwindow.cpp:58 | the initial x is `screenGeom.width() - initialWidth`, without `screenGeom.x()` | a target screen at x = 1920, 1920 wide, with initial width 300: the window starts at x = 1620, on the other monitor | `screenGeom.x() + screenGeom.width() - initialWidth`, against the target screen's right edge, as adjustWindowGeometry computes it | not executed; no visible effect, because the constructor's first refresh replaces the rectangle before `main` shows the window (src/main.cpp:29) | MainWindows.InitialGeometryAsWritten, MainWindows.InitialGeometryMissesSecondScreen | MainWindows.InitialGeometry, MainWindows.InitialGeometryOnScreen |
