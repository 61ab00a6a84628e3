/**
 * The interface preferences store (stores/ui.ts): sidebar, modals, theme, layout and
 * preference flags, global loading and error state. Local storage and the document are not
 * modelled; `loadSettings` takes what storage held as parameters.
 */
module Ui {
  import opened Wrappers

  const MinSidebarWidth: real := 200.0
  const MaxSidebarWidth: real := 500.0
  const DefaultSidebarWidth: real := 320.0
  const CollapsedSidebarWidth: real := 60.0
  const DefaultLoadingMessage := "正在加载..."

  datatype Theme = Light | Dark | Auto

  /** `toggleTheme`: the next entry of `['light', 'dark', 'auto']`, wrapping around. */
  function NextTheme(t: Theme): (r: Theme)
    ensures r != t
  {
    match t
    case Light => Dark
    case Dark => Auto
    case Auto => Light
  }

  /** Three toggles come back to the starting theme, and the three visited themes are all different. */
  lemma ThemeCycle(t: Theme)
    ensures NextTheme(NextTheme(NextTheme(t))) == t
    ensures {t, NextTheme(t), NextTheme(NextTheme(t))} == {Light, Dark, Auto}
  {
  }

  /** The stored theme string `loadSettings` accepts: one of the three names, nothing else. */
  function ParseTheme(stored: Option<string>): (r: Option<Theme>)
    ensures r.Some? <==> stored.Some? && stored.value in {"light", "dark", "auto"}
    ensures r == Some(Light) <==> stored == Some("light")
    ensures r == Some(Dark) <==> stored == Some("dark")
    ensures r == Some(Auto) <==> stored == Some("auto")
  {
    if stored == Some("light") then Some(Light)
    else if stored == Some("dark") then Some(Dark)
    else if stored == Some("auto") then Some(Auto)
    else None
  }

  /** `Math.max(200, Math.min(500, width))`. */
  function ClampSidebarWidth(w: real): (r: real)
    ensures MinSidebarWidth <= r <= MaxSidebarWidth
    ensures MinSidebarWidth <= w <= MaxSidebarWidth ==> r == w
    ensures w < MinSidebarWidth ==> r == MinSidebarWidth
    ensures w > MaxSidebarWidth ==> r == MaxSidebarWidth
  {
    if w > MaxSidebarWidth then MaxSidebarWidth
    else if w < MinSidebarWidth then MinSidebarWidth
    else w
  }

  datatype ModalName = KeyboardHelp | Settings | About
  datatype LayoutKey = ShowHeader | ShowFooter | ShowBreadcrumbs
  datatype PreferenceKey = AutoSave | ShowTooltips | AnimationsEnabled | CompactMode

  const InitialModals: map<ModalName, bool> := map[KeyboardHelp := false, Settings := false, About := false]
  const InitialLayout: map<LayoutKey, bool> := map[ShowHeader := true, ShowFooter := true, ShowBreadcrumbs := true]
  const InitialPreferences: map<PreferenceKey, bool> :=
    map[AutoSave := true, ShowTooltips := true, AnimationsEnabled := true, CompactMode := false]

  /** The initial maps have a flag for every modal, layout option and preference. */
  lemma InitialFlagsComplete()
    ensures forall m: ModalName :: m in InitialModals
    ensures forall k: LayoutKey :: k in InitialLayout
    ensures forall k: PreferenceKey :: k in InitialPreferences
  {
    forall m: ModalName ensures m in InitialModals {
      match m
      case KeyboardHelp =>
      case Settings =>
      case About =>
    }
    forall k: LayoutKey ensures k in InitialLayout {
      match k
      case ShowHeader =>
      case ShowFooter =>
      case ShowBreadcrumbs =>
    }
    forall k: PreferenceKey ensures k in InitialPreferences {
      match k
      case AutoSave =>
      case ShowTooltips =>
      case AnimationsEnabled =>
      case CompactMode =>
    }
  }

  /** What `localStorage.getItem` plus `JSON.parse` gave: nothing stored, unparsable text, or a value. */
  datatype Stored<+T> = Absent | Corrupt | Saved(value: T)

  datatype SidebarState = SidebarState(collapsed: bool, width: real)

  class UiStore {
    var sidebarCollapsed: bool
    var sidebarWidth: real
    var modals: map<ModalName, bool>
    var theme: Theme
    var layout: map<LayoutKey, bool>
    var globalLoading: bool
    var loadingMessage: string
    var globalError: Option<string>
    var preferences: map<PreferenceKey, bool>

    /** Every modal, layout option and preference has a flag. */
    predicate Valid()
      reads this
    {
      && (forall m: ModalName :: m in modals)
      && (forall k: LayoutKey :: k in layout)
      && (forall k: PreferenceKey :: k in preferences)
    }

    /** The settings `resetSettings` restores. */
    predicate DefaultSettings()
      reads this
    {
      && !sidebarCollapsed && sidebarWidth == DefaultSidebarWidth && modals == InitialModals
      && theme == Auto && layout == InitialLayout && preferences == InitialPreferences
    }

    constructor()
      ensures Valid() && DefaultSettings()
      ensures !globalLoading && loadingMessage == "" && globalError == None
    {
      InitialFlagsComplete();
      sidebarCollapsed := false;
      sidebarWidth := DefaultSidebarWidth;
      modals := InitialModals;
      theme := Auto;
      layout := InitialLayout;
      globalLoading := false;
      loadingMessage := "";
      globalError := None;
      preferences := InitialPreferences;
    }

    /** `hasOpenModal`: some modal is open. */
    predicate HasOpenModal()
      reads this
    {
      exists m :: m in modals && modals[m]
    }

    /** `actualSidebarWidth`, also the offset `mainContentStyle` uses. */
    function ActualSidebarWidth(): (w: real)
      reads this
      ensures sidebarCollapsed ==> w == CollapsedSidebarWidth
      ensures !sidebarCollapsed ==> w == sidebarWidth
    {
      if sidebarCollapsed then CollapsedSidebarWidth else sidebarWidth
    }

    predicate IsLoading()
      reads this
    {
      globalLoading
    }

    /** `hasError`: `!!globalError`, so an empty message is no error. */
    predicate HasError()
      reads this
    {
      globalError.Some? && globalError.value != ""
    }

    method ToggleSidebar()
      modifies this`sidebarCollapsed
      ensures sidebarCollapsed == !old(sidebarCollapsed)
    {
      sidebarCollapsed := !sidebarCollapsed;
    }

    method SetSidebarCollapsed(collapsed: bool)
      modifies this`sidebarCollapsed
      ensures sidebarCollapsed == collapsed
    {
      sidebarCollapsed := collapsed;
    }

    method SetSidebarWidth(width: real)
      modifies this`sidebarWidth
      ensures sidebarWidth == ClampSidebarWidth(width)
      ensures MinSidebarWidth <= sidebarWidth <= MaxSidebarWidth
    {
      sidebarWidth := if width > MaxSidebarWidth then MaxSidebarWidth
        else if width < MinSidebarWidth then MinSidebarWidth else width;
    }

    method OpenModal(name: ModalName)
      requires Valid()
      modifies this`modals
      ensures Valid()
      ensures modals == old(modals)[name := true]
    {
      modals := modals[name := true];
    }

    method CloseModal(name: ModalName)
      requires Valid()
      modifies this`modals
      ensures Valid()
      ensures modals == old(modals)[name := false]
    {
      modals := modals[name := false];
    }

    method CloseAllModals()
      requires Valid()
      modifies this`modals
      ensures Valid()
      ensures modals.Keys == old(modals).Keys && forall m :: m in modals ==> !modals[m]
      ensures !HasOpenModal()
    {
      modals := map m | m in modals :: false;
    }

    method ToggleModal(name: ModalName)
      requires Valid()
      modifies this`modals
      ensures Valid()
      ensures modals == old(modals)[name := !old(modals)[name]]
    {
      modals := modals[name := !modals[name]];
    }

    /** `setTheme`; applying the theme to the document is not modelled. */
    method SetTheme(t: Theme)
      modifies this`theme
      ensures theme == t
    {
      theme := t;
    }

    method ToggleTheme()
      modifies this`theme
      ensures theme == NextTheme(old(theme))
    {
      var next := match theme
        case Light => Dark
        case Dark => Auto
        case Auto => Light;
      SetTheme(next);
    }

    method SetLayoutOption(key: LayoutKey, value: bool)
      requires Valid()
      modifies this`layout
      ensures Valid()
      ensures layout == old(layout)[key := value]
    {
      layout := layout[key := value];
    }

    method ToggleLayoutOption(key: LayoutKey)
      requires Valid()
      modifies this`layout
      ensures Valid()
      ensures layout == old(layout)[key := !old(layout)[key]]
    {
      layout := layout[key := !layout[key]];
    }

    method SetGlobalLoading(loading: bool, message: string)
      modifies this`globalLoading, this`loadingMessage
      ensures globalLoading == loading && loadingMessage == message
    {
      globalLoading := loading;
      loadingMessage := message;
    }

    /** `showLoading(message = '正在加载...')`: `None` stands for a call without a message. */
    method ShowLoading(message: Option<string>)
      modifies this`globalLoading, this`loadingMessage
      ensures globalLoading
      ensures loadingMessage == (if message.Some? then message.value else DefaultLoadingMessage)
    {
      SetGlobalLoading(true, if message.Some? then message.value else DefaultLoadingMessage);
    }

    method HideLoading()
      modifies this`globalLoading, this`loadingMessage
      ensures !globalLoading && loadingMessage == ""
    {
      SetGlobalLoading(false, "");
    }

    method SetGlobalError(error: Option<string>)
      modifies this`globalError
      ensures globalError == error
      ensures HasError() <==> error.Some? && error.value != ""
    {
      globalError := error;
    }

    method ClearGlobalError()
      modifies this`globalError
      ensures globalError == None && !HasError()
    {
      globalError := None;
    }

    method SetPreference(key: PreferenceKey, value: bool)
      requires Valid()
      modifies this`preferences
      ensures Valid()
      ensures preferences == old(preferences)[key := value]
    {
      preferences := preferences[key := value];
    }

    method TogglePreference(key: PreferenceKey)
      requires Valid()
      modifies this`preferences
      ensures Valid()
      ensures preferences == old(preferences)[key := !old(preferences)[key]]
    {
      preferences := preferences[key := !preferences[key]];
    }

    /**
     * `loadSettings` with what storage held: a readable sidebar state is taken as stored (its
     * width is not clamped), a theme only when it names one of the three themes, and stored
     * layout and preference flags override the current ones key by key.
     */
    method LoadSettings(sidebar: Stored<SidebarState>, storedTheme: Option<string>,
      storedLayout: Stored<map<LayoutKey, bool>>, storedPreferences: Stored<map<PreferenceKey, bool>>)
      requires Valid()
      modifies this`sidebarCollapsed, this`sidebarWidth, this`theme, this`layout, this`preferences
      ensures Valid()
      ensures sidebar.Saved? ==>
        sidebarCollapsed == sidebar.value.collapsed && sidebarWidth == sidebar.value.width
      ensures !sidebar.Saved? ==>
        sidebarCollapsed == old(sidebarCollapsed) && sidebarWidth == old(sidebarWidth)
      ensures theme == (if ParseTheme(storedTheme).Some? then ParseTheme(storedTheme).value else old(theme))
      ensures layout == (if storedLayout.Saved? then old(layout) + storedLayout.value else old(layout))
      ensures preferences
        == (if storedPreferences.Saved? then old(preferences) + storedPreferences.value else old(preferences))
    {
      if sidebar.Saved? {
        sidebarCollapsed := sidebar.value.collapsed;
        sidebarWidth := sidebar.value.width;
      }
      var t := ParseTheme(storedTheme);
      if t.Some? {
        theme := t.value;
      }
      if storedLayout.Saved? {
        layout := layout + storedLayout.value;
      }
      if storedPreferences.Saved? {
        preferences := preferences + storedPreferences.value;
      }
    }

    /** `resetSettings`: the settings go back to their defaults; loading and error state stay. */
    method ResetSettings()
      modifies this`sidebarCollapsed, this`sidebarWidth, this`modals, this`theme, this`layout, this`preferences
      ensures Valid() && DefaultSettings()
      ensures !HasOpenModal()
    {
      InitialFlagsComplete();
      sidebarCollapsed := false;
      sidebarWidth := DefaultSidebarWidth;
      modals := InitialModals;
      theme := Auto;
      layout := InitialLayout;
      preferences := InitialPreferences;
    }
  }

  /** Flipping a flag twice restores the whole map, and a flip changes no other key. */
  lemma FlipTwice<K>(flags: map<K, bool>, key: K, other: K)
    requires key in flags
    ensures flags[key := !flags[key]][key := !flags[key := !flags[key]][key]] == flags
    ensures other != key && other in flags ==> flags[key := !flags[key]][other] == flags[other]
  {
  }
}
