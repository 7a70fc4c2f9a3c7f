/** The navigation store: the active tab, the open modal and the two sheet
    flags, the sheet heights and the gesture flag. Only the tab survives a
    reload. */
module Navigation {
  import opened Common

  datatype Tab = Home | ProgressTab | SettingsTab

  datatype Modal = ProgressSheet | SettingsSheet

  class NavigationStore {
    var activeTab: Tab
    var activeModal: Option<Modal>
    var isProgressSheetOpen: bool
    var isSettingsSheetOpen: bool
    var progressSheetHeight: real
    var settingsSheetHeight: real
    var isGestureActive: bool

    /** At most one sheet is open, and a named modal has its own sheet open
        and the other one closed. */
    predicate Valid()
      reads this
    {
      !(isProgressSheetOpen && isSettingsSheetOpen)
      && (activeModal == Some(ProgressSheet) ==> isProgressSheetOpen && !isSettingsSheetOpen)
      && (activeModal == Some(SettingsSheet) ==> isSettingsSheetOpen && !isProgressSheetOpen)
    }

    /** The initial state. */
    constructor()
      ensures activeTab == Home && activeModal == None
      ensures !isProgressSheetOpen && !isSettingsSheetOpen
      ensures progressSheetHeight == 0.0 && settingsSheetHeight == 0.0 && !isGestureActive
      ensures Valid()
    {
      activeTab := Home;
      activeModal := None;
      isProgressSheetOpen := false;
      isSettingsSheetOpen := false;
      progressSheetHeight := 0.0;
      settingsSheetHeight := 0.0;
      isGestureActive := false;
    }

    /** The state after a reload: only the tab is persisted (`partialize`),
        and it is laid over the initial state.
        No sheet is opened for it, so a stored progress or settings tab comes
        back with its sheet closed. */
    constructor Rehydrate(tab: Tab)
      ensures activeTab == tab && activeModal == None
      ensures !isProgressSheetOpen && !isSettingsSheetOpen
      ensures progressSheetHeight == 0.0 && settingsSheetHeight == 0.0 && !isGestureActive
      ensures Valid()
    {
      activeTab := tab;
      activeModal := None;
      isProgressSheetOpen := false;
      isSettingsSheetOpen := false;
      progressSheetHeight := 0.0;
      settingsSheetHeight := 0.0;
      isGestureActive := false;
    }

    /** `openModal`: the named sheet is open and the other closed; `null`
        closes both. The tab is left alone. */
    method OpenModal(modal: Option<Modal>)
      modifies this
      ensures activeModal == modal
      ensures isProgressSheetOpen == (modal == Some(ProgressSheet))
      ensures isSettingsSheetOpen == (modal == Some(SettingsSheet))
      ensures activeTab == old(activeTab)
      ensures progressSheetHeight == old(progressSheetHeight) && settingsSheetHeight == old(settingsSheetHeight)
      ensures isGestureActive == old(isGestureActive)
      ensures Valid()
    {
      activeModal := modal;
      isProgressSheetOpen := modal == Some(ProgressSheet);
      isSettingsSheetOpen := modal == Some(SettingsSheet);
    }

    /** `closeModal`: everything closed and back to the home tab. */
    method CloseModal()
      modifies this
      ensures activeModal == None && !isProgressSheetOpen && !isSettingsSheetOpen
      ensures activeTab == Home
      ensures progressSheetHeight == old(progressSheetHeight) && settingsSheetHeight == old(settingsSheetHeight)
      ensures isGestureActive == old(isGestureActive)
      ensures Valid()
    {
      activeModal := None;
      isProgressSheetOpen := false;
      isSettingsSheetOpen := false;
      activeTab := Home;
    }

    /** `openProgressSheet`. */
    method OpenProgressSheet()
      modifies this
      ensures activeModal == Some(ProgressSheet) && isProgressSheetOpen && !isSettingsSheetOpen
      ensures activeTab == ProgressTab
      ensures progressSheetHeight == old(progressSheetHeight) && settingsSheetHeight == old(settingsSheetHeight)
      ensures isGestureActive == old(isGestureActive)
      ensures Valid()
    {
      activeModal := Some(ProgressSheet);
      isProgressSheetOpen := true;
      isSettingsSheetOpen := false;
      activeTab := ProgressTab;
    }

    /** `closeProgressSheet`: the settings flag is not touched. */
    method CloseProgressSheet()
      requires Valid()
      modifies this
      ensures activeModal == None && !isProgressSheetOpen
      ensures isSettingsSheetOpen == old(isSettingsSheetOpen)
      ensures activeTab == Home
      ensures progressSheetHeight == old(progressSheetHeight) && settingsSheetHeight == old(settingsSheetHeight)
      ensures isGestureActive == old(isGestureActive)
      ensures Valid()
    {
      activeModal := None;
      isProgressSheetOpen := false;
      activeTab := Home;
    }

    /** `openSettingsSheet`. */
    method OpenSettingsSheet()
      modifies this
      ensures activeModal == Some(SettingsSheet) && isSettingsSheetOpen && !isProgressSheetOpen
      ensures activeTab == SettingsTab
      ensures progressSheetHeight == old(progressSheetHeight) && settingsSheetHeight == old(settingsSheetHeight)
      ensures isGestureActive == old(isGestureActive)
      ensures Valid()
    {
      activeModal := Some(SettingsSheet);
      isSettingsSheetOpen := true;
      isProgressSheetOpen := false;
      activeTab := SettingsTab;
    }

    /** `closeSettingsSheet`: the progress flag is not touched. */
    method CloseSettingsSheet()
      requires Valid()
      modifies this
      ensures activeModal == None && !isSettingsSheetOpen
      ensures isProgressSheetOpen == old(isProgressSheetOpen)
      ensures activeTab == Home
      ensures progressSheetHeight == old(progressSheetHeight) && settingsSheetHeight == old(settingsSheetHeight)
      ensures isGestureActive == old(isGestureActive)
      ensures Valid()
    {
      activeModal := None;
      isSettingsSheetOpen := false;
      activeTab := Home;
    }

    /** `setActiveTab`: selects the tab and opens its sheet; home closes
        everything. */
    method SetActiveTab(tab: Tab)
      modifies this
      ensures activeTab == tab
      ensures isProgressSheetOpen <==> tab == ProgressTab
      ensures isSettingsSheetOpen <==> tab == SettingsTab
      ensures activeModal == match tab
        case Home => None
        case ProgressTab => Some(ProgressSheet)
        case SettingsTab => Some(SettingsSheet)
      ensures progressSheetHeight == old(progressSheetHeight) && settingsSheetHeight == old(settingsSheetHeight)
      ensures isGestureActive == old(isGestureActive)
      ensures Valid()
    {
      activeTab := tab;
      if tab == ProgressTab {
        OpenProgressSheet();
      } else if tab == SettingsTab {
        OpenSettingsSheet();
      } else {
        CloseModal();
      }
    }

    /** `setProgressSheetHeight`. */
    method SetProgressSheetHeight(height: real)
      modifies this
      ensures progressSheetHeight == height
      ensures settingsSheetHeight == old(settingsSheetHeight) && isGestureActive == old(isGestureActive)
      ensures activeTab == old(activeTab) && activeModal == old(activeModal)
      ensures isProgressSheetOpen == old(isProgressSheetOpen) && isSettingsSheetOpen == old(isSettingsSheetOpen)
    {
      progressSheetHeight := height;
    }

    /** `setSettingsSheetHeight`. */
    method SetSettingsSheetHeight(height: real)
      modifies this
      ensures settingsSheetHeight == height
      ensures progressSheetHeight == old(progressSheetHeight) && isGestureActive == old(isGestureActive)
      ensures activeTab == old(activeTab) && activeModal == old(activeModal)
      ensures isProgressSheetOpen == old(isProgressSheetOpen) && isSettingsSheetOpen == old(isSettingsSheetOpen)
    {
      settingsSheetHeight := height;
    }

    /** `setGestureActive`. */
    method SetGestureActive(active: bool)
      modifies this
      ensures isGestureActive == active
      ensures progressSheetHeight == old(progressSheetHeight) && settingsSheetHeight == old(settingsSheetHeight)
      ensures activeTab == old(activeTab) && activeModal == old(activeModal)
      ensures isProgressSheetOpen == old(isProgressSheetOpen) && isSettingsSheetOpen == old(isSettingsSheetOpen)
    {
      isGestureActive := active;
    }
  }

  /** Closing the progress sheet while the settings sheet is open leaves
      no active modal but an open settings sheet. */
  method ClosingOtherSheetKeepsSettingsOpen() returns (nav: NavigationStore)
    ensures nav.activeModal == None && nav.isSettingsSheetOpen && !nav.isProgressSheetOpen
    ensures nav.activeTab == Home
  {
    nav := new NavigationStore();
    nav.OpenSettingsSheet();
    nav.CloseProgressSheet();
  }
}
