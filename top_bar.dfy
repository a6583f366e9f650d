/**
 * The main screen's top bar: one record replaced wholesale by each setter.
 * The click handlers of the record are closures and are not modelled.
 */
module TopBar {

  datatype TopBarType = MAIN | DETAIL

  datatype TopBarState = TopBarState(
    barType: TopBarType,
    title: string,
    showBackButton: bool,
    showSearchButton: bool,
    showMoreButton: bool,
    showNotificationButton: bool)

  /** `TopBarState()`: every field at its declared default. */
  const DefaultTopBarState := TopBarState(MAIN, "", false, false, false, false)

  /** The record `setMainBar` builds. */
  function MainBarState(): (r: TopBarState)
    ensures r == DefaultTopBarState.(showSearchButton := true, showMoreButton := true, showNotificationButton := true)
  {
    TopBarState(MAIN, "", false, true, true, true)
  }

  /** The record `setDetailBar` builds. */
  function DetailBarState(title: string, showBackButton: bool, showSearchButton: bool, showMoreButton: bool): (r: TopBarState)
    ensures r == DefaultTopBarState.(barType := DETAIL, title := title, showBackButton := showBackButton,
                                     showSearchButton := showSearchButton, showMoreButton := showMoreButton)
    ensures !r.showNotificationButton
  {
    TopBarState(DETAIL, title, showBackButton, showSearchButton, showMoreButton, false)
  }

  class TopBarViewModel {
    var topBarState: TopBarState

    constructor ()
      ensures topBarState == DefaultTopBarState
    {
      topBarState := DefaultTopBarState;
    }

    method UpdateState(newState: TopBarState)
      modifies this
      ensures topBarState == newState
    {
      topBarState := newState;
    }

    /** Main bar: search, more and notification shown, no title, no back button, whatever was shown before. */
    method SetMainBar()
      modifies this
      ensures topBarState == MainBarState()
      ensures topBarState.barType == MAIN && topBarState.title == "" && !topBarState.showBackButton
      ensures topBarState.showSearchButton && topBarState.showMoreButton && topBarState.showNotificationButton
    {
      topBarState := MainBarState();
    }

    /** Detail bar: the given title and flags (each `true` unless given), never the notification button. */
    method SetDetailBar(title: string, showBackButton: bool := true, showSearchButton: bool := true,
                        showMoreButton: bool := true)
      modifies this
      ensures topBarState == DetailBarState(title, showBackButton, showSearchButton, showMoreButton)
      ensures topBarState.barType == DETAIL && !topBarState.showNotificationButton
    {
      topBarState := DetailBarState(title, showBackButton, showSearchButton, showMoreButton);
    }
  }

  /** The default arguments of `setDetailBar` show all three buttons, and no earlier state leaks through. */
  method DetailBarDefaults(title: string) {
    var vm := new TopBarViewModel();
    vm.SetMainBar();
    vm.SetDetailBar(title);
    assert vm.topBarState == TopBarState(DETAIL, title, true, true, true, false);
    vm.SetMainBar();
    assert vm.topBarState.title == "";
  }
}
