/** The UI store: sidebar, modal, toast queue, loading flag, global search
    text, theme and view preferences, each changed in place by its own
    setter and by nothing else. */
module UiStore {
  import opened Wrappers
  import opened Seqs

  /** A notification; `id` is the millisecond timestamp of `addToast`. */
  datatype Toast = Toast(id: nat, kind: string, message: string)

  /** The whole UI state at one moment, so that a setter can promise that
      only its own field changed. */
  datatype UiState = UiState(
    isSidebarOpen: bool, activeModal: Option<string>, modalData: Option<string>,
    toasts: seq<Toast>, isPageLoading: bool, globalSearchQuery: string,
    theme: string, tripViewMode: string, calendarViewMode: string)

  /** `toasts.filter(t => t.id !== id)`. */
  function WithoutToast(toasts: seq<Toast>, id: nat): (r: seq<Toast>)
    ensures Picks(toasts, KeptPositions(toasts, (t: Toast) => t.id != id), r)
    ensures forall i :: 0 <= i < |r| ==> r[i].id != id && r[i] in toasts
    ensures forall i :: 0 <= i < |toasts| && toasts[i].id != id ==> toasts[i] in r
  {
    FilterPicks(toasts, (t: Toast) => t.id != id);
    Filter(toasts, (t: Toast) => t.id != id)
  }

  /** Removing an id no toast carries changes nothing. */
  lemma RemoveAbsentToast(toasts: seq<Toast>, id: nat)
    requires forall i :: 0 <= i < |toasts| ==> toasts[i].id != id
    ensures WithoutToast(toasts, id) == toasts
  {
    FilterKeepsAll(toasts, (t: Toast) => t.id != id);
  }

  /** Removing the same toast twice is removing it once (the timer may fire
      after the user already dismissed it). */
  lemma RemoveToastIdempotent(toasts: seq<Toast>, id: nat)
    ensures WithoutToast(WithoutToast(toasts, id), id) == WithoutToast(toasts, id)
  {
    RemoveAbsentToast(WithoutToast(toasts, id), id);
  }

  /** Dismissing a toast whose id was fresh restores the queue. */
  lemma AddThenRemoveToast(toasts: seq<Toast>, t: Toast)
    requires forall i :: 0 <= i < |toasts| ==> toasts[i].id != t.id
    ensures WithoutToast(toasts + [t], t.id) == toasts
  {
    var keep := (x: Toast) => x.id != t.id;
    FilterAppend(toasts, [t], keep);
    RemoveAbsentToast(toasts, t.id);
    assert Filter([t], keep) == [];
  }

  /** Dismissing two toasts gives the same queue in either order. */
  lemma RemoveToastsCommute(toasts: seq<Toast>, id1: nat, id2: nat)
    ensures WithoutToast(WithoutToast(toasts, id1), id2) == WithoutToast(WithoutToast(toasts, id2), id1)
  {
    var both := (x: Toast) => x.id != id1 && x.id != id2;
    FilterFilter(toasts, (x: Toast) => x.id != id1, (x: Toast) => x.id != id2, both);
    FilterFilter(toasts, (x: Toast) => x.id != id2, (x: Toast) => x.id != id1, both);
  }

  /** `theme === 'dark' ? 'light' : 'dark'`. */
  function NextTheme(theme: string): (r: string)
    ensures r == "dark" || r == "light"
    ensures r != theme || (theme != "dark" && theme != "light")
  {
    if theme == "dark" then "light" else "dark"
  }

  /** From either known theme, toggling twice comes back; any other value
      settles on one of the two after one toggle. */
  lemma ThemeToggleTwice(theme: string)
    ensures theme == "dark" || theme == "light" ==> NextTheme(NextTheme(theme)) == theme
    ensures NextTheme(NextTheme(NextTheme(theme))) == NextTheme(theme)
  {
  }

  class UiStore {
    var isSidebarOpen: bool
    var activeModal: Option<string>
    var modalData: Option<string>
    var toasts: seq<Toast>
    var isPageLoading: bool
    var globalSearchQuery: string
    var theme: string
    var tripViewMode: string
    var calendarViewMode: string

    function State(): UiState
      reads this
    {
      UiState(isSidebarOpen, activeModal, modalData, toasts, isPageLoading,
              globalSearchQuery, theme, tripViewMode, calendarViewMode)
    }

    /** The initial state: sidebar closed, no modal, no toasts, not loading,
        empty search, dark theme, grid trips, month calendar. */
    constructor()
      ensures State() == UiState(false, None, None, [], false, "", "dark", "grid", "month")
    {
      isSidebarOpen := false;
      activeModal := None;
      modalData := None;
      toasts := [];
      isPageLoading := false;
      globalSearchQuery := "";
      theme := "dark";
      tripViewMode := "grid";
      calendarViewMode := "month";
    }

    method ToggleSidebar()
      modifies this
      ensures State() == old(State()).(isSidebarOpen := !old(isSidebarOpen))
    {
      isSidebarOpen := !isSidebarOpen;
    }

    method CloseSidebar()
      modifies this
      ensures State() == old(State()).(isSidebarOpen := false)
    {
      isSidebarOpen := false;
    }

    /** `data` is `null` when the caller passes none. */
    method OpenModal(modalName: string, data: Option<string>)
      modifies this
      ensures State() == old(State()).(activeModal := Some(modalName), modalData := data)
    {
      activeModal := Some(modalName);
      modalData := data;
    }

    method CloseModal()
      modifies this
      ensures State() == old(State()).(activeModal := None, modalData := None)
    {
      activeModal := None;
      modalData := None;
    }

    /** Appends the toast stamped with `now`; the dismissal five seconds
        later is a `RemoveToast(now)`. */
    method AddToast(kind: string, message: string, now: nat) returns (id: nat)
      modifies this
      ensures id == now
      ensures State() == old(State()).(toasts := old(toasts) + [Toast(now, kind, message)])
    {
      id := now;
      toasts := toasts + [Toast(id, kind, message)];
    }

    /** Removes every toast carrying `id`. */
    method RemoveToast(id: nat)
      modifies this
      ensures State() == old(State()).(toasts := WithoutToast(old(toasts), id))
    {
      toasts := WithoutToast(toasts, id);
    }

    method SetPageLoading(loading: bool)
      modifies this
      ensures State() == old(State()).(isPageLoading := loading)
    {
      isPageLoading := loading;
    }

    method SetGlobalSearchQuery(query: string)
      modifies this
      ensures State() == old(State()).(globalSearchQuery := query)
    {
      globalSearchQuery := query;
    }

    method ToggleTheme()
      modifies this
      ensures State() == old(State()).(theme := NextTheme(old(theme)))
    {
      theme := NextTheme(theme);
    }

    method SetTripViewMode(mode: string)
      modifies this
      ensures State() == old(State()).(tripViewMode := mode)
    {
      tripViewMode := mode;
    }

    method SetCalendarViewMode(mode: string)
      modifies this
      ensures State() == old(State()).(calendarViewMode := mode)
    {
      calendarViewMode := mode;
    }
  }
}
