// The visibility flags of the interface panels (stores/ui.js).
module UiStore {
  /** The eight flags. */
  datatype Flag = Library | Shortcuts | Export | Accessibility | Projects | Stats | Calendar | Grid

  /** The state of the store as a value. */
  datatype Flags = Flags(showLibrary: bool, showShortcuts: bool, showExport: bool,
                         showAccessibility: bool, showProjects: bool, showStats: bool,
                         showCalendar: bool, showGrid: bool)

  /** The initial state: every panel hidden, the grid shown. */
  const Initial := Flags(false, false, false, false, false, false, false, true)

  function Get(s: Flags, f: Flag): bool
  {
    match f
    case Library => s.showLibrary
    case Shortcuts => s.showShortcuts
    case Export => s.showExport
    case Accessibility => s.showAccessibility
    case Projects => s.showProjects
    case Stats => s.showStats
    case Calendar => s.showCalendar
    case Grid => s.showGrid
  }

  /** The state after the toggle action of flag `f`. */
  function Toggle(s: Flags, f: Flag): (r: Flags)
    ensures Get(r, f) == !Get(s, f)
    ensures forall g: Flag | g != f :: Get(r, g) == Get(s, g)
  {
    match f
    case Library => s.(showLibrary := !s.showLibrary)
    case Shortcuts => s.(showShortcuts := !s.showShortcuts)
    case Export => s.(showExport := !s.showExport)
    case Accessibility => s.(showAccessibility := !s.showAccessibility)
    case Projects => s.(showProjects := !s.showProjects)
    case Stats => s.(showStats := !s.showStats)
    case Calendar => s.(showCalendar := !s.showCalendar)
    case Grid => s.(showGrid := !s.showGrid)
  }

  /** Toggling the same flag twice restores the state. */
  lemma {:induction false} ToggleTwice(s: Flags, f: Flag)
    ensures Toggle(Toggle(s, f), f) == s
  {
    match f
    case Library =>
    case Shortcuts =>
    case Export =>
    case Accessibility =>
    case Projects =>
    case Stats =>
    case Calendar =>
    case Grid =>
  }

  /** Only the grid is shown at first. */
  lemma InitialFlags()
    ensures forall g: Flag :: Get(Initial, g) <==> g == Grid
  {
    forall g: Flag ensures Get(Initial, g) <==> g == Grid {
    }
  }

  /** The store, one field per flag. */
  class Store {
    var showLibrary: bool
    var showShortcuts: bool
    var showExport: bool
    var showAccessibility: bool
    var showProjects: bool
    var showStats: bool
    var showCalendar: bool
    var showGrid: bool

    function State(): Flags
      reads this
    {
      Flags(showLibrary, showShortcuts, showExport, showAccessibility,
            showProjects, showStats, showCalendar, showGrid)
    }

    constructor()
      ensures State() == Initial
    {
      showLibrary, showShortcuts, showExport, showAccessibility := false, false, false, false;
      showProjects, showStats, showCalendar, showGrid := false, false, false, true;
    }

    method ToggleLibrary()
      modifies this
      ensures State() == Toggle(old(State()), Library)
    {
      showLibrary := !showLibrary;
    }

    method ToggleShortcuts()
      modifies this
      ensures State() == Toggle(old(State()), Shortcuts)
    {
      showShortcuts := !showShortcuts;
    }

    method ToggleExport()
      modifies this
      ensures State() == Toggle(old(State()), Export)
    {
      showExport := !showExport;
    }

    method ToggleAccessibility()
      modifies this
      ensures State() == Toggle(old(State()), Accessibility)
    {
      showAccessibility := !showAccessibility;
    }

    method ToggleProjects()
      modifies this
      ensures State() == Toggle(old(State()), Projects)
    {
      showProjects := !showProjects;
    }

    method ToggleStats()
      modifies this
      ensures State() == Toggle(old(State()), Stats)
    {
      showStats := !showStats;
    }

    method ToggleCalendar()
      modifies this
      ensures State() == Toggle(old(State()), Calendar)
    {
      showCalendar := !showCalendar;
    }

    method ToggleGrid()
      modifies this
      ensures State() == Toggle(old(State()), Grid)
    {
      showGrid := !showGrid;
    }
  }
}
