/**
 * The application shell: which view is showing and the three pieces of state it hands to
 * the views (the inventory tab, whether the experiment view opens its create dialog, and
 * which experiment it opens on), the navigation handler every view calls, and the choice
 * of screen for the current view.
 */
module Navigation {
  import opened Types
  import Notifications
  import ExperimentList

  /** The shell's four state fields, as one value. */
  datatype NavState = NavState(view: ViewState, tab: InventoryTab, autoOpenCreate: bool, selectedId: Option<string>)

  const Start := NavState(Dashboard, ListTab, false, None)

  /** `params?.id` as a condition: present and not the empty string. */
  predicate HasId(params: NavParams) {
    params.id.Some? && params.id.value != []
  }

  /**
   * handleNavigate as a transition: the view becomes the target; the selection and the
   * create flag are cleared unless the target is the experiment list and the request
   * carries them; the tab changes only for the inventory with a tab in the request.
   */
  function Navigate(s: NavState, view: ViewState, params: NavParams): (r: NavState)
    ensures r.view == view
    ensures r.selectedId.Some? <==> view == Experiments && HasId(params)
    ensures r.selectedId.Some? ==> r.selectedId == params.id
    ensures r.autoOpenCreate <==> view == Experiments && params.openCreate
    ensures view == Inventory && params.tab.Some? ==> r.tab == params.tab.value
    ensures !(view == Inventory && params.tab.Some?) ==> r.tab == s.tab
  {
    NavState(
      view,
      if view == Inventory && params.tab.Some? then params.tab.value else s.tab,
      view == Experiments && params.openCreate,
      if view == Experiments && HasId(params) then params.id else None)
  }

  /** Navigating to the same place twice is navigating once. */
  lemma {:induction false} NavigateIdempotent(s: NavState, view: ViewState, params: NavParams)
    ensures Navigate(Navigate(s, view, params), view, params) == Navigate(s, view, params)
  {
  }

  /** Only the tab survives a navigation: two states with the same tab end up the same. */
  lemma {:induction false} NavigateForgetsAllButTab(s: NavState, t: NavState, view: ViewState, params: NavParams)
    requires s.tab == t.tab
    ensures Navigate(s, view, params) == Navigate(t, view, params)
  {
  }

  /** A plain navigation (a sidebar link, a dashboard card) to any view but the inventory keeps only the tab. */
  lemma {:induction false} PlainNavigation(s: NavState, view: ViewState)
    ensures Navigate(s, view, NoParams) == NavState(view, s.tab, false, None)
  {
  }

  /** What the shell renders; each view receives the state it is given. */
  datatype Screen =
    | DashboardScreen
    | ExperimentScreen(initialCreate: bool, initialSelectedId: Option<string>)
    | InventoryScreen(initialTab: InventoryTab)
    | MolecularScreen
    | AnalyticsScreen
    | AuditLogScreen

  function ScreenView(sc: Screen): ViewState {
    match sc
    case DashboardScreen => Dashboard
    case ExperimentScreen(_, _) => Experiments
    case InventoryScreen(_) => Inventory
    case MolecularScreen => Molecular
    case AnalyticsScreen => Analytics
    case AuditLogScreen => AuditLog
  }

  /** renderView: the screen of the current view, with the shell's state passed down. */
  function Render(s: NavState): (sc: Screen)
    ensures ScreenView(sc) == s.view
    ensures s.view == Experiments ==> sc == ExperimentScreen(s.autoOpenCreate, s.selectedId)
    ensures s.view == Inventory ==> sc == InventoryScreen(s.tab)
  {
    match s.view
    case Dashboard => DashboardScreen
    case Experiments => ExperimentScreen(s.autoOpenCreate, s.selectedId)
    case Inventory => InventoryScreen(s.tab)
    case Molecular => MolecularScreen
    case Analytics => AnalyticsScreen
    case AuditLog => AuditLogScreen
  }

  /** Different views render different screens. */
  lemma {:induction false} RenderSeparatesViews(s: NavState, t: NavState)
    requires s.view != t.view
    ensures Render(s) != Render(t)
  {
    assert ScreenView(Render(s)) != ScreenView(Render(t));
  }

  /** After a navigation the screen is the target view's, whatever was showing before. */
  lemma {:induction false} NavigateThenRender(s: NavState, view: ViewState, params: NavParams)
    ensures ScreenView(Render(Navigate(s, view, params))) == view
    ensures view == Experiments ==>
      Render(Navigate(s, view, params)) ==
        ExperimentScreen(params.openCreate, if HasId(params) then params.id else None)
  {
  }

  /**
   * The cluster buttons of the notification feed: experiments open the list with nothing
   * selected and no dialog, equipment opens the inventory's equipment tab, inventory
   * opens the inventory on the tab used last.
   */
  lemma {:induction false} ClusterCtaScreens(s: NavState, c: Notifications.Category)
    requires c != Notifications.System
    ensures var cta := Notifications.ClusterCta(c).value;
      var sc := Render(Navigate(s, cta.view, cta.params));
      && (c == Notifications.Experiment ==> sc == ExperimentScreen(false, None))
      && (c == Notifications.Equipment ==> sc == InventoryScreen(EquipmentTab))
      && (c == Notifications.Inventory ==> sc == InventoryScreen(s.tab))
  {
    Notifications.ClusterCtaTargets(c);
  }

  /**
   * Picking a search suggestion: an experiment with a non-empty id opens the experiment
   * view on that experiment; a sample opens the inventory list, a machine the equipment
   * tab. The search term travels with the request but the shell does not pass it on.
   */
  lemma {:induction false} SuggestionScreens(s: NavState, item: Notifications.Suggestion)
    ensures var (view, params) := Notifications.SuggestionTarget(item);
      var sc := Render(Navigate(s, view, params));
      && (item.ExperimentHit? && item.experiment.id != [] ==>
            sc == ExperimentScreen(false, Some(item.experiment.id)))
      && (item.SampleHit? ==> sc == InventoryScreen(ListTab))
      && (item.EquipmentHit? ==> sc == InventoryScreen(EquipmentTab))
  {
  }

  /** The experiment view opened by a suggestion starts with that experiment selected. */
  lemma {:induction false} SuggestionSelectsExperiment(s: NavState, e: Experiment)
    requires e.id != []
    ensures var (view, params) := Notifications.SuggestionTarget(Notifications.ExperimentHit(e));
      var sc := Render(Navigate(s, view, params));
      sc.ExperimentScreen? && sc.initialSelectedId == Some(e.id) && !sc.initialCreate
  {
    SuggestionScreens(s, Notifications.ExperimentHit(e));
  }

  /** The shell's state fields; handleNavigate sets them one after another. */
  class App {
    var currentView: ViewState
    var inventoryTab: InventoryTab
    var autoOpenCreate: bool
    var selectedExperimentId: Option<string>

    function State(): NavState
      reads this
    {
      NavState(currentView, inventoryTab, autoOpenCreate, selectedExperimentId)
    }

    constructor()
      ensures State() == Start
    {
      currentView := Dashboard;
      inventoryTab := ListTab;
      autoOpenCreate := false;
      selectedExperimentId := None;
    }

    method HandleNavigate(view: ViewState, params: NavParams)
      modifies this
      ensures State() == Navigate(old(State()), view, params)
    {
      currentView := view;
      selectedExperimentId := None;
      autoOpenCreate := false;
      if view == Inventory {
        if params.tab.Some? {
          inventoryTab := params.tab.value;
        }
      }
      if view == Experiments {
        if params.openCreate {
          autoOpenCreate := true;
        }
        if params.id.Some? && params.id.value != [] {
          selectedExperimentId := params.id;
        }
      }
    }

    /** The screen the shell shows now. */
    method RenderView() returns (sc: Screen)
      ensures sc == Render(State())
      ensures ScreenView(sc) == currentView
    {
      sc := Render(State());
    }
  }

  /** The experiment view mounted by the shell opens on the experiment the navigation asked for. */
  method OpenExperiments(app: App, seed: seq<Experiment>, params: NavParams) returns (v: ExperimentList.ExperimentView)
    modifies app
    ensures app.State() == Navigate(old(app.State()), Experiments, params)
    ensures v.selectedId == (if HasId(params) then params.id else None)
    ensures v.isCreateModalOpen == params.openCreate && v.experiments == seed
  {
    app.HandleNavigate(Experiments, params);
    var sc := app.RenderView();
    v := new ExperimentList.ExperimentView(seed, sc.initialCreate, sc.initialSelectedId);
  }
}
