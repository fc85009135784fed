/**
 * The dashboard page: its three state cells (whether voice recognition is
 * listening, whether the emergency alert is up, which tab is open), the
 * event handlers that overwrite them, and what the page shows in each state.
 *
 * The transitions are specified once, as the pure function `Next` over a
 * `State` value; the class `Dashboard` holds the cells as fields and each of
 * its handlers is proved to move the fields exactly as `Next` does.
 */
module DashboardPage {
  import opened Wrappers

  // ---------------------------------------------------------------------
  // State and events
  // ---------------------------------------------------------------------

  /** The ids of the five sidebar tabs, in sidebar order. */
  const TabIds: seq<string> := ["overview", "contacts", "map", "voice", "settings"]

  datatype State = State(isListening: bool, emergencyActive: bool, activeTab: string)

  /** The state the page mounts with. */
  const Initial := State(false, false, "overview")

  /** The callbacks that write the state cells. */
  datatype Event =
    | PanicPressed                        // the emergency button in the header
    | VoiceTriggered                      // `onEmergencyTrigger` of either voice widget
    | ListeningChanged(listening: bool)   // `onListeningChange` of either voice widget
    | TabSelected(id: string)             // a sidebar tab or a shortcut button
    | AlertDeactivated                    // `onDeactivate` of the emergency alert

  /** The two ways an emergency is raised. */
  predicate IsActivation(e: Event) {
    e.PanicPressed? || e.VoiceTriggered?
  }

  /** The events that write the emergency flag. */
  predicate TouchesAlert(e: Event) {
    IsActivation(e) || e.AlertDeactivated?
  }

  /** Every button that selects a tab passes one of the tab ids. */
  predicate WellFormed(e: Event) {
    e.TabSelected? ==> e.id in TabIds
  }

  /** The state after one callback: each callback overwrites one cell with a fixed or given value. */
  function Next(s: State, e: Event): State {
    match e
    case PanicPressed => s.(emergencyActive := true)
    case VoiceTriggered => s.(emergencyActive := true)
    case AlertDeactivated => s.(emergencyActive := false)
    case ListeningChanged(listening) => s.(isListening := listening)
    case TabSelected(id) => s.(activeTab := id)
  }

  /** The state after a series of callbacks, oldest first. */
  function Run(s: State, events: seq<Event>): State
    decreases |events|
  {
    if events == [] then s else Run(Next(s, events[0]), events[1..])
  }

  // ---------------------------------------------------------------------
  // What the page shows
  // ---------------------------------------------------------------------

  /** The main-content panels, one per tab. */
  datatype Panel = OverviewPanel | ContactsPanel | MapPanel | VoicePanel | SettingsPanel

  /** The tab id under which a panel is shown. */
  function PanelTab(p: Panel): string {
    match p
    case OverviewPanel => "overview"
    case ContactsPanel => "contacts"
    case MapPanel => "map"
    case VoicePanel => "voice"
    case SettingsPanel => "settings"
  }

  /** The panels that embed a voice-recognition widget. */
  predicate HostsVoiceRecognition(p: Panel) {
    p.OverviewPanel? || p.VoicePanel?
  }

  /**
   * What is on screen: the main-content panels that are mounted, the
   * `isListening` value handed to the mounted voice widget (if one is
   * mounted), and whether the emergency alert overlay is mounted.
   */
  datatype Screen = Screen(panels: seq<Panel>, voiceWidget: Option<bool>, alertOverlay: bool)

  /** Each panel is guarded by its own `activeTab === id` test; the overlay by the emergency flag. */
  function Render(s: State): (scr: Screen)
    ensures |scr.panels| <= 1
    ensures |scr.panels| == 1 <==> s.activeTab in TabIds
    ensures forall p :: p in scr.panels ==> PanelTab(p) == s.activeTab
    ensures scr.voiceWidget.Some? <==> exists p :: p in scr.panels && HostsVoiceRecognition(p)
    ensures scr.voiceWidget.Some? ==> scr.voiceWidget.value == s.isListening
    ensures scr.alertOverlay <==> s.emergencyActive
  {
    var t := s.activeTab;
    var panels :=
      (if t == "overview" then [OverviewPanel] else [])
      + (if t == "contacts" then [ContactsPanel] else [])
      + (if t == "map" then [MapPanel] else [])
      + (if t == "voice" then [VoicePanel] else [])
      + (if t == "settings" then [SettingsPanel] else []);
    var voice := if t == "overview" || t == "voice" then Some(s.isListening) else None;
    assert t == "overview" ==> OverviewPanel in panels;
    assert t == "voice" ==> VoicePanel in panels;
    Screen(panels, voice, s.emergencyActive)
  }

  // ---------------------------------------------------------------------
  // Properties of single callbacks
  // ---------------------------------------------------------------------

  /** Raising the emergency sets the flag whatever it was, touches nothing else, and twice is once. */
  lemma ActivationIsIdempotent(s: State, e: Event)
    requires IsActivation(e)
    ensures Next(s, e).emergencyActive
    ensures Next(s, e) == Next(s, PanicPressed) == Next(s, VoiceTriggered)
    ensures Next(Next(s, e), e) == Next(s, e)
    ensures Next(s, e).activeTab == s.activeTab && Next(s, e).isListening == s.isListening
  {
  }

  /** Deactivating clears the flag whatever it was, touches nothing else, and twice is once. */
  lemma DeactivationIsIdempotent(s: State)
    ensures !Next(s, AlertDeactivated).emergencyActive
    ensures Next(Next(s, AlertDeactivated), AlertDeactivated) == Next(s, AlertDeactivated)
    ensures Next(s, AlertDeactivated).activeTab == s.activeTab
    ensures Next(s, AlertDeactivated).isListening == s.isListening
  {
  }

  /** Selecting a tab opens it and touches neither flag. */
  lemma TabSelectionFrame(s: State, id: string)
    ensures Next(s, TabSelected(id)).activeTab == id
    ensures Next(s, TabSelected(id)).emergencyActive == s.emergencyActive
    ensures Next(s, TabSelected(id)).isListening == s.isListening
  {
  }

  /** `isListening` moves only through the listening callback, which moves nothing else. */
  lemma ListeningOnlyViaCallback(s: State, e: Event)
    ensures Next(s, e).isListening != s.isListening ==> e.ListeningChanged?
    ensures e.ListeningChanged? ==> Next(s, e).isListening == e.listening
    ensures e.ListeningChanged? ==> Next(s, e).emergencyActive == s.emergencyActive
    ensures e.ListeningChanged? ==> Next(s, e).activeTab == s.activeTab
  {
  }

  // ---------------------------------------------------------------------
  // Properties of series of callbacks
  // ---------------------------------------------------------------------

  /** Callbacks that do not write the emergency flag leave it as it was. */
  lemma {:induction false} OtherEventsKeepAlert(s: State, events: seq<Event>)
    requires forall j :: 0 <= j < |events| ==> !TouchesAlert(events[j])
    ensures Run(s, events).emergencyActive == s.emergencyActive
    decreases |events|
  {
    if events != [] {
      OtherEventsKeepAlert(Next(s, events[0]), events[1..]);
    }
  }

  /** Once raised, the alert stays up until a deactivation, whatever triggers follow. */
  lemma {:induction false} ActivatedStaysActive(s: State, events: seq<Event>)
    requires s.emergencyActive
    requires forall j :: 0 <= j < |events| ==> !events[j].AlertDeactivated?
    ensures Run(s, events).emergencyActive
    decreases |events|
  {
    if events != [] {
      ActivatedStaysActive(Next(s, events[0]), events[1..]);
    }
  }

  /** If the last alert-writing callback is a trigger, the alert is up. */
  lemma {:induction false} LastTriggerWins(s: State, events: seq<Event>, i: nat)
    requires i < |events| && IsActivation(events[i])
    requires forall j :: i < j < |events| ==> !events[j].AlertDeactivated?
    ensures Run(s, events).emergencyActive
    decreases i
  {
    if i == 0 {
      ActivatedStaysActive(Next(s, events[0]), events[1..]);
    } else {
      LastTriggerWins(Next(s, events[0]), events[1..], i - 1);
    }
  }

  /** If the last alert-writing callback is a deactivation, the alert is down. */
  lemma {:induction false} LastDeactivationWins(s: State, events: seq<Event>, i: nat)
    requires i < |events| && events[i].AlertDeactivated?
    requires forall j :: i < j < |events| ==> !TouchesAlert(events[j])
    ensures !Run(s, events).emergencyActive
    decreases i
  {
    if i == 0 {
      OtherEventsKeepAlert(Next(s, events[0]), events[1..]);
    } else {
      LastDeactivationWins(Next(s, events[0]), events[1..], i - 1);
    }
  }

  /** `isListening` after any series of callbacks does not depend on the emergency flag or the tab. */
  lemma {:induction false} ListeningIndependent(s: State, t: State, events: seq<Event>)
    requires s.isListening == t.isListening
    ensures Run(s, events).isListening == Run(t, events).isListening
    decreases |events|
  {
    if events != [] {
      ListeningIndependent(Next(s, events[0]), Next(t, events[0]), events[1..]);
    }
  }

  /** From a tab id, the page only ever reaches tab ids. */
  lemma {:induction false} TabStaysValid(s: State, events: seq<Event>)
    requires s.activeTab in TabIds
    requires forall j :: 0 <= j < |events| ==> WellFormed(events[j])
    ensures Run(s, events).activeTab in TabIds
    decreases |events|
  {
    if events != [] {
      TabStaysValid(Next(s, events[0]), events[1..]);
    }
  }

  /** The reachable tabs are exactly the five ids, and every reachable state shows exactly one panel. */
  lemma ReachableTabs(events: seq<Event>, id: string)
    requires forall j :: 0 <= j < |events| ==> WellFormed(events[j])
    ensures Run(Initial, events).activeTab in TabIds
    ensures |Render(Run(Initial, events)).panels| == 1
    ensures id in TabIds ==> WellFormed(TabSelected(id)) && Run(Initial, [TabSelected(id)]).activeTab == id
  {
    TabStaysValid(Initial, events);
  }

  // ---------------------------------------------------------------------
  // The page's state cells
  // ---------------------------------------------------------------------

  class Dashboard {
    var isListening: bool
    var emergencyActive: bool
    var activeTab: string

    /** The cells as a value. */
    function Snapshot(): State
      reads this
    {
      State(isListening, emergencyActive, activeTab)
    }

    ghost predicate Valid()
      reads this
    {
      activeTab in TabIds
    }

    /** What the page currently shows. */
    function CurrentScreen(): Screen
      reads this
    {
      Render(Snapshot())
    }

    constructor ()
      ensures Valid()
      ensures Snapshot() == Initial
      ensures !isListening && !emergencyActive && activeTab == "overview"
      ensures !CurrentScreen().alertOverlay && CurrentScreen().panels == [OverviewPanel]
    {
      isListening := false;
      emergencyActive := false;
      activeTab := "overview";
    }

    /** The header's emergency button. */
    method PressPanicButton()
      requires Valid()
      modifies this`emergencyActive
      ensures Valid()
      ensures Snapshot() == Next(old(Snapshot()), PanicPressed)
      ensures emergencyActive && CurrentScreen().alertOverlay
      ensures isListening == old(isListening) && activeTab == old(activeTab)
    {
      emergencyActive := true;
    }

    /** A voice widget recognised a trigger phrase. */
    method TriggerByVoice()
      requires Valid()
      modifies this`emergencyActive
      ensures Valid()
      ensures Snapshot() == Next(old(Snapshot()), VoiceTriggered)
      ensures emergencyActive && CurrentScreen().alertOverlay
      ensures isListening == old(isListening) && activeTab == old(activeTab)
    {
      emergencyActive := true;
    }

    /** The alert's deactivate callback. */
    method DeactivateAlert()
      requires Valid()
      modifies this`emergencyActive
      ensures Valid()
      ensures Snapshot() == Next(old(Snapshot()), AlertDeactivated)
      ensures !emergencyActive && !CurrentScreen().alertOverlay
      ensures isListening == old(isListening) && activeTab == old(activeTab)
    {
      emergencyActive := false;
    }

    /** A voice widget started or stopped listening. */
    method ChangeListening(listening: bool)
      requires Valid()
      modifies this`isListening
      ensures Valid()
      ensures Snapshot() == Next(old(Snapshot()), ListeningChanged(listening))
      ensures isListening == listening
      ensures emergencyActive == old(emergencyActive) && activeTab == old(activeTab)
    {
      isListening := listening;
    }

    /** A sidebar tab, or one of the overview's shortcut buttons, was pressed. */
    method SelectTab(id: string)
      requires Valid() && id in TabIds
      modifies this`activeTab
      ensures Valid()
      ensures Snapshot() == Next(old(Snapshot()), TabSelected(id))
      ensures activeTab == id && |CurrentScreen().panels| == 1
      ensures emergencyActive == old(emergencyActive) && isListening == old(isListening)
    {
      activeTab := id;
    }
  }
}
