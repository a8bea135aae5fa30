/**
 * The integrations panel: each card's connect switch moves from "not
 * connected" through a loading spinner to "connected", and back to "not
 * connected" at once.
 */
module Integrations {
  import opened Common

  /** A card's props; the icon is not modelled. */
  datatype Integration = Integration(name: string, description: string, connected: bool,
                                     lastSync: Option<string>)

  /** The demo panel's four cards; a card starts connected exactly when
      it shows a last-sync time. */
  function MockIntegrations(): (r: seq<Integration>)
    ensures |r| == 4
    ensures forall i :: 0 <= i < |r| ==> (r[i].connected <==> r[i].lastSync.Some?)
  {
    [ Integration("Google Workspace", "Connect to Gmail, Drive, Calendar and Docs", true,
                  Some("Today at 2:30 PM")),
      Integration("QuickBooks", "Connect to your accounting and bookkeeping", false, None),
      Integration("Xero", "Connect to Xero accounting platform", false, None),
      Integration("Microsoft 365", "Connect to OneDrive, Outlook and Office", true,
                  Some("Yesterday at 6:15 PM")) ]
  }

  /** A summary of a card's two flags: loading (the spinner replaces the
      switch), connected, or not connected. The badge follows `isConnected`
      alone, so while loading the card shows the spinner together with the
      "Not connected" badge; in states satisfying `Valid()` the phase is
      `Connected` exactly when the "Connected" badge shows. */
  datatype Phase = NotConnected | Loading | Connected

  /** The card's view of its two flags; the spinner takes precedence. */
  function PhaseOf(isConnected: bool, isLoading: bool): (p: Phase)
    ensures p == Loading <==> isLoading
    ensures p == Connected <==> isConnected && !isLoading
  {
    if isLoading then Loading else if isConnected then Connected else NotConnected
  }

  /** The switch's effect on the phase. */
  function AfterToggle(p: Phase): (q: Phase)
    ensures p == Connected ==> q == NotConnected
    ensures p != Connected ==> q == Loading
  {
    match p
    case NotConnected => Loading
    case Loading => Loading
    case Connected => NotConnected
  }

  /** The switch never connects by itself: "connected" is reached only
      through the loading phase. */
  lemma ToggleNeverConnects(p: Phase)
    ensures AfterToggle(p) != Connected
  {
  }

  /** For flags where the spinner implies "not connected", the phase
      shown determines both flags. */
  lemma PhaseDeterminesFlags(c1: bool, l1: bool, c2: bool, l2: bool)
    requires l1 ==> !c1
    requires l2 ==> !c2
    requires PhaseOf(c1, l1) == PhaseOf(c2, l2)
    ensures c1 == c2 && l1 == l2
  {
  }

  class IntegrationCard {
    var isConnected: bool
    var isLoading: bool

    /** The spinner is only ever shown for a card that is not connected. */
    predicate Valid()
      reads this
    {
      isLoading ==> !isConnected
    }

    function Phase(): Phase
      reads this
    {
      PhaseOf(isConnected, isLoading)
    }

    /** The switch is rendered, and so can be toggled, only while not
        loading; the footer button is disabled in the same state. */
    function SwitchShown(): (shown: bool)
      reads this
      ensures shown <==> Phase() != Loading
    {
      !isLoading
    }

    /** The badge under the title: "Connected" when `isConnected`,
        whatever the loading flag. */
    function ConnectedBadge(): (connectedShown: bool)
      reads this
      ensures connectedShown <==> isConnected
      ensures Valid() ==> (connectedShown <==> Phase() == Connected)
    {
      isConnected
    }

    constructor (connected: bool)
      ensures isConnected == connected && !isLoading
      ensures Valid()
    {
      isConnected := connected;
      isLoading := false;
    }

    /** `handleToggle`: a connected card disconnects at once; otherwise
        the spinner starts and a completion is scheduled. */
    method HandleToggle() returns (scheduled: bool)
      requires Valid()
      modifies this
      ensures Valid()
      ensures scheduled <==> !old(isConnected)
      ensures old(isConnected) ==> !isConnected && isLoading == old(isLoading)
      ensures !old(isConnected) ==> isLoading && !isConnected
      ensures Phase() == AfterToggle(old(Phase()))
    {
      if !isConnected {
        isLoading := true;
        scheduled := true;
      } else {
        isConnected := false;
        scheduled := false;
      }
    }

    /** The scheduled completion: connected, spinner gone. */
    method FinishConnect()
      modifies this
      ensures isConnected && !isLoading
      ensures Valid()
      ensures Phase() == Connected
    {
      isConnected := true;
      isLoading := false;
    }
  }

  /** One use of a card's switch, with any scheduled completion run:
      a connected card ends disconnected without ever loading, and a
      disconnected one passes through loading to connected. */
  method ToggleCard(connected: bool) returns (during: Phase, after: Phase)
    ensures connected ==> during == NotConnected && after == NotConnected
    ensures !connected ==> during == Loading && after == Connected
  {
    var card := new IntegrationCard(connected);
    var scheduled := card.HandleToggle();
    during := card.Phase();
    if scheduled {
      card.FinishConnect();
    }
    after := card.Phase();
  }

  /** While a connection is pending the switch is hidden, so no second
      toggle can start. */
  method PendingHidesSwitch() returns (shownBefore: bool, shownDuring: bool, shownAfter: bool)
    ensures shownBefore && !shownDuring && shownAfter
  {
    var card := new IntegrationCard(false);
    shownBefore := card.SwitchShown();
    var _ := card.HandleToggle();
    shownDuring := card.SwitchShown();
    card.FinishConnect();
    shownAfter := card.SwitchShown();
  }
}
