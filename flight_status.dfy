/**
 * The live status panel of one flight: it loads the flight and its ten newest updates, takes
 * the store's realtime events (a changed flight row, a new update), lets the passenger switch
 * notifications on and off, and draws the status badge, the delay warning, the gate and the
 * updates timeline.
 */
module FlightStatus {
  import opened Wrappers
  import opened Text
  import opened Schema
  import opened HostedStore
  import opened Jsx

  /** The toast raised when the flight row changes. */
  const FlightUpdatedMessage: string := "Flight status updated!"
  /** The toast raised when notifications are switched off. */
  const NotificationsOffMessage: string := "Notifications disabled"
  /** The toast raised when notifications are switched on. */
  const NotificationsOnMessage: string := "You will receive updates for this flight"

  /** The icons the panel draws. */
  datatype Icon = ClockIcon | PlaneIcon | CheckCircleIcon | AlertTriangleIcon | XCircleIcon | MapPinIcon

  // ---------------------------------------------------------------------------
  // The status badge and the update icons
  // ---------------------------------------------------------------------------

  /** The badge of a flight status: colour, icon and text. */
  datatype StatusConfig = StatusConfig(tone: Tone, icon: Icon, caption: string)

  /** The seven statuses the badge knows. */
  predicate KnownStatus(status: string) {
    status in {"scheduled", "boarding", "departed", "in_flight", "landed", "delayed", "cancelled"}
  }

  /** `getStatusConfig(status)` */
  function StatusConfigOf(status: string): StatusConfig {
    match status
    case "scheduled" => StatusConfig(PrimaryTone, ClockIcon, "Scheduled")
    case "boarding" => StatusConfig(AccentTone, PlaneIcon, "Boarding")
    case "departed" => StatusConfig(SuccessTone, PlaneIcon, "Departed")
    case "in_flight" => StatusConfig(SuccessTone, PlaneIcon, "In Flight")
    case "landed" => StatusConfig(SuccessTone, CheckCircleIcon, "Landed")
    case "delayed" => StatusConfig(DestructiveTone, AlertTriangleIcon, "Delayed")
    case "cancelled" => StatusConfig(DestructiveTone, XCircleIcon, "Cancelled")
    case _ => StatusConfig(MutedTone, ClockIcon, status)
  }

  /**
   * An unknown status is drawn muted, with the clock, under its own name; a known one never is
   * muted and never shows its raw name, and the seven known statuses get seven different captions.
   * Red marks exactly the delayed and cancelled flights.
   */
  lemma StatusConfigFacts(status: string, other: string)
    ensures StatusConfigOf(status).tone == MutedTone <==> !KnownStatus(status)
    ensures !KnownStatus(status) ==> StatusConfigOf(status) == StatusConfig(MutedTone, ClockIcon, status)
    ensures KnownStatus(status) ==> StatusConfigOf(status).caption != status
    ensures StatusConfigOf(status).tone == DestructiveTone <==> status == "delayed" || status == "cancelled"
    ensures KnownStatus(status) && KnownStatus(other) && StatusConfigOf(status).caption == StatusConfigOf(other).caption ==> status == other
  {
  }

  /** The icon of an entry in the timeline, with its colour. */
  datatype UpdateIcon = UpdateIcon(icon: Icon, tone: Tone)

  /** `getUpdateIcon(type)` */
  function UpdateIconOf(updateType: string): UpdateIcon {
    match updateType
    case "delay" => UpdateIcon(AlertTriangleIcon, DestructiveTone)
    case "gate_change" => UpdateIcon(MapPinIcon, AccentTone)
    case "status_change" => UpdateIcon(PlaneIcon, PrimaryTone)
    case _ => UpdateIcon(ClockIcon, MutedTone)
  }

  /** The kinds of toast the panel raises. */
  datatype ToastKind = Warning | Info | Plain | Success

  datatype Toast = Toast(kind: ToastKind, message: string)

  /** The toast for a new update: a warning for a delay, an info for a gate change, a plain one otherwise. */
  function ToastFor(u: FlightUpdate): Toast {
    if u.updateType == "delay" then Toast(Warning, u.message)
    else if u.updateType == "gate_change" then Toast(Info, u.message)
    else Toast(Plain, u.message)
  }

  /**
   * The toast of a new update carries its message and agrees with the icon the timeline gives it:
   * a warning goes with the red triangle, an info with the map pin, and every other type, the
   * status changes included, gets a plain toast.
   */
  lemma ToastAgreesWithIcon(u: FlightUpdate)
    ensures ToastFor(u).message == u.message
    ensures ToastFor(u).kind == Warning <==> UpdateIconOf(u.updateType).icon == AlertTriangleIcon
    ensures ToastFor(u).kind == Info <==> UpdateIconOf(u.updateType).icon == MapPinIcon
    ensures ToastFor(u).kind == Plain <==> UpdateIconOf(u.updateType).tone in {PrimaryTone, MutedTone}
  {
  }

  /** The toast of the notifications switch, chosen from the value before the switch. */
  function ToggleMessage(wasEnabled: bool): string {
    if wasEnabled then NotificationsOffMessage else NotificationsOnMessage
  }

  /** The message describes the new setting: it promises updates exactly when they are being switched on. */
  lemma ToggleMessageDescribesNewSetting(wasEnabled: bool)
    ensures ToggleMessage(wasEnabled) == NotificationsOnMessage <==> !wasEnabled
    ensures ToggleMessage(wasEnabled) == NotificationsOffMessage <==> wasEnabled
  {
  }

  // ---------------------------------------------------------------------------
  // The panel's parts
  // ---------------------------------------------------------------------------

  /** "Delayed by {delay_minutes} minutes" */
  function DelayWarningText(minutes: int): string {
    "Delayed by " + IntToString(minutes) + " minutes"
  }

  /** The `delay_minutes` column as a JavaScript value. */
  function DelayColumn(delayMinutes: Option<int>): JsValue {
    if delayMinutes.None? then Null else Num(delayMinutes.value)
  }

  /** `{flight.delay_minutes && flight.delay_minutes > 0 && (<div>…</div>)}`, as the panel writes it. */
  function DelayWarningAsWritten(delayMinutes: Option<int>): Child<string> {
    var guard := And(DelayColumn(delayMinutes), Bool(delayMinutes.Some? && delayMinutes.value > 0));
    Guarded(guard, DelayWarningText(if delayMinutes.Some? then delayMinutes.value else 0))
  }

  /**
   * As written, the warning area shows something for every delay of zero minutes or more: a
   * positive delay draws the warning, and a delay of exactly zero the bare text "0".
   */
  lemma DelayWarningAsWrittenShowsZero(delayMinutes: Option<int>)
    ensures Visible(DelayWarningAsWritten(delayMinutes)) <==> delayMinutes.Some? && delayMinutes.value >= 0
    ensures DelayWarningAsWritten(Some(0)) == Chars("0")
  {
    var guard := And(DelayColumn(delayMinutes), Bool(delayMinutes.Some? && delayMinutes.value > 0));
    GuardedShows(guard, DelayWarningText(if delayMinutes.Some? then delayMinutes.value else 0));
    GuardedShows(Num(0), DelayWarningText(0));
  }

  /** The delay warning as intended: drawn for a positive delay, nothing otherwise. */
  function DelayWarning(delayMinutes: Option<int>): Child<string> {
    if delayMinutes.Some? && delayMinutes.value > 0 then Node(DelayWarningText(delayMinutes.value)) else Nothing
  }

  /**
   * The intended warning shows exactly for a positive delay and names its minutes; it differs
   * from the warning as written only for a delay of zero.
   */
  lemma DelayWarningShowsPositiveDelay(delayMinutes: Option<int>)
    ensures Visible(DelayWarning(delayMinutes)) <==> delayMinutes.Some? && delayMinutes.value > 0
    ensures DelayWarning(delayMinutes).Node? ==>
      var text := DelayWarning(delayMinutes).node;
      text[..11] == "Delayed by " && ParseInt(text[11..]) == delayMinutes
    ensures delayMinutes != Some(0) ==> DelayWarningAsWritten(delayMinutes) == DelayWarning(delayMinutes)
  {
    if delayMinutes.Some? && delayMinutes.value > 0 {
      var m := delayMinutes.value;
      assert DelayWarningText(m)[11..] == IntToString(m) + " minutes";
      ParseIntOfIntToString(m, " minutes");
    }
  }

  /** `{flight.gate && (<p>Gate: …</p>)}` */
  function GateLine(gate: Option<string>): Child<string> {
    Guarded(if gate.None? then Null else Str(gate.value), if gate.Some? then gate.value else [])
  }

  /** The gate line shows exactly when a gate is set and not empty, and then it names that gate. */
  lemma GateLineShowsSetGate(gate: Option<string>)
    ensures Visible(GateLine(gate)) <==> gate.Some? && gate.value != []
    ensures GateLine(gate).Node? ==> gate == Some(GateLine(gate).node)
  {
  }

  /** One entry of the updates timeline. */
  datatype TimelineEntry = TimelineEntry(key: string, icon: UpdateIcon, message: string, at: int)

  function EntryOf(u: FlightUpdate): TimelineEntry {
    TimelineEntry(u.id, UpdateIconOf(u.updateType), u.message, u.createdAt)
  }

  /** `{updates.length > 0 && (… updates.map(…) …)}` */
  function Timeline(updates: seq<FlightUpdate>): Child<seq<TimelineEntry>> {
    Guarded(Bool(|updates| > 0), seq(|updates|, i requires 0 <= i < |updates| => EntryOf(updates[i])))
  }

  /** The timeline shows exactly when there are updates, one entry per update in the same order. */
  lemma TimelineListsUpdates(updates: seq<FlightUpdate>)
    ensures Timeline(updates).Node? <==> |updates| > 0
    ensures Timeline(updates).Node? ==>
      var entries := Timeline(updates).node;
      |entries| == |updates| &&
      forall i :: 0 <= i < |updates| ==> entries[i].message == updates[i].message && entries[i].icon == UpdateIconOf(updates[i].updateType)
    ensures !Visible(Timeline([]))
  {
  }

  /** What the panel draws. */
  datatype Screen =
    | Spinner
    | Unavailable
    | Panel(
        flightNumber: string,
        airline: string,
        badge: StatusConfig,
        bellOn: bool,
        bellTitle: string,
        delayWarning: Child<string>,
        originCode: string,
        origin: string,
        destinationCode: string,
        destination: string,
        gateLine: Child<string>,
        timeline: Child<seq<TimelineEntry>>)

  /** The panel for a loaded flight. */
  function PanelOf(flight: DbFlight, updates: seq<FlightUpdate>, notificationsEnabled: bool): Screen {
    Panel(
      flight.flightNumber,
      flight.airline,
      StatusConfigOf(flight.status),
      notificationsEnabled,
      if notificationsEnabled then "Disable notifications" else "Enable notifications",
      DelayWarningAsWritten(flight.delayMinutes),
      flight.originCode,
      flight.origin,
      flight.destinationCode,
      flight.destination,
      GateLine(flight.gate),
      Timeline(updates))
  }

  // ---------------------------------------------------------------------------
  // The component
  // ---------------------------------------------------------------------------

  class FlightStatusPanel {
    /** The `flightId` prop. */
    const flightId: string
    /** `flight` */
    var flight: Option<DbFlight>
    /** `updates`, newest first */
    var updates: seq<FlightUpdate>
    /** `notificationsEnabled` */
    var notificationsEnabled: bool
    /** `loading` */
    var loading: bool
    /** The toasts raised, oldest first. */
    var toasts: seq<Toast>

    /** The panel only ever holds its own flight and that flight's updates. */
    ghost predicate Valid()
      reads this
    {
      && (flight.Some? ==> flight.value.id == flightId)
      && (forall u :: u in updates ==> u.flightId == flightId)
    }

    /** The initial state: no flight, no updates, notifications off, loading. */
    constructor (flightId: string)
      ensures Valid()
      ensures this.flightId == flightId
      ensures flight == None && updates == [] && !notificationsEnabled && loading && toasts == []
    {
      this.flightId := flightId;
      flight := None;
      updates := [];
      notificationsEnabled := false;
      loading := true;
      toasts := [];
    }

    /**
     * `fetchFlight`: an answer sets the flight (null when no row has the id); an error object
     * keeps the flight; either way loading ends. A rejected call throws before loading ends.
     */
    method FetchFlight(flights: seq<DbFlight>, reply: Reply)
      requires Valid()
      modifies this
      ensures Valid()
      ensures reply == Answered ==> flight == FlightById(flights, flightId)
      ensures reply != Answered ==> flight == old(flight)
      ensures loading == (reply == Rejected && old(loading))
      ensures updates == old(updates) && notificationsEnabled == old(notificationsEnabled) && toasts == old(toasts)
    {
      if reply == Rejected {
        return;
      }
      if reply == Answered {
        flight := FlightById(flights, flightId);
      }
      loading := false;
    }

    /**
     * `fetchUpdates`: an answer replaces the updates with the flight's ten newest; an error
     * object or a rejected call keeps them.
     */
    method FetchUpdates(table: seq<FlightUpdate>, reply: Reply)
      requires Valid()
      modifies this
      ensures Valid()
      ensures reply == Answered ==> updates == RecentUpdates(table, flightId)
      ensures reply != Answered ==> updates == old(updates)
      ensures |updates| <= 10 || updates == old(updates)
      ensures flight == old(flight) && loading == old(loading) && notificationsEnabled == old(notificationsEnabled) && toasts == old(toasts)
    {
      if reply == Answered {
        RecentUpdatesAreNewest(table, flightId);
        updates := RecentUpdates(table, flightId);
      }
    }

    /**
     * The `UPDATE` event on the flight's row: the new row replaces the flight as a whole, and an
     * info toast is raised. The channel's filter delivers only this flight's row.
     */
    method OnFlightUpdated(row: DbFlight)
      requires Valid() && row.id == flightId
      modifies this
      ensures Valid()
      ensures flight == Some(row)
      ensures toasts == old(toasts) + [Toast(Info, FlightUpdatedMessage)]
      ensures updates == old(updates) && loading == old(loading) && notificationsEnabled == old(notificationsEnabled)
    {
      flight := Some(row);
      toasts := toasts + [Toast(Info, FlightUpdatedMessage)];
    }

    /**
     * The `INSERT` event on the flight's updates: the new update goes in front, with no limit
     * on the length, and its toast is raised. The channel's filter delivers only this flight's updates.
     */
    method OnUpdateInserted(u: FlightUpdate)
      requires Valid() && u.flightId == flightId
      modifies this
      ensures Valid()
      ensures updates == [u] + old(updates)
      ensures toasts == old(toasts) + [ToastFor(u)]
      ensures flight == old(flight) && loading == old(loading) && notificationsEnabled == old(notificationsEnabled)
    {
      updates := [u] + updates;
      toasts := toasts + [ToastFor(u)];
    }

    /** `toggleNotifications`: flips the switch and raises a success toast chosen from the old value. */
    method ToggleNotifications()
      modifies this
      ensures notificationsEnabled == !old(notificationsEnabled)
      ensures toasts == old(toasts) + [Toast(Success, ToggleMessage(old(notificationsEnabled)))]
      ensures flight == old(flight) && updates == old(updates) && loading == old(loading)
    {
      toasts := toasts + [Toast(Success, ToggleMessage(notificationsEnabled))];
      notificationsEnabled := !notificationsEnabled;
    }

    /** The screen: a spinner while loading, a notice when there is no flight, otherwise the panel. */
    function View(): (s: Screen)
      reads this
      ensures s.Spinner? <==> loading
      ensures s.Unavailable? <==> !loading && flight.None?
      ensures s.Panel? ==> s == PanelOf(flight.value, updates, notificationsEnabled)
    {
      if loading then Spinner
      else if flight.None? then Unavailable
      else PanelOf(flight.value, updates, notificationsEnabled)
    }
  }

  /**
   * A loaded panel shows the badge of the flight's status and a timeline exactly when there are
   * updates. Its delay area shows something for every delay of zero or more: the text "0" for a
   * zero delay, and otherwise exactly the intended warning.
   */
  lemma PanelShowsFlight(flight: DbFlight, updates: seq<FlightUpdate>, notificationsEnabled: bool)
    ensures var p := PanelOf(flight, updates, notificationsEnabled);
      && p.badge == StatusConfigOf(flight.status)
      && (Visible(p.delayWarning) <==> flight.delayMinutes.Some? && flight.delayMinutes.value >= 0)
      && (flight.delayMinutes == Some(0) ==> p.delayWarning == Chars("0"))
      && (flight.delayMinutes != Some(0) ==> p.delayWarning == DelayWarning(flight.delayMinutes))
      && (p.timeline.Node? <==> |updates| > 0)
      && (p.bellOn <==> p.bellTitle == "Disable notifications")
      && p.originCode == flight.originCode && p.origin == flight.origin
      && p.destinationCode == flight.destinationCode && p.destination == flight.destination
  {
    DelayWarningAsWrittenShowsZero(flight.delayMinutes);
    DelayWarningShowsPositiveDelay(flight.delayMinutes);
    TimelineListsUpdates(updates);
  }
}
