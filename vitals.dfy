/**
 * The vitals monitoring engine of server/vitals.js: the periodic heartbeat
 * sweep, the low-battery throttler and the heartbeat webhook, over an
 * in-memory store that stands for the database and the alert dispatcher.
 */
module Vitals {
  import opened Wrappers
  import opened Records

  // ---------------------------------------------------------------------
  // Messages, dispatcher calls and log entries
  // ---------------------------------------------------------------------

  /** The message templates this engine sends, with the parameters they are filled with. */
  datatype Message =
    | SensorDisconnectionInitial(deviceDisplayName: string, locationid: LocationId, language: string)
    | SensorDisconnectionReminder(deviceDisplayName: string, locationid: LocationId, language: string)
    | SensorReconnection(deviceDisplayName: string, locationid: LocationId, language: string)
    | SensorLowBatteryInitial(deviceDisplayName: string, language: string)

  /** One call of the dispatcher's `sendSingleAlert(to, from, message)`. */
  datatype Notice = Notice(to: PhoneNumber, from: PhoneNumber, message: Message)

  /**
   * The steps of the low-battery transaction that can throw. A throw from the
   * clock read or the timeout setting, before BEGIN, has the same effect as a
   * throw at `BeginTransaction`.
   */
  datatype TxStep = BeginTransaction | ReadLocation | SendNotice | UpdateAlertTime | CommitTransaction

  /** What made a transaction roll back. */
  datatype TxError = StepFailed(step: TxStep) | NoSuchLocation

  /** What the engine logs (to Sentry or the console). */
  datatype LogEntry =
    | DoorSensorDown(locationid: LocationId)
    | RadarSensorDown(locationid: LocationId)
    | SensorReconnected(locationid: LocationId, resetReason: string)
    | HeartbeatCheckError(locationid: LocationId)
    | LowBatteryReceived(locationid: LocationId)
    | RolledBack(cause: TxError)
    | RollbackFailed(cause: TxError)
    | BadHeartbeatRequest
    | NoLocationForCoreId(coreId: string)
    | HeartbeatCallError

  // ---------------------------------------------------------------------
  // Recipient fan-out (sendSingleAlert)
  // ---------------------------------------------------------------------

  /** One notice per recipient, in order, all from the same sender. */
  function FanOut(recipients: seq<PhoneNumber>, from: PhoneNumber, message: Message): (notices: seq<Notice>)
    ensures |notices| == |recipients|
    ensures forall k :: 0 <= k < |recipients| ==> notices[k] == Notice(recipients[k], from, message)
  {
    if recipients == [] then []
    else [Notice(recipients[0], from, message)] + FanOut(recipients[1..], from, message)
  }

  /** Fanning out to one more recipient adds one notice at the end. */
  lemma FanOutSnoc(recipients: seq<PhoneNumber>, to: PhoneNumber, from: PhoneNumber, message: Message)
    ensures FanOut(recipients + [to], from, message) == FanOut(recipients, from, message) + [Notice(to, from, message)]
  {
    var a, b := FanOut(recipients + [to], from, message), FanOut(recipients, from, message) + [Notice(to, from, message)];
    assert |a| == |b|;
    forall k | 0 <= k < |a| ensures a[k] == b[k] {
      assert (recipients + [to])[k] == if k < |recipients| then recipients[k] else to;
    }
  }

  /** Everyone `sendSingleAlert` writes to: the responder numbers, then the heartbeat numbers. */
  function AlertRecipients(client: Client): seq<PhoneNumber>
  {
    client.responderPhoneNumbers + client.heartbeatPhoneNumbers
  }

  /** The notices `sendSingleAlert` hands to the dispatcher for a location of this client. */
  function ClientNotices(client: Client, message: Message): seq<Notice>
  {
    FanOut(AlertRecipients(client), client.fromPhoneNumber, message)
  }

  // ---------------------------------------------------------------------
  // Table lookups and writes (the database queries the engine calls)
  // ---------------------------------------------------------------------

  /** No two location rows share a locationid (it is the table's key). */
  ghost predicate UniqueIds(t: seq<Location>)
  {
    forall a, b :: 0 <= a < b < |t| ==> t[a].locationid != t[b].locationid
  }

  /** The index of the row with this locationid, or -1. */
  function FindLocation(t: seq<Location>, id: LocationId): (k: int)
    ensures -1 <= k < |t|
    ensures k >= 0 ==> t[k].locationid == id && forall j :: 0 <= j < k ==> t[j].locationid != id
    ensures k < 0 ==> forall j :: 0 <= j < |t| ==> t[j].locationid != id
  {
    if t == [] then -1
    else if t[0].locationid == id then 0
    else
      var k := FindLocation(t[1..], id);
      if k < 0 then -1 else k + 1
  }

  /** `db.getLocationData(locationid)`: the row, or `None` for `null`. */
  function LocationById(t: seq<Location>, id: LocationId): Option<Location>
  {
    var k := FindLocation(t, id);
    if k < 0 then None else Some(t[k])
  }

  /** `db.getLocationFromParticleCoreID(coreId)`: the first row whose radar core is `coreId`. */
  function LocationByCoreId(t: seq<Location>, coreId: string): (r: Option<Location>)
    ensures r.Some? ==> r.value in t && r.value.radarCoreId == coreId
    ensures r.None? ==> forall k :: 0 <= k < |t| ==> t[k].radarCoreId != coreId
  {
    if t == [] then None
    else if t[0].radarCoreId == coreId then Some(t[0])
    else LocationByCoreId(t[1..], coreId)
  }

  /** `db.updateSentAlerts`: sets (or clears) `sentVitalsAlertAt` of the row with this id. */
  function WithVitalsAlertAt(t: seq<Location>, id: LocationId, at: Option<Time>): seq<Location>
  {
    seq(|t|, j requires 0 <= j < |t| => if t[j].locationid == id then t[j].(sentVitalsAlertAt := at) else t[j])
  }

  /** `db.updateLowBatteryAlertTime`: stamps `sentLowBatteryAlertAt` of the row with this id. */
  function WithLowBatteryAlertAt(t: seq<Location>, id: LocationId, at: Time): seq<Location>
  {
    seq(|t|, j requires 0 <= j < |t| => if t[j].locationid == id then t[j].(sentLowBatteryAlertAt := Some(at)) else t[j])
  }

  /** `db.getMostRecentSensorsVitalWithLocationid`: the last row appended for this location. */
  function MostRecentVital(vitals: seq<SensorVital>, id: LocationId): (r: Option<SensorVital>)
    ensures r.None? <==> forall k :: 0 <= k < |vitals| ==> vitals[k].locationid != id
    ensures r.Some? ==> exists k :: 0 <= k < |vitals| && vitals[k] == r.value && r.value.locationid == id
                          && forall k' :: k < k' < |vitals| ==> vitals[k'].locationid != id
  {
    if vitals == [] then None
    else if vitals[|vitals| - 1].locationid == id then Some(vitals[|vitals| - 1])
    else MostRecentVital(vitals[..|vitals| - 1], id)
  }

  /** `db.getActiveFirmwareStateMachineLocations`: the rows in firmware-state-machine mode, in table order. */
  function StateMachineLocations(t: seq<Location>): (r: seq<Location>)
    ensures forall l :: l in r ==> l in t && l.firmwareStateMachine
    ensures forall l :: l in t && l.firmwareStateMachine ==> l in r
  {
    if t == [] then []
    else if t[0].firmwareStateMachine then [t[0]] + StateMachineLocations(t[1..])
    else StateMachineLocations(t[1..])
  }

  // ---------------------------------------------------------------------
  // Time
  // ---------------------------------------------------------------------

  /** `differenceInSeconds(date1, date2)`: luxon's difference in (fractional) seconds. */
  function DifferenceInSeconds(date1: Time, date2: Time): real
  {
    (date1 - date2) as real / 1000.0
  }

  /** `delay > threshold` with the delay in seconds: strict, and the same as comparing milliseconds. */
  function HeartbeatExceeded(now: Time, lastSeen: Time, thresholdSeconds: nat): (exceeded: bool)
    ensures exceeded <==> now - lastSeen > thresholdSeconds * 1000
  {
    DifferenceInSeconds(now, lastSeen) > thresholdSeconds as real
  }

  // ---------------------------------------------------------------------
  // The heartbeat sweep (checkHeartbeat)
  // ---------------------------------------------------------------------

  /** DOOR_THRESHOLD_SECONDS, RADAR_THRESHOLD_SECONDS and SUBSEQUENT_VITALS_ALERT_THRESHOLD. */
  datatype VitalsConfig = VitalsConfig(
    doorThresholdSeconds: nat,
    radarThresholdSeconds: nat,
    subsequentVitalsAlertThresholdSeconds: nat)

  /** Which statement the sweep might throw at for a location. */
  datatype SweepFault = VitalReadFails | AlertWriteFails

  /** One run of the sweep: the database time read once before the loop, the settings, injected failures. */
  datatype Sweep = Sweep(now: Time, cfg: VitalsConfig, faults: map<LocationId, SweepFault>)
  {
    function FaultAt(id: LocationId): Option<SweepFault>
    {
      if id in faults then Some(faults[id]) else None
    }
  }

  /** What the sweep decides for one location. */
  datatype Decision =
    | NoAction
    | Disconnect(doorDown: bool, radarDown: bool)
    | Remind
    | Reconnect(resetReason: string)

  /** The loop skips a location unless it and its client are active. */
  predicate Monitored(loc: Location)
  {
    loc.isActive && loc.client.isActive
  }

  /** The decision ladder of one loop iteration when nothing throws. */
  function Decide(loc: Location, vital: Option<SensorVital>, now: Time, cfg: VitalsConfig): (d: Decision)
    ensures !d.NoAction? ==> Monitored(loc) && vital.Some?
    ensures d.Disconnect? ==> loc.sentVitalsAlertAt.None? && (d.doorDown || d.radarDown)
    ensures d == Remind ==>
      loc.sentVitalsAlertAt.Some? && now - loc.sentVitalsAlertAt.value > cfg.subsequentVitalsAlertThresholdSeconds * 1000
    ensures d.Reconnect? ==> loc.sentVitalsAlertAt.Some? && vital.Some? && d.resetReason == vital.value.resetReason
  {
    if !Monitored(loc) || vital.None? then NoAction
    else
      var radarExceeded := HeartbeatExceeded(now, vital.value.createdAt, cfg.radarThresholdSeconds);
      var doorExceeded := HeartbeatExceeded(now, vital.value.doorLastSeenAt, cfg.doorThresholdSeconds);
      if doorExceeded || radarExceeded then
        if loc.sentVitalsAlertAt.None? then Disconnect(doorExceeded, radarExceeded)
        else if now - loc.sentVitalsAlertAt.value > cfg.subsequentVitalsAlertThresholdSeconds * 1000 then Remind
        else NoAction
      else if loc.sentVitalsAlertAt.Some? then Reconnect(vital.value.resetReason)
      else NoAction
  }

  /** The value `updateSentAlerts` writes for a decision. */
  function DecisionAlertAt(loc: Location, d: Decision, now: Time): Option<Time>
  {
    match d
    case NoAction => loc.sentVitalsAlertAt
    case Disconnect(_, _) => Some(now)
    case Remind => Some(now)
    case Reconnect(_) => None
  }

  /** The message a decision sends. */
  function DecisionMessage(loc: Location, d: Decision): Message
    requires !d.NoAction?
  {
    match d
    case Disconnect(_, _) => SensorDisconnectionInitial(loc.displayName, loc.locationid, loc.client.language)
    case Remind => SensorDisconnectionReminder(loc.displayName, loc.locationid, loc.client.language)
    case Reconnect(_) => SensorReconnection(loc.displayName, loc.locationid, loc.client.language)
  }

  /** What a decision logs before it writes. */
  function DecisionLogs(loc: Location, d: Decision): seq<LogEntry>
  {
    match d
    case Disconnect(door, radar) =>
      (if door then [DoorSensorDown(loc.locationid)] else []) + (if radar then [RadarSensorDown(loc.locationid)] else [])
    case Reconnect(reason) => [SensorReconnected(loc.locationid, reason)]
    case _ => []
  }

  /** The effect of one loop iteration on its location. */
  datatype StepResult = StepResult(sentVitalsAlertAt: Option<Time>, message: Option<Message>, logs: seq<LogEntry>)

  /**
   * One iteration of the sweep's loop, with its try/catch: a throw from the
   * vitals read or from the write is logged and leaves the row as it was.
   */
  function SweepStep(loc: Location, vitals: seq<SensorVital>, sweep: Sweep): (r: StepResult)
    ensures r.message.None? ==> r.sentVitalsAlertAt == loc.sentVitalsAlertAt
  {
    if !Monitored(loc) then StepResult(loc.sentVitalsAlertAt, None, [])
    else if sweep.FaultAt(loc.locationid) == Some(VitalReadFails) then
      StepResult(loc.sentVitalsAlertAt, None, [HeartbeatCheckError(loc.locationid)])
    else
      var d := Decide(loc, MostRecentVital(vitals, loc.locationid), sweep.now, sweep.cfg);
      if d.NoAction? then StepResult(loc.sentVitalsAlertAt, None, [])
      else if sweep.FaultAt(loc.locationid) == Some(AlertWriteFails) then
        StepResult(loc.sentVitalsAlertAt, None, DecisionLogs(loc, d) + [HeartbeatCheckError(loc.locationid)])
      else StepResult(DecisionAlertAt(loc, d, sweep.now), Some(DecisionMessage(loc, d)), DecisionLogs(loc, d))
  }

  /** The notices one iteration dispatches. */
  function StepNotices(loc: Location, step: StepResult): seq<Notice>
  {
    if step.message.Some? then ClientNotices(loc.client, step.message.value) else []
  }

  /** A row after its iteration of the sweep. */
  function SweptRow(loc: Location, vitals: seq<SensorVital>, sweep: Sweep): Location
  {
    loc.(sentVitalsAlertAt := SweepStep(loc, vitals, sweep).sentVitalsAlertAt)
  }

  /** The table after the sweep: every firmware-state-machine row has had its iteration. */
  function SweptTable(t: seq<Location>, vitals: seq<SensorVital>, sweep: Sweep): (r: seq<Location>)
    ensures |r| == |t|
    ensures forall j :: 0 <= j < |t| ==> r[j] == t[j].(sentVitalsAlertAt := r[j].sentVitalsAlertAt)
    ensures forall j :: 0 <= j < |t| && (!t[j].firmwareStateMachine || !Monitored(t[j])) ==> r[j] == t[j]
  {
    seq(|t|, j requires 0 <= j < |t| => if t[j].firmwareStateMachine then SweptRow(t[j], vitals, sweep) else t[j])
  }

  /** The table once the rows whose ids are in `done` have had their iteration. */
  ghost function PartlySwept(t: seq<Location>, done: set<LocationId>, vitals: seq<SensorVital>, sweep: Sweep): seq<Location>
  {
    seq(|t|, j requires 0 <= j < |t| => if t[j].locationid in done then SweptRow(t[j], vitals, sweep) else t[j])
  }

  /** Everything the sweep dispatches, location by location in loop order. */
  function SweepNotices(snapshot: seq<Location>, vitals: seq<SensorVital>, sweep: Sweep): seq<Notice>
  {
    if snapshot == [] then []
    else
      var last := snapshot[|snapshot| - 1];
      SweepNotices(snapshot[..|snapshot| - 1], vitals, sweep) + StepNotices(last, SweepStep(last, vitals, sweep))
  }

  /** Everything the sweep logs, location by location in loop order. */
  function SweepLogs(snapshot: seq<Location>, vitals: seq<SensorVital>, sweep: Sweep): seq<LogEntry>
  {
    if snapshot == [] then []
    else
      var last := snapshot[|snapshot| - 1];
      SweepLogs(snapshot[..|snapshot| - 1], vitals, sweep) + SweepStep(last, vitals, sweep).logs
  }

  ghost function IdsOf(s: seq<Location>): set<LocationId>
  {
    set l | l in s :: l.locationid
  }

  // ---------------------------------------------------------------------
  // The low-battery throttler (sendLowBatteryAlert)
  // ---------------------------------------------------------------------

  /** Where an injected failure strikes the low-battery transaction. */
  datatype TxFault = NoTxFault | FailsAt(step: TxStep)

  /** The notice is due: location and client active, and no earlier notice within the timeout (non-strict). */
  predicate LowBatteryDue(loc: Location, now: Time, timeoutSeconds: nat)
    ensures LowBatteryDue(loc, now, timeoutSeconds) ==> Monitored(loc)
    ensures loc.sentLowBatteryAlertAt.None? ==> (LowBatteryDue(loc, now, timeoutSeconds) <==> Monitored(loc))
  {
    loc.isActive && loc.client.isActive
    && (loc.sentLowBatteryAlertAt.None? || now - loc.sentLowBatteryAlertAt.value >= timeoutSeconds * 1000)
  }

  function LowBatteryMessage(loc: Location): Message
  {
    SensorLowBatteryInitial(loc.displayName, loc.client.language)
  }

  /** The error, if any, that ends the transaction and makes it roll back. */
  function LowBatteryError(t: seq<Location>, id: LocationId, now: Time, timeoutSeconds: nat, fault: TxFault): (e: Option<TxError>)
    ensures LocationById(t, id).None? ==> e.Some?
    ensures fault == NoTxFault ==> (e.None? <==> LocationById(t, id).Some?)
    ensures e.Some? && e.value.StepFailed? ==> fault == FailsAt(e.value.step)
    ensures fault == FailsAt(CommitTransaction) ==> e.Some?
  {
    if fault == FailsAt(BeginTransaction) || fault == FailsAt(ReadLocation) then Some(StepFailed(fault.step))
    else match LocationById(t, id)
      case None => Some(NoSuchLocation)
      case Some(loc) =>
        if LowBatteryDue(loc, now, timeoutSeconds) && (fault == FailsAt(SendNotice) || fault == FailsAt(UpdateAlertTime)) then
          Some(StepFailed(fault.step))
        else if fault == FailsAt(CommitTransaction) then Some(StepFailed(CommitTransaction))
        else None
  }

  /** The whole effect of one call: the table afterwards, the notices dispatched, the log entries. */
  datatype LowBatteryRun = LowBatteryRun(locations: seq<Location>, notices: seq<Notice>, logs: seq<LogEntry>)

  function LowBatteryEffect(t: seq<Location>, id: LocationId, now: Time, timeoutSeconds: nat, fault: TxFault, rollbackSucceeds: bool)
    : (r: LowBatteryRun)
    ensures LowBatteryError(t, id, now, timeoutSeconds, fault).Some? ==> r.locations == t
    ensures r.notices != [] ==>
      LocationById(t, id).Some? && LowBatteryDue(LocationById(t, id).value, now, timeoutSeconds)
  {
    var err := LowBatteryError(t, id, now, timeoutSeconds, fault);
    var found := LocationById(t, id);
    var due := found.Some? && LowBatteryDue(found.value, now, timeoutSeconds);
    var sent := due && err != Some(StepFailed(SendNotice))
                    && err != Some(StepFailed(BeginTransaction)) && err != Some(StepFailed(ReadLocation));
    LowBatteryRun(
      if err.None? && due then WithLowBatteryAlertAt(t, id, now) else t,
      if sent then ClientNotices(found.value.client, LowBatteryMessage(found.value)) else [],
      (if due && err != Some(StepFailed(BeginTransaction)) && err != Some(StepFailed(ReadLocation))
       then [LowBatteryReceived(id)] else [])
      + (if err.None? then [] else if rollbackSucceeds then [RolledBack(err.value)] else [RollbackFailed(err.value)]))
  }

  // ---------------------------------------------------------------------
  // The heartbeat webhook (handleHeartbeat, convertStateArrayToObject)
  // ---------------------------------------------------------------------

  const StatesTable: seq<string> := ["idle", "initial_timer", "duration_timer", "stillness_timer"]
  const ReasonsTable: seq<string> := ["movement", "no_movement", "door_open", "initial_timer", "duration_alert", "stillness_alert"]

  /** `statesTable[i]`; out of range reads `undefined`. */
  function StateAt(i: int): (s: Option<SensorState>)
    ensures s.Some? <==> 0 <= i < |StatesTable|
    ensures s.Some? ==> s.value.Name() == StatesTable[i]
  {
    var table := [Idle, InitialTimer, DurationTimer, StillnessTimer];
    if 0 <= i < |table| then Some(table[i]) else None
  }

  /** `reasonsTable[i]`; out of range reads `undefined`. */
  function ReasonAt(i: int): (r: Option<TransitionReason>)
    ensures r.Some? <==> 0 <= i < |ReasonsTable|
    ensures r.Some? ==> r.value.Name() == ReasonsTable[i]
  {
    var table := [Movement, NoMovement, DoorOpen, InitialTimerReason, DurationAlert, StillnessAlert];
    if 0 <= i < |table| then Some(table[i]) else None
  }

  /** `convertStateArrayToObject`: names the state and the reason, keeps the time. */
  function ConvertStateArrayToObject(raw: RawStateTransition): (t: StateTransition)
    ensures t.time == raw.time
    ensures t.state.Some? <==> 0 <= raw.stateIndex < 4
    ensures t.reason.Some? <==> 0 <= raw.reasonIndex < 6
  {
    StateTransition(StateAt(raw.stateIndex), ReasonAt(raw.reasonIndex), raw.time)
  }

  /** `message.states.map(convertStateArrayToObject)`. */
  function DecodeStates(raws: seq<RawStateTransition>): (decoded: seq<StateTransition>)
    ensures |decoded| == |raws|
    ensures forall k :: 0 <= k < |raws| ==> decoded[k] == ConvertStateArrayToObject(raws[k])
  {
    if raws == [] then [] else [ConvertStateArrayToObject(raws[0])] + DecodeStates(raws[1..])
  }

  /**
   * The door-last-seen time: a copy of the database time whose millisecond
   * field is set to `getMilliseconds() - doorLastHeartbeat` (JavaScript
   * carries the overflow into the seconds).
   */
  function DoorLastSeenAt(currentDbTime: Time, doorLastHeartbeat: int): (t: Time)
    ensures t == currentDbTime - doorLastHeartbeat
  {
    var milliseconds := currentDbTime % 1000;
    (currentDbTime - milliseconds) + (milliseconds - doorLastHeartbeat)
  }

  /** The JSON the device sends in `data`, once parsed. */
  datatype HeartbeatPayload = HeartbeatPayload(
    resetReason: string,
    doorMissedMsg: int,
    doorLowBatt: bool,
    doorLastHeartbeat: int,
    states: seq<RawStateTransition>)

  /** `data` either fails to parse (or has no `states` array) or parses to a payload. */
  datatype HeartbeatData = Unparseable | Parsed(payload: HeartbeatPayload)

  /** The webhook body: `coreid` and `data` may be missing. */
  datatype HeartbeatRequest = HeartbeatRequest(coreid: Option<string>, data: Option<HeartbeatData>)

  /** What the webhook answers in its body; the status is always 200. */
  datatype WebhookReply = Ok | ValidationFailed | UnknownCoreId(coreId: string) | CallFailed

  datatype WebhookResponse = WebhookResponse(status: nat, reply: WebhookReply)

  /** A database read of the webhook that throws: the core-id lookup, or the clock read once the location is found. */
  datatype ReadFault = NoReadFault | LookupFails | ClockFails

  /** The vitals row written for a payload received at `now`. */
  function VitalRow(locationid: LocationId, now: Time, p: HeartbeatPayload): SensorVital
  {
    SensorVital(locationid, now, DoorLastSeenAt(now, p.doorLastHeartbeat), p.doorMissedMsg, p.doorLowBatt,
                p.resetReason, DecodeStates(p.states))
  }

  // ---------------------------------------------------------------------
  // Facts about the table operations that the methods' proofs use
  // ---------------------------------------------------------------------

  /** Tables whose rows carry the same ids, index by index, are searched alike. */
  lemma FindLocationSameIds(t1: seq<Location>, t2: seq<Location>, id: LocationId)
    requires |t1| == |t2| && forall j :: 0 <= j < |t1| ==> t1[j].locationid == t2[j].locationid
    ensures FindLocation(t1, id) == FindLocation(t2, id)
  {
    var k1, k2 := FindLocation(t1, id), FindLocation(t2, id);
    assert k1 >= 0 ==> t2[k1].locationid == id;
    assert k2 >= 0 ==> t1[k2].locationid == id;
  }

  /** With unique ids, searching for a row's id finds that row. */
  lemma FindUnique(t: seq<Location>, k: nat)
    requires UniqueIds(t) && k < |t|
    ensures FindLocation(t, t[k].locationid) == k
  {
  }

  /** Writing the vitals alert time keeps every id and client and changes the one row. */
  lemma VitalsAlertWrite(t: seq<Location>, id: LocationId, at: Option<Time>)
    requires UniqueIds(t)
    ensures UniqueIds(WithVitalsAlertAt(t, id, at))
    ensures LocationById(t, id).Some? ==>
      LocationById(WithVitalsAlertAt(t, id, at), id) == Some(LocationById(t, id).value.(sentVitalsAlertAt := at))
  {
    FindLocationSameIds(t, WithVitalsAlertAt(t, id, at), id);
  }

  /** Writing the low-battery alert time keeps every id and changes the one row. */
  lemma LowBatteryAlertWrite(t: seq<Location>, id: LocationId, at: Time)
    requires UniqueIds(t)
    ensures UniqueIds(WithLowBatteryAlertAt(t, id, at))
    ensures LocationById(t, id).Some? ==>
      LocationById(WithLowBatteryAlertAt(t, id, at), id) == Some(LocationById(t, id).value.(sentLowBatteryAlertAt := Some(at)))
  {
    FindLocationSameIds(t, WithLowBatteryAlertAt(t, id, at), id);
  }

  /** The query's result keeps the table's unique ids. */
  lemma StateMachineLocationsUnique(t: seq<Location>)
    requires UniqueIds(t)
    ensures UniqueIds(StateMachineLocations(t))
  {
    if t != [] {
      StateMachineLocationsUnique(t[1..]);
      var rest := StateMachineLocations(t[1..]);
      forall l | l in rest ensures l.locationid != t[0].locationid {
        var m :| 0 <= m < |t[1..]| && t[1..][m] == l;
        assert t[m + 1] == l;
      }
    }
  }

  lemma AppendAssoc<T>(a: seq<T>, b: seq<T>, c: seq<T>)
    ensures (a + b) + c == a + (b + c)
  {
  }

  /** The notices and log entries of a loop prefix grow by one iteration's. */
  lemma SweepSnoc(snapshot: seq<Location>, i: nat, vitals: seq<SensorVital>, sweep: Sweep)
    requires i < |snapshot|
    ensures var step := SweepStep(snapshot[i], vitals, sweep);
      && SweepNotices(snapshot[..i + 1], vitals, sweep) == SweepNotices(snapshot[..i], vitals, sweep) + StepNotices(snapshot[i], step)
      && SweepLogs(snapshot[..i + 1], vitals, sweep) == SweepLogs(snapshot[..i], vitals, sweep) + step.logs
  {
    assert snapshot[..i + 1][..i] == snapshot[..i];
  }

  lemma IdsOfSnoc(s: seq<Location>, i: nat)
    requires i < |s|
    ensures IdsOf(s[..i + 1]) == IdsOf(s[..i]) + {s[i].locationid}
  {
    assert s[..i + 1] == s[..i] + [s[i]];
  }

  /**
   * One more iteration of the sweep: the row it visits is still as read,
   * and the iteration's write is the only change.
   */
  lemma SweepAdvance(t: seq<Location>, done: set<LocationId>, k: nat, vitals: seq<SensorVital>, sweep: Sweep)
    requires UniqueIds(t) && k < |t| && t[k].locationid !in done
    ensures UniqueIds(PartlySwept(t, done, vitals, sweep))
    ensures LocationById(PartlySwept(t, done, vitals, sweep), t[k].locationid) == Some(t[k])
    ensures var step := SweepStep(t[k], vitals, sweep);
      PartlySwept(t, done + {t[k].locationid}, vitals, sweep)
        == if step.message.Some? then WithVitalsAlertAt(PartlySwept(t, done, vitals, sweep), t[k].locationid, step.sentVitalsAlertAt)
           else PartlySwept(t, done, vitals, sweep)
  {
    var cur := PartlySwept(t, done, vitals, sweep);
    FindLocationSameIds(t, cur, t[k].locationid);
    FindUnique(t, k);
  }

  /** What the sweep touches: the table, the outbox and the log. */
  datatype SweepState = SweepState(locations: seq<Location>, outbox: seq<Notice>, log: seq<LogEntry>)

  /** The state after one iteration whose outcome is `step`: the row's write, its notices and its log lines. */
  function AfterStep(s: SweepState, loc: Location, step: StepResult): SweepState
  {
    SweepState(if step.message.Some? then WithVitalsAlertAt(s.locations, loc.locationid, step.sentVitalsAlertAt) else s.locations,
               s.outbox + StepNotices(loc, step),
               s.log + step.logs)
  }

  /** The sweep's state once the first `i` rows of `snapshot` have had their iteration. */
  ghost function SweptUpTo(start: SweepState, snapshot: seq<Location>, i: nat, vitals: seq<SensorVital>, sweep: Sweep): SweepState
    requires i <= |snapshot|
  {
    SweepState(PartlySwept(start.locations, IdsOf(snapshot[..i]), vitals, sweep),
               start.outbox + SweepNotices(snapshot[..i], vitals, sweep),
               start.log + SweepLogs(snapshot[..i], vitals, sweep))
  }

  /**
   * Iteration `i` of the sweep finds its row as the query read it in a table
   * with unique ids, and the row's step leads to the state after iteration `i`.
   */
  lemma SweepIteration(start: SweepState, snapshot: seq<Location>, i: nat, vitals: seq<SensorVital>, sweep: Sweep)
    requires UniqueIds(start.locations) && snapshot == StateMachineLocations(start.locations) && i < |snapshot|
    ensures UniqueIds(SweptUpTo(start, snapshot, i, vitals, sweep).locations)
    ensures LocationById(SweptUpTo(start, snapshot, i, vitals, sweep).locations, snapshot[i].locationid) == Some(snapshot[i])
    ensures SweptUpTo(start, snapshot, i + 1, vitals, sweep)
              == AfterStep(SweptUpTo(start, snapshot, i, vitals, sweep), snapshot[i], SweepStep(snapshot[i], vitals, sweep))
  {
    var t := start.locations;
    StateMachineLocationsUnique(t);
    var k :| 0 <= k < |t| && t[k] == snapshot[i];
    assert snapshot[i].locationid !in IdsOf(snapshot[..i]) by {
      forall l | l in snapshot[..i] ensures l.locationid != snapshot[i].locationid {
        var a :| 0 <= a < i && snapshot[a] == l;
      }
    }
    SweepAdvance(t, IdsOf(snapshot[..i]), k, vitals, sweep);
    IdsOfSnoc(snapshot, i);
    SweepSnoc(snapshot, i, vitals, sweep);
    var step := SweepStep(snapshot[i], vitals, sweep);
    AppendAssoc(start.outbox, SweepNotices(snapshot[..i], vitals, sweep), StepNotices(snapshot[i], step));
    AppendAssoc(start.log, SweepLogs(snapshot[..i], vitals, sweep), step.logs);
  }

  /** Before the first iteration the sweep's state is the state it started from. */
  lemma SweepStart(start: SweepState, snapshot: seq<Location>, vitals: seq<SensorVital>, sweep: Sweep)
    ensures SweptUpTo(start, snapshot, 0, vitals, sweep) == start
  {
    assert snapshot[..0] == [];
    assert IdsOf(snapshot[..0]) == {};
    assert PartlySwept(start.locations, {}, vitals, sweep) == start.locations;
  }

  /** After the last iteration the sweep's state is the swept table and everything the sweep sent and logged. */
  lemma SweepFinished(start: SweepState, vitals: seq<SensorVital>, sweep: Sweep)
    requires UniqueIds(start.locations)
    ensures var snapshot := StateMachineLocations(start.locations);
      && SweptUpTo(start, snapshot, |snapshot|, vitals, sweep)
           == SweepState(SweptTable(start.locations, vitals, sweep),
                         start.outbox + SweepNotices(snapshot, vitals, sweep),
                         start.log + SweepLogs(snapshot, vitals, sweep))
      && UniqueIds(SweptTable(start.locations, vitals, sweep))
  {
    var snapshot := StateMachineLocations(start.locations);
    assert snapshot[..|snapshot|] == snapshot;
    SweepComplete(start.locations, vitals, sweep);
  }

  /** Once every row the query returned has had its iteration, the table is the swept table. */
  lemma SweepComplete(t: seq<Location>, vitals: seq<SensorVital>, sweep: Sweep)
    requires UniqueIds(t)
    ensures PartlySwept(t, IdsOf(StateMachineLocations(t)), vitals, sweep) == SweptTable(t, vitals, sweep)
    ensures UniqueIds(SweptTable(t, vitals, sweep))
  {
    var swept := SweptTable(t, vitals, sweep);
    assert forall j :: 0 <= j < |t| ==> swept[j].locationid == t[j].locationid;
    var snapshot := StateMachineLocations(t);
    forall j | 0 <= j < |t| ensures t[j].locationid in IdsOf(snapshot) <==> t[j].firmwareStateMachine {
      if t[j].locationid in IdsOf(snapshot) {
        var l :| l in snapshot && l.locationid == t[j].locationid;
        var m :| 0 <= m < |t| && t[m] == l;
        assert m == j;
      }
      if t[j].firmwareStateMachine {
        assert t[j] in snapshot;
      }
    }
  }

  // ---------------------------------------------------------------------
  // The store: the database tables the engine touches and the dispatcher's outbox
  // ---------------------------------------------------------------------

  class Store {
    var locations: seq<Location>
    var sensorsVitals: seq<SensorVital>
    var outbox: seq<Notice>
    var log: seq<LogEntry>

    ghost predicate Valid()
      reads this
    {
      UniqueIds(locations)
    }

    constructor (locations: seq<Location>)
      requires UniqueIds(locations)
      ensures Valid()
      ensures this.locations == locations && sensorsVitals == [] && outbox == [] && log == []
    {
      this.locations := locations;
      sensorsVitals := [];
      outbox := [];
      log := [];
    }

    /** `sendSingleAlert`: re-reads the location, then one notice per responder and heartbeat number. */
    method SendSingleAlert(locationid: LocationId, message: Message) returns (found: bool)
      modifies this`outbox
      ensures locations == old(locations) && log == old(log)
      ensures found <==> LocationById(locations, locationid).Some?
      ensures outbox == old(outbox)
        + (if found then ClientNotices(LocationById(locations, locationid).value.client, message) else [])
    {
      var location := LocationById(locations, locationid);
      if location.None? {
        return false;
      }
      found := true;
      var client := location.value.client;
      var from := client.fromPhoneNumber;
      var responders, heartbeats := client.responderPhoneNumbers, client.heartbeatPhoneNumbers;
      ghost var outbox0 := outbox;
      for i := 0 to |responders|
        invariant outbox == outbox0 + FanOut(responders[..i], from, message)
      {
        assert responders[..i + 1] == responders[..i] + [responders[i]];
        FanOutSnoc(responders[..i], responders[i], from, message);
        AppendAssoc(outbox0, FanOut(responders[..i], from, message), [Notice(responders[i], from, message)]);
        outbox := outbox + [Notice(responders[i], from, message)];
      }
      assert responders[..|responders|] == responders + heartbeats[..0];
      for i := 0 to |heartbeats|
        invariant outbox == outbox0 + FanOut(responders + heartbeats[..i], from, message)
      {
        assert responders + heartbeats[..i + 1] == (responders + heartbeats[..i]) + [heartbeats[i]];
        FanOutSnoc(responders + heartbeats[..i], heartbeats[i], from, message);
        AppendAssoc(outbox0, FanOut(responders + heartbeats[..i], from, message), [Notice(heartbeats[i], from, message)]);
        outbox := outbox + [Notice(heartbeats[i], from, message)];
      }
      assert heartbeats[..|heartbeats|] == heartbeats;
    }

    /**
     * One iteration of the sweep's loop: skip an inactive location, else
     * read its latest vitals row, decide, log, write `sentVitalsAlertAt`,
     * then send. A failed read or write is logged and ends the iteration.
     */
    method CheckLocation(location: Location, sweep: Sweep)
      requires Valid()
      requires LocationById(locations, location.locationid) == Some(location)
      modifies this`locations, this`outbox, this`log
      ensures var step := SweepStep(location, sensorsVitals, sweep);
        && locations == (if step.message.Some? then WithVitalsAlertAt(old(locations), location.locationid, step.sentVitalsAlertAt)
                         else old(locations))
        && outbox == old(outbox) + StepNotices(location, step)
        && log == old(log) + step.logs
    {
      if !location.client.isActive || !location.isActive {
        return;
      }
      var id := location.locationid;
      var fault := sweep.FaultAt(id);
      if fault == Some(VitalReadFails) {
        log := log + [HeartbeatCheckError(id)];
        return;
      }
      var sensorsVital := MostRecentVital(sensorsVitals, id);
      var decision := Decide(location, sensorsVital, sweep.now, sweep.cfg);
      log := log + DecisionLogs(location, decision);
      if decision.NoAction? {
        return;
      }
      if fault == Some(AlertWriteFails) {
        log := log + [HeartbeatCheckError(id)];
        return;
      }
      var alertAt := DecisionAlertAt(location, decision, sweep.now);
      VitalsAlertWrite(locations, id, alertAt);
      locations := WithVitalsAlertAt(locations, id, alertAt);
      var _ := SendSingleAlert(id, DecisionMessage(location, decision));
    }

    /**
     * `checkHeartbeat`: one database time for the whole sweep, then each
     * firmware-state-machine location in turn; inactive ones are skipped and
     * a failure at one location is logged and does not stop the others.
     */
    method CheckHeartbeat(sweep: Sweep)
      requires Valid()
      modifies this`locations, this`outbox, this`log
      ensures Valid()
      ensures locations == SweptTable(old(locations), sensorsVitals, sweep)
      ensures outbox == old(outbox) + SweepNotices(StateMachineLocations(old(locations)), sensorsVitals, sweep)
      ensures log == old(log) + SweepLogs(StateMachineLocations(old(locations)), sensorsVitals, sweep)
    {
      var firmwareStateMachineLocations := StateMachineLocations(locations);
      ghost var start, vitals := SweepState(locations, outbox, log), sensorsVitals;
      SweepStart(start, firmwareStateMachineLocations, vitals, sweep);
      for i := 0 to |firmwareStateMachineLocations|
        invariant sensorsVitals == vitals
        invariant SweepState(locations, outbox, log) == SweptUpTo(start, firmwareStateMachineLocations, i, vitals, sweep)
      {
        var location := firmwareStateMachineLocations[i];
        SweepIteration(start, firmwareStateMachineLocations, i, vitals, sweep);
        CheckLocation(location, sweep);
      }
      SweepFinished(start, vitals, sweep);
    }

    /** Rolling back: the uncommitted writes are gone; the log says whether ROLLBACK itself succeeded. */
    method Rollback(committed: seq<Location>, cause: TxError, rollbackSucceeds: bool)
      modifies this`locations, this`log
      ensures locations == committed
      ensures log == old(log) + [if rollbackSucceeds then RolledBack(cause) else RollbackFailed(cause)]
      ensures outbox == old(outbox)
    {
      locations := committed;
      if rollbackSucceeds {
        log := log + [RolledBack(cause)];
      } else {
        log := log + [RollbackFailed(cause)];
      }
    }

    /**
     * `sendLowBatteryAlert`: inside one transaction, read the location and,
     * when the notice is due, send it and stamp `sentLowBatteryAlertAt`.
     */
    method SendLowBatteryAlert(locationid: LocationId, now: Time, timeoutSeconds: nat, fault: TxFault, rollbackSucceeds: bool)
      requires Valid()
      modifies this`locations, this`outbox, this`log
      ensures Valid()
      ensures var run := LowBatteryEffect(old(locations), locationid, now, timeoutSeconds, fault, rollbackSucceeds);
        locations == run.locations && outbox == old(outbox) + run.notices && log == old(log) + run.logs
    {
      var currentTime := now;
      var timeoutInMillis := timeoutSeconds * 1000;
      var committed := locations;
      ghost var err := LowBatteryError(committed, locationid, now, timeoutSeconds, fault);
      if fault == FailsAt(BeginTransaction) || fault == FailsAt(ReadLocation) {
        assert err == Some(StepFailed(fault.step));
        Rollback(committed, StepFailed(fault.step), rollbackSucceeds);
        return;
      }
      var found := LocationById(locations, locationid);
      if found.None? {
        assert err == Some(NoSuchLocation);
        Rollback(committed, NoSuchLocation, rollbackSucceeds);
        return;
      }
      var location := found.value;
      if location.isActive && location.client.isActive
         && (location.sentLowBatteryAlertAt.None? || currentTime - location.sentLowBatteryAlertAt.value >= timeoutInMillis)
      {
        assert LowBatteryDue(location, now, timeoutSeconds);
        log := log + [LowBatteryReceived(location.locationid)];
        if fault == FailsAt(SendNotice) {
          assert err == Some(StepFailed(SendNotice));
          Rollback(committed, StepFailed(SendNotice), rollbackSucceeds);
          return;
        }
        var _ := SendSingleAlert(location.locationid, SensorLowBatteryInitial(location.displayName, location.client.language));
        if fault == FailsAt(UpdateAlertTime) {
          assert err == Some(StepFailed(UpdateAlertTime));
          Rollback(committed, StepFailed(UpdateAlertTime), rollbackSucceeds);
          return;
        }
        LowBatteryAlertWrite(locations, location.locationid, currentTime);
        locations := WithLowBatteryAlertAt(locations, location.locationid, currentTime);
      } else {
        assert !LowBatteryDue(location, now, timeoutSeconds);
      }
      if fault == FailsAt(CommitTransaction) {
        assert err == Some(StepFailed(CommitTransaction));
        Rollback(committed, StepFailed(CommitTransaction), rollbackSucceeds);
        return;
      }
      assert err.None?;
    }

    /**
     * `handleHeartbeat`: validate, find the location by core id, parse the
     * payload, run the low-battery check, then append the vitals row. Every
     * path answers 200 so that the device cloud does not throttle the endpoint.
     */
    method HandleHeartbeat(req: HeartbeatRequest, currentDbTime: Time, lowBatteryTimeoutSeconds: nat,
                           readFault: ReadFault, lowBatteryFault: TxFault, rollbackSucceeds: bool, vitalWriteFails: bool)
      returns (res: WebhookResponse)
      requires Valid()
      modifies this
      ensures Valid()
      ensures res.status == 200
      ensures req.coreid.None? || req.data.None? ==>
        && res.reply == ValidationFailed && log == old(log) + [BadHeartbeatRequest]
        && locations == old(locations) && sensorsVitals == old(sensorsVitals) && outbox == old(outbox)
      ensures req.coreid.Some? && req.data.Some?
              && (readFault == LookupFails || (readFault == ClockFails && LocationByCoreId(old(locations), req.coreid.value).Some?)) ==>
        && res.reply == CallFailed && log == old(log) + [HeartbeatCallError]
        && locations == old(locations) && sensorsVitals == old(sensorsVitals) && outbox == old(outbox)
      ensures req.coreid.Some? && req.data.Some? && readFault != LookupFails && LocationByCoreId(old(locations), req.coreid.value).None? ==>
        && res.reply == UnknownCoreId(req.coreid.value) && log == old(log) + [NoLocationForCoreId(req.coreid.value)]
        && locations == old(locations) && sensorsVitals == old(sensorsVitals) && outbox == old(outbox)
      ensures req.coreid.Some? && req.data == Some(Unparseable) && readFault == NoReadFault
              && LocationByCoreId(old(locations), req.coreid.value).Some? ==>
        && res.reply == CallFailed && log == old(log) + [HeartbeatCallError]
        && locations == old(locations) && sensorsVitals == old(sensorsVitals) && outbox == old(outbox)
      ensures req.coreid.Some? && req.data.Some? && req.data.value.Parsed? && readFault == NoReadFault
              && LocationByCoreId(old(locations), req.coreid.value).Some? ==>
        var location := LocationByCoreId(old(locations), req.coreid.value).value;
        var payload := req.data.value.payload;
        var run := if payload.doorLowBatt
                   then LowBatteryEffect(old(locations), location.locationid, currentDbTime, lowBatteryTimeoutSeconds, lowBatteryFault, rollbackSucceeds)
                   else LowBatteryRun(old(locations), [], []);
        && locations == run.locations && outbox == old(outbox) + run.notices
        && (vitalWriteFails ==>
              res.reply == CallFailed && sensorsVitals == old(sensorsVitals) && log == old(log) + run.logs + [HeartbeatCallError])
        && (!vitalWriteFails ==>
              res.reply == Ok && log == old(log) + run.logs
              && sensorsVitals == old(sensorsVitals) + [VitalRow(location.locationid, currentDbTime, payload)])
    {
      if req.coreid.None? || req.data.None? {
        log := log + [BadHeartbeatRequest];
        return WebhookResponse(200, ValidationFailed);
      }
      var coreId := req.coreid.value;
      if readFault == LookupFails {
        log := log + [HeartbeatCallError];
        return WebhookResponse(200, CallFailed);
      }
      var found := LocationByCoreId(locations, coreId);
      if found.None? {
        log := log + [NoLocationForCoreId(coreId)];
        return WebhookResponse(200, UnknownCoreId(coreId));
      }
      var location := found.value;
      if readFault == ClockFails || req.data.value.Unparseable? {
        log := log + [HeartbeatCallError];
        return WebhookResponse(200, CallFailed);
      }
      var message := req.data.value.payload;
      if message.doorLowBatt {
        SendLowBatteryAlert(location.locationid, currentDbTime, lowBatteryTimeoutSeconds, lowBatteryFault, rollbackSucceeds);
      }
      if vitalWriteFails {
        log := log + [HeartbeatCallError];
        return WebhookResponse(200, CallFailed);
      }
      sensorsVitals := sensorsVitals + [VitalRow(location.locationid, currentDbTime, message)];
      res := WebhookResponse(200, Ok);
    }
  }
}
