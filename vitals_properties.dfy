/**
 * What the vitals engine promises, stated over the specification functions
 * of the sweep and the low-battery transaction: the alert-flag state
 * machine, the reminder rate limit, the skip rules, the settled state a
 * sweep leaves behind, the low-battery cooldown and the rollback.
 */
module VitalsProperties {
  import opened Wrappers
  import opened Records
  import opened Vitals

  // ---------------------------------------------------------------------
  // The per-location decision
  // ---------------------------------------------------------------------

  /** Door OR radar is past its threshold: strictly, in milliseconds, against the sweep's one database time. */
  predicate SensorDown(v: SensorVital, now: Time, cfg: VitalsConfig)
  {
    now - v.createdAt > cfg.radarThresholdSeconds * 1000 || now - v.doorLastSeenAt > cfg.doorThresholdSeconds * 1000
  }

  /** A sweep in which no statement throws. */
  predicate FaultFree(sweep: Sweep)
  {
    sweep.faults == map[]
  }

  /**
   * The decision for an active location with a vitals row, case by case:
   * disconnect when down with no alert outstanding (naming which sensors are
   * down), remind when down and the last alert is older than the reminder
   * threshold, reconnect when up with an alert outstanding, else nothing.
   */
  lemma DecideCases(loc: Location, v: SensorVital, now: Time, cfg: VitalsConfig)
    requires Monitored(loc)
    ensures var d := Decide(loc, Some(v), now, cfg);
      && (d.Disconnect? <==> SensorDown(v, now, cfg) && loc.sentVitalsAlertAt.None?)
      && (d.Disconnect? ==> d.doorDown == (now - v.doorLastSeenAt > cfg.doorThresholdSeconds * 1000)
                            && d.radarDown == (now - v.createdAt > cfg.radarThresholdSeconds * 1000))
      && (d == Remind <==>
            SensorDown(v, now, cfg) && loc.sentVitalsAlertAt.Some?
            && now - loc.sentVitalsAlertAt.value > cfg.subsequentVitalsAlertThresholdSeconds * 1000)
      && (d.Reconnect? <==> !SensorDown(v, now, cfg) && loc.sentVitalsAlertAt.Some?)
      && (d.Reconnect? ==> d.resetReason == v.resetReason)
  {
    var radar := HeartbeatExceeded(now, v.createdAt, cfg.radarThresholdSeconds);
    var door := HeartbeatExceeded(now, v.doorLastSeenAt, cfg.doorThresholdSeconds);
    assert SensorDown(v, now, cfg) <==> door || radar;
  }

  /** A delay of exactly the threshold is not a disconnection; one millisecond more is. */
  lemma ThresholdIsStrict(loc: Location, v: SensorVital, now: Time, cfg: VitalsConfig)
    requires Monitored(loc) && loc.sentVitalsAlertAt.None?
    requires v.createdAt == now - cfg.radarThresholdSeconds * 1000
    ensures v.doorLastSeenAt == now - cfg.doorThresholdSeconds * 1000 ==> Decide(loc, Some(v), now, cfg) == NoAction
    ensures Decide(loc, Some(v), now + 1, cfg).Disconnect?
  {
    DecideCases(loc, v, now, cfg);
    DecideCases(loc, v, now + 1, cfg);
  }

  /**
   * A reminder waits strictly longer than the reminder threshold after the
   * last alert: at exactly the threshold nothing is sent, one millisecond
   * later the reminder goes out.
   */
  lemma ReminderWindow(loc: Location, v: SensorVital, cfg: VitalsConfig, at: Time, now: Time)
    requires Monitored(loc) && loc.sentVitalsAlertAt == Some(at)
    requires now == at + cfg.subsequentVitalsAlertThresholdSeconds * 1000
    requires SensorDown(v, now, cfg) && SensorDown(v, now + 1, cfg)
    ensures Decide(loc, Some(v), now, cfg) == NoAction
    ensures Decide(loc, Some(v), now + 1, cfg) == Remind
  {
    DecideCases(loc, v, now, cfg);
    DecideCases(loc, v, now + 1, cfg);
  }

  // ---------------------------------------------------------------------
  // One iteration of the sweep
  // ---------------------------------------------------------------------

  /**
   * A location the loop skips (it or its client inactive) and an active one
   * with no vitals row are left alone: no write, no notice, no log line.
   */
  lemma SkippedLocationUntouched(loc: Location, vitals: seq<SensorVital>, sweep: Sweep)
    requires !Monitored(loc)
      || (MostRecentVital(vitals, loc.locationid).None? && sweep.FaultAt(loc.locationid) != Some(VitalReadFails))
    ensures SweepStep(loc, vitals, sweep) == StepResult(loc.sentVitalsAlertAt, None, [])
    ensures SweptRow(loc, vitals, sweep) == loc
    ensures StepNotices(loc, SweepStep(loc, vitals, sweep)) == []
  {
  }

  /** A failure at one location is logged against it, changes nothing, and leaves every other location's step as it was. */
  lemma FaultStaysLocal(loc: Location, vitals: seq<SensorVital>, sweep: Sweep, other: LocationId)
    requires other != loc.locationid && other in sweep.faults
    ensures SweepStep(loc, vitals, sweep) == SweepStep(loc, vitals, sweep.(faults := sweep.faults - {other}))
    ensures Monitored(loc) && sweep.FaultAt(loc.locationid) == Some(VitalReadFails) ==>
      SweepStep(loc, vitals, sweep) == StepResult(loc.sentVitalsAlertAt, None, [HeartbeatCheckError(loc.locationid)])
  {
    assert sweep.FaultAt(loc.locationid) == sweep.(faults := sweep.faults - {other}).FaultAt(loc.locationid);
  }

  /**
   * After a fault-free iteration on an active location with a vitals row,
   * the alert flag is set exactly when a sensor is down.
   */
  lemma FlagTracksSensor(loc: Location, vitals: seq<SensorVital>, sweep: Sweep, v: SensorVital)
    requires Monitored(loc) && sweep.FaultAt(loc.locationid).None?
    requires MostRecentVital(vitals, loc.locationid) == Some(v)
    ensures SweptRow(loc, vitals, sweep).sentVitalsAlertAt.Some? <==> SensorDown(v, sweep.now, sweep.cfg)
  {
    DecideCases(loc, v, sweep.now, sweep.cfg);
  }

  /**
   * The first disconnection: the flag is stamped with the sweep's time and
   * one disconnection message goes to every responder number and then every
   * heartbeat number, from the client's number, in order.
   */
  lemma DisconnectionNotifiesEveryone(loc: Location, vitals: seq<SensorVital>, sweep: Sweep, v: SensorVital)
    requires Monitored(loc) && sweep.FaultAt(loc.locationid).None?
    requires MostRecentVital(vitals, loc.locationid) == Some(v)
    requires SensorDown(v, sweep.now, sweep.cfg) && loc.sentVitalsAlertAt.None?
    ensures var step := SweepStep(loc, vitals, sweep);
      var recipients := loc.client.responderPhoneNumbers + loc.client.heartbeatPhoneNumbers;
      var notices := StepNotices(loc, step);
      && step.sentVitalsAlertAt == Some(sweep.now)
      && |notices| == |recipients|
      && forall k :: 0 <= k < |notices| ==>
           notices[k] == Notice(recipients[k], loc.client.fromPhoneNumber,
                                SensorDisconnectionInitial(loc.displayName, loc.locationid, loc.client.language))
  {
    DecideCases(loc, v, sweep.now, sweep.cfg);
  }

  /**
   * An outstanding alert while a sensor stays down: a reminder (and a fresh
   * stamp) only once the reminder threshold has passed, otherwise no write
   * and no message.
   */
  lemma ReminderRateLimited(loc: Location, vitals: seq<SensorVital>, sweep: Sweep, v: SensorVital, at: Time)
    requires Monitored(loc) && sweep.FaultAt(loc.locationid).None?
    requires MostRecentVital(vitals, loc.locationid) == Some(v)
    requires SensorDown(v, sweep.now, sweep.cfg) && loc.sentVitalsAlertAt == Some(at)
    ensures var step := SweepStep(loc, vitals, sweep);
      && (step.message.Some? <==> sweep.now - at > sweep.cfg.subsequentVitalsAlertThresholdSeconds * 1000)
      && (step.message.Some? ==>
            step.sentVitalsAlertAt == Some(sweep.now)
            && step.message.value == SensorDisconnectionReminder(loc.displayName, loc.locationid, loc.client.language))
      && (step.message.None? ==> step.sentVitalsAlertAt == Some(at) && step.logs == [])
  {
    DecideCases(loc, v, sweep.now, sweep.cfg);
  }

  /**
   * Sensors back up: an outstanding alert is cleared with one reconnection
   * message and a log line naming the reset reason; with no alert
   * outstanding nothing happens.
   */
  lemma ReconnectionClearsFlag(loc: Location, vitals: seq<SensorVital>, sweep: Sweep, v: SensorVital)
    requires Monitored(loc) && sweep.FaultAt(loc.locationid).None?
    requires MostRecentVital(vitals, loc.locationid) == Some(v)
    requires !SensorDown(v, sweep.now, sweep.cfg)
    ensures var step := SweepStep(loc, vitals, sweep);
      && (loc.sentVitalsAlertAt.Some? ==>
            && step.sentVitalsAlertAt.None?
            && step.message == Some(SensorReconnection(loc.displayName, loc.locationid, loc.client.language))
            && step.logs == [SensorReconnected(loc.locationid, v.resetReason)])
      && (loc.sentVitalsAlertAt.None? ==> step == StepResult(None, None, []))
  {
    DecideCases(loc, v, sweep.now, sweep.cfg);
  }

  // ---------------------------------------------------------------------
  // A second sweep at the same time finds nothing to do
  // ---------------------------------------------------------------------

  /** A row that has had its fault-free iteration has nothing left to do at the same time. */
  lemma SweptRowSettled(loc: Location, vitals: seq<SensorVital>, sweep: Sweep)
    requires FaultFree(sweep)
    ensures var row := SweptRow(loc, vitals, sweep);
      SweepStep(row, vitals, sweep) == StepResult(row.sentVitalsAlertAt, None, [])
  {
    var row := SweptRow(loc, vitals, sweep);
    assert sweep.FaultAt(loc.locationid).None?;
    var vital := MostRecentVital(vitals, loc.locationid);
    if Monitored(loc) && vital.Some? {
      DecideCases(loc, vital.value, sweep.now, sweep.cfg);
      DecideCases(row, vital.value, sweep.now, sweep.cfg);
    }
  }

  /** The rows of a snapshot after their iterations. */
  function SweptRows(snapshot: seq<Location>, vitals: seq<SensorVital>, sweep: Sweep): (rows: seq<Location>)
    ensures |rows| == |snapshot|
    ensures forall k :: 0 <= k < |snapshot| ==> rows[k] == SweptRow(snapshot[k], vitals, sweep)
  {
    if snapshot == [] then [] else [SweptRow(snapshot[0], vitals, sweep)] + SweptRows(snapshot[1..], vitals, sweep)
  }

  /** The second sweep's query returns the first sweep's rows, in the same order. */
  lemma {:induction false} StateMachineLocationsOfSwept(t: seq<Location>, vitals: seq<SensorVital>, sweep: Sweep)
    ensures StateMachineLocations(SweptTable(t, vitals, sweep)) == SweptRows(StateMachineLocations(t), vitals, sweep)
  {
    if t != [] {
      var swept := SweptTable(t, vitals, sweep);
      assert swept[1..] == SweptTable(t[1..], vitals, sweep);
      StateMachineLocationsOfSwept(t[1..], vitals, sweep);
      if t[0].firmwareStateMachine {
        var rest := StateMachineLocations(t[1..]);
        assert SweptRows([t[0]] + rest, vitals, sweep)[1..] == SweptRows(rest, vitals, sweep);
      }
    }
  }

  /** Settled rows produce no notices and no log lines. */
  lemma {:induction false} SettledRowsQuiet(snapshot: seq<Location>, vitals: seq<SensorVital>, sweep: Sweep)
    requires FaultFree(sweep)
    ensures SweepNotices(SweptRows(snapshot, vitals, sweep), vitals, sweep) == []
    ensures SweepLogs(SweptRows(snapshot, vitals, sweep), vitals, sweep) == []
  {
    if snapshot != [] {
      var n := |snapshot| - 1;
      var rows := SweptRows(snapshot, vitals, sweep);
      assert rows[..n] == SweptRows(snapshot[..n], vitals, sweep);
      SettledRowsQuiet(snapshot[..n], vitals, sweep);
      SweptRowSettled(snapshot[n], vitals, sweep);
    }
  }

  /**
   * Running the fault-free sweep again at the same database time changes no
   * row, sends nothing and logs nothing: the sweep leaves a settled table.
   */
  lemma SweepIdempotent(t: seq<Location>, vitals: seq<SensorVital>, sweep: Sweep)
    requires FaultFree(sweep)
    ensures var once := SweptTable(t, vitals, sweep);
      && SweptTable(once, vitals, sweep) == once
      && SweepNotices(StateMachineLocations(once), vitals, sweep) == []
      && SweepLogs(StateMachineLocations(once), vitals, sweep) == []
  {
    var once := SweptTable(t, vitals, sweep);
    forall j | 0 <= j < |t| && t[j].firmwareStateMachine
      ensures SweptRow(once[j], vitals, sweep) == once[j]
    {
      SweptRowSettled(t[j], vitals, sweep);
    }
    StateMachineLocationsOfSwept(t, vitals, sweep);
    SettledRowsQuiet(StateMachineLocations(t), vitals, sweep);
  }

  // ---------------------------------------------------------------------
  // The low-battery transaction
  // ---------------------------------------------------------------------

  /**
   * Without failures the transaction commits: when the notice is due (location
   * and client active, no earlier notice or one at least the timeout ago) it is
   * logged, sent to every recipient and stamped with the time; otherwise
   * nothing changes, nothing is sent and nothing is logged.
   */
  lemma LowBatteryCommits(t: seq<Location>, id: LocationId, now: Time, timeoutSeconds: nat, rollbackSucceeds: bool)
    requires LocationById(t, id).Some?
    ensures var loc := LocationById(t, id).value;
      var r := LowBatteryEffect(t, id, now, timeoutSeconds, NoTxFault, rollbackSucceeds);
      var due := loc.isActive && loc.client.isActive
        && (loc.sentLowBatteryAlertAt.None? || now - loc.sentLowBatteryAlertAt.value >= timeoutSeconds * 1000);
      && (due ==> r == LowBatteryRun(WithLowBatteryAlertAt(t, id, now),
                                     ClientNotices(loc.client, SensorLowBatteryInitial(loc.displayName, loc.client.language)),
                                     [LowBatteryReceived(id)]))
      && (!due ==> r == LowBatteryRun(t, [], []))
  {
  }

  /**
   * The cooldown: after a notice was sent and stamped at `t1`, a later
   * low-battery report at `t2` is acted on exactly when `t2 - t1` reaches the
   * timeout (non-strict).
   */
  lemma LowBatteryThrottle(t: seq<Location>, id: LocationId, t1: Time, t2: Time, timeoutSeconds: nat, rollbackSucceeds: bool)
    requires UniqueIds(t) && LocationById(t, id).Some?
    requires LowBatteryDue(LocationById(t, id).value, t1, timeoutSeconds)
    ensures var after := LowBatteryEffect(t, id, t1, timeoutSeconds, NoTxFault, rollbackSucceeds).locations;
      var second := LowBatteryEffect(after, id, t2, timeoutSeconds, NoTxFault, rollbackSucceeds);
      second.logs == [LowBatteryReceived(id)] <==> t2 - t1 >= timeoutSeconds * 1000
  {
    LowBatteryAlertWrite(t, id, t1);
    var after := WithLowBatteryAlertAt(t, id, t1);
    assert LocationById(after, id).value.sentLowBatteryAlertAt == Some(t1);
  }

  /**
   * Any failure rolls the transaction back: the table is as it was and the log
   * ends with exactly one entry saying whether ROLLBACK itself succeeded.
   */
  lemma LowBatteryRollsBack(t: seq<Location>, id: LocationId, now: Time, timeoutSeconds: nat, fault: TxFault, rollbackSucceeds: bool)
    requires LowBatteryError(t, id, now, timeoutSeconds, fault).Some?
    ensures var e := LowBatteryError(t, id, now, timeoutSeconds, fault).value;
      var r := LowBatteryEffect(t, id, now, timeoutSeconds, fault, rollbackSucceeds);
      && r.locations == t
      && 1 <= |r.logs| <= 2
      && r.logs[|r.logs| - 1] == (if rollbackSucceeds then RolledBack(e) else RollbackFailed(e))
      && forall k :: 0 <= k < |r.logs| - 1 ==> r.logs[k] == LowBatteryReceived(id)
  {
  }

  /**
   * Which failures roll back: one at BEGIN, at the read or at COMMIT always, a
   * missing location always, and one at the send or the stamp only when the
   * notice was due (otherwise those statements never run).
   */
  lemma LowBatteryErrorCases(t: seq<Location>, id: LocationId, now: Time, timeoutSeconds: nat, fault: TxFault)
    ensures LowBatteryError(t, id, now, timeoutSeconds, fault).None? <==>
      && LocationById(t, id).Some?
      && (fault == NoTxFault
          || (!LowBatteryDue(LocationById(t, id).value, now, timeoutSeconds)
              && (fault == FailsAt(SendNotice) || fault == FailsAt(UpdateAlertTime))))
  {
    if fault.FailsAt? {
      match fault.step
      case BeginTransaction =>
      case ReadLocation =>
      case SendNotice =>
      case UpdateAlertTime =>
      case CommitTransaction =>
    }
  }

  /**
   * A failure at the stamp comes after the send: the table is restored but the
   * notices already handed to the dispatcher are not taken back.
   */
  lemma SentNoticesSurviveRollback(t: seq<Location>, id: LocationId, now: Time, timeoutSeconds: nat, rollbackSucceeds: bool)
    requires LocationById(t, id).Some? && LowBatteryDue(LocationById(t, id).value, now, timeoutSeconds)
    ensures var loc := LocationById(t, id).value;
      var r := LowBatteryEffect(t, id, now, timeoutSeconds, FailsAt(UpdateAlertTime), rollbackSucceeds);
      && r.locations == t
      && r.notices == ClientNotices(loc.client, LowBatteryMessage(loc))
  {
  }
}
