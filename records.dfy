/**
 * The persisted entities the monitoring engine reads and writes: the
 * location row (with the fields of server/Location.js), the client it
 * belongs to, and the sensor vitals rows that heartbeats append.
 */
module Records {
  import opened Wrappers

  /** Milliseconds since the epoch; every timestamp comes from the database clock. */
  type Time = int
  type LocationId = string
  type PhoneNumber = string

  /** The owning client, as the location query joins it in (`location.client`). */
  datatype Client = Client(
    id: string,
    displayName: string,
    responderPhoneNumbers: seq<PhoneNumber>,
    heartbeatPhoneNumbers: seq<PhoneNumber>,
    fromPhoneNumber: PhoneNumber,
    language: string,
    isActive: bool)

  /**
   * One location row. `sentVitalsAlertAt` is `None` while no disconnection
   * alert is outstanding; `sentLowBatteryAlertAt` records the last low-battery notice.
   */
  datatype Location = Location(
    locationid: LocationId,
    displayName: string,
    movementThreshold: int,
    durationTimer: int,
    stillnessTimer: int,
    sentVitalsAlertAt: Option<Time>,
    heartbeatAlertRecipients: seq<PhoneNumber>,
    doorCoreId: string,
    radarCoreId: string,
    radarType: string,
    reminderTimer: int,
    fallbackTimer: int,
    twilioNumber: PhoneNumber,
    fallbackNumbers: seq<PhoneNumber>,
    initialTimer: int,
    isActive: bool,
    firmwareStateMachine: bool,
    sirenParticleId: string,
    sentLowBatteryAlertAt: Option<Time>,
    client: Client)

  /** The firmware's state-machine states, in the order of their index on the wire. */
  datatype SensorState = Idle | InitialTimer | DurationTimer | StillnessTimer
  {
    function Name(): string
    {
      match this
      case Idle => "idle"
      case InitialTimer => "initial_timer"
      case DurationTimer => "duration_timer"
      case StillnessTimer => "stillness_timer"
    }
  }

  /** Why the firmware changed state, in the order of their index on the wire. */
  datatype TransitionReason = Movement | NoMovement | DoorOpen | InitialTimerReason | DurationAlert | StillnessAlert
  {
    function Name(): string
    {
      match this
      case Movement => "movement"
      case NoMovement => "no_movement"
      case DoorOpen => "door_open"
      case InitialTimerReason => "initial_timer"
      case DurationAlert => "duration_alert"
      case StillnessAlert => "stillness_alert"
    }
  }

  /** A state transition as the device sends it: `[stateIndex, reasonIndex, time]`. */
  datatype RawStateTransition = RawStateTransition(stateIndex: int, reasonIndex: int, time: int)

  /**
   * A decoded transition. An index outside its table reads as JavaScript's
   * `undefined`, here `None`.
   */
  datatype StateTransition = StateTransition(state: Option<SensorState>, reason: Option<TransitionReason>, time: int)

  /** One heartbeat as stored; rows are only ever appended. */
  datatype SensorVital = SensorVital(
    locationid: LocationId,
    createdAt: Time,
    doorLastSeenAt: Time,
    doorMissedMessagesCount: int,
    doorLowBatteryFlag: bool,
    resetReason: string,
    stateTransitions: seq<StateTransition>)
}
