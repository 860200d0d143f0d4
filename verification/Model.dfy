/**
 The values every other module shares: definitions, triggers, steps, events and activity
 records (src/model.rs).  Names, conditions, reasons, labels and the start/finish times of
 runs are left out: nothing below depends on them.  Times are integer seconds.
 */
module Model {

  datatype Option<+T> = None | Some(value: T)

  datatype Result<+T> = Ok(value: T) | Err(error: Error)

  /** AutomationError; database and serialization errors do not occur in the model. */
  datatype Error = Invalid | Conflict | NotFound

  /** Activity identifiers and launch tickets are random UUIDs; only their freshness matters. */
  datatype Uuid = Uuid(bits: nat)

  newtype I16 = x: int | -0x8000 <= x < 0x8000
  newtype U32 = x: int | 0 <= x < 0x1_0000_0000
  newtype U64 = x: int | 0 <= x < 0x1_0000_0000_0000_0000

  datatype BluetoothCalibration = BluetoothCalibration(nearRssi: I16, farRssi: I16)

  datatype BluetoothTrigger = BluetoothTrigger(
    deviceId: string,
    deviceName: string,
    calibration: Option<BluetoothCalibration>,
    durationSeconds: U32,
    signalLossSeconds: Option<U32>)

  /** `time` is the parsed local time of day in seconds; `zone` names a time zone. */
  datatype Trigger =
    | Bluetooth(config: BluetoothTrigger)
    | Manual
    | Schedule(time: nat, weekdays: seq<nat>, zone: string, catchUp: bool)
    | Application
    | System
    | Device
    | Transfer(received: bool)
    | Hotkey(shortcut: string)
    | Presence

  datatype RunMode = Automatic | AskBeforeRun

  datatype Step =
    | QuickAction(actionId: string)
    | Shell(script: string)
    | Delay(seconds: nat)
    | Notification(title: string, body: string)

  datatype Definition = Definition(
    id: string,
    enabled: bool,
    trigger: Trigger,
    steps: seq<Step>,
    runMode: RunMode,
    revision: nat,
    createdAt: int,
    updatedAt: int,
    legacyId: Option<string>)

  datatype Event = Event(id: string, variables: map<string, string>, origin: Option<string>)

  datatype Status =
    | AwaitingConfirmation
    | Skipped
    | Queued
    | Running
    | Succeeded
    | Failed
    | Canceled
    | Interrupted
  {
    predicate Terminal() {
      Skipped? || Succeeded? || Failed? || Canceled? || Interrupted?
    }
  }

  /** What the runner returned for a quick action when the run was accepted. */
  datatype Snapshot = Snapshot(
    name: string,
    definition: string,
    requiresConfirmation: bool,
    requiresUnlockedSession: bool)

  datatype StepRun = StepRun(index: nat, step: Step, action: Option<Snapshot>, status: Status)
  {
    /** A step that must be confirmed on its own before it may start. */
    predicate Dangerous() {
      action.Some? && action.value.requiresConfirmation
    }
  }

  /** `rowid` is the insertion order of the row; the store assigns it. */
  datatype Activity = Activity(
    id: Uuid,
    rowid: nat,
    automationId: string,
    definition: Definition,
    event: Event,
    status: Status,
    createdAt: int,
    steps: seq<StepRun>,
    confirmedSteps: seq<nat>,
    runConfirmed: bool)
  {
    predicate Asks() {
      definition.runMode == AskBeforeRun
    }

    predicate Live() {
      !status.Terminal()
    }
  }
}
