/** Vocabulary shared by the log store and the phone state machine:
    phone identifiers, the five phone states and the nine triggers
    (phone_states.go:19-42). */
module PhoneTypes {

  datatype Option<T> = None | Some(value: T)

  /** A phone identifier (a Go `int`); the model does not bound it. */
  type PhoneId = int

  /** A phone as the trigger methods receive it; only its ID is used. */
  datatype Phone = Phone(id: PhoneId)

  datatype State = OffHook | Ringing | Connected | OnHold | PhoneDestroyed

  /** Triggers carry their parameter when they declare one: CallDialed a
      callee name, SetVolume a volume. */
  datatype Trigger =
    | CallDialed(callee: string)
    | CallConnected
    | LeftMessage
    | PlacedOnHold
    | TakenOffHold
    | PhoneHurledAgainstWall
    | MuteMicrophone
    | UnmuteMicrophone
    | SetVolume(volume: int)

  /** The name under which the source registers each trigger. */
  function TriggerName(t: Trigger): string {
    match t
    case CallDialed(_) => "CallDialed"
    case CallConnected => "CallConnected"
    case LeftMessage => "LeftMessage"
    case PlacedOnHold => "PlacedOnHold"
    case TakenOffHold => "TakenOffHold"
    case PhoneHurledAgainstWall => "PhoneHurledAgainstWall"
    case MuteMicrophone => "MuteMicrophone"
    case UnmuteMicrophone => "UnmuteMicrophone"
    case SetVolume(_) => "SetVolume"
  }
}
