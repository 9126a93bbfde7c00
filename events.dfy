/** The envelope every message on the channel carries: a type tag, an
    optional partition key and either one payload or a list of them. */
module Events {
  import opened Common

  /** The tags of `Event.Type` together with the two stock tags the inventory
      producer and consumer use. */
  datatype EventType =
    | CREATE
    | DELETE
    | UPDATE
    | CONFIRMATION
    | RESERVE
    | RELEASE
    | REJECT
    | INCREASE_STOCK
    | REDUCE_STOCKS

  /** The enum constant's name, as string concatenation renders it. */
  function TypeName(t: EventType): string {
    match t
    case CREATE => "CREATE"
    case DELETE => "DELETE"
    case UPDATE => "UPDATE"
    case CONFIRMATION => "CONFIRMATION"
    case RESERVE => "RESERVE"
    case RELEASE => "RELEASE"
    case REJECT => "REJECT"
    case INCREASE_STOCK => "INCREASE_STOCK"
    case REDUCE_STOCKS => "REDUCE_STOCKS"
  }

  /** Exactly one of `getData()` and `getDataList()` is populated. */
  datatype Payload<T> = Single(data: T) | Batch(dataList: seq<T>)

  /** The creation timestamp is not part of the model. */
  datatype Event<T> = Event(eventType: EventType, key: Option<int>, payload: Payload<T>)

  /** The exception every consumer throws on a tag it does not handle; all
      three consumers use the same wording. */
  function IncorrectType(t: EventType): Error {
    EventProcessing("Incorrect event type: " + TypeName(t) + ", expected a CREATE or DELETE event")
  }

  /** How one invocation of a consumer ends. The services validate their
      arguments before they build their reactive pipeline, so a validation
      exception (or a null dereference) escapes the consumer; a failure
      inside the pipeline is only logged and the consumer returns normally. */
  datatype Completion = Completed | Thrown(error: Error)
}
