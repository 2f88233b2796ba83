/**
 * What the AI client's decision states share: the kinds of command the
 * command manager sends and reports back on, the command a tick issues, the
 * planner's events, and the states a transition can lead to.
 */
module Strategy {
  import opened Wrappers
  import opened Resource

  /** CommandType: the kind of a command, as the callbacks receive it and as movement plans hold it. */
  datatype CommandType = Forward | Left | Right | Look | Inventory | Take | ConnectNbr | Fork | Other

  /** A command sent through the command manager; Take carries its resource. */
  datatype Command = Command(kind: CommandType, resource: Option<Resource>)

  /** The planner's events a state reacts to; every other event is OtherEvent. */
  datatype Event = FoodEmergency | FoodLow | ResourcesCollected | OtherEvent

  /** The state an event hands over to. */
  datatype NextState = Emergency | CollectFood | Explore

  function Send(kind: CommandType): Command
  {
    Command(kind, None)
  }

  /** A movement step of a plan: Forward, Left and Right become that command; anything else sends nothing. */
  function MoveCommand(c: CommandType): (r: Option<Command>)
    ensures r.Some? <==> c in {Forward, Left, Right}
    ensures r.Some? ==> r.value == Send(c)
  {
    if c == Forward || c == Left || c == Right then Some(Send(c)) else None
  }
}
