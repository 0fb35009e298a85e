/** The channel events a provider reports, and which of them an Airbnb connection must not outlive unchanged. */
module ChannelLifecycle {

  datatype EventType =
    | NewChannel
    | UpdatedChannel
    | ActivateChannel
    | DeactivateChannel
    | DisconnectListing
    | DisconnectChannel

  function Precedence(event: EventType): int {
    match event
    case NewChannel => 10
    case UpdatedChannel => 20
    case ActivateChannel => 30
    case DeactivateChannel => 40
    case DisconnectListing => 50
    case DisconnectChannel => 60
  }

  /** Which events make an Airbnb full synchronisation stale; the same ones clear a pending activation. */
  predicate Invalidates(event: EventType) {
    !event.ActivateChannel?
  }
}
