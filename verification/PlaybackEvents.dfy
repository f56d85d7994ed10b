// The playback events that the tracking session observes and the relay hands to the app.
module PlaybackEvents {

  const QUEUE_CAPACITY: nat := 32

  datatype Kind = Unknown | Progress | Paused | Ended | Failed | Stopped

  // Positions and durations are nanoseconds; err is the text of the event's error.
  datatype Event = Event(anime: string, episode: string, kind: Kind, position: int, duration: int, err: string)

  // An event together with the owner (the tracked episode) it belongs to.
  datatype Item = Item(event: Event, owner: nat)

  predicate IsTerminal(kind: Kind) {
    kind == Ended || kind == Stopped || kind == Failed
  }

  predicate IsCheckpointBoundary(kind: Kind) {
    kind == Paused || kind == Ended || kind == Stopped || kind == Failed
  }

  predicate IsProgress(item: Item) {
    item.event.kind == Progress
  }

  predicate EndsOwner(item: Item) {
    IsTerminal(item.event.kind)
  }

  // 90% watched, in exact arithmetic.
  predicate ThresholdReached(position: int, duration: int) {
    position >= 0 && duration > 0 && 10 * position >= 9 * duration
  }

  ghost predicate OwnersOrdered(items: seq<Item>) {
    forall i, j :: 0 <= i < j < |items| ==> items[i].owner <= items[j].owner
  }

  // A terminal event is the last one of its owner.
  ghost predicate NothingAfterTerminal(items: seq<Item>) {
    forall i, j :: 0 <= i < j < |items| && EndsOwner(items[i]) ==> items[i].owner != items[j].owner
  }
}
