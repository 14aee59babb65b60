/**
 The inbox a reader has in mind: every item carries one read flag and one archived
 flag, and every operation sets flags. No watermark, no override, no exception table.
 */
module NaiveInbox {
  import opened InboxState

  datatype Item = Item(subscriber: SubId, at: Time, read: bool, archived: bool)

  datatype Dimension = ReadFlag | ArchivedFlag

  datatype Effect =
    | Nothing
    | Put(id: NotifId, dimension: Dimension, value: bool)
    | PutBroadcast(s: SubId, b: BroadcastId, dimension: Dimension, value: bool)
    | SetAll(s: SubId, dimension: Dimension, upTo: Time)
    | HandOver(ids: set<NotifId>, dst: SubId)
    | ArchiveIfRead(s: SubId, ids: set<NotifId>, bs: set<BroadcastId>)

  function With(item: Item, dimension: Dimension, value: bool): Item {
    match dimension
    case ReadFlag => item.(read := value)
    case ArchivedFlag => item.(archived := value)
  }

  /** What an effect does to the direct item `id`. */
  function NextItem(id: NotifId, item: Item, effect: Effect): Item {
    match effect
    case Nothing => item
    case Put(x, dimension, value) => if x == id then With(item, dimension, value) else item
    case PutBroadcast(_, _, _, _) => item
    case SetAll(s, dimension, upTo) =>
      if item.subscriber == s && item.at <= upTo then With(item, dimension, true) else item
    case HandOver(ids, dst) => if id in ids then item.(subscriber := dst) else item
    case ArchiveIfRead(s, ids, _) =>
      if item.subscriber == s && id in ids && item.read then item.(archived := true) else item
  }

  /** What an effect does to broadcast `b` as subscriber `item.subscriber` has it. */
  function NextBroadcast(b: BroadcastId, item: Item, effect: Effect): Item {
    match effect
    case Nothing => item
    case Put(_, _, _) => item
    case PutBroadcast(s, x, dimension, value) =>
      if item.subscriber == s && x == b then With(item, dimension, value) else item
    case SetAll(s, dimension, upTo) =>
      if item.subscriber == s && item.at <= upTo then With(item, dimension, true) else item
    case HandOver(_, _) => item
    case ArchiveIfRead(s, _, bs) =>
      if item.subscriber == s && b in bs && item.read then item.(archived := true) else item
  }
}
