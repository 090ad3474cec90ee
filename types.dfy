/** The rows of the waitlist's store (lib/db/types.ts). Timestamps are integer
    milliseconds; optional columns are `Option`s. */
module Types {
  import opened Common

  datatype PartyState = Queued | Notified | OnTheWay | Seated | NoShow | Canceled

  /** The spelling of each state in the `parties.state` column. */
  function StateName(s: PartyState): (name: string)
    ensures name != "cancelled"
  {
    match s
    case Queued => "queued"
    case Notified => "notified"
    case OnTheWay => "on_the_way"
    case Seated => "seated"
    case NoShow => "no_show"
    case Canceled => "canceled"
  }

  /** The states the queue lists: everything not seated, no-show or canceled. */
  predicate IsActive(s: PartyState)
  {
    s == Queued || s == Notified || s == OnTheWay
  }

  /** A party row. `updatedAt` is the `updated_at` column that the history
      route reads; the TypeScript interface does not declare it. */
  datatype Party = Party(
    id: string,
    waitlistId: string,
    restaurantId: string,
    name: string,
    phone: string,
    size: int,
    state: PartyState,
    token: string,
    etaMinutes: Option<int>,
    notes: Option<string>,
    createdAt: int,
    updatedAt: int,
    notifiedAt: Option<int>,
    seatedAt: Option<int>,
    noShowAt: Option<int>,
    canceledAt: Option<int>)

  datatype Channel = WhatsApp | Sms

  datatype Template = JoinConfirm | Reminder | TableReady

  datatype NotificationStatus = QueuedStatus | Sent | Failed

  /** What the dispatcher hands to its recording callback. `cost` is kept as an
      integer amount; the providers report it as a float. */
  datatype NotificationRecord = NotificationRecord(
    partyId: string,
    channel: Channel,
    template: Template,
    status: NotificationStatus,
    cost: Option<int>,
    providerId: Option<string>)

  datatype PhoneVerification = PhoneVerification(
    id: nat,
    phone: string,
    code: string,
    expiresAt: int,
    verified: bool,
    createdAt: int)

  datatype MetricsDaily = MetricsDaily(
    restaurantId: string,
    day: string,
    seated: int,
    noShows: int,
    avgWaitMinutes: Option<int>,
    covers: int)
}
