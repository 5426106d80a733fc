/** The records the tower keeps in memory and on disk, and the summaries it derives from them. */
module Records {
  import opened Basics

  /** What the user signed, extended with what the tower knows about it. */
  datatype Appointment = Appointment(
    locator: Locator, blob: Blob, toSelfDelay: int, userId: UserId, signature: string, startBlock: int)
  {
    function Summary(): AppointmentSummary { AppointmentSummary(locator, userId) }
  }

  datatype AppointmentSummary = AppointmentSummary(locator: Locator, userId: UserId)

  /** A penalty the Responder is following. */
  datatype Tracker = Tracker(
    locator: Locator, disputeTxid: Txid, penaltyTxid: Txid, penaltyRawtx: string, userId: UserId)
  {
    function Summary(): TrackerSummary { TrackerSummary(locator, userId, penaltyTxid) }
  }

  datatype TrackerSummary = TrackerSummary(locator: Locator, userId: UserId, penaltyTxid: Txid)

  /** The transaction hidden in a blob, once decrypted and decoded. */
  datatype Penalty = Penalty(txid: Txid, rawtx: string)

  function LocatorOf(appointments: map<Uuid, AppointmentSummary>): map<Uuid, Locator> {
    map u | u in appointments :: appointments[u].locator
  }

  function PenaltyOf(trackers: map<Uuid, TrackerSummary>): map<Uuid, Txid> {
    map u | u in trackers :: trackers[u].penaltyTxid
  }
}
