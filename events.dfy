/** The decoded shape of the journey contract's event logs (field order as in the ABI). */
module Events {

  /** An event of the journey contract, with its arguments in ABI order. */
  datatype Event =
    | JourneyStarted(journeyId: int, creator: string, journeyCID: string)
    | ParticipantEnrolled(journeyId: int, participant: string)
    | ProgressRecorded(journeyId: int, participant: string, dayIndex: int, reportCID: string)
    | OtherEvent(name: string)

  /** What `Interface.parseLog` made of a log: it threw, it returned `null`
      (no event of the ABI matches the topics), or it decoded an event. */
  datatype Parse = ParseThrew | ParseNull | Parsed(event: Event)

  /** A log as the provider returns it, with the outcome of decoding it. */
  datatype RawLog = RawLog(transactionHash: string, blockNumber: nat, parse: Parse)

  /** `parsed?.name === "JourneyStarted"` */
  predicate IsJourneyStarted(log: RawLog) {
    log.parse.Parsed? && log.parse.event.JourneyStarted?
  }
}
