/** The records the engine consumes: possessions and the passing options attached to them. */
module Events {
  import opened Wrappers

  type PlayerId = int
  type MatchId = int
  type EventId = string

  /** One alternative open to the player in possession (one entry of `passing_options`). */
  datatype PassingOption = PassingOption(
    xthreat: real,
    xpassCompletion: real,
    passingOptionScore: real,
    associatedOffBallRunSubtype: string,
    passRange: string)

  /** A player possession event, with the columns the engine reads.
      `targetedXthreat` is None where the source column is missing (NaN). */
  datatype PossessionEvent = PossessionEvent(
    eventId: EventId,
    matchId: MatchId,
    playerId: PlayerId,
    playerPosition: string,
    positionCategory: string,
    teamShortname: string,
    thirdStart: string,
    thirdEnd: string,
    minuteStart: int,
    passOutcome: string,
    targetedXpassCompletion: real,
    targetedXthreat: Option<real>,
    nPassingOptions: int,
    passingOptions: seq<PassingOption>)
}
