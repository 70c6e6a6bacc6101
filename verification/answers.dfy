/**
 * The answers workers submit, as the allocation engine and the per-user
 * done count see them: who answered which location, the pair of judgement
 * values an answer is compared on (the sixth and seventh arguments of
 * create_answer, which the source passes unnamed), and whether it is a
 * gold answer.
 */
module Answers {

  type UserId = nat
  type LocationId = nat

  datatype Answer = Answer(
    userId: UserId,
    locationId: LocationId,
    judgement: (int, int),
    isGold: bool)

  /** Locations the user has submitted at least one answer for. */
  function AnsweredBy(answers: seq<Answer>, user: UserId): set<LocationId> {
    set a | a in answers && a.userId == user :: a.locationId
  }

  /** Locations that carry at least one gold answer, by anyone. */
  function GoldLocations(answers: seq<Answer>): set<LocationId> {
    set a | a in answers && a.isGold :: a.locationId
  }
}
