/** Pending two-factor logins, kept in the memory of one process. */
module Challenges {
  import opened Wrappers

  datatype Challenge = Challenge(userId: string, expiresAt: Time)

  type ChallengeMap = map<string, Challenge>

  function Prune(cs: ChallengeMap, now: Time): ChallengeMap {
    map id | id in cs && now < cs[id].expiresAt :: cs[id]
  }
}
