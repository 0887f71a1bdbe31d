/** Definitions too large to be expanded everywhere are guarded by Open: such a definition takes part in a
    proof only where the proof mentions Open with the definition's own seal. */
module Sealing {
  /** One seal for each guarded definition. */
  datatype Seal =
    | ScoresSeal | BestSoFarSeal | TriedSeal | BettingSeal | DealtSoFarSeal | DealsToSeal
    | InGameSeal | FollowsStepSeal | GoingSeal | LeadingSeal | PaidOutSeal | PaidForSeal
    | FollowsCommandSeal | DecidedSeal | LogSeal | PlaysOnSeal | KeptSeal | DbSeal
    | TablesSeal | MemorySeal | HandlerSeal | TakesSeal | AtSeal | BankSeal
    | UndisturbedSeal | GoesSeal

  predicate Open(seal: Seal, k: int) { true }
}
