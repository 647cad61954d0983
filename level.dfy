/** Difficulty tiers of the problem archive's rating service. */
module Level {

  /** Each named band carries a tier number, 1 to 5. */
  datatype Level =
    | Unrated
    | Bronze(tier: nat)
    | Silver(tier: nat)
    | Gold(tier: nat)
    | Platinum(tier: nat)
    | Diamond(tier: nat)
    | Ruby(tier: nat)

  /** The first rank of each band, minus one. */
  function BandBase(l: Level): nat {
    match l
    case Unrated => 0
    case Bronze(_) => 0
    case Silver(_) => 5
    case Gold(_) => 10
    case Platinum(_) => 15
    case Diamond(_) => 20
    case Ruby(_) => 25
  }

  /** `Level::from_rank`: rank 0 and anything above 30 are unrated. */
  function FromRank(rank: nat): (l: Level)
    ensures l.Unrated? <==> rank == 0 || rank > 30
    ensures !l.Unrated? ==> 1 <= l.tier <= 5 && rank == BandBase(l) + l.tier
  {
    if rank == 0 then Unrated
    else if rank <= 5 then Bronze(rank)
    else if rank <= 10 then Silver(rank - 5)
    else if rank <= 15 then Gold(rank - 10)
    else if rank <= 20 then Platinum(rank - 15)
    else if rank <= 25 then Diamond(rank - 20)
    else if rank <= 30 then Ruby(rank - 25)
    else Unrated
  }

  /** The rank a level stands for; 0 for `Unrated`. */
  function Rank(l: Level): nat {
    if l.Unrated? then 0 else BandBase(l) + l.tier
  }

  predicate WellFormed(l: Level) {
    l.Unrated? || 1 <= l.tier <= 5
  }

  /** Every rank the mapping rates is recovered from its level. */
  lemma RankOfFromRank(rank: nat)
    requires rank <= 30
    ensures Rank(FromRank(rank)) == rank
  {
  }

  /** Every well-formed level is reached from exactly its own rank. */
  lemma FromRankOfRank(l: Level)
    requires WellFormed(l)
    ensures FromRank(Rank(l)) == l
  {
  }

  /** Distinct rated ranks map to distinct levels. */
  lemma FromRankInjective(a: nat, b: nat)
    requires 1 <= a <= 30 && 1 <= b <= 30 && a != b
    ensures FromRank(a) != FromRank(b)
  {
    RankOfFromRank(a);
    RankOfFromRank(b);
  }
}
