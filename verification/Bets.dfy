/** The bet repository as the recovery code sees it: an ordered list of bets, oldest first. */
module Bets {
  import opened Outcomes

  /** `Open` stands for every state before a bet is settled or becomes unknown. */
  datatype BetState = Open | Unknown | CashedOut | Lost | FailedBet | Reconciled

  datatype Bet = Bet(
    roundId: Option<nat>, stake: real, state: BetState, pnl: Option<real>, multiplier: Option<real>,
    balanceBefore: Option<real>)

  /** Math.round(x * 100) / 100: to cents, halves upwards. */
  function RoundCents(x: real): real {
    (x * 100.0 + 0.5).Floor as real / 100.0
  }

  /** Half a cent at most. */
  lemma RoundCentsNear(x: real)
    ensures x - 0.005 < RoundCents(x) <= x + 0.005
  {
    var n := (x * 100.0 + 0.5).Floor;
    assert n as real <= x * 100.0 + 0.5 < n as real + 1.0;
    assert RoundCents(x) * 100.0 == n as real;
  }

  function CountUnknown(bets: seq<Bet>, k: nat): nat
    requires k <= |bets|
  {
    if k == 0 then 0 else CountUnknown(bets, k - 1) + if bets[k - 1].state.Unknown? then 1 else 0
  }

  function UnknownCount(bets: seq<Bet>): nat {
    CountUnknown(bets, |bets|)
  }

  /** The positions of the unknown bets among the first `k`. */
  function UnknownTo(bets: seq<Bet>, k: nat): (ids: seq<nat>)
    requires k <= |bets|
    ensures |ids| == CountUnknown(bets, k)
    ensures forall m | 0 <= m < |ids| :: ids[m] < k && bets[ids[m]].state.Unknown?
    ensures forall m, n | 0 <= m < n < |ids| :: ids[m] < ids[n]
  {
    if k == 0 then []
    else if bets[k - 1].state.Unknown? then UnknownTo(bets, k - 1) + [k - 1]
    else UnknownTo(bets, k - 1)
  }

  /** findUnknownBets: at most `limit` of them. */
  function FindUnknown(bets: seq<Bet>, limit: nat): (ids: seq<nat>)
    ensures |ids| == if UnknownCount(bets) <= limit then UnknownCount(bets) else limit
    ensures forall m | 0 <= m < |ids| :: ids[m] < |bets| && bets[ids[m]].state.Unknown?
    ensures forall m, n | 0 <= m < n < |ids| :: ids[m] < ids[n]
  {
    var all := UnknownTo(bets, |bets|);
    if |all| <= limit then all else all[..limit]
  }

  lemma {:induction false} CountAgrees(a: seq<Bet>, b: seq<Bet>, k: nat)
    requires k <= |a| && k <= |b| && forall i | 0 <= i < k :: a[i] == b[i]
    ensures CountUnknown(a, k) == CountUnknown(b, k)
  {
    if k > 0 {
      CountAgrees(a, b, k - 1);
    }
  }

  lemma {:induction false} CountUpdate(bets: seq<Bet>, i: nat, bet: Bet, k: nat)
    requires i < k <= |bets|
    ensures CountUnknown(bets[i := bet], k) + (if bets[i].state.Unknown? then 1 else 0) ==
            CountUnknown(bets, k) + if bet.state.Unknown? then 1 else 0
  {
    if i == k - 1 {
      CountAgrees(bets, bets[i := bet], i);
    } else {
      CountUpdate(bets, i, bet, k - 1);
    }
  }

  class BetRepository {
    var bets: seq<Bet>

    constructor (bets: seq<Bet>)
      ensures this.bets == bets
    {
      this.bets := bets;
    }
  }
}
