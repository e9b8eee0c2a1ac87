/**
 * The minimal wallet risk evaluator: three rules are checked in priority
 * order and the first that applies gives the transaction 20, 15 or 5 points;
 * the total is clamped at 100.
 */
module BotDetector {
  import opened Common
  import opened Text

  const LARGE_OUT_THRESHOLD: real := 10000.0
  const MAX_SCORE: int := 100

  /**
   * A transaction dictionary with all three keys present. The source reads
   * `type` only when the amount exceeds the threshold and `destination` only
   * when the first rule fails; records missing a key it never reads are not
   * represented (see README "Left out").
   */
  datatype Tx = Tx(amount: real, kind: string, destination: string)

  /** `_evaluate_tx`: the first rule that applies decides the score. */
  function TxScore(tx: Tx): nat {
    if tx.amount > LARGE_OUT_THRESHOLD && tx.kind == "out" then 20
    else if StartsWith(tx.destination, "unknown_") then 15
    else 5
  }

  /** The scores of all transactions, summed. */
  function TotalScore(txs: seq<Tx>): nat {
    if txs == [] then 0 else TotalScore(txs[..|txs| - 1]) + TxScore(txs[|txs| - 1])
  }

  /** The score `evaluate` promises: the sum clamped at 100. */
  function RiskScore(txs: seq<Tx>): int {
    Min(MAX_SCORE, TotalScore(txs))
  }

  /**
   * The rules in priority order: 20 exactly for an outbound transfer strictly above
   * 10000; otherwise 15 exactly for a destination starting with "unknown_"
   * (case-sensitively); otherwise 5. No other score is possible.
   */
  lemma TxScorePriority(tx: Tx)
    ensures TxScore(tx) == 20 || TxScore(tx) == 15 || TxScore(tx) == 5
    ensures TxScore(tx) == 20 <==> tx.amount > 10000.0 && tx.kind == "out"
    ensures TxScore(tx) == 15 <==>
              !(tx.amount > 10000.0 && tx.kind == "out") && StartsWith(tx.destination, "unknown_")
    ensures TxScore(tx) == 5 <==>
              !(tx.amount > 10000.0 && tx.kind == "out") && !StartsWith(tx.destination, "unknown_")
  {
  }

  /** The prefix test is case-sensitive: an upper-case "UNKNOWN_" destination gets the baseline. */
  lemma PrefixIsCaseSensitive(amount: real, kind: string, rest: string)
    requires !(amount > 10000.0 && kind == "out")
    ensures TxScore(Tx(amount, kind, "UNKNOWN_" + rest)) == 5
  {
    assert ("UNKNOWN_" + rest)[0] != "unknown_"[0];
  }

  /** Appending a transaction adds its score to the total. */
  lemma TotalScoreAppend(txs: seq<Tx>, tx: Tx)
    ensures TotalScore(txs + [tx]) == TotalScore(txs) + TxScore(tx)
  {
    assert (txs + [tx])[..|txs|] == txs;
  }

  /** Every transaction adds between 5 and 20 to the total. */
  lemma {:induction false} TotalScoreBounds(txs: seq<Tx>)
    ensures 5 * |txs| <= TotalScore(txs) <= 20 * |txs|
  {
    if txs != [] {
      TotalScoreBounds(txs[..|txs| - 1]);
    }
  }

  /** The result of `evaluate` lies in 0..100; an empty list scores 0. */
  lemma RiskScoreBounds(txs: seq<Tx>)
    ensures 0 <= RiskScore(txs) <= MAX_SCORE
    ensures txs == [] ==> RiskScore(txs) == 0
  {
    TotalScoreBounds(txs);
  }

  /** Appending a transaction never lowers the score, and raises it while below the cap. */
  lemma AppendNeverDecreases(txs: seq<Tx>, tx: Tx)
    ensures RiskScore(txs) <= RiskScore(txs + [tx])
    ensures RiskScore(txs) < MAX_SCORE ==> RiskScore(txs) < RiskScore(txs + [tx])
  {
    TotalScoreAppend(txs, tx);
  }

  /** The evaluator over a fixed list of transactions. */
  class WalletRiskEvaluator {
    const transactions: seq<Tx>

    constructor(transactions: seq<Tx>)
      ensures this.transactions == transactions
    {
      this.transactions := transactions;
    }

    /** `evaluate`: sums the scores and clamps the sum at 100. */
    method Evaluate() returns (score: int)
      ensures score == RiskScore(transactions)
      ensures 0 <= score <= MAX_SCORE
    {
      var sum := 0;
      for i := 0 to |transactions|
        invariant sum == TotalScore(transactions[..i])
      {
        assert transactions[..i + 1][..i] == transactions[..i];
        sum := sum + TxScore(transactions[i]);
      }
      assert transactions[..|transactions|] == transactions;
      score := Min(MAX_SCORE, sum);
      RiskScoreBounds(transactions);
    }
  }
}
