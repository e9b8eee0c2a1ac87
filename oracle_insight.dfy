/**
 * The additive wallet risk evaluator: four rules each add points to a
 * transaction's score (large outbound, `unknown_` destination, high
 * frequency, blacklisted destination), a baseline applies only when none
 * fires, and the total over all transactions is clamped at 100.
 */
module OracleInsight {
  import opened Common
  import opened Text

  const LARGE_OUT_THRESHOLD: real := 10000.0
  const POINTS_LARGE_OUT: nat := 20
  const POINTS_UNKNOWN_DEST: nat := 15
  const POINTS_HIGH_FREQUENCY: nat := 10
  const POINTS_BLACKLISTED: nat := 25
  const POINTS_BASELINE: nat := 5
  const MAX_SCORE: int := 100
  /** How many other transactions must lie within the window. */
  const HIGH_FREQUENCY_COUNT: nat := 3
  /** One minute, in microseconds (the resolution of a timestamp). */
  const WINDOW_MICROS: int := 60_000_000
  const BLACKLIST: set<string> := {"unknown_wallet", "suspicious_address", "scam_target"}

  /**
   * A transaction dictionary. Each key may be missing; a timestamp is a count of
   * microseconds. It is an object because the high-frequency rule tells
   * transactions apart by identity, not by value.
   */
  class TxRecord {
    const amount: Option<real>
    const kind: Option<string>
    const destination: Option<string>
    const timestamp: Option<int>

    constructor(amount: Option<real>, kind: Option<string>, destination: Option<string>, timestamp: Option<int>)
      ensures this.amount == amount && this.kind == kind
      ensures this.destination == destination && this.timestamp == timestamp
    {
      this.amount := amount;
      this.kind := kind;
      this.destination := destination;
      this.timestamp := timestamp;
    }
  }

  /** Rule 1: amount (0 when missing) strictly above 10000, and type exactly "out". */
  predicate IsLargeOut(tx: TxRecord) {
    tx.amount.GetOr(0.0) > LARGE_OUT_THRESHOLD && tx.kind == Some("out")
  }

  /** Rule 2: the destination ("" when missing) starts with "unknown_", case-sensitively. */
  predicate HasUnknownPrefix(tx: TxRecord) {
    StartsWith(tx.destination.GetOr(""), "unknown_")
  }

  /** `_is_blacklisted`: membership in the fixed three-element blacklist. */
  predicate IsBlacklisted(destination: string) {
    destination in BLACKLIST
  }

  /** `other` carries a timestamp strictly less than a minute away from `time`. */
  predicate IsNear(other: TxRecord, time: int) {
    other.timestamp.Some? && Abs(time - other.timestamp.value) < WINDOW_MICROS
  }

  /** How many transactions of `txs`, other than `tx` itself, are near `time`. */
  function NearCount(txs: seq<TxRecord>, tx: TxRecord, time: int): nat {
    if txs == [] then 0
    else
      var last := txs[|txs| - 1];
      NearCount(txs[..|txs| - 1], tx, time) + (if last != tx && IsNear(last, time) then 1 else 0)
  }

  /** The positions of the transactions that `NearCount` counts. */
  ghost function NearOthers(txs: seq<TxRecord>, tx: TxRecord, time: int): set<nat> {
    set j: nat | j < |txs| && txs[j] != tx && IsNear(txs[j], time)
  }

  /** Rule 3: `tx` has a timestamp and at least three other transactions lie within a minute of it. */
  predicate HighFrequency(txs: seq<TxRecord>, tx: TxRecord) {
    tx.timestamp.Some? && NearCount(txs, tx, tx.timestamp.value) >= HIGH_FREQUENCY_COUNT
  }

  /** The points of every rule that fires, added up. */
  function RulePoints(txs: seq<TxRecord>, tx: TxRecord): nat {
    (if IsLargeOut(tx) then POINTS_LARGE_OUT else 0)
    + (if HasUnknownPrefix(tx) then POINTS_UNKNOWN_DEST else 0)
    + (if HighFrequency(txs, tx) then POINTS_HIGH_FREQUENCY else 0)
    + (if IsBlacklisted(tx.destination.GetOr("")) then POINTS_BLACKLISTED else 0)
  }

  /** A transaction's score: its rule points, or the baseline when they are 0. */
  function TxScore(txs: seq<TxRecord>, tx: TxRecord): nat {
    var points := RulePoints(txs, tx);
    if points == 0 then POINTS_BASELINE else points
  }

  /** The scores of the transactions of `part`, each judged against the whole list `txs`, summed. */
  function TotalScore(txs: seq<TxRecord>, part: seq<TxRecord>): nat {
    if part == [] then 0
    else TotalScore(txs, part[..|part| - 1]) + TxScore(txs, part[|part| - 1])
  }

  /** The score `evaluate` promises: the sum of all scores, clamped at 100. */
  function RiskScore(txs: seq<TxRecord>): int {
    Min(MAX_SCORE, TotalScore(txs, txs))
  }

  // ---- the high-frequency rule ----

  /** `NearCount` counts exactly the positions in `NearOthers`. */
  lemma {:induction false} NearCountIsCardinality(txs: seq<TxRecord>, tx: TxRecord, time: int)
    ensures NearCount(txs, tx, time) == |NearOthers(txs, tx, time)|
  {
    if txs != [] {
      var n := |txs| - 1;
      var init := txs[..n];
      NearCountIsCardinality(init, tx, time);
      var before := NearOthers(init, tx, time);
      if txs[n] != tx && IsNear(txs[n], time) {
        assert NearOthers(txs, tx, time) == before + {n};
      } else {
        assert NearOthers(txs, tx, time) == before;
      }
    }
  }

  /**
   * A transaction without a timestamp is never high-frequency; one with a
   * timestamp is exactly when at least three other transactions, told apart by
   * identity, have a timestamp strictly less than a minute away.
   */
  lemma HighFrequencyIff(txs: seq<TxRecord>, tx: TxRecord)
    ensures tx.timestamp.None? ==> !HighFrequency(txs, tx)
    ensures HighFrequency(txs, tx) <==>
              tx.timestamp.Some? && |NearOthers(txs, tx, tx.timestamp.value)| >= HIGH_FREQUENCY_COUNT
  {
    if tx.timestamp.Some? {
      NearCountIsCardinality(txs, tx, tx.timestamp.value);
    }
  }

  // ---- the rule table ----

  /**
   * A score is the sum of the points of the rules that fire, or 5 when none
   * fires; so it lies in 5..70, and it is 5 only when no rule fires.
   */
  lemma TxScoreRules(txs: seq<TxRecord>, tx: TxRecord)
    ensures 5 <= TxScore(txs, tx) <= 70
    ensures TxScore(txs, tx) == 5 <==>
              !IsLargeOut(tx) && !HasUnknownPrefix(tx) && !HighFrequency(txs, tx)
              && !IsBlacklisted(tx.destination.GetOr(""))
    ensures RulePoints(txs, tx) != 0 ==> TxScore(txs, tx) == RulePoints(txs, tx)
  {
  }

  /**
   * Within the blacklist only "unknown_wallet" also has the "unknown_" prefix,
   * so it is the one blacklisted destination that scores at least 40.
   */
  lemma BlacklistAndPrefix(txs: seq<TxRecord>, tx: TxRecord)
    ensures forall d :: d in BLACKLIST ==> (StartsWith(d, "unknown_") <==> d == "unknown_wallet")
    ensures tx.destination == Some("unknown_wallet") ==> TxScore(txs, tx) >= 40
  {
    assert StartsWith("unknown_wallet", "unknown_");
    assert !StartsWith("suspicious_address", "unknown_") by {
      assert "suspicious_address"[0] != "unknown_"[0];
    }
    assert !StartsWith("scam_target", "unknown_") by {
      assert "scam_target"[0] != "unknown_"[0];
    }
  }

  // ---- totals ----

  /** Every transaction adds between 5 and 70 to the total. */
  lemma {:induction false} TotalScoreBounds(txs: seq<TxRecord>, part: seq<TxRecord>)
    ensures 5 * |part| <= TotalScore(txs, part) <= 70 * |part|
  {
    if part != [] {
      TotalScoreBounds(txs, part[..|part| - 1]);
      TxScoreRules(txs, part[|part| - 1]);
    }
  }

  /** The result of `evaluate` lies in 0..100, and an empty list scores 0. */
  lemma RiskScoreBounds(txs: seq<TxRecord>)
    ensures 0 <= RiskScore(txs) <= MAX_SCORE
    ensures txs == [] ==> RiskScore(txs) == 0
    ensures |txs| >= 20 ==> RiskScore(txs) == MAX_SCORE
  {
    TotalScoreBounds(txs, txs);
  }

  /** The evaluator over a fixed list of transactions. */
  class WalletRiskEvaluator {
    const transactions: seq<TxRecord>

    constructor(transactions: seq<TxRecord>)
      ensures this.transactions == transactions
    {
      this.transactions := transactions;
    }

    /**
     * `evaluate`: sums the scores and clamps the sum at 100. It has no modifies
     * clause, so the list and its records are left as they were.
     */
    method Evaluate() returns (normalized: int)
      ensures normalized == RiskScore(transactions)
      ensures 0 <= normalized <= MAX_SCORE
    {
      var score := 0;
      for i := 0 to |transactions|
        invariant score == TotalScore(transactions, transactions[..i])
      {
        assert transactions[..i + 1][..i] == transactions[..i];
        var points := EvaluateTx(transactions[i]);
        score := score + points;
      }
      assert transactions[..|transactions|] == transactions;
      normalized := Min(MAX_SCORE, score);
      RiskScoreBounds(transactions);
    }

    /** `_evaluate_tx`: adds the points of each rule in turn, then applies the baseline. */
    method EvaluateTx(tx: TxRecord) returns (riskPoints: int)
      ensures riskPoints == TxScore(transactions, tx)
      ensures 5 <= riskPoints <= 70
    {
      riskPoints := 0;
      if tx.amount.GetOr(0.0) > LARGE_OUT_THRESHOLD && tx.kind == Some("out") {
        riskPoints := riskPoints + POINTS_LARGE_OUT;
      }
      if StartsWith(tx.destination.GetOr(""), "unknown_") {
        riskPoints := riskPoints + POINTS_UNKNOWN_DEST;
      }
      var frequent := IsHighFrequency(tx);
      if frequent {
        riskPoints := riskPoints + POINTS_HIGH_FREQUENCY;
      }
      if IsBlacklisted(tx.destination.GetOr("")) {
        riskPoints := riskPoints + POINTS_BLACKLISTED;
      }
      if riskPoints == 0 {
        riskPoints := POINTS_BASELINE;
      }
      TxScoreRules(transactions, tx);
    }

    /** `_is_high_frequency`: counts the other transactions within a minute of `tx`. */
    method IsHighFrequency(tx: TxRecord) returns (frequent: bool)
      ensures frequent == HighFrequency(transactions, tx)
      ensures tx.timestamp.None? ==> !frequent
    {
      if tx.timestamp.None? {
        return false;
      }
      var time := tx.timestamp.value;
      var count := 0;
      for j := 0 to |transactions|
        invariant count == NearCount(transactions[..j], tx, time)
      {
        assert transactions[..j + 1][..j] == transactions[..j];
        var other := transactions[j];
        if other != tx {
          if other.timestamp.Some? && Abs(time - other.timestamp.value) < WINDOW_MICROS {
            count := count + 1;
          }
        }
      }
      assert transactions[..|transactions|] == transactions;
      frequent := count >= HIGH_FREQUENCY_COUNT;
    }
  }
}
