/**
 * The configurable wallet risk evaluator: thresholds and scores are chosen
 * when the evaluator is built, raw transaction dictionaries are sanitised into
 * `Tx` records, each record gets the score of the first rule that applies
 * (large outbound, unknown destination, baseline), and the total is clamped
 * at `maxScore`, stopping as soon as the running total reaches it.
 */
module ProxyResolver {
  import opened Common
  import opened Text

  /** A sanitised transaction (the frozen dataclass `Tx`); `kind` is the `type` field. */
  datatype Tx = Tx(amount: real, kind: string, destination: string)

  /** A raw transaction dictionary: each key may be missing. */
  datatype RawTx = RawTx(amount: Option<real>, kind: Option<string>, destination: Option<string>)

  /** The rule table: the threshold, the three scores and the cap. */
  datatype Config = Config(
    largeOutThreshold: real,
    scoreLargeOut: int,
    scoreUnknownDest: int,
    scoreBaseline: int,
    maxScore: int)

  /** The constructor's default keyword arguments. */
  const DEFAULT_CONFIG: Config := Config(10000.0, 20, 15, 5, 100)

  /** Which rule produced a transaction's score. */
  datatype Reason = LargeOut | UnknownDestination | Baseline {
    /** The reason string the breakdown reports. */
    function Label(): string {
      match this
      case LargeOut => "large_out"
      case UnknownDestination => "unknown_destination"
      case Baseline => "baseline"
    }
  }

  /** One entry of the detailed breakdown: the transaction, its score and why. */
  datatype Detail = Detail(tx: Tx, score: int, reason: Reason)

  /** Missing fields take their defaults and the type is lower-cased. */
  function Sanitize(raw: RawTx): Tx {
    Tx(raw.amount.GetOr(0.0), ToLower(raw.kind.GetOr("")), raw.destination.GetOr(""))
  }

  const UNKNOWN: string := "unknown"

  /**
   * Whether the pattern `^unknown(?:_|$)`, compiled with `re.IGNORECASE`, matches
   * at the start of `d`: seven characters equal to "unknown" up to case, then
   * either '_' or the end of the string, where Python's `$` also matches just
   * before one final newline.
   */
  predicate IsUnknownDestination(d: string) {
    && |d| >= |UNKNOWN|
    && (forall i :: 0 <= i < |UNKNOWN| ==> LowerChar(d[i]) == UNKNOWN[i])
    && var rest := d[|UNKNOWN|..];
       (rest != [] && rest[0] == '_') || rest == [] || rest == "\n"
  }

  /** The first rule: an outbound transfer strictly above the threshold. */
  predicate IsLargeOut(cfg: Config, tx: Tx) {
    tx.kind == "out" && tx.amount > cfg.largeOutThreshold
  }

  /** The score the table assigns to each reason. */
  function ScoreFor(cfg: Config, reason: Reason): int {
    match reason
    case LargeOut => cfg.scoreLargeOut
    case UnknownDestination => cfg.scoreUnknownDest
    case Baseline => cfg.scoreBaseline
  }

  /** `_score_tx`: the first rule that applies, with its score. */
  function ScoreTx(cfg: Config, tx: Tx): (int, Reason) {
    if IsLargeOut(cfg, tx) then (cfg.scoreLargeOut, LargeOut)
    else if IsUnknownDestination(tx.destination) then (cfg.scoreUnknownDest, UnknownDestination)
    else (cfg.scoreBaseline, Baseline)
  }

  /** `_evaluate_tx`: the score alone, always one of the three configured scores. */
  function EvaluateTx(cfg: Config, tx: Tx): (s: int)
    ensures s == cfg.scoreLargeOut || s == cfg.scoreUnknownDest || s == cfg.scoreBaseline
  {
    ScoreTx(cfg, tx).0
  }

  /** The breakdown entry `(tx, score, reason)` for one transaction. */
  function DetailOf(cfg: Config, tx: Tx): Detail {
    Detail(tx, ScoreTx(cfg, tx).0, ScoreTx(cfg, tx).1)
  }

  /** The unclamped sum of the per-transaction scores. */
  function TotalScore(cfg: Config, txs: seq<Tx>): int {
    if txs == [] then 0
    else TotalScore(cfg, txs[..|txs| - 1]) + EvaluateTx(cfg, txs[|txs| - 1])
  }

  /** Every configured score is non-negative. */
  predicate NonNegativeScores(cfg: Config) {
    cfg.scoreLargeOut >= 0 && cfg.scoreUnknownDest >= 0 && cfg.scoreBaseline >= 0
  }

  /** Some non-empty prefix of `txs` brings the running total to the cap. */
  ghost predicate ReachesCap(cfg: Config, txs: seq<Tx>) {
    exists k :: 1 <= k <= |txs| && TotalScore(cfg, txs[..k]) >= cfg.maxScore
  }

  /**
   * The score `evaluate` promises: the cap if the running total ever reaches
   * it, otherwise the total clamped at the cap.
   */
  ghost function RiskScore(cfg: Config, txs: seq<Tx>): int {
    if ReachesCap(cfg, txs) then cfg.maxScore else Min(cfg.maxScore, TotalScore(cfg, txs))
  }

  // ---- the rule table ----

  /**
   * `_score_tx` follows a fixed priority: large outbound first (strictly above the
   * threshold), then unknown destination, then baseline; the score is that
   * reason's configured score.
   */
  lemma ScoreTxPriority(cfg: Config, tx: Tx)
    ensures ScoreTx(cfg, tx).1 == LargeOut <==> tx.kind == "out" && tx.amount > cfg.largeOutThreshold
    ensures ScoreTx(cfg, tx).1 == UnknownDestination <==>
              !IsLargeOut(cfg, tx) && IsUnknownDestination(tx.destination)
    ensures ScoreTx(cfg, tx).1 == Baseline <==>
              !IsLargeOut(cfg, tx) && !IsUnknownDestination(tx.destination)
    ensures ScoreTx(cfg, tx).0 == ScoreFor(cfg, ScoreTx(cfg, tx).1)
  {
  }

  /**
   * The destination test holds exactly when the destination, lower-cased, is
   * "unknown", is "unknown" followed by one newline, or starts with "unknown_".
   */
  lemma UnknownDestinationIff(d: string)
    ensures IsUnknownDestination(d) <==>
              (var f := ToLower(d); f == "unknown" || f == "unknown\n" || StartsWith(f, "unknown_"))
  {
    MatchesLowered(d, ToLower(d));
  }

  /** `UnknownDestinationIff`, stated for any character-wise lower-cased copy `f` of `d`. */
  lemma MatchesLowered(d: string, f: string)
    requires |f| == |d|
    requires forall i :: 0 <= i < |d| ==> f[i] == LowerChar(d[i])
    ensures IsUnknownDestination(d) <==> f == "unknown" || f == "unknown\n" || StartsWith(f, "unknown_")
  {
    var n := |UNKNOWN|;
    if |d| >= n {
      var pre := f[..n] == UNKNOWN;
      assert pre <==> forall i :: 0 <= i < n ==> LowerChar(d[i]) == UNKNOWN[i] by {
        if pre {
          forall i | 0 <= i < n ensures LowerChar(d[i]) == UNKNOWN[i] {
            assert f[..n][i] == f[i];
          }
        }
      }
      assert f == "unknown" <==> pre && |d| == n by {
        if |d| == n { assert f[..n] == f; }
      }
      if |d| > n {
        LowerCharFixed(d[n], '_');
        LowerCharFixed(d[n], '\n');
        assert StartsWith(f, "unknown_") <==> pre && f[n] == '_' by {
          assert "unknown_" == UNKNOWN + "_";
          assert f[..n + 1] == f[..n] + [f[n]];
        }
        assert f == "unknown\n" <==> pre && |d| == n + 1 && f[n] == '\n' by {
          assert "unknown\n" == UNKNOWN + "\n";
          assert f[..n + 1] == f[..n] + [f[n]];
          if |d| == n + 1 { assert f[..n + 1] == f; }
        }
        assert d[n..] == "\n" <==> |d| == n + 1 && d[n] == '\n';
      } else {
        assert !StartsWith(f, "unknown_") && f != "unknown\n";
      }
    } else {
      assert |f| < n;
    }
  }

  // ---- sanitisation ----

  /**
   * Missing keys take their defaults: amount 0, type and destination empty; a
   * present type is lower-cased, so any capitalisation of "out" is outbound.
   */
  lemma SanitizeFields(raw: RawTx)
    ensures raw.amount.None? ==> Sanitize(raw).amount == 0.0
    ensures raw.amount.Some? ==> Sanitize(raw).amount == raw.amount.value
    ensures raw.kind.None? ==> Sanitize(raw).kind == ""
    ensures raw.destination.None? ==> Sanitize(raw).destination == ""
    ensures raw.destination.Some? ==> Sanitize(raw).destination == raw.destination.value
    ensures raw.kind.Some? && raw.kind.value in {"out", "OUT", "Out", "oUT", "ouT", "OUt", "OuT", "oUt"} ==>
              Sanitize(raw).kind == "out"
  {
    if raw.kind.Some? {
      ToLowerIsOut(raw.kind.value);
    }
  }

  /** Sanitising a second time changes nothing. */
  lemma SanitizeIdempotent(raw: RawTx)
    ensures var t := Sanitize(raw);
            Sanitize(RawTx(Some(t.amount), Some(t.kind), Some(t.destination))) == t
  {
    ToLowerIdempotent(raw.kind.GetOr(""));
  }

  // ---- totals ----

  /** Appending a transaction adds its score to the total. */
  lemma TotalScoreAppend(cfg: Config, txs: seq<Tx>, tx: Tx)
    ensures TotalScore(cfg, txs + [tx]) == TotalScore(cfg, txs) + EvaluateTx(cfg, tx)
  {
    assert (txs + [tx])[..|txs|] == txs;
  }

  /** With non-negative scores the total never decreases along the list. */
  lemma {:induction false} TotalScorePrefixMonotone(cfg: Config, txs: seq<Tx>, k: nat)
    requires NonNegativeScores(cfg)
    requires k <= |txs|
    ensures 0 <= TotalScore(cfg, txs[..k]) <= TotalScore(cfg, txs)
  {
    if k == |txs| {
      assert txs[..k] == txs;
      if txs != [] {
        TotalScorePrefixMonotone(cfg, txs[..|txs| - 1], |txs| - 1);
        assert txs[..|txs| - 1][..|txs| - 1] == txs[..|txs| - 1];
      }
    } else {
      var init := txs[..|txs| - 1];
      TotalScorePrefixMonotone(cfg, init, k);
      assert init[..k] == txs[..k];
    }
  }

  /**
   * With non-negative scores the early exit is invisible: the result is the
   * plain sum clamped at the cap.
   */
  lemma RiskScoreIsClampedSum(cfg: Config, txs: seq<Tx>)
    requires NonNegativeScores(cfg)
    ensures RiskScore(cfg, txs) == Min(cfg.maxScore, TotalScore(cfg, txs))
  {
    if ReachesCap(cfg, txs) {
      var k :| 1 <= k <= |txs| && TotalScore(cfg, txs[..k]) >= cfg.maxScore;
      TotalScorePrefixMonotone(cfg, txs, k);
    }
  }

  /**
   * The score never exceeds the cap; with non-negative scores and a
   * non-negative cap it lies in 0..maxScore.
   */
  lemma RiskScoreBounds(cfg: Config, txs: seq<Tx>)
    ensures RiskScore(cfg, txs) <= cfg.maxScore
    ensures NonNegativeScores(cfg) && cfg.maxScore >= 0 ==> 0 <= RiskScore(cfg, txs)
  {
    if NonNegativeScores(cfg) {
      RiskScoreIsClampedSum(cfg, txs);
      TotalScorePrefixMonotone(cfg, txs, 0);
    }
  }

  /** An empty list scores `min(maxScore, 0)`, which is 0 for a non-negative cap. */
  lemma RiskScoreEmpty(cfg: Config)
    ensures RiskScore(cfg, []) == Min(cfg.maxScore, 0)
    ensures cfg.maxScore >= 0 ==> RiskScore(cfg, []) == 0
  {
  }

  /** The evaluator: its configuration and the sanitised transactions, both fixed once built. */
  class WalletRiskEvaluator {
    const config: Config
    const transactions: seq<Tx>

    /** Stores the configuration and sanitises every raw transaction, in order. */
    constructor(
      raw: seq<RawTx>,
      nameonly largeOutThreshold: real := 10000.0,
      nameonly scoreLargeOut: int := 20,
      nameonly scoreUnknownDest: int := 15,
      nameonly scoreBaseline: int := 5,
      nameonly maxScore: int := 100)
      ensures config == Config(largeOutThreshold, scoreLargeOut, scoreUnknownDest, scoreBaseline, maxScore)
      ensures |transactions| == |raw|
      ensures forall i :: 0 <= i < |raw| ==> transactions[i] == Sanitize(raw[i])
    {
      config := Config(largeOutThreshold, scoreLargeOut, scoreUnknownDest, scoreBaseline, maxScore);
      var txs: seq<Tx> := [];
      for i := 0 to |raw|
        invariant |txs| == i
        invariant forall j :: 0 <= j < i ==> txs[j] == Sanitize(raw[j])
      {
        txs := txs + [Sanitize(raw[i])];
      }
      transactions := txs;
    }

    /**
     * `evaluate`: adds up the scores and returns the cap as soon as the running
     * total reaches it.
     */
    method Evaluate() returns (total: int)
      ensures total == RiskScore(config, transactions)
      ensures total <= config.maxScore
      ensures NonNegativeScores(config) ==> total == Min(config.maxScore, TotalScore(config, transactions))
      ensures NonNegativeScores(config) && config.maxScore >= 0 ==> 0 <= total
    {
      RiskScoreBounds(config, transactions);
      if NonNegativeScores(config) {
        RiskScoreIsClampedSum(config, transactions);
      }
      ghost var promised := RiskScore(config, transactions);
      total := 0;
      for i := 0 to |transactions|
        invariant total == TotalScore(config, transactions[..i])
        invariant forall k :: 1 <= k <= i ==> TotalScore(config, transactions[..k]) < config.maxScore
      {
        assert transactions[..i + 1][..i] == transactions[..i];
        total := total + EvaluateTx(config, transactions[i]);
        if total >= config.maxScore {
          assert promised == config.maxScore by {
            assert 1 <= i + 1 <= |transactions|;
          }
          return config.maxScore;
        }
      }
      assert transactions[..|transactions|] == transactions;
      total := Min(config.maxScore, total);
    }

    /**
     * `evaluate_detailed`: the same total as `Evaluate`, and the breakdown of the
     * transactions scored before stopping, in order.
     */
    method EvaluateDetailed() returns (total: int, details: seq<Detail>)
      ensures total == RiskScore(config, transactions)
      ensures |details| <= |transactions|
      ensures forall i :: 0 <= i < |details| ==> details[i] == DetailOf(config, transactions[i])
      ensures forall k :: 1 <= k < |details| ==> TotalScore(config, transactions[..k]) < config.maxScore
      ensures |details| < |transactions| ==>
                0 < |details| && TotalScore(config, transactions[..|details|]) >= config.maxScore
      ensures !ReachesCap(config, transactions) ==> |details| == |transactions|
    {
      total := 0;
      details := [];
      for i := 0 to |transactions|
        invariant |details| == i
        invariant forall j :: 0 <= j < i ==> details[j] == DetailOf(config, transactions[j])
        invariant total == TotalScore(config, transactions[..i])
        invariant forall k :: 1 <= k <= i ==> TotalScore(config, transactions[..k]) < config.maxScore
      {
        assert transactions[..i + 1][..i] == transactions[..i];
        var (s, why) := ScoreTx(config, transactions[i]);
        details := details + [Detail(transactions[i], s, why)];
        total := total + s;
        if total >= config.maxScore {
          assert ReachesCap(config, transactions) by {
            assert 1 <= i + 1 <= |transactions|;
          }
          return config.maxScore, details;
        }
      }
      assert transactions[..|transactions|] == transactions;
      total := Min(config.maxScore, total);
    }
  }
}
