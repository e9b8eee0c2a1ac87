/**
 * How the three evaluators relate on the same transaction: the configurable
 * one with its default table and the additive one never score a transaction
 * lower than the minimal one does.
 */
module Variants {
  import opened Common
  import opened Text
  import ProxyResolver
  import OracleInsight
  import BotDetector

  /** A destination with the literal prefix "unknown_" passes the case-insensitive test. */
  lemma PrefixImpliesUnknownDestination(d: string)
    requires StartsWith(d, "unknown_")
    ensures ProxyResolver.IsUnknownDestination(d)
  {
    forall i | 0 <= i < |ProxyResolver.UNKNOWN|
      ensures LowerChar(d[i]) == ProxyResolver.UNKNOWN[i]
    {
      assert d[i] == d[..8][i] == "unknown_"[i];
    }
    assert d[7] == d[..8][7];
  }

  /**
   * With the default table, the configurable evaluator scores a transaction at
   * least as high as the minimal one, both on the fields as given and after its
   * sanitisation; an upper-case "UNKNOWN_" destination shows the difference.
   */
  lemma ProxyDefaultsDominateBot(t: BotDetector.Tx)
    ensures ProxyResolver.EvaluateTx(ProxyResolver.DEFAULT_CONFIG, ProxyResolver.Tx(t.amount, t.kind, t.destination))
            >= BotDetector.TxScore(t)
    ensures ProxyResolver.EvaluateTx(ProxyResolver.DEFAULT_CONFIG,
                                     ProxyResolver.Sanitize(ProxyResolver.RawTx(Some(t.amount), Some(t.kind), Some(t.destination))))
            >= BotDetector.TxScore(t)
    ensures t.kind == "in" && t.destination == "UNKNOWN_X" ==>
              BotDetector.TxScore(t) == 5
              && ProxyResolver.EvaluateTx(ProxyResolver.DEFAULT_CONFIG, ProxyResolver.Tx(t.amount, t.kind, t.destination)) == 15
  {
    if StartsWith(t.destination, "unknown_") {
      PrefixImpliesUnknownDestination(t.destination);
    }
    ToLowerIsOut(t.kind);
    if t.kind == "in" && t.destination == "UNKNOWN_X" {
      BotDetector.PrefixIsCaseSensitive(t.amount, t.kind, "X");
      assert ProxyResolver.IsUnknownDestination("UNKNOWN_X") by {
        var d := "UNKNOWN_X";
        forall i | 0 <= i < 7 ensures LowerChar(d[i]) == ProxyResolver.UNKNOWN[i] { }
      }
    }
  }

  /**
   * The additive evaluator scores a record with all keys present at least as high
   * as the minimal evaluator scores the same transaction.
   */
  lemma OracleDominatesBot(txs: seq<OracleInsight.TxRecord>, r: OracleInsight.TxRecord, t: BotDetector.Tx)
    requires r.amount == Some(t.amount) && r.kind == Some(t.kind) && r.destination == Some(t.destination)
    ensures OracleInsight.TxScore(txs, r) >= BotDetector.TxScore(t)
  {
  }
}
