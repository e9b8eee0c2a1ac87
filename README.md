# Wallet risk evaluator, modelled in Dafny

The wallet core scores a wallet's transactions for risk. Three versions of the
evaluator exist, one per file. Each gives every transaction a score from a fixed
rule table and adds the scores into a total that is clamped at a maximum.

- `wallet-core/proxy_resolver.py` is the configurable version, modelled in module
  `ProxyResolver` (`proxy_resolver.dfy`). The threshold, the three scores and the
  cap are constructor keyword arguments. They are modelled as `nameonly` parameters
  with the same defaults. Raw dictionaries are sanitised into `Tx` records. Each
  record gets the score of the first rule that applies: large outbound, then
  unknown destination, then baseline. `evaluate` returns the cap as soon as the
  running total reaches it. `evaluate_detailed` also returns the breakdown of the
  records scored so far.
- `wallet-core/oracle_insight.py` is the additive version, modelled in module
  `OracleInsight` (`oracle_insight.dfy`). Four rules each add points: large
  outbound (20), a destination starting with `unknown_` (15), high frequency (10)
  and a blacklisted destination (25). The baseline of 5 applies only when no rule
  fires. The total is clamped at 100.
- `wallet-core/python/ai/bot_detector.py` is the minimal version, modelled in module
  `BotDetector` (`bot_detector.dfy`). Three rules are checked in priority order
  and the first that applies decides the score: 20, 15 or 5. The total is clamped
  at 100.

Shared pieces:
- `Common` (`common.dfy`) holds `Option` (a dictionary key that may be missing),
  `Min` and `Abs`.
- `Text` (`text.dfy`) holds `str.lower`, `str.startswith`, and the character
  comparison used by a case-insensitive regular expression.
- `Variants` (`variants.dfy`) relates the three versions on the same transaction.

How the model is built:
- Each evaluator is a class whose fields are fixed once it is built (`const`).
- Each loop of the source is a method, or the constructor, with a `for` loop. The method is proved
  against a specification function: `RiskScore`, `TxScore`, `HighFrequency`.
- The properties the source promises are lemmas about those functions.
- None of the methods has a `modifies` clause, so evaluating cannot change the
  transaction list or its records.

Points where the code decides, not a plain reading of the rules:
- The proxy's unknown-destination pattern is `^unknown(?:_|$)` with
  `re.IGNORECASE`. Python's `$` also matches just before one final newline, so
  `"unknown\n"` is an unknown destination too. `IsUnknownDestination` and
  `UnknownDestinationIff` state this.
- Under `re.IGNORECASE` the letter `k` also matches U+212A KELVIN SIGN, whose
  lower-case form is `k`. `Text.LowerChar` covers it.
- The proxy's docstring promises a score in `0..max_score`. The code guarantees
  the upper bound always. It guarantees the lower bound only when every configured
  score and the cap are non-negative, because the constructor accepts any
  integers. `ProxyResolver.RiskScoreBounds` states exactly that.
- In the additive version, `other is not tx` compares object identity. Records
  are therefore a class (`TxRecord`) and the rule compares references. If the same
  record appears twice in the list, both copies are excluded, as in Python.

## Model

| member | source | states |
|---|---|---|
| `Text.ToLower` | wallet-core/proxy_resolver.py:50 | lower-casing keeps the length and lower-cases each character in place |
| `Text.ToLowerIsOut` | wallet-core/proxy_resolver.py:50 | a type lower-cases to "out" exactly when it is one of the eight capitalisations of "out" |
| `ProxyResolver.Sanitize` | wallet-core/proxy_resolver.py:48-52 | one raw dictionary becomes a `Tx`: amount (default 0), lower-cased type (default ""), destination (default ""); its properties are stated by `SanitizeFields` |
| `ProxyResolver.SanitizeFields` | wallet-core/proxy_resolver.py:45-53 | a missing amount becomes 0, a missing type or destination becomes "", present values are kept, and "OUT" and the other capitalisations become "out" |
| `ProxyResolver.SanitizeIdempotent` | wallet-core/proxy_resolver.py:44-53 | sanitising an already sanitised record gives back the same record |
| `ProxyResolver.WalletRiskEvaluator.constructor` | wallet-core/proxy_resolver.py:28-53 | stores the rule table and keeps one sanitised record per raw one, in the same order and number |
| `ProxyResolver.IsUnknownDestination` | wallet-core/proxy_resolver.py:95 | whether `^unknown(?:_|$)` under IGNORECASE matches the destination; characterised by `UnknownDestinationIff` |
| `ProxyResolver.UnknownDestinationIff` | wallet-core/proxy_resolver.py:56 | the pattern matches exactly when the lower-cased destination is "unknown", is "unknown" plus one newline, or starts with "unknown_" |
| `ProxyResolver.ScoreTx` | wallet-core/proxy_resolver.py:89-99 | `_score_tx`: the score and reason of the first rule that applies; its priority is stated by `ScoreTxPriority` |
| `ProxyResolver.ScoreTxPriority` | wallet-core/proxy_resolver.py:89-99 | large outbound (type "out", amount strictly above the threshold) wins, then unknown destination, then baseline; exactly one reason applies and the score is that reason's configured score |
| `ProxyResolver.EvaluateTx` | wallet-core/proxy_resolver.py:85-87 | the score is always one of the three configured scores |
| `ProxyResolver.TotalScoreAppend` | wallet-core/proxy_resolver.py:62-64 | appending a transaction adds its score to the running total |
| `ProxyResolver.TotalScorePrefixMonotone` | wallet-core/proxy_resolver.py:62-66 | with non-negative scores the running total is non-negative and never exceeds the final sum |
| `ProxyResolver.RiskScoreIsClampedSum` | wallet-core/proxy_resolver.py:62-67 | with non-negative scores, stopping early at the cap gives the same result as min(max_score, sum of all scores) |
| `ProxyResolver.RiskScoreBounds` | wallet-core/proxy_resolver.py:58-67 | the result never exceeds max_score; with non-negative scores and cap it is at least 0 |
| `ProxyResolver.RiskScoreEmpty` | wallet-core/proxy_resolver.py:62-67 | an empty list scores min(max_score, 0), which is 0 for a non-negative cap |
| `ProxyResolver.WalletRiskEvaluator.Evaluate` | wallet-core/proxy_resolver.py:58-67 | returns the cap once the running total reaches it, else the clamped total; never above max_score; with non-negative scores it equals the clamped sum |
| `ProxyResolver.WalletRiskEvaluator.EvaluateDetailed` | wallet-core/proxy_resolver.py:70-82 | returns the same total as `Evaluate`, with an in-order breakdown of the first transactions and their scores and reasons; it stops exactly at the first prefix that reaches the cap, and covers every transaction when the cap is never reached |
| `OracleInsight.NearCountIsCardinality` | wallet-core/oracle_insight.py:42-48 | the loop's count equals the number of positions holding another record, told apart by identity, whose timestamp is strictly less than a minute away |
| `OracleInsight.HighFrequency` | wallet-core/oracle_insight.py:37-48 | the high-frequency rule as a predicate; characterised by `HighFrequencyIff` and decided by `IsHighFrequency` |
| `OracleInsight.HighFrequencyIff` | wallet-core/oracle_insight.py:37-48 | a record without a timestamp is never high-frequency; one with a timestamp is high-frequency exactly when at least three other records lie within the minute |
| `OracleInsight.WalletRiskEvaluator.IsHighFrequency` | wallet-core/oracle_insight.py:37-48 | the counting loop decides exactly the high-frequency rule |
| `OracleInsight.TxScore` | wallet-core/oracle_insight.py:15-35 | a transaction's score: its rule points, or 5 when they are 0; bounded by `TxScoreRules` |
| `OracleInsight.TxScoreRules` | wallet-core/oracle_insight.py:15-35 | a score is the sum of the points of the rules that fire, or 5 when none fires; it lies in 5..70 and is 5 only when no rule fires |
| `OracleInsight.WalletRiskEvaluator.EvaluateTx` | wallet-core/oracle_insight.py:15-35 | adding the rule points one by one and applying the baseline yields the rule-table score, in 5..70 |
| `OracleInsight.IsBlacklisted` | wallet-core/oracle_insight.py:50-52 | holds exactly for "unknown_wallet", "suspicious_address" and "scam_target" |
| `OracleInsight.BlacklistAndPrefix` | wallet-core/oracle_insight.py:23-32 | of the three blacklisted destinations only "unknown_wallet" also has the "unknown_" prefix, so it scores at least 40 |
| `OracleInsight.TotalScoreBounds` | wallet-core/oracle_insight.py:8-11 | each transaction adds between 5 and 70 to the sum |
| `OracleInsight.RiskScoreBounds` | wallet-core/oracle_insight.py:8-13 | the result lies in 0..100, an empty list scores 0, and twenty or more transactions reach the cap |
| `OracleInsight.WalletRiskEvaluator.constructor` | wallet-core/oracle_insight.py:5-6 | keeps the given list as it is |
| `OracleInsight.WalletRiskEvaluator.Evaluate` | wallet-core/oracle_insight.py:8-13 | returns min(100, sum of the per-transaction scores), in 0..100, and modifies nothing |
| `BotDetector.TxScore` | wallet-core/python/ai/bot_detector.py:14-19 | `_evaluate_tx`: the first rule that applies decides 20, 15 or 5; its priority is stated by `TxScorePriority` |
| `BotDetector.TxScorePriority` | wallet-core/python/ai/bot_detector.py:14-19 | 20 exactly for type "out" with amount strictly above 10000, else 15 exactly for a destination starting with "unknown_", else 5; no other score |
| `BotDetector.PrefixIsCaseSensitive` | wallet-core/python/ai/bot_detector.py:17 | a destination starting with "UNKNOWN_" does not get the 15 points |
| `BotDetector.TotalScoreAppend` | wallet-core/python/ai/bot_detector.py:9-11 | appending a transaction adds its score to the sum |
| `BotDetector.TotalScoreBounds` | wallet-core/python/ai/bot_detector.py:9-11 | each transaction adds between 5 and 20 to the sum |
| `BotDetector.RiskScoreBounds` | wallet-core/python/ai/bot_detector.py:8-12 | the result lies in 0..100 and an empty list scores 0 |
| `BotDetector.AppendNeverDecreases` | wallet-core/python/ai/bot_detector.py:9-19 | appending a transaction never lowers the score, and strictly raises it while it is below the cap |
| `BotDetector.WalletRiskEvaluator.constructor` | wallet-core/python/ai/bot_detector.py:5-6 | keeps the given list as it is |
| `BotDetector.WalletRiskEvaluator.Evaluate` | wallet-core/python/ai/bot_detector.py:8-12 | returns min(100, sum of the per-transaction scores), in 0..100 |
| `Variants.PrefixImpliesUnknownDestination` | wallet-core/proxy_resolver.py:95 | a destination with the literal prefix "unknown_" passes the case-insensitive test |
| `Variants.ProxyDefaultsDominateBot` | wallet-core/python/ai/bot_detector.py:14-19 | with the default table, `_evaluate_tx` of the configurable evaluator never scores a transaction below the minimal one, on the fields as given and after sanitisation; "UNKNOWN_X" gets 15 from it and 5 from the minimal one |
| `Variants.OracleDominatesBot` | wallet-core/oracle_insight.py:15-35 | the additive evaluator never scores a record with every key present below the minimal evaluator's score for the same transaction |

## Left out

- `generate_sample_data` (both files) and `sample_transactions` are left out. They only produce demo data from `random` or `datetime.now()`.
- The `__main__` blocks are left out. They only print.
- The classes `SimulatedClass0..29` and `ModuleLogic30..59` (`wallet-core/proxy_resolver.py:118-140`) are left out. They are generated through `type(...)` and `globals()` and only return `i*2` or a format string.
- Amounts and thresholds are `real`, not IEEE floats. NaN, infinities and rounding are not modelled.
- The `float(...)`, `int(...)` and `str(...)` coercions are not modelled. A raw field that is present already has its target type, and the configured scores and cap are already integers. So the model drops what the coercions do to other values: `int(5.9)` truncates to 5, `str(None)` gives `"None"` (sanitised to `"none"`), and an unconvertible value raises.
- `Text.LowerChar` lower-cases only the ASCII capitals and the Kelvin sign. Python's `str.lower` also lower-cases other non-ASCII letters. So a sanitised type may keep such letters where Python would not. This never changes a comparison, because no other character lower-cases to `o`, `u` or `t`. Nor does any other character match a letter of `unknown` under `re.IGNORECASE`. `Text.ToLower` also keeps the length, where Python's `str.lower` can lengthen a string (`'\u0130'.lower()` has two characters); this cannot change those comparisons either.
- Reasons are the datatype `ProxyResolver.Reason`. `Reason.Label` gives the strings `large_out`, `unknown_destination` and `baseline` that the source puts in the breakdown.
- In the additive version, timestamps are integer microseconds (the resolution of `datetime`) and `total_seconds()` becomes subtraction. A missing key or a `None` timestamp is `None`; a `datetime` is always truthy in the `if not tx_time` test. Comparing naive with aware datetimes raises in Python; that is not modelled.
- In the additive version, a present `amount` of `None` would raise `TypeError`. That is not modelled: `None` in `TxRecord.amount` means the key is missing, so the default 0 applies.
- In the additive version, a present `destination` of `None` raises `AttributeError` at `startswith`, because `tx.get('destination', '')` applies its default only to a missing key. That is not modelled either: `None` in `TxRecord.destination` means the key is missing, so `""` is used and the record can score 5 where Python raises. A present `type` or `timestamp` of `None` behaves like a missing key in Python too, so `None` is exact for those two fields.
- In the minimal version, every `BotDetector.Tx` has all three keys. The source reads `tx['type']` only when the amount exceeds 10000, and `tx['destination']` only when the first rule fails. So a record missing a key that is never read scores normally in Python: `{'amount': 500, 'destination': 'unknown_x'}` scores 15, and `{'amount': 20000, 'type': 'out'}` scores 20. Such records cannot be represented in the model. The `KeyError` raised when a key that is read is missing is not modelled either.
- In the additive and minimal versions, Python's evaluator keeps a reference to the caller's list and its dictionaries. A change the caller makes after construction is seen by `evaluate`. The model stores a copy of the list as an immutable `seq`, so it does not capture that sharing.
- ProxyResolver.RiskScoreBounds: proves the docstring's lower bound of 0 only when every configured score and the cap are non-negative. The constructor accepts any integers, and with a negative score the result can be negative.
- The swap-event detection and subscription engine is not part of this model. It is a separate subsystem built on asynchronous I/O.
