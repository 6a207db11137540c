# Bid-compliance pipeline: a verified model

The repository checks public-procurement bids deterministically: rules are evaluated
per capability, findings are compared within and across bidders, evidence of risk is
aggregated into verdicts, and every submission moves durably through a staged
lifecycle. This project models its scoring, comparison, lifecycle and projection
code and proves the laws that code is relied on for, over all inputs and all runs.

| file | models |
|---|---|
| `FindingRisk.dfy` | case scoring by dominant finding plus decayed rest |
| `RiskAggregation.dfy` | correlated-signal deduplication and the four-state bidder verdict |
| `DocumentScoring.dfy` | weighted document score and traffic light |
| `CrossDocument.dfy` | pairwise consistency of one bidder's documents |
| `CrossBidder.dfy`, `CrossBidderOrchestrator.dfy` | document reuse between bidders, and which pairs are compared |
| `Pipeline.dfy`, `Processing.dfy`, `Service.dfy`, `Outbox.dfy` | stage machine, lifecycle store, processing attempts, event relay |
| `ComplianceEngine.dfy`, `FlagProjection.dfy` | grouped rule evaluation, projection of outputs to flags |
| `TurnoverTrend.dfy`, `FinancialYears.dfy` | turnover history scan, financial-year parser and printer |
| `Ordering.dfy`, `Rounding.dfy`, `Vocabulary.dfy` | stable sorting, listings of sets, decimal rounding to even, shared status vocabularies |

Conventions. A loop or a stateful object of the source is a method or a class whose
`ensures` ties it to a specification function; the lemmas are about that function.
Identifiers are strings in code-point order. Scores are exact reals, with rounding to
hundredths where the source rounds. An exception is an absent or refused result. A
`with uow` block is one atomic transaction.

Results that contradict, or refine, what the code's own comments suggest:

- The CRITICAL override of the case scorer never decides anything under the default
  thresholds (`OverrideIsRedundant`), and a confidence given as a percentage of 1 or
  less is read as a fraction (`PercentagesRead`).
- A non-actionable signal may hide an actionable one of the same correlation key and
  lower the verdict; `LowersVerdictIff` says exactly when. Deduplication ignores the
  input order exactly when no two different signals tie (`DedupOrderIrrelevantIff`). The reason code for
  INDETERMINATE overriding a high risk is never emitted (`NeverOverridesHighRisk`).
- The document reason VERIFIED needs two unchecked requirements: above 80 points
  NO_MATERIAL_ISSUES takes its place, and only an unchecked requirement costs points
  without giving a reason (`VerifiedNeedsUnchecked`).
- The per-dimension count of insufficient comparisons depends on the order of the
  evidence as soon as two dimensions occur (`InsufficientCountsNeedOneDimension`).
- Equality is tested before normal forms, so identifiers given as numbers, such as
  12345 and 12345.0, match although their normal forms differ
  (`MismatchIffNormalFormsDiffer`); one mismatch among them need not force others
  (`NumbersBridge`).
- A partial agreement of template metadata can never yield a cross-bidder finding
  (`EmittedExactlyOnFullAgreement`).
- COMPLETE resists advancing but not failing (`CompleteAbsorbsAdvancesOnly`). A
  redelivered attempt on a COMPLETE submission marks it FAILED, and so does the first
  attempt after a crash half-way (`AttemptOutcome`, `CrashCostsOneAttempt`).
- A finished submission can be read back only if its attempt was started for the
  bidder that owns the row (`AttemptReadsBackIff`,
  `MisaddressedAttemptCannotBeReadBack`): enqueueing an existing submission under
  another bidder is not refused.
- An exception while the result of a COMPLETE submission is assembled marks it FAILED
  (`InterruptedOutcome`).
- With a bidder listed twice in the corpus, findings may carry the verification records
  of another entry than the one whose document was compared
  (`RecordsOfOfferingEntry`).
- Events the sink keeps refusing block younger ones for good once they fill the batch
  limit (`RefusedEventsBlockYounger`); fewer do not (`EventuallyPublished`).
- A bidder first seen at ingestion has no BIDDER_CREATED audit event; one that has it
  has it once (`RowIsFoldOfAudit`).

## Model

| member | source | states |
|---|---|---|
| FindingRisk.ScoreCase | src/finding_risk_scorer.py:176-230 | the score is the capped raw risk rounded to the nearest hundredth; GREEN exactly without override up to the green ceiling, RED exactly with override or above both ceilings; the dominant finding is the first of the heaviest, the network the sorted union; an empty case is GREEN with score 0 |
| FindingRisk.RiskIs | src/finding_risk_scorer.py:55-63 | a finding weighs 2, 4, 7 or 10 times its confidence by severity |
| FindingRisk.LoneFinding | src/finding_risk_scorer.py:196-201 | the raw risk of a single finding is its weighted risk |
| FindingRisk.DefaultCategories | src/finding_risk_scorer.py:203-237 | under the defaults a case is GREEN exactly up to a raw risk of 3.005 and RED exactly above 6.505, where the rounded score leaves the thresholds |
| FindingRisk.Accumulate | src/finding_risk_scorer.py:199-201 | the running sum equals the decayed sum of the ranked weights |
| FindingRisk.RawRiskIsMaximum | src/finding_risk_scorer.py:196-201 | no ordering of the findings has a larger decayed sum than the ranked one, which is attained; any decay in [0, 1] |
| FindingRisk.OrderIrrelevant | src/finding_risk_scorer.py:196-218 | permuting findings changes neither score, category nor related-bidder network |
| FindingRisk.AddFindingMonotone | src/finding_risk_scorer.py:196-214 | one more finding never lowers the score nor improves the category |
| FindingRisk.RaiseRawRisk | src/finding_risk_scorer.py:196-201 | replacing a finding by one of higher weighted risk never lowers the raw risk |
| FindingRisk.RaiseFindingMonotone | src/finding_risk_scorer.py:196-237 | nor does it lower the default score or improve the default category, even when the severity changes |
| FindingRisk.OverrideByWeight | src/finding_risk_scorer.py:205-209 | under the defaults the override holds exactly for weighted risk of at least 8.5 |
| FindingRisk.DominantBounds | src/finding_risk_scorer.py:20-38 | the dominant finding is a floor for the raw risk, twice it is a strict ceiling, and ranks from k on add at most dominant * 0.5^(k-1) |
| FindingRisk.RedNeedsWeight | src/finding_risk_scorer.py:203-237 | every RED case holds a finding of weighted risk above 3.25 |
| FindingRisk.LowOnlyNeverRed | src/finding_risk_scorer.py:203-237 | any number of LOW findings stays below RED |
| FindingRisk.OverrideIsRedundant | src/finding_risk_scorer.py:205-214 | with default thresholds the category is that of the score alone |
| FindingRisk.ConfidenceRead | src/finding_risk_scorer.py:103-106 | a confidence is read as a fraction up to 1, as a percentage above, and clamped |
| FindingRisk.PercentagesRead | src/finding_risk_scorer.py:103-106 | a fraction is read as itself, and its percentage as the same fraction exactly when it is 0 or above 1 percent |
| Rounding.Round2Monotone | src/finding_risk_scorer.py:203 | rounding to hundredths keeps order and moves a value by at most 0.005 |
| Rounding.HalfEvenIs | src/finding_risk_scorer.py:203 | an integer is the rounded value if and only if it is nearest, the even one of two equally near |
| Rounding.RoundsToNearest | src/finding_risk_scorer.py:203 | rounding gives the nearest multiple of the unit |
| Rounding.RoundedThreshold | src/finding_risk_scorer.py:232-237 | a rounded score is within an even number of hundredths exactly up to half of one more |
| RiskAggregation.Deduplicate | src/ai_verification/risk/aggregation.py:97-128 | the survivors in key order, one per correlation key, each the best of its key by score, severity rank and smallest id, and the first given among equals; survivors and suppressed add up to the input |
| RiskAggregation.SurvivorsAre | src/ai_verification/risk/aggregation.py:97-128 | these conditions determine the survivors: a listing meets them if and only if it is the result |
| RiskAggregation.SortKeepsLeader | src/ai_verification/risk/aggregation.py:109-126 | sorting by id first does not change which signal of a key survives |
| RiskAggregation.GroupByKey | src/ai_verification/risk/aggregation.py:109-112 | the buckets are the signals of each key, in order, and cover exactly the keys present |
| RiskAggregation.DedupUnique | src/ai_verification/risk/aggregation.py:97-128 | without ties the survivors are determined by the set of signals |
| RiskAggregation.DistinctIdsNeverTie | src/ai_verification/risk/aggregation.py:118-125 | signals whose ids differ within each key never tie |
| RiskAggregation.DedupOrderIrrelevantIff | src/ai_verification/risk/aggregation.py:97-128 | every permutation of the input gives the same tuple if and only if no two different signals tie for the best place of a key |
| RiskAggregation.DedupIdempotent | src/ai_verification/risk/aggregation.py:97-128 | deduplicating the survivors returns them unchanged |
| RiskAggregation.BuildAssessment | src/ai_verification/risk/aggregation.py:303-380 | strongest is an actionable survivor none outranks, if there is one; supporting are the actionable survivors of other keys, each once and in order; the score is the strongest one's raised by 5% a supporting signal up to 30%, within 0 and 1; each state and each reason code holds exactly under its condition, the codes in order |
| RiskAggregation.StrengthIs | src/ai_verification/risk/aggregation.py:118-125 | signals rank by score, then severity with unknown texts last, then smaller id |
| RiskAggregation.LeaderDecides | src/ai_verification/risk/aggregation.py:152-204 | a HIGH or CRITICAL leader is HIGH_RISK, a MEDIUM one HIGH_RISK with and REVIEW without support, any other CLEAR |
| RiskAggregation.VerdictCharacterised | src/ai_verification/risk/aggregation.py:166-248 | the whole verdict in terms of the actionable survivors and availability, without scores |
| RiskAggregation.NeverOverridesHighRisk | src/ai_verification/risk/aggregation.py:344-356 | the reason code for INDETERMINATE overriding a high risk is never emitted |
| RiskAggregation.WeakSignalsStayClear | src/ai_verification/risk/aggregation.py:195-204 | with LOW and INFO signals in any number the state is CLEAR, or INDETERMINATE when none is actionable and the evidence is uncertain |
| RiskAggregation.AddSignal | src/ai_verification/risk/aggregation.py:114-127 | for any input, a signal added anywhere that hides no actionable survivor, in particular an actionable one, never lowers the verdict; one that does leaves the verdict of the other keys' survivors |
| RiskAggregation.LowersVerdictIff | src/ai_verification/risk/aggregation.py:114-127 | an added signal lowers the verdict if and only if it hides an actionable survivor and the survivors of other keys lose the high-risk or review evidence, or are not actionable while the evidence is uncertain |
| RiskAggregation.HiddenSignalLowersVerdict | src/ai_verification/risk/aggregation.py:316-318 | a finding and a missing compliance item of one flag and key, as constructed, for which HIGH_RISK becomes CLEAR |
| RiskAggregation.ConstructorsWellFormed | src/ai_verification/risk/signals.py:96-421 | every constructed signal has a canonical severity and its weight as score; which inputs give a signal, which an actionable one, and which raise |
| DocumentScoring.ScoreDocument | src/ai_verification/document_scoring/engine.py:189-297 | the whole detail in terms of the inputs: known type with its rank, counted evidence and its rounded average, the flags found on it, the points as 100 less the costs of counted statuses, flags, evidence and quality, and each reason exactly under its condition; fails exactly when a flag found is unregistered |
| DocumentScoring.DeductCompliance | src/ai_verification/document_scoring/engine.py:221-232 | points drop by the summed costs of the applicable results, and their reasons are added |
| DocumentScoring.DeductVerifications | src/ai_verification/document_scoring/engine.py:234-250 | the same for verification records |
| DocumentScoring.DeductFlags | src/ai_verification/document_scoring/engine.py:252-265 | the same for material flags, each charged once |
| DocumentScoring.Score | src/ai_verification/document_scoring/engine.py:58-113 | details of the documents in order, then of exactly the expected types none of them has; the score is the rounded mean from which the weighted deviations of the details cancel; each light exactly by mean, priorities, reasons and types; all reasons; nothing to score is RED with 0 |
| DocumentScoring.MeanBalances | src/ai_verification/document_scoring/engine.py:315-320 | the weighted deviations from the mean sum to 0 |
| DocumentScoring.MeanIsBetween | src/ai_verification/document_scoring/engine.py:315-320 | they do so at one point only, which lies between the least and the greatest score |
| DocumentScoring.ScorePresents | src/ai_verification/document_scoring/engine.py:81-95 | one detail per document, or failure when some document cannot be scored |
| DocumentScoring.AppendMissing | src/ai_verification/document_scoring/engine.py:97-98 | one zero-score detail per missing type |
| DocumentScoring.DetailWorsens | src/ai_verification/document_scoring/engine.py:189-297 | with more results, verifications or findings a document's score never rises and a material issue never goes away |
| DocumentScoring.MeanShrinks | src/ai_verification/document_scoring/engine.py:315-320 | the weighted mean never rises, although new missing types enter it |
| DocumentScoring.LightWorsens | src/ai_verification/document_scoring/engine.py:325-375 | the light of the mean never improves |
| DocumentScoring.MoreEvidenceNeverImproves | src/ai_verification/document_scoring/engine.py:58-113 | for any policy, adding results, verifications or findings in any order never raises the bidder score nor improves the traffic light, and never makes an unscorable bid scorable |
| DocumentScoring.VerifiedNeedsUnchecked | src/ai_verification/document_scoring/engine.py:189-297 | a document reports VERIFIED if and only if nothing adverse is reported, its verifications all succeeded and at least two of its requirements were not checked |
| DocumentScoring.ReasonlessPoints | src/ai_verification/document_scoring/engine.py:189-281 | without an adverse reason a document has 100 points less 20 for each unchecked requirement |
| CrossDocument.FamiliesAgree | src/ai_verification/cross_document/extraction.py:89-115 | a document type is in the compatible set of a date family exactly when it is of that family |
| CrossDocument.ComparabilityIsPartialEquivalence | src/ai_verification/cross_document/extraction.py:236-369 | comparability is symmetric and transitive, and a date of unknown role is comparable with nothing, itself included |
| CrossDocument.ComparableIff | src/ai_verification/cross_document/extraction.py:224-369 | observations are comparable exactly when available, of one dimension, and identifiers of one kind and field, dates of one known role and family, or others of one field |
| CrossDocument.MismatchIffNormalFormsDiffer | src/ai_verification/cross_document/comparison.py:72-328 | for values of any kind, available observations mismatch exactly when comparable with different normal forms and not equal identifiers, and match exactly when comparable otherwise, whatever the evaluation date and the side |
| CrossDocument.TextsNeedNoExcuse | src/ai_verification/cross_document/normalization.py:28-46 | equal identifiers that are texts have equal normal forms, so for them mismatch is difference of normal forms |
| CrossDocument.EnumeratePairs | src/ai_verification/cross_document/comparison.py:55-69 | the nested loops give the first occurrence of each pair key, among available observations |
| CrossDocument.EveryPairEnumerated | src/ai_verification/cross_document/comparison.py:55-69 | with distinct evidence ids these are all pairs i < j |
| CrossDocument.CompareAll | src/ai_verification/cross_document/comparison.py:331-341 | one comparison per enumerated pair, in order |
| CrossDocument.Aggregate | src/ai_verification/cross_document/aggregation.py:41-79 | one summary per dimension and the mismatching and insufficient comparisons in order; totals account for every comparison, summary counts for both selections |
| CrossDocument.SelectConcat | src/ai_verification/cross_document/aggregation.py:65-68 | selecting comparisons by kind keeps order and occurrences |
| CrossDocument.SelectOne | src/ai_verification/cross_document/aggregation.py:15-16 | mismatches are the outcomes MISMATCH and VALIDITY_CONFLICT |
| CrossDocument.CountOfPairs | src/ai_verification/cross_document/aggregation.py:19-79 | a summary count is the number of pairs i < j with that outcome in that dimension |
| CrossDocument.CountPermuted | src/ai_verification/cross_document/comparison.py:55-69 | the number of pairs in a symmetric relation is unchanged by permutation |
| CrossDocument.CountsIgnoreOrder | src/ai_verification/cross_document/aggregation.py:19-79 | per-dimension match and mismatch counts, and overall counts of any kind, ignore the order of observations |
| CrossDocument.EvidenceOrderIrrelevant | src/ai_verification/cross_document/extraction.py:208-221 | so they ignore the order of the evidence |
| CrossDocument.InsufficientCountsNeedOneDimension | src/ai_verification/cross_document/comparison.py:391-422 | per-dimension insufficient counts survive every reordering if and only if all observations share a dimension |
| CrossDocument.MixedClass | src/ai_verification/cross_document/extraction.py:236-369 | a comparable class of m observations without a common normal form has at least m - 1 differing pairs |
| CrossDocument.MismatchesSpread | src/ai_verification/cross_document/comparison.py:55-298 | for values of any kind, one mismatch forces in its dimension at least m - 1 mismatches less the observations of the class that mismatch neither side |
| CrossDocument.CoherentSpread | src/ai_verification/cross_document/comparison.py:55-298 | where equal identifiers of the class have equal normal forms, one mismatch forces at least m - 1 |
| CrossDocument.TextsAreCoherent | src/ai_verification/cross_document/normalization.py:28-46 | that holds for every class of texts |
| CrossDocument.NumbersBridge | src/ai_verification/cross_document/comparison.py:83-108 | a text, 12345.0 and two 12345 make a class of four with one mismatch, so the bound with the correction is attained and the bound without it fails |
| CrossDocument.ExtractObservations | src/ai_verification/cross_document/extraction.py:162-221 | the observations of the bidder's evidence, in order |
| CrossDocument.ExtractedAre | src/ai_verification/cross_document/extraction.py:208-221 | one observation for each of the bidder's evidence items and no other; the available ones are those the counts are about |
| CrossDocument.CompareEvidence | src/ai_verification/cross_document/engine.py:42-63 | fails exactly for a bidder without evidence; otherwise every summary count is a count of pairs, and the comparisons are exactly the verdicts on two items with normal forms, in evidence order |
| CrossDocument.FieldsHaveDimensions | src/ai_verification/cross_document/extraction.py:37-86 | which field of which document has which dimension; only a filing date has a known role |
| CrossDocument.ItemsComparable | src/ai_verification/cross_document/extraction.py:224-369 | two items are compared exactly when of one dimension and field, dates being filing dates |
| CrossDocument.PairVerdict | src/ai_verification/cross_document/comparison.py:72-328 | the comparison of two items in terms of their values and normal forms: insufficient, conflict of validity, mismatch or either match |
| CrossDocument.ComparisonsReport | src/ai_verification/cross_document/comparison.py:55-69 | a comparison is made if and only if it is the verdict on two of the bidder's items that take part |
| CrossBidder.ComputeGate | src/ai_verification/cross_bidder/detector.py:258-311 | each field is listed by its answer, in order; MATCH exactly with an agreeing field, MISMATCH exactly with three known ones and none agreeing; the score is the agreeing share of the fields some side knows |
| CrossBidder.GateScores | src/ai_verification/cross_bidder/detector.py:258-311 | the gate score is one of 0, 1/3, 1/2, 2/3, 1, and 1 exactly when some identifying field agrees and every one known to a side is known and equal on both |
| CrossBidder.DetectAnomalies | src/ai_verification/cross_bidder/detector.py:619-857 | a finding is reported if and only if a layer fires, by files, normal forms, overlap from 0.80 or cosine from the threshold in this order, on documents in full agreement whose trust reaches 0.70; it shows layer, similarity, trust, gate and direction, the trust weighing similarity, confirmed answers and legibility 0.60, 0.25 and 0.15 |
| CrossBidder.EmittedExactlyOnFullAgreement | src/ai_verification/cross_bidder/detector.py:794-857 | a finding is emitted if and only if different bidders' comparable documents agree fully, a layer fires and the ungated confidence reaches 0.70; its gate is MATCH with score 1 |
| CrossBidder.DiceIsSimilarity | src/ai_verification/cross_bidder/detector.py:131-149 | Dice is in [0, 1], symmetric, and 1 exactly for equal gram sets |
| CrossBidder.OverlapIs | src/ai_verification/cross_bidder/detector.py:131-149 | Dice is twice the common runs of four characters over the sum of both |
| CrossBidder.FiresIs | src/ai_verification/cross_bidder/detector.py:619-780 | the winning layer in terms of hashes, normal forms, overlap, quality and cosine |
| CrossBidder.TrustIs | src/ai_verification/cross_bidder/detector.py:457-478 | the confidence before the gate in terms of the metadata answers and quality components |
| CrossBidder.EqualFormsReachOne | src/ai_verification/cross_bidder/detector.py:118-149 | equal normal forms of four or more characters have Dice 1 |
| CrossBidder.CosineSymmetric | src/ai_verification/cross_bidder/detector.py:157-203 | cosine similarity is symmetric, errors included |
| CrossBidder.DotConcat | src/ai_verification/cross_bidder/detector.py:157-203 | the inner product of concatenated vectors is the sum of the inner products |
| CrossBidder.LayerSymmetric | src/ai_verification/cross_bidder/detector.py:619-792 | swapping sides keeps the winning layer and its similarity |
| CrossBidder.DetectionSymmetric | src/ai_verification/cross_bidder/detector.py:619-857 | swapping sides keeps whether a finding is emitted and all of it but its direction |
| CrossBidderOrchestrator.UniqueDocuments | src/ai_verification/cross_bidder/orchestrator.py:49-67 | the loop keeps the first evidence item of each document |
| CrossBidderOrchestrator.UniqueDocumentsAre | src/ai_verification/cross_bidder/orchestrator.py:49-67 | every document with evidence occurs, exactly once |
| CrossBidderOrchestrator.DocumentsAreFirstSeen | src/ai_verification/cross_bidder/orchestrator.py:49-67 | with the type of its first evidence item |
| CrossBidderOrchestrator.EnumeratePairs | src/ai_verification/cross_bidder/orchestrator.py:142-184 | the triple loop gives the first candidate of each unordered pair, in loop order |
| CrossBidderOrchestrator.KeyIdentifies | src/ai_verification/cross_bidder/orchestrator.py:168-172 | the sorted pair identifies the unordered pair |
| CrossBidderOrchestrator.PairsAre | src/ai_verification/cross_bidder/orchestrator.py:142-184 | no unordered pair occurs twice, and exactly those occur that some other corpus bidder offers |
| CrossBidderOrchestrator.AttributedToFirstOffer | src/ai_verification/cross_bidder/orchestrator.py:142-184 | each pair has the primary on the left, two different documents and bidders, and belongs to the first corpus bidder that offers it |
| CrossBidderOrchestrator.CollectVerificationIndex | src/ai_verification/cross_bidder/orchestrator.py:70-89 | the loop builds the index in which the first record of an evidence id wins |
| CrossBidderOrchestrator.IndexIsFirstRecord | src/ai_verification/cross_bidder/orchestrator.py:70-89 | an indexed evidence id has the verification of its first record |
| CrossBidderOrchestrator.EveryRecordIndexed | src/ai_verification/cross_bidder/orchestrator.py:70-89 | every recorded evidence id is indexed |
| CrossBidderOrchestrator.AttachRefs | src/ai_verification/cross_bidder/orchestrator.py:97-133 | the attached references are exactly those either index has for the finding's evidence, each once, in the order met |
| CrossBidderOrchestrator.Run | src/ai_verification/cross_bidder/orchestrator.py:224-306 | deduplication, enumeration, detection and attachment together: the findings of each pair in order, with the references its indices give |
| CrossBidderOrchestrator.FindingsComeFromPairs | src/ai_verification/cross_bidder/orchestrator.py:275-306 | the findings of a run are exactly those the detector makes for its pairs, with their references attached |
| CrossBidderOrchestrator.AttachedRefs | src/ai_verification/cross_bidder/orchestrator.py:97-133 | attaching changes the references only, to exactly those either index has for the evidence, and nothing if there are none |
| CrossBidderOrchestrator.RecordsForBidder | src/ai_verification/cross_bidder/orchestrator.py:291-295 | the records are those of the first corpus entry of the bidder |
| CrossBidderOrchestrator.AttachAll | src/ai_verification/cross_bidder/orchestrator.py:113-133 | every finding gets its references, and one without any is left as it was |
| CrossBidderOrchestrator.IndexDocuments | src/ai_verification/cross_bidder/orchestrator.py:250-256 | every corpus bidder is listed with its unique documents |
| CrossBidderOrchestrator.RecordsOfOfferingEntry | src/ai_verification/cross_bidder/orchestrator.py:291-295 | a pair's findings take the records of the entry that offers the pair if and only if no earlier entry has the same bidder |
| Pipeline.AllowedTransitions | src/infrastructure/pipeline.py:66-78 | the table built by the loop allows exactly re-entry, failure, the next stage, and a retry from FAILED; nothing leaves COMPLETE |
| Processing.ProcessingCoordinator.constructor | src/infrastructure/processing.py:49-60 | starts from the empty store |
| Processing.ProcessingCoordinator.RegisterBidder | src/infrastructure/processing.py:62-81 | a new bidder is stored with its audit event; a known one changes nothing |
| Processing.ProcessingCoordinator.IngestSubmission | src/infrastructure/processing.py:83-148 | new state of row, documents, audit and outbox, all or nothing |
| Processing.ProcessingCoordinator.AdvanceStage | src/infrastructure/processing.py:164-208 | new state of an accepted advance; a refused one changes nothing |
| Processing.ProcessingCoordinator.FailSubmission | src/infrastructure/processing.py:210-244 | new state of a failure, accepted from any stage |
| Processing.AddDocuments | src/infrastructure/persistence/memory.py:145-158 | documents are added one by one, refused exactly on a stored or repeated id |
| Processing.StepConsistent | src/infrastructure/processing.py:83-244 | every operation keeps the rows, histories and outbox consistent |
| Processing.RowIsFoldOfAudit | src/infrastructure/processing.py:62-244 | in every run each row's stage, attempt count, last completed stage and last error are those its audit events determine, each event follows its predecessor, the outbox lists the ingestions, every row's bidder is stored, no creation is recorded twice, and the stored documents are exactly those ingestions list, each under its one submission |
| Processing.AdvanceRecords | src/infrastructure/processing.py:291-301 | an advance records every stage that is not pending as completed, and clears the error |
| Processing.EveryRunFromEmpty | src/infrastructure/processing.py:83-244 | in particular from the empty store |
| Processing.LinkedThroughout | src/infrastructure/processing.py:164-208 | every advance starts from the stage the previous event reached, by an allowed move |
| Processing.LinearWithoutFailure | src/infrastructure/pipeline.py:45-103 | without a failure the stages visited are the linear stages up to the current one, none skipped or repeated |
| Processing.CompleteAbsorbsAdvancesOnly | src/infrastructure/processing.py:164-244 | in every run, a COMPLETE submission stays COMPLETE throughout if and only if no operation of the run fails it |
| Processing.CompleteStep | src/infrastructure/processing.py:164-244 | one operation ends COMPLETE exactly when it fails the submission, which is then FAILED |
| Service.NextSafe | src/application/service.py:326-439 | every step of every attempt, exception and crash keeps the invariant behind reading one submission back |
| Service.ActionsAct | src/application/service.py:326-439 | what starting, raising, recording a failure and crashing change, and that no other attempt is affected |
| Service.CompleteAlwaysReconstructs | src/application/service.py:574-619 | so does every interleaving in which the attempts on that submission are started for its bidder, attempts on others being arbitrary |
| Service.EveryAddressedRun | src/application/service.py:866-878 | after any such run that submission, if COMPLETE, has a snapshot of its bidder |
| Service.RunsThrough | src/application/service.py:326-439 | an attempt under way and undisturbed performs all advances left, saves the snapshot and ends in COMPLETE |
| Service.FinishesUnlessInterrupted | src/application/service.py:199-214 | an attempt under way returns a result exactly when no exception or crash falls into it, the assembly of the result included |
| Service.InterruptedOutcome | src/application/service.py:199-214 | an exception anywhere in it, even after COMPLETE was reached, leaves FAILED with one attempt more; a crash leaves the stage reached |
| Service.NewBidFinishes | src/application/service.py:173-197 | an accepted new bid returns a result exactly when nothing interrupts it, and is then COMPLETE, unfailed and readable |
| Service.AttemptOutcome | src/application/service.py:199-214 | an undisturbed attempt succeeds exactly from INGESTED, NORMALIZED or FAILED, with eight advances; from any other stage it leaves FAILED with one attempt more |
| Service.CrashCostsOneAttempt | src/application/worker.py:65-122 | from any other stage the next attempt only records a failure and the one after completes |
| Service.AttemptReadsBackIff | src/application/service.py:866-878 | a completed attempt can be read back if and only if it was started for the row's bidder or that bidder had a snapshot |
| Service.MisaddressedAttemptCannotBeReadBack | src/application/service.py:216-262 | a run, for any documents the store accepts, after which a COMPLETE submission cannot be read back |
| Service.ComplianceApplicationService.constructor | src/application/service.py:129-167 | starts from the empty durable state |
| Service.ComplianceApplicationService.Transact | src/application/service.py:319-324 | one transaction commits with its effect, or the failure is recorded, or a crash leaves the state alone |
| Service.ComplianceApplicationService.ProcessExistingSubmission | src/application/service.py:199-214 | one attempt has the specified durable effect under any fault, and returns a result exactly when all its transactions commit and the result is assembled |
| Service.ComplianceApplicationService.Assemble | src/application/service.py:430-439 | assembling the result changes nothing, unless it raises: then the failure is recorded |
| Service.ComplianceApplicationService.ProcessBid | src/application/service.py:173-197 | a known submission is never touched: read back when COMPLETE, refused otherwise; a new one is ingested and attempted |
| Outbox.OutboxPublisher.constructor | src/infrastructure/outbox.py:32-42 | starts with the given events and nothing delivered |
| Outbox.OutboxPublisher.PublishPending | src/infrastructure/outbox.py:44-65 | a completed call gives each event of the batch one attempt more and marks it unless refused, leaves the others, and delivers the accepted ones in order; a crash keeps deliveries only; the count is that of the newly marked |
| Outbox.CallEffects | src/infrastructure/outbox.py:44-65 | the same of the specification |
| Outbox.CommitAdds | src/infrastructure/outbox.py:1-30 | a commit adds its event, unmarked and without attempts, or nothing when the id is known; it delivers nothing |
| Outbox.OfferAllGrows | src/infrastructure/outbox.py:44-65 | offering events loses none, changes no mark already set, and marks only what was delivered |
| Outbox.AtLeastOnce | src/infrastructure/outbox.py:1-30 | over every run of commits, calls, refusals and crashes no event is lost, marks never change once set, and every mark has a delivery behind it |
| Outbox.ConsumeOnce | src/infrastructure/outbox.py:13-20 | a consumer ignoring repeated ids applies exactly the delivered ones, each once |
| Outbox.PublishedAppliedOnce | src/infrastructure/outbox.py:13-20 | every published event is applied exactly once by such a consumer |
| Outbox.PendingIs | src/infrastructure/persistence/memory.py:410-416 | pending events are exactly the unmarked ones, oldest first |
| Outbox.NextCallPublishes | src/infrastructure/outbox.py:44-65 | a completed call publishes a pending event if and only if it is among the limit oldest and the sink accepts it |
| Outbox.RefusedEventsBlockYounger | src/infrastructure/persistence/memory.py:410-416 | while the sink refuses limit-many older events, a younger one is never delivered in any number of calls |
| Outbox.EventuallyPublished | src/infrastructure/outbox.py:44-65 | if it refuses for good fewer events ahead of an event than a call takes, that event is published once more calls have completed than there are other events ahead of it, whatever crashes and newer commits come between |
| Outbox.CallProgresses | src/infrastructure/outbox.py:44-65 | a completed call publishes such an event or takes one out of its way |
| ComplianceEngine.TrackingProvider.constructor | src/compliance_engine/engine.py:54-56 | starts without records |
| ComplianceEngine.TrackingProvider.VerifyIdentifier | src/compliance_engine/engine.py:58-61 | returns and appends the verification |
| ComplianceEngine.TrackingProvider.RegisterEnriched | src/compliance_engine/engine.py:63-78 | replaces the last captured record, or does nothing when none was captured |
| ComplianceEngine.TrackingProvider.Replay | src/compliance_engine/engine.py:51-78 | the records after a whole run of calls |
| ComplianceEngine.OneRecordPerVerify | src/compliance_engine/engine.py:51-78 | the record list grows by exactly the number of verify calls |
| ComplianceEngine.GroupByCapability | src/compliance_engine/engine.py:159-226 | the grouping dict holds each capability's requirements in order, capabilities in order of first sight |
| ComplianceEngine.RunGroup | src/compliance_engine/engine.py:159-226 | results and records of one group, with or without provider |
| ComplianceEngine.RunTracked | src/compliance_engine/engine.py:159-226 | with a provider: results in order and the tracked records |
| ComplianceEngine.RunWithoutProvider | src/compliance_engine/engine.py:228-306 | without one: results in the three-way split |
| ComplianceEngine.EvaluateRequirements | src/compliance_engine/engine.py:159-306 | one result per requirement: its rule's own where the rule may run, with the provider of its capability or, needing none, without; otherwise a fixed status under its ids; the records are those the rules' calls leave, capability by capability, one for each verify call |
| ComplianceEngine.AnswerSettles | src/compliance_engine/rules/executor.py:55-73 | which rule, with which provider, or which fixed status answers a requirement |
| ComplianceEngine.RecordsAreCaptured | src/compliance_engine/engine.py:214-225 | the records in terms of the calls of the rules that run with a provider |
| ComplianceEngine.EveryVerifyRecorded | src/compliance_engine/engine.py:51-82 | they number the verify calls of all requirements |
| ComplianceEngine.FirstSeenFirst | src/compliance_engine/engine.py:198-203 | capabilities are listed as first seen |
| ComplianceEngine.OfCapabilityConcat | src/compliance_engine/engine.py:198-200 | grouping keeps the order of requirements |
| ComplianceEngine.OfClassConcat | src/compliance_engine/engine.py:253-267 | so does the three-way split |
| ComplianceEngine.ClassIs | src/compliance_engine/engine.py:256-267 | which requirement falls into which part |
| ComplianceEngine.GroupOrder | src/compliance_engine/engine.py:203-223 | the results of a capability: as given with a provider, in three parts without |
| ComplianceEngine.OrderOverConcat | src/compliance_engine/engine.py:203-226 | and the capabilities in turn |
| ComplianceEngine.ResultsPermuteRequirements | src/compliance_engine/engine.py:159-306 | the result order is a permutation of the requirements |
| ComplianceEngine.RecordsCountVerifies | src/compliance_engine/engine.py:51-82 | recorded verifications number exactly the verify calls of the run |
| ComplianceEngine.ProvidersDoNotInterfere | src/compliance_engine/engine.py:159-306 | adding, removing or replacing one capability's provider changes neither position, result nor records of another |
| FlagProjection.ProjectFlagStates | src/application/flag_projection.py:32-132 | in terms of the outputs: fails exactly when a mentioned flag is unknown; lists the mentioned flags in order, each with exactly its finding ids, formed as documented, and its evidence and verification references, sorted |
| FlagProjection.AccumulateMention | src/application/flag_projection.py:76-90 | one accumulate call adds one mention to the aggregation |
| FlagProjection.AccumulateResult | src/application/flag_projection.py:93-101 | adds the mentions of one compliance result's flags |
| FlagProjection.AccumulateResults | src/application/flag_projection.py:92-101 | aggregates all compliance results |
| FlagProjection.AccumulateFindings | src/application/flag_projection.py:103-109 | adds all verification findings |
| FlagProjection.AccumulateIdentities | src/application/flag_projection.py:111-117 | adds all identity findings |
| FlagProjection.ProjectionIs | src/application/flag_projection.py:59-132 | a flag appears exactly when some output mentions it; the listing strictly increases and its reference lists are the sorted unions over the mentions |
| FlagProjection.ProjectionIsHomomorphism | src/application/flag_projection.py:59-132 | projecting concatenated outputs gives the flag-wise union of the two projected listings, in flags, order and sorted references, and fails exactly when one of the projections does |
| FlagProjection.UnionUnique | src/application/flag_projection.py:119-132 | that union is determined by the two listings |
| FlagProjection.ListedIs | src/application/flag_projection.py:119-132 | a listing shows exactly the flags and references aggregated |
| FlagProjection.ProjectionIgnoresOrder | src/application/flag_projection.py:59-132 | permuting any of the inputs changes nothing |
| TurnoverTrend.DetectTurnoverTrendAnomaly | src/compliance_engine/financial/trend.py:55-120 | no warning exactly for fewer than three years or without gap and jump; otherwise the first gap or, without gaps, the first jump, with all years and the evidence there is |
| TurnoverTrend.OrderedIs | src/compliance_engine/financial/trend.py:55-120 | one reported point per reported year, years strictly increasing |
| TurnoverTrend.NoAnomalyIff | src/compliance_engine/financial/trend.py:55-120 | on at least three years, no anomaly if and only if years are consecutive and neighbours differ by at most a factor 10 |
| TurnoverTrend.NoAnomalyBoundsGrowth | src/compliance_engine/financial/trend.py:55-120 | then any two years i < j are within 10^(j-i) of each other, and zero only together |
| TurnoverTrend.UnitsIrrelevant | src/compliance_engine/financial/trend.py:55-120 | scaling all turnovers by a positive constant keeps the warning |
| FinancialYears.EverySpellingNormalises | src/compliance_engine/financial/years.py:42-70 | every supported spelling of a four-digit start year, with any prefix, spacing, dash and end form, normalises to its canonical text, 2099-00 and 9999-00 included |
| FinancialYears.AcceptedIsASpelling | src/compliance_engine/financial/years.py:42-70 | nothing but such a spelling is accepted |
| FinancialYears.OnlyTextsAreRead | src/compliance_engine/financial/years.py:42-70 | absent and boolean values are refused, and a text is accepted if and only if it is such a spelling |
| FinancialYears.AcceptedIffSpelt | src/compliance_engine/financial/years.py:42-70 | a text has the canonical form of a year if and only if it is a spelling of that year |
| FinancialYears.CanonicalRoundTrip | src/compliance_engine/financial/models.py:89-109 | the start year read from a canonical text is the one it was printed from, and normalising it again changes nothing |
| FinancialYears.AnswersAreCanonical | src/compliance_engine/financial/models.py:89-109 | every answer is the canonical text of its own start year; normalisation is idempotent |
| FinancialYears.SameYearIffSameStart | src/compliance_engine/financial/models.py:89-109 | two accepted values share a canonical form if and only if they start in the same year |
| FinancialYears.CharacterClasses | src/compliance_engine/financial/years.py:28-32 | which characters are dashes, prefix letters, blanks and digits |
| FinancialYears.DocumentedForms | src/compliance_engine/financial/years.py:1-24 | the six documented forms have the documented canonical form |

## Left out

- Floating point: scores, similarities and deductions are exact reals, so results that turn on a representation error of a binary fraction are not covered.
- Text normalisation, document hashes, quality evaluation, embedding providers, rule executors and the flag registry are arbitrary functions or maps; what they compute is not modelled.
- Unicode: character classes are the ASCII ones (plus the en dash of year ranges), and digits are ASCII digits.
- The default tables of document scoring (importance weights, aliases, required documents): the results hold for every policy with positive weights and ordered thresholds.
- All explanation, reason and summary prose.
- The construction of correlation keys; a key is its JSON text.
- Equality of field values beyond an equivalence among values that equal themselves; values are texts or others with a printed form.
- `CrossDocument.EveryPairEnumerated`: for repeated evidence ids only the enumeration by first pair key is stated; two items may then be paired in both directions.
- `CrossBidderOrchestrator.Run`: the detector is an arbitrary function of the pair here; what it finds is modelled by `CrossBidder.DetectAnomalies`.
- Queue leasing, retry delays and draining of the worker; an attempt is what one claimed job performs.
- The rows written by evidence, result, finding and explanation transactions; they count as transactions that may fail but hold no modelled state.
- Ordering of timestamps of snapshots; only the existence of a snapshot matters to reading back.
- `CrossDocument.CompareEvidence`: not the findings made from mismatches, with their confidence and references, nor the refusal of observations of several bidders, which extraction never passes on.
- `CrossDocument.ExtractObservations`: not the quality fields of an observation, which only those findings use.
- `CrossBidder.DetectAnomalies`: not the contents of the similarity trace.
- `TurnoverTrend.DetectTurnoverTrendAnomaly`: not the reason text; years are given by their start year.
- Schema validation of submissions before they are processed.
- Negative batch limits of the publisher.
- Exceptions raised inside a rule; the executor gives one result per requirement.
- Cross-source identity reconciliation, which repeats the cross-document comparison over four fixed sources.
- Evidence-quality formulas, audit, solvency and balance-sheet checks, each a single branch.
- The explanation pipeline, the SQLite store of case results, the command line, the web application and document extraction.
