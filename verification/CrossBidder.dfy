/** Cross-bidder reuse detection (src/ai_verification/cross_bidder/detector.py).
    The text normaliser, embedding provider and square root are arbitrary
    functions; equal hashes mean equal content. */
module CrossBidder {
  import opened Ordering
  import opened Vocabulary

  datatype Meta = Meta(
    documentType: string,
    bidderName: Option<string>,
    issuer: Option<string>,
    authorizationNumber: Option<string>,
    issueDate: Option<int>,
    validUntil: Option<int>,
    territory: Option<string>
  )

  type Unit = x: real | 0.0 <= x <= 1.0 witness 0.0

  datatype Quality = Quality(state: QualityState, ocr: Unit, field: Unit, completeness: Unit, reliability: Unit,
                             score: Unit)

  /** One side of a comparison: a bidder's document with its artefacts. */
  datatype Side = Side(
    bidderId: string,
    documentId: string,
    meta: Option<Meta>,
    fileHash: Option<string>,
    rawText: Option<string>,
    quality: Quality
  )

  datatype Engine = Engine(
    normalize: string -> string,
    embed: string -> Option<seq<real>>,
    sqrt: real -> real,
    semanticThreshold: real
  )

  datatype GateStatus = MATCH | MISMATCH | UNKNOWN_GATE

  datatype Gate = Gate(status: GateStatus, score: real, matched: seq<string>, mismatched: seq<string>,
                       unknown: seq<string>)

  datatype Corroboration = Corroboration(
    sameIssuer: Option<bool>,
    sameAuthorization: Option<bool>,
    sameIssueDate: Option<bool>,
    validityOverlap: Option<bool>
  )

  datatype Layer = EXACT | NORMALIZED | LEXICAL | SEMANTIC

  datatype Hit = Hit(layer: Layer, similarity: real)

  datatype Finding = Finding(
    layer: Layer,
    similarity: real,
    confidence: real,
    gate: Gate,
    bidderId: string,
    relatedBidderIds: seq<string>
  )

  const MINIMUM_CONFIDENCE := 0.70
  const LEXICAL_THRESHOLD := 0.80
  const SEMANTIC_MINIMUM_QUALITY := 0.50

  // ----- comparison stages -----

  predicate MayCompare(l: Meta, r: Meta) {
    !(l.bidderName.Some? && r.bidderName.Some? && l.bidderName == r.bidderName)
    && l.documentType == r.documentType
  }

  predicate SameFile(l: Side, r: Side) {
    l.fileHash.Some? && r.fileHash.Some? && l.fileHash == r.fileHash
  }

  predicate SameText(e: Engine, l: Side, r: Side) {
    l.rawText.Some? && r.rawText.Some? && e.normalize(l.rawText.value) == e.normalize(r.rawText.value)
  }

  function GramAt(s: string, i: nat): string
    requires i + 4 <= |s|
  {
    s[i..i + 4]
  }

  function Grams(s: string): set<string> {
    set i | 0 <= i < |s| - 3 :: GramAt(s, i)
  }

  /** Sørensen-Dice coefficient of two finite sets. */
  function Dice(a: set<string>, b: set<string>): real
    requires a != {} && b != {}
  {
    2.0 * |a * b| as real / (|a| + |b|) as real
  }

  function LexicalDice(e: Engine, l: Side, r: Side): Option<real> {
    if l.rawText.None? || r.rawText.None? then None
    else
      var a, b := Grams(e.normalize(l.rawText.value)), Grams(e.normalize(r.rawText.value));
      if a == {} || b == {} then None else Some(Dice(a, b))
  }

  function Dot(a: seq<real>, b: seq<real>): real
    requires |a| == |b|
  {
    if a == [] then 0.0 else a[0] * b[0] + Dot(a[1..], b[1..])
  }

  /** None where the source raises: empty or unequal dimensions. */
  function Cosine(e: Engine, a: seq<real>, b: seq<real>): Option<real> {
    if a == [] || |a| != |b| then None
    else
      var aa, bb := Dot(a, a), Dot(b, b);
      var magnitude := e.sqrt(aa) * e.sqrt(bb);
      if aa == 0.0 || bb == 0.0 || magnitude == 0.0 then Some(0.0)
      else Some(Clamp(Dot(a, b) / magnitude))
  }

  function SemanticSimilarity(e: Engine, l: Side, r: Side): Option<real> {
    if l.rawText.None? || r.rawText.None? then None
    else
      var a, b := e.normalize(l.rawText.value), e.normalize(r.rawText.value);
      if a == [] || b == [] then None
      else
        var u, v := e.embed(a), e.embed(b);
        if u.None? || v.None? then None else Cosine(e, u.value, v.value)
  }

  function Clamp(x: real): real {
    if x < 0.0 then 0.0 else if x > 1.0 then 1.0 else x
  }

  // ----- metadata -----

  function SameIfKnown<T(==)>(a: Option<T>, b: Option<T>): Option<bool> {
    if a.Some? && b.Some? then Some(a == b) else None
  }

  function ValidityOverlap(l: Meta, r: Meta): Option<bool> {
    if l.validUntil.Some? && r.validUntil.Some? && l.issueDate.Some? && r.issueDate.Some? then
      var latestIssue := if l.issueDate.value > r.issueDate.value then l.issueDate.value else r.issueDate.value;
      var earliestValid := if l.validUntil.value < r.validUntil.value then l.validUntil.value else r.validUntil.value;
      Some(latestIssue <= earliestValid)
    else None
  }

  function Corroborate(l: Meta, r: Meta): Corroboration {
    Corroboration(SameIfKnown(l.issuer, r.issuer), SameIfKnown(l.authorizationNumber, r.authorizationNumber),
                  SameIfKnown(l.issueDate, r.issueDate), ValidityOverlap(l, r))
  }

  function Named(name: string, c: bool): seq<string> { if c then [name] else [] }

  function MatchedFields(l: Meta, r: Meta): seq<string> {
    Named("authorization_number", SameIfKnown(l.authorizationNumber, r.authorizationNumber) == Some(true))
    + Named("issue_date", SameIfKnown(l.issueDate, r.issueDate) == Some(true))
    + Named("territory", SameIfKnown(l.territory, r.territory) == Some(true))
  }

  function MismatchedFields(l: Meta, r: Meta): seq<string> {
    Named("authorization_number", SameIfKnown(l.authorizationNumber, r.authorizationNumber) == Some(false))
    + Named("issue_date", SameIfKnown(l.issueDate, r.issueDate) == Some(false))
    + Named("territory", SameIfKnown(l.territory, r.territory) == Some(false))
  }

  function UnknownFields(l: Meta, r: Meta): seq<string> {
    Named("authorization_number", SameIfKnown(l.authorizationNumber, r.authorizationNumber) == None)
    + Named("issue_date", SameIfKnown(l.issueDate, r.issueDate) == None)
    + Named("territory", SameIfKnown(l.territory, r.territory) == None)
  }

  function Informed(l: Meta, r: Meta): nat {
    (if l.authorizationNumber.Some? || r.authorizationNumber.Some? then 1 else 0)
    + (if l.issueDate.Some? || r.issueDate.Some? then 1 else 0)
    + (if l.territory.Some? || r.territory.Some? then 1 else 0)
  }

  function TemplateGate(l: Meta, r: Meta): Gate {
    var matched, mismatched, unknown := MatchedFields(l, r), MismatchedFields(l, r), UnknownFields(l, r);
    if unknown != [] && matched == [] then Gate(UNKNOWN_GATE, 0.0, matched, mismatched, unknown)
    else if matched == [] && mismatched != [] then Gate(MISMATCH, 0.0, matched, mismatched, unknown)
    else
      var score := if Informed(l, r) == 0 then 1.0 else |matched| as real / Informed(l, r) as real;
      Gate(MATCH, score, matched, mismatched, unknown)
  }

  method ComputeGate(l: Meta, r: Meta) returns (gate: Gate)
    ensures gate == TemplateGate(l, r)
    ensures GateShows(l, r, gate)
  {
    GateIs(l, r);
    hide GateShows;
    hide Named, SameIfKnown, Informed;
    var matched, mismatched, unknown := [], [], [];
    matched, mismatched, unknown :=
        FileField(SameIfKnown(l.authorizationNumber, r.authorizationNumber), "authorization_number",
                                         matched, mismatched, unknown);
    matched, mismatched, unknown :=
        FileField(SameIfKnown(l.issueDate, r.issueDate), "issue_date", matched, mismatched, unknown);
    matched, mismatched, unknown :=
        FileField(SameIfKnown(l.territory, r.territory), "territory", matched, mismatched, unknown);
    assert matched == MatchedFields(l, r);
    assert mismatched == MismatchedFields(l, r);
    assert unknown == UnknownFields(l, r);
    hide MatchedFields, MismatchedFields, UnknownFields;
    var status, score := MATCH, 0.0;
    if unknown != [] && matched == [] {
      status := UNKNOWN_GATE;
    } else if matched == [] && mismatched != [] {
      status := MISMATCH;
    } else {
      var informed := Informed(l, r);
      score := if informed == 0 then 1.0 else |matched| as real / informed as real;
    }
    gate := Gate(status, score, matched, mismatched, unknown);
  }

  method FileField(same: Option<bool>, name: string, matched: seq<string>, mismatched: seq<string>,
                   unknown: seq<string>)
    returns (matched': seq<string>, mismatched': seq<string>, unknown': seq<string>)
    ensures matched' == matched + Named(name, same == Some(true))
    ensures mismatched' == mismatched + Named(name, same == Some(false))
    ensures unknown' == unknown + Named(name, same == None)
  {
    matched', mismatched', unknown' := matched, mismatched, unknown;
    if same.None? {
      unknown' := unknown' + [name];
    } else if same.value {
      matched' := matched' + [name];
    } else {
      mismatched' := mismatched' + [name];
    }
  }

  // ----- quality and confidence -----

  function Least(a: Unit, b: Unit): Unit { if a <= b then a else b }

  function StateOrder(s: QualityState): nat {
    match s
    case GOOD => 0
    case DEGRADED => 1
    case UNKNOWN => 2
  }

  function CombineQuality(a: Quality, b: Quality): Quality {
    Quality(if StateOrder(a.state) >= StateOrder(b.state) then a.state else b.state,
            Least(a.ocr, b.ocr), Least(a.field, b.field), Least(a.completeness, b.completeness),
            Least(a.reliability, b.reliability), Least(a.score, b.score))
  }

  predicate AllowsSemantic(q: Quality) {
    q.state == GOOD || (q.state == DEGRADED && q.score >= SEMANTIC_MINIMUM_QUALITY)
  }

  function Votes(s: Option<bool>): nat { if s.Some? then 1 else 0 }

  function Ayes(s: Option<bool>): nat { if s == Some(true) then 1 else 0 }

  function CorroborationScore(c: Corroboration): real {
    var votes := Votes(c.sameIssuer) + Votes(c.sameAuthorization) + Votes(c.sameIssueDate) + Votes(c.validityOverlap);
    var ayes := Ayes(c.sameIssuer) + Ayes(c.sameAuthorization) + Ayes(c.sameIssueDate) + Ayes(c.validityOverlap);
    if votes == 0 then 0.0 else ayes as real / votes as real
  }

  /** The confidence before the template gate scales it. */
  function Ungated(similarity: real, c: Corroboration, q: Quality): real {
    Clamp(0.60 * similarity + 0.25 * CorroborationScore(c) + 0.15 * Least(q.ocr, q.field))
  }

  function Confidence(similarity: real, c: Corroboration, q: Quality, gate: Gate): real {
    Ungated(similarity, c, q) * gate.score
  }

  // ----- detection -----

  function MetaOf(s: Side): Meta {
    if s.meta.Some? then s.meta.value else Meta("UNKNOWN", None, None, None, None, None, None)
  }

  /** The strongest layer that fires: exact, then normalised, lexical and semantic. */
  function WinningLayer(e: Engine, l: Side, r: Side): Option<Hit> {
    var dice := LexicalDice(e, l, r);
    if SameFile(l, r) then Some(Hit(EXACT, 1.0))
    else if SameText(e, l, r) then Some(Hit(NORMALIZED, 1.0))
    else if dice.Some? && dice.value >= LEXICAL_THRESHOLD then Some(Hit(LEXICAL, dice.value))
    else if !AllowsSemantic(CombineQuality(l.quality, r.quality)) then None
    else
      var s := SemanticSimilarity(e, l, r);
      if s.Some? && s.value >= e.semanticThreshold then Some(Hit(SEMANTIC, s.value)) else None
  }

  function PairConfidence(e: Engine, l: Side, r: Side, hit: Hit): real {
    Confidence(hit.similarity, Corroborate(MetaOf(l), MetaOf(r)), CombineQuality(l.quality, r.quality),
               TemplateGate(MetaOf(l), MetaOf(r)))
  }

  function Detect(e: Engine, l: Side, r: Side): Option<Finding> {
    var hit := WinningLayer(e, l, r);
    if !MayCompare(MetaOf(l), MetaOf(r)) || hit.None? then None
    else
      var gate := TemplateGate(MetaOf(l), MetaOf(r));
      var confidence := PairConfidence(e, l, r, hit.value);
      if gate.status == MATCH && confidence >= MINIMUM_CONFIDENCE && l.bidderId != r.bidderId
      then Some(Finding(hit.value.layer, hit.value.similarity, confidence, gate, l.bidderId, [r.bidderId]))
      else None
  }

  method DetectAnomalies(e: Engine, l: Side, r: Side) returns (finding: Option<Finding>)
    ensures finding == Detect(e, l, r)
    ensures finding.Some? <==>
            exists hit :: Fires(e, l, r, hit) && Reportable(l, r) && Trust(l, r, hit.similarity) >= 0.70
    ensures finding.Some? ==>
              var f := finding.value;
              && Fires(e, l, r, Hit(f.layer, f.similarity)) && f.confidence == Trust(l, r, f.similarity)
              && GateShows(Known(l), Known(r), f.gate) && f.bidderId == l.bidderId && f.relatedBidderIds == [r.bidderId]
  {
    DetectionIs(e, l, r);
    hide Fires, Reportable, Trust, GateShows;
    var lm, rm := MetaOf(l), MetaOf(r);
    var quality := CombineQuality(l.quality, r.quality);
    if !MayCompare(lm, rm) {
      return None;
    }
    var layer, similarity, nearDuplicate := EXACT, 1.0, false;
    if SameFile(l, r) {
    } else if SameText(e, l, r) {
      layer := NORMALIZED;
    } else {
      nearDuplicate := true;
      var dice := LexicalDice(e, l, r);
      if dice.Some? && dice.value >= LEXICAL_THRESHOLD {
        layer, similarity := LEXICAL, dice.value;
      } else {
        if !AllowsSemantic(quality) {
          return None;
        }
        var semantic := SemanticSimilarity(e, l, r);
        if semantic.None? || semantic.value < e.semanticThreshold {
          return None;
        }
        layer, similarity := SEMANTIC, semantic.value;
      }
    }
    var gate := ComputeGate(lm, rm);
    var confidence := Confidence(similarity, Corroborate(lm, rm), quality, gate);
    if nearDuplicate && confidence < MINIMUM_CONFIDENCE {
      return None;
    }
    if gate.status == MATCH && confidence >= MINIMUM_CONFIDENCE && l.bidderId != r.bidderId {
      return Some(Finding(layer, similarity, confidence, gate, l.bidderId, [r.bidderId]));
    }
    return None;
  }

  // ----- what a finding implies -----

  predicate KnownAndEqual<T(==)>(a: Option<T>, b: Option<T>) {
    a.Some? && a == b
  }

  /** One of the three identifying fields agrees, and each that either side knows agrees. */
  predicate FullAgreement(l: Meta, r: Meta) {
    && (KnownAndEqual(l.authorizationNumber, r.authorizationNumber) || KnownAndEqual(l.issueDate, r.issueDate)
        || KnownAndEqual(l.territory, r.territory))
    && l.authorizationNumber == r.authorizationNumber && l.issueDate == r.issueDate && l.territory == r.territory
  }

  /** The gate takes one of five scores, and is 1 exactly under full agreement. */
  lemma GateScores(l: Meta, r: Meta)
    ensures var g := TemplateGate(l, r);
            && g.score in {0.0, 1.0 / 3.0, 0.5, 2.0 / 3.0, 1.0}
            && (g.status == MATCH && g.score == 1.0 <==> FullAgreement(l, r))
            && (g.status != MATCH ==> g.score == 0.0)
  {
    var m := |MatchedFields(l, r)|;
    assert m <= Informed(l, r) <= 3;
    assert m == (if SameIfKnown(l.authorizationNumber, r.authorizationNumber) == Some(true) then 1 else 0)
                + (if SameIfKnown(l.issueDate, r.issueDate) == Some(true) then 1 else 0)
                + (if SameIfKnown(l.territory, r.territory) == Some(true) then 1 else 0);
  }

  lemma ScaledBelow(x: real, g: real)
    requires 0.0 <= x <= 1.0 && g in {0.0, 1.0 / 3.0, 0.5, 2.0 / 3.0, 1.0}
    ensures x * g >= MINIMUM_CONFIDENCE <==> g == 1.0 && x >= MINIMUM_CONFIDENCE
  {
  }

  /** A finding is emitted exactly when a layer fires on comparable documents of
      different bidders that agree on every identifying field either of them knows
      (at least one), and the ungated confidence reaches the minimum: no partial
      agreement can pass, because the gate then scales below it. */
  lemma EmittedExactlyOnFullAgreement(e: Engine, l: Side, r: Side)
    ensures Detect(e, l, r).Some? <==>
            var lm, rm := MetaOf(l), MetaOf(r);
            && MayCompare(lm, rm) && l.bidderId != r.bidderId
            && FullAgreement(lm, rm)
            && WinningLayer(e, l, r).Some?
            && Ungated(WinningLayer(e, l, r).value.similarity, Corroborate(lm, rm),
                       CombineQuality(l.quality, r.quality))
               >= MINIMUM_CONFIDENCE
    ensures Detect(e, l, r).Some? ==>
            Detect(e, l, r).value.gate.status == MATCH && Detect(e, l, r).value.gate.score == 1.0
  {
    hide WinningLayer, Corroborate, CombineQuality, TemplateGate, FullAgreement, MayCompare, Least, CorroborationScore;
    var lm, rm := MetaOf(l), MetaOf(r);
    GateScores(lm, rm);
    var hit := WinningLayer(e, l, r);
    if hit.Some? {
      ScaledBelow(Ungated(hit.value.similarity, Corroborate(lm, rm), CombineQuality(l.quality, r.quality)),
                  TemplateGate(lm, rm).score);
    }
  }

  // ----- Dice -----

  lemma Ratio(n: nat, m: nat)
    requires m > 0
    ensures n <= m ==> n as real / m as real <= 1.0
    ensures n as real / m as real >= 0.0
    ensures n as real / m as real == 1.0 <==> n == m
  {
  }

  /** Dice lies in [0, 1], is symmetric, and is 1 exactly for equal gram sets. */
  lemma DiceIsSimilarity(a: set<string>, b: set<string>)
    requires a != {} && b != {}
    ensures 0.0 <= Dice(a, b) <= 1.0
    ensures Dice(a, b) == Dice(b, a)
    ensures Dice(a, b) == 1.0 <==> a == b
  {
    assert a * b == b * a;
    assert a == (a * b) + (a - b) && b == (a * b) + (b - a);
    assert |a| == |a * b| + |a - b| && |b| == |a * b| + |b - a|;
    Ratio(2 * |a * b|, |a| + |b|);
    assert 2.0 * |a * b| as real == (2 * |a * b|) as real;
    if |a - b| == 0 && |b - a| == 0 {
      assert a - b == {} && b - a == {};
    }
  }

  /** Equal normal forms of at least four characters reach Dice 1. */
  lemma EqualFormsReachOne(e: Engine, l: Side, r: Side)
    requires SameText(e, l, r) && |e.normalize(l.rawText.value)| >= 4
    ensures LexicalDice(e, l, r) == Some(1.0)
  {
    var s := e.normalize(l.rawText.value);
    assert GramAt(s, 0) in Grams(s);
    DiceIsSimilarity(Grams(s), Grams(s));
  }

  // ----- what detection says, in terms of the documents -----

  ghost function Known(s: Side): Meta {
    if s.meta.Some? then s.meta.value else Meta("UNKNOWN", None, None, None, None, None, None)
  }

  /** Documents of one type, of bidders not known to be the same by name or id, that agree fully. */
  ghost predicate Reportable(l: Side, r: Side) {
    && Known(l).documentType == Known(r).documentType
    && (Known(l).bidderName.None? || Known(r).bidderName.None? || Known(l).bidderName != Known(r).bidderName)
    && l.bidderId != r.bidderId
    && FullAgreement(Known(l), Known(r))
  }

  /** `g` are the runs of four characters in `s`. */
  ghost predicate AreGrams(s: string, g: set<string>) {
    forall x :: x in g <==> exists i :: IsGram(s, x, i)
  }

  ghost predicate IsGram(s: string, x: string, i: int) {
    0 <= i <= |s| - 4 && x == s[i..i + 4]
  }

  ghost predicate FileMatches(l: Side, r: Side) {
    l.fileHash.Some? && l.fileHash == r.fileHash
  }

  ghost predicate BothTexts(l: Side, r: Side) {
    l.rawText.Some? && r.rawText.Some?
  }

  ghost predicate TextMatches(e: Engine, l: Side, r: Side) {
    BothTexts(l, r) && e.normalize(l.rawText.value) == e.normalize(r.rawText.value)
  }

  /** The similarity of the normal forms by shared runs: twice the common over the sum. */
  ghost predicate Overlap(e: Engine, l: Side, r: Side, x: real) {
    && BothTexts(l, r)
    && exists a, b :: AreGrams(e.normalize(l.rawText.value), a) && AreGrams(e.normalize(r.rawText.value), b)
                      && a != {} && b != {} && TwiceCommon(a, b, x)
  }

  ghost predicate TwiceCommon(a: set<string>, b: set<string>, x: real) {
    x * (|a| + |b|) as real == 2.0 * |a * b| as real
  }

  /** Semantic comparison needs good quality, or degraded of at least one half. */
  ghost predicate GoodEnough(a: Quality, b: Quality) {
    || (a.state == GOOD && b.state == GOOD)
    || (a.state != UNKNOWN && b.state != UNKNOWN && a.score >= 0.5 && b.score >= 0.5)
  }

  /** The cosine of the embeddings, within 0 and 1, and 0 if a magnitude vanishes. */
  ghost predicate CosineOf(e: Engine, l: Side, r: Side, x: real) {
    && BothTexts(l, r)
    && var a, b := e.normalize(l.rawText.value), e.normalize(r.rawText.value);
    && a != "" && b != "" && e.embed(a).Some? && e.embed(b).Some?
    && var u, v := e.embed(a).value, e.embed(b).value;
    && u != [] && |u| == |v|
    && (if Dot(u, u) == 0.0 || Dot(v, v) == 0.0 || e.sqrt(Dot(u, u)) * e.sqrt(Dot(v, v)) == 0.0 then x == 0.0
        else var c := Dot(u, v) / (e.sqrt(Dot(u, u)) * e.sqrt(Dot(v, v)));
             x == if c < 0.0 then 0.0 else if c > 1.0 then 1.0 else c)
  }

  /** The layer that decides: equal files, else equal normal forms, else overlap of at
      least 0.80, else cosine from the threshold on. */
  ghost predicate Fires(e: Engine, l: Side, r: Side, hit: Hit) {
    match hit.layer
    case EXACT => FileMatches(l, r) && hit.similarity == 1.0
    case NORMALIZED => !FileMatches(l, r) && TextMatches(e, l, r) && hit.similarity == 1.0
    case LEXICAL =>
      !FileMatches(l, r) && !TextMatches(e, l, r) && Overlap(e, l, r, hit.similarity) && hit.similarity >= 0.80
    case SEMANTIC =>
      && !FileMatches(l, r) && !TextMatches(e, l, r) && (forall x :: Overlap(e, l, r, x) ==> x < 0.80)
      && GoodEnough(l.quality, r.quality) && CosineOf(e, l, r, hit.similarity) && hit.similarity >= e.semanticThreshold
  }

  /** Four questions corroborate: issuer, authorisation, issue date, and overlap of the
      periods from issue to expiry. */
  ghost function Answered(l: Meta, r: Meta): real {
    (if l.issuer.Some? && r.issuer.Some? then 1.0 else 0.0)
    + (if l.authorizationNumber.Some? && r.authorizationNumber.Some? then 1.0 else 0.0)
    + (if l.issueDate.Some? && r.issueDate.Some? then 1.0 else 0.0)
    + (if Dated(l) && Dated(r) then 1.0 else 0.0)
  }

  ghost function Confirmed(l: Meta, r: Meta): real {
    (if l.issuer.Some? && l.issuer == r.issuer then 1.0 else 0.0)
    + (if l.authorizationNumber.Some? && l.authorizationNumber == r.authorizationNumber then 1.0 else 0.0)
    + (if l.issueDate.Some? && l.issueDate == r.issueDate then 1.0 else 0.0)
    + (if Dated(l) && Dated(r) && PeriodsMeet(l, r) then 1.0 else 0.0)
  }

  ghost predicate Dated(m: Meta) {
    m.issueDate.Some? && m.validUntil.Some?
  }

  ghost predicate PeriodsMeet(l: Meta, r: Meta)
    requires Dated(l) && Dated(r)
  {
    && l.issueDate.value <= l.validUntil.value && l.issueDate.value <= r.validUntil.value
    && r.issueDate.value <= l.validUntil.value && r.issueDate.value <= r.validUntil.value
  }

  /** The weaker of two components. */
  ghost function Weaker(x: real, y: real): real {
    if x < y then x else y
  }

  /** The confidence of a finding: similarity, the share of confirmed answers, and the
      weaker of OCR and field quality weigh 0.60, 0.25 and 0.15; within 0 and 1. */
  ghost function Trust(l: Side, r: Side, similarity: real): real {
    var answered, confirmed := Answered(Known(l), Known(r)), Confirmed(Known(l), Known(r));
    var share := if answered == 0.0 then 0.0 else confirmed / answered;
    var legible := Weaker(Weaker(l.quality.ocr, r.quality.ocr), Weaker(l.quality.field, r.quality.field));
    var x := 0.60 * similarity + 0.25 * share + 0.15 * legible;
    if x < 0.0 then 0.0 else if x > 1.0 then 1.0 else x
  }

  ghost predicate Agrees<T>(a: Option<T>, b: Option<T>) {
    a.Some? && b == a
  }

  ghost predicate Differs<T>(a: Option<T>, b: Option<T>) {
    a.Some? && b.Some? && a != b
  }

  /** The names of the fields for which the three answers hold, in order. */
  ghost predicate Names(s: seq<string>, authorization: bool, issueDate: bool, territory: bool) {
    && (forall x :: x in s <==>
          || (x == "authorization_number" && authorization) || (x == "issue_date" && issueDate)
          || (x == "territory" && territory))
    && StrictlySorted(s)
  }

  /** How many of the identifying fields some side knows, and how many agree. */
  ghost function KnownFields(l: Meta, r: Meta): nat {
    var a := if l.authorizationNumber.None? && r.authorizationNumber.None? then 0 else 1;
    var d := if l.issueDate.None? && r.issueDate.None? then 0 else 1;
    var t := if l.territory.None? && r.territory.None? then 0 else 1;
    a + d + t
  }

  ghost function AgreedFields(l: Meta, r: Meta): nat {
    var a := if Agrees(l.authorizationNumber, r.authorizationNumber) then 1 else 0;
    var d := if Agrees(l.issueDate, r.issueDate) then 1 else 0;
    var t := if Agrees(l.territory, r.territory) then 1 else 0;
    a + d + t
  }

  ghost predicate AnyDiffers(l: Meta, r: Meta) {
    Differs(l.authorizationNumber, r.authorizationNumber) || Differs(l.issueDate, r.issueDate)
    || Differs(l.territory, r.territory)
  }

  ghost predicate AnyUnknown(l: Meta, r: Meta) {
    l.authorizationNumber.None? || r.authorizationNumber.None? || l.issueDate.None? || r.issueDate.None?
    || l.territory.None? || r.territory.None?
  }

  /** The gate: the fields by answer, a status, and the agreed share of the known fields. */
  ghost predicate GateShows(l: Meta, r: Meta, g: Gate) {
    && Names(g.matched, Agrees(l.authorizationNumber, r.authorizationNumber), Agrees(l.issueDate, r.issueDate),
             Agrees(l.territory, r.territory))
    && Names(g.mismatched, Differs(l.authorizationNumber, r.authorizationNumber), Differs(l.issueDate, r.issueDate),
             Differs(l.territory, r.territory))
    && Names(g.unknown, l.authorizationNumber.None? || r.authorizationNumber.None?,
             l.issueDate.None? || r.issueDate.None?, l.territory.None? || r.territory.None?)
    && (g.status == MATCH <==> AgreedFields(l, r) > 0)
    && (g.status == MISMATCH <==> AgreedFields(l, r) == 0 && !AnyUnknown(l, r))
    && (g.status == MATCH ==> g.score * KnownFields(l, r) as real == AgreedFields(l, r) as real)
    && (g.status != MATCH ==> g.score == 0.0)
  }

  lemma NamedAre(a: bool, d: bool, t: bool)
    ensures Names(Named("authorization_number", a) + Named("issue_date", d) + Named("territory", t), a, d, t)
    ensures |Named("authorization_number", a) + Named("issue_date", d) + Named("territory", t)| ==
            (if a then 1 else 0) + (if d then 1 else 0) + (if t then 1 else 0)
  {
    assert StrLe("authorization_number", "issue_date") && StrLe("issue_date", "territory");
    assert StrLe("authorization_number", "territory");
    hide StrLe;
    assert "authorization_number" != "issue_date" by { assert "authorization_number"[0] != "issue_date"[0]; }
    assert "territory" != "issue_date" by { assert "territory"[0] != "issue_date"[0]; }
    assert "authorization_number" != "territory" by { assert "authorization_number"[0] != "territory"[0]; }
  }

  lemma GateIs(l: Meta, r: Meta)
    ensures GateShows(l, r, TemplateGate(l, r))
  {
    ListsAre(l, r);
    GateCounts(l, r);
    hide MatchedFields, MismatchedFields, UnknownFields, Informed, Names, AgreedFields, KnownFields, AnyUnknown,
        AnyDiffers;
    Share(|MatchedFields(l, r)|, Informed(l, r));
  }

  lemma Share(n: nat, m: nat)
    ensures m > 0 ==> n as real / m as real * m as real == n as real
  {
  }

  lemma ListsAre(l: Meta, r: Meta)
    ensures Names(MatchedFields(l, r), Agrees(l.authorizationNumber, r.authorizationNumber),
                  Agrees(l.issueDate, r.issueDate), Agrees(l.territory, r.territory))
    ensures Names(MismatchedFields(l, r), Differs(l.authorizationNumber, r.authorizationNumber),
                  Differs(l.issueDate, r.issueDate), Differs(l.territory, r.territory))
    ensures Names(UnknownFields(l, r), l.authorizationNumber.None? || r.authorizationNumber.None?,
                  l.issueDate.None? || r.issueDate.None?, l.territory.None? || r.territory.None?)
  {
    var a, d, t := SameIfKnown(l.authorizationNumber, r.authorizationNumber), SameIfKnown(l.issueDate, r.issueDate),
                   SameIfKnown(l.territory, r.territory);
    NamedAre(a == Some(true), d == Some(true), t == Some(true));
    NamedAre(a == Some(false), d == Some(false), t == Some(false));
    NamedAre(a == None, d == None, t == None);
    hide Named, StrictlySorted;
  }

  lemma GateCounts(l: Meta, r: Meta)
    ensures |MatchedFields(l, r)| == AgreedFields(l, r) && Informed(l, r) == KnownFields(l, r)
    ensures MismatchedFields(l, r) == [] <==> !AnyDiffers(l, r)
    ensures UnknownFields(l, r) == [] <==> !AnyUnknown(l, r)
    ensures AgreedFields(l, r) == 0 && !AnyUnknown(l, r) ==> AnyDiffers(l, r)
    ensures AgreedFields(l, r) > 0 ==> KnownFields(l, r) > 0
  {
  }

  lemma GramsAre(s: string)
    ensures AreGrams(s, Grams(s))
  {
    forall x ensures x in Grams(s) <==> exists i :: IsGram(s, x, i) {
      if i :| IsGram(s, x, i) {
        assert x == GramAt(s, i);
      }
      if x in Grams(s) {
        var i :| 0 <= i < |s| - 3 && x == GramAt(s, i);
        assert IsGram(s, x, i);
      }
    }
  }

  lemma SameGrams(s: string, a: set<string>, b: set<string>)
    requires AreGrams(s, a) && AreGrams(s, b)
    ensures a == b
  {
  }

  lemma DiceIs(a: set<string>, b: set<string>, x: real)
    requires a != {} && b != {}
    ensures TwiceCommon(a, b, x) <==> x == Dice(a, b)
  {
    var n, m := 2.0 * |a * b| as real, (|a| + |b|) as real;
    assert |a| > 0;
    DividesOnce(x, n, m);
  }

  lemma DividesOnce(x: real, n: real, m: real)
    requires m > 0.0
    ensures x * m == n <==> x == n / m
  {
    var q := n / m;
    assert q * m == n;
    if x * m == n {
      assert (x - q) * m == 0.0;
    }
  }

  lemma OverlapIs(e: Engine, l: Side, r: Side, x: real)
    ensures Overlap(e, l, r, x) <==> LexicalDice(e, l, r) == Some(x)
  {
    if BothTexts(l, r) {
      GramOverlap(e.normalize(l.rawText.value), e.normalize(r.rawText.value), x);
    }
    hide AreGrams, Grams, Dice, TwiceCommon;
  }

  lemma GramOverlap(s: string, t: string, x: real)
    ensures (exists a, b :: AreGrams(s, a) && AreGrams(t, b) && a != {} && b != {} && TwiceCommon(a, b, x))
            <==> Grams(s) != {} && Grams(t) != {} && x == Dice(Grams(s), Grams(t))
  {
    GramsAre(s);
    GramsAre(t);
    if Grams(s) != {} && Grams(t) != {} {
      DiceIs(Grams(s), Grams(t), x);
    }
    hide AreGrams, Grams, Dice, TwiceCommon;
    if a, b :| AreGrams(s, a) && AreGrams(t, b) && a != {} && b != {} && TwiceCommon(a, b, x) {
      SameGrams(s, a, Grams(s));
      SameGrams(t, b, Grams(t));
    }
  }

  /** The dot product: products of components, added up along the vectors. */
  lemma {:induction false} DotConcat(a: seq<real>, b: seq<real>, c: seq<real>, d: seq<real>)
    requires |a| == |b| && |c| == |d|
    ensures Dot(a + c, b + d) == Dot(a, b) + Dot(c, d)
    ensures forall x: real, y: real :: Dot([x], [y]) == x * y
  {
    if a == [] {
      assert a + c == c && b + d == d;
    } else {
      assert (a + c)[1..] == a[1..] + c && (b + d)[1..] == b[1..] + d;
      DotConcat(a[1..], b[1..], c, d);
    }
  }

  lemma CosineIs(e: Engine, l: Side, r: Side, x: real)
    ensures CosineOf(e, l, r, x) <==> SemanticSimilarity(e, l, r) == Some(x)
  {
    hide Dot;
  }

  lemma FiresIs(e: Engine, l: Side, r: Side, hit: Hit)
    ensures Fires(e, l, r, hit) <==> WinningLayer(e, l, r) == Some(hit)
  {
    forall x ensures Overlap(e, l, r, x) <==> LexicalDice(e, l, r) == Some(x) { OverlapIs(e, l, r, x); }
    CosineIs(e, l, r, hit.similarity);
    GoodEnoughIs(l.quality, r.quality);
    assert SameFile(l, r) <==> FileMatches(l, r);
    assert SameText(e, l, r) <==> TextMatches(e, l, r);
    hide SameFile, FileMatches, SameText, TextMatches;
    hide Overlap, LexicalDice, CosineOf, SemanticSimilarity, GoodEnough, AllowsSemantic, CombineQuality;
  }

  lemma GoodEnoughIs(a: Quality, b: Quality)
    ensures GoodEnough(a, b) <==> AllowsSemantic(CombineQuality(a, b))
  {
  }

  lemma TrustIs(l: Side, r: Side, x: real)
    ensures Trust(l, r, x) == Ungated(x, Corroborate(MetaOf(l), MetaOf(r)), CombineQuality(l.quality, r.quality))
  {
    SharesAre(Known(l), Known(r));
    LegibleIs(l.quality, r.quality);
    hide CorroborationScore, Answered, Confirmed, Weaker, Least, CombineQuality, Corroborate;
  }

  lemma LegibleIs(a: Quality, b: Quality)
    ensures Least(CombineQuality(a, b).ocr, CombineQuality(a, b).field) ==
            Weaker(Weaker(a.ocr, b.ocr), Weaker(a.field, b.field))
  {
  }

  lemma SharesAre(l: Meta, r: Meta)
    ensures CorroborationScore(Corroborate(l, r)) ==
            if Answered(l, r) == 0.0 then 0.0 else Confirmed(l, r) / Answered(l, r)
  {
    var c := Corroborate(l, r);
    assert Answered(l, r) ==
           (Votes(c.sameIssuer) + Votes(c.sameAuthorization) + Votes(c.sameIssueDate)
            + Votes(c.validityOverlap)) as real;
    assert Confirmed(l, r) ==
           (Ayes(c.sameIssuer) + Ayes(c.sameAuthorization) + Ayes(c.sameIssueDate) + Ayes(c.validityOverlap)) as real;
    hide Answered, Confirmed, Votes, Ayes, Corroborate;
  }

  lemma DetectionIs(e: Engine, l: Side, r: Side)
    ensures Detect(e, l, r).Some? <==>
              exists hit :: Fires(e, l, r, hit) && Reportable(l, r) && Trust(l, r, hit.similarity) >= 0.70
    ensures Detect(e, l, r).Some? ==>
              var f := Detect(e, l, r).value;
              && Fires(e, l, r, Hit(f.layer, f.similarity)) && f.confidence == Trust(l, r, f.similarity)
              && GateShows(Known(l), Known(r), f.gate) && f.bidderId == l.bidderId && f.relatedBidderIds == [r.bidderId]
  {
    hide Fires, Reportable, Trust, GateShows, Detect, Known;
    WhenDetected(e, l, r);
    if Detect(e, l, r).Some? {
      DetectionShows(e, l, r);
    }
  }

  lemma WhenDetected(e: Engine, l: Side, r: Side)
    ensures Detect(e, l, r).Some? <==>
            exists hit :: Fires(e, l, r, hit) && Reportable(l, r) && Trust(l, r, hit.similarity) >= 0.70
  {
    EmittedExactlyOnFullAgreement(e, l, r);
    var hit := WinningLayer(e, l, r);
    forall h ensures Fires(e, l, r, h) <==> hit == Some(h) { FiresIs(e, l, r, h); }
    if hit.Some? {
      TrustIs(l, r, hit.value.similarity);
    }
    assert Reportable(l, r) <==>
           MayCompare(MetaOf(l), MetaOf(r)) && l.bidderId != r.bidderId && FullAgreement(MetaOf(l), MetaOf(r));
    hide Fires, Reportable, Trust, Detect, WinningLayer, Ungated, MetaOf, MayCompare, FullAgreement;
  }

  lemma DetectionShows(e: Engine, l: Side, r: Side)
    requires Detect(e, l, r).Some?
    ensures var f := Detect(e, l, r).value;
            && Fires(e, l, r, Hit(f.layer, f.similarity)) && f.confidence == Trust(l, r, f.similarity)
            && GateShows(Known(l), Known(r), f.gate) && f.bidderId == l.bidderId && f.relatedBidderIds == [r.bidderId]
  {
    EmittedExactlyOnFullAgreement(e, l, r);
    var hit := WinningLayer(e, l, r);
    hide Fires, Trust, GateShows, Detect, WinningLayer, Ungated, TemplateGate, FullAgreement, MayCompare;
    DetectedAs(e, l, r);
    FiresIs(e, l, r, hit.value);
    TrustIs(l, r, hit.value.similarity);
    GateIs(MetaOf(l), MetaOf(r));
  }

  /** The fields of a finding. */
  lemma DetectedAs(e: Engine, l: Side, r: Side)
    requires WinningLayer(e, l, r).Some?
    ensures Detect(e, l, r).Some? ==>
              var f, hit := Detect(e, l, r).value, WinningLayer(e, l, r).value;
              && Hit(f.layer, f.similarity) == hit && f.gate == TemplateGate(MetaOf(l), MetaOf(r))
              && f.confidence == Ungated(hit.similarity, Corroborate(MetaOf(l), MetaOf(r)),
                                         CombineQuality(l.quality, r.quality))
                                 * f.gate.score
              && f.bidderId == l.bidderId && f.relatedBidderIds == [r.bidderId]
  {
    hide WinningLayer, Ungated, TemplateGate, Corroborate, CombineQuality;
  }

  // ----- symmetry -----

  lemma {:induction false} DotSymmetric(a: seq<real>, b: seq<real>)
    requires |a| == |b|
    ensures Dot(a, b) == Dot(b, a)
  {
    if a != [] {
      DotSymmetric(a[1..], b[1..]);
    }
  }

  lemma ProductSymmetric(x: real, y: real)
    ensures x * y == y * x
  {
  }

  lemma CosineSymmetric(e: Engine, a: seq<real>, b: seq<real>)
    ensures Cosine(e, a, b) == Cosine(e, b, a)
  {
    if |a| == |b| {
      DotSymmetric(a, b);
      ProductSymmetric(e.sqrt(Dot(a, a)), e.sqrt(Dot(b, b)));
    }
  }

  lemma LayerSymmetric(e: Engine, l: Side, r: Side)
    ensures WinningLayer(e, l, r) == WinningLayer(e, r, l)
  {
    hide Grams, Dice, Cosine, Least;
    assert LexicalDice(e, l, r) == LexicalDice(e, r, l) by {
      if l.rawText.Some? && r.rawText.Some? {
        var a, b := Grams(e.normalize(l.rawText.value)), Grams(e.normalize(r.rawText.value));
        if a != {} && b != {} {
          DiceIsSimilarity(a, b);
        }
      }
    }
    assert SemanticSimilarity(e, l, r) == SemanticSimilarity(e, r, l) by {
      if l.rawText.Some? && r.rawText.Some? {
        var u, v := e.embed(e.normalize(l.rawText.value)), e.embed(e.normalize(r.rawText.value));
        if u.Some? && v.Some? {
          CosineSymmetric(e, u.value, v.value);
        }
      }
    }
    QualitySymmetric(l.quality, r.quality);
  }

  lemma QualitySymmetric(a: Quality, b: Quality)
    ensures CombineQuality(a, b) == CombineQuality(b, a)
  {
  }

  lemma MetadataSymmetric(l: Meta, r: Meta)
    ensures Corroborate(l, r) == Corroborate(r, l)
    ensures TemplateGate(l, r) == TemplateGate(r, l)
  {
  }

  /** Swapping sides changes neither the winning layer, the similarity, the
      confidence nor whether a finding is emitted; only its direction. */
  lemma DetectionSymmetric(e: Engine, l: Side, r: Side)
    ensures WinningLayer(e, l, r) == WinningLayer(e, r, l)
    ensures Detect(e, r, l) ==
            if Detect(e, l, r).None? then None
            else Some(Detect(e, l, r).value.(bidderId := r.bidderId, relatedBidderIds := [l.bidderId]))
  {
    LayerSymmetric(e, l, r);
    QualitySymmetric(l.quality, r.quality);
    hide WinningLayer, Corroborate, TemplateGate, CombineQuality, Confidence;
    MetadataSymmetric(MetaOf(l), MetaOf(r));
  }
}
