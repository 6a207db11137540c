/** Pair enumeration and reference attachment (src/ai_verification/cross_bidder/orchestrator.py). */
module CrossBidderOrchestrator {
  import opened Ordering

  datatype Evidence = Evidence(documentId: string, documentType: string)

  /** A corpus bidder with its document ids. */
  datatype Entry = Entry(bidderId: string, documents: seq<string>)

  datatype Pair = Pair(leftBidder: string, left: string, rightBidder: string, right: string)

  // ----- documents of a bidder -----

  function Ids(docs: seq<Evidence>): set<string> {
    set d | d in docs :: d.documentId
  }

  /** The first evidence item of each document, in order. */
  function FirstOfEach(evidence: seq<Evidence>): seq<Evidence> {
    if evidence == [] then []
    else
      var before, e := FirstOfEach(evidence[..|evidence| - 1]), evidence[|evidence| - 1];
      if e.documentId in Ids(before) then before else before + [e]
  }

  lemma IdsGrow(docs: seq<Evidence>, e: Evidence)
    ensures Ids(docs + [e]) == Ids(docs) + {e.documentId}
  {
    assert forall d :: d in docs + [e] <==> d in docs || d == e;
    assert e in docs + [e];
  }

  method UniqueDocuments(evidence: seq<Evidence>) returns (docs: seq<Evidence>)
    ensures docs == FirstOfEach(evidence)
  {
    hide Ids;
    var seen: set<string> := {};
    docs := [];
    NoIds();
    for i := 0 to |evidence|
      invariant docs == FirstOfEach(evidence[..i])
      invariant seen == Ids(docs)
    {
      assert evidence[..i + 1][..i] == evidence[..i];
      if evidence[i].documentId !in seen {
        IdsGrow(docs, evidence[i]);
        seen := seen + {evidence[i].documentId};
        docs := docs + [evidence[i]];
      }
    }
    assert evidence[..|evidence|] == evidence;
  }

  lemma NoIds()
    ensures Ids([]) == {}
  {
  }

  /** Every document that has evidence appears, exactly once. */
  lemma {:induction false} UniqueDocumentsAre(evidence: seq<Evidence>)
    ensures Ids(FirstOfEach(evidence)) == Ids(evidence)
    ensures forall i, j :: 0 <= i < j < |FirstOfEach(evidence)| ==>
              FirstOfEach(evidence)[i].documentId != FirstOfEach(evidence)[j].documentId
  {
    if evidence != [] {
      var init, e := evidence[..|evidence| - 1], evidence[|evidence| - 1];
      assert evidence == init + [e];
      UniqueDocumentsAre(init);
      var before := FirstOfEach(init);
      IdsGrow(init, e);
      IdsGrow(before, e);
      if e.documentId !in Ids(before) {
        forall i | 0 <= i < |before| ensures before[i].documentId != e.documentId {
          assert before[i] in before;
        }
      }
    }
  }

  /** A document carries the type its first evidence item gave it. */
  lemma {:induction false} DocumentsAreFirstSeen(evidence: seq<Evidence>, d: Evidence) returns (i: nat)
    requires d in FirstOfEach(evidence)
    ensures i < |evidence| && evidence[i] == d
    ensures forall j :: 0 <= j < i ==> evidence[j].documentId != d.documentId
  {
    var init := evidence[..|evidence| - 1];
    if d in FirstOfEach(init) {
      i := DocumentsAreFirstSeen(init, d);
      assert forall j :: 0 <= j <= i ==> evidence[j] == init[j];
    } else {
      i := |init|;
      UniqueDocumentsAre(init);
      forall j | 0 <= j < i ensures evidence[j].documentId != d.documentId {
        assert init[j] in init;
      }
    }
  }

  // ----- enumerating pairs -----

  /** The two ids in order: the identity of an unordered pair. */
  function Key(a: string, b: string): (string, string) {
    if StrLe(a, b) then (a, b) else (b, a)
  }

  lemma KeyIdentifies(a: string, b: string, c: string, d: string)
    ensures Key(a, b) == Key(b, a)
    ensures Key(a, b) == Key(c, d) <==> (a == c && b == d) || (a == d && b == c)
  {
    StrLeTotal(a, b);
    StrLeTotal(c, d);
    if StrLe(a, b) && StrLe(b, a) { StrLeAntisymmetric(a, b); }
    if StrLe(c, d) && StrLe(d, c) { StrLeAntisymmetric(c, d); }
  }

  function PairKey(p: Pair): (string, string) { Key(p.left, p.right) }

  function Row(primary: string, left: string, other: string, rights: seq<string>): seq<Pair> {
    if rights == [] then []
    else
      var before, r := Row(primary, left, other, rights[..|rights| - 1]), rights[|rights| - 1];
      if left == r then before else before + [Pair(primary, left, other, r)]
  }

  function Block(primary: string, lefts: seq<string>, e: Entry): seq<Pair> {
    if lefts == [] then []
    else Block(primary, lefts[..|lefts| - 1], e) + Row(primary, lefts[|lefts| - 1], e.bidderId, e.documents)
  }

  /** What one corpus bidder contributes: the primary itself contributes nothing. */
  function Offered(primary: string, lefts: seq<string>, e: Entry): seq<Pair> {
    if e.bidderId == primary then [] else Block(primary, lefts, e)
  }

  /** Every comparable combination, in the order the loops meet them. */
  function Candidates(primary: string, lefts: seq<string>, corpus: seq<Entry>): seq<Pair> {
    if corpus == [] then []
    else
      Candidates(primary, lefts, corpus[..|corpus| - 1]) + Offered(primary, lefts, corpus[|corpus| - 1])
  }

  function Keys(ps: seq<Pair>): set<(string, string)> {
    set p | p in ps :: PairKey(p)
  }

  /** The first candidate of each unordered pair. */
  function FirstByKey(ps: seq<Pair>): seq<Pair> {
    if ps == [] then []
    else
      var init, p := ps[..|ps| - 1], ps[|ps| - 1];
      if PairKey(p) in Keys(init) then FirstByKey(init) else FirstByKey(init) + [p]
  }

  lemma AppendCandidate(ps: seq<Pair>, p: Pair)
    ensures FirstByKey(ps + [p]) == if PairKey(p) in Keys(ps) then FirstByKey(ps) else FirstByKey(ps) + [p]
    ensures Keys(ps + [p]) == Keys(ps) + {PairKey(p)}
  {
    hide PairKey;
    assert (ps + [p])[..|ps|] == ps;
  }

  lemma EmptyRow(primary: string, left: string, other: string)
    ensures Row(primary, left, other, []) == []
  {
  }

  lemma EmptyBlock(primary: string, e: Entry)
    ensures Block(primary, [], e) == []
  {
  }

  lemma RowStep(primary: string, left: string, other: string, rights: seq<string>, j: nat)
    requires j < |rights|
    ensures var before := Row(primary, left, other, rights[..j]);
            Row(primary, left, other, rights[..j + 1]) == if left == rights[j] then before
                else before + [Pair(primary, left, other, rights[j])]
  {
    assert rights[..j + 1][..j] == rights[..j];
  }

  lemma BlockStep(primary: string, lefts: seq<string>, e: Entry, i: nat)
    requires i < |lefts|
    ensures Block(primary, lefts[..i + 1], e) ==
            Block(primary, lefts[..i], e) + Row(primary, lefts[i], e.bidderId, e.documents)
  {
    hide Row;
    assert lefts[..i + 1][..i] == lefts[..i];
  }

  lemma CandidatesStep(primary: string, lefts: seq<string>, corpus: seq<Entry>, k: nat)
    requires k < |corpus|
    ensures Candidates(primary, lefts, corpus[..k + 1]) ==
            Candidates(primary, lefts, corpus[..k]) + Offered(primary, lefts, corpus[k])
  {
    hide Offered;
    assert corpus[..k + 1][..k] == corpus[..k];
  }

  method EnumeratePairs(primary: string, lefts: seq<string>, corpus: seq<Entry>) returns (pairs: seq<Pair>)
    ensures pairs == FirstByKey(Candidates(primary, lefts, corpus))
  {
    hide FirstByKey, Keys, PairKey, Row, Block, Candidates, StrLe;
    var seen: set<(string, string)> := {};
    ghost var met: seq<Pair> := [];
    pairs := [];
    NothingMet(primary, lefts);
    for k := 0 to |corpus|
      invariant met == Candidates(primary, lefts, corpus[..k])
      invariant pairs == FirstByKey(met) && seen == Keys(met)
    {
      var e := corpus[k];
      CandidatesStep(primary, lefts, corpus, k);
      if e.bidderId != primary {
        ghost var met0 := met;
        EmptyBlock(primary, e);
        for i := 0 to |lefts|
          invariant met == met0 + Block(primary, lefts[..i], e)
          invariant pairs == FirstByKey(met) && seen == Keys(met)
        {
          BlockStep(primary, lefts, e, i);
          ghost var met1 := met;
          EmptyRow(primary, lefts[i], e.bidderId);
          for j := 0 to |e.documents|
            invariant met == met1 + Row(primary, lefts[i], e.bidderId, e.documents[..j])
            invariant pairs == FirstByKey(met) && seen == Keys(met)
          {
            RowStep(primary, lefts[i], e.bidderId, e.documents, j);
            if lefts[i] != e.documents[j] {
              var p := Pair(primary, lefts[i], e.bidderId, e.documents[j]);
              AppendCandidate(met, p);
              if PairKey(p) !in seen {
                pairs := pairs + [p];
              }
              seen := seen + {PairKey(p)};
              met := met + [p];
            }
          }
          assert e.documents[..|e.documents|] == e.documents;
        }
        assert lefts[..|lefts|] == lefts;
        assert met == met0 + Offered(primary, lefts, e);
      } else {
        assert met == met + Offered(primary, lefts, e);
      }
    }
    assert corpus[..|corpus|] == corpus;
  }

  lemma NothingMet(primary: string, lefts: seq<string>)
    ensures Candidates(primary, lefts, []) == [] && FirstByKey([]) == [] && Keys([]) == {}
  {
  }

  // ----- what the enumeration contains -----

  /** `e` offers the unordered pair `key` against the primary's documents. */
  predicate Offers(primary: string, lefts: seq<string>, e: Entry, key: (string, string)) {
    e.bidderId != primary && exists l, r :: l in lefts && r in e.documents && l != r && Key(l, r) == key
  }

  lemma {:induction false} RowMembers(primary: string, left: string, other: string, rights: seq<string>)
    ensures forall p :: p in Row(primary, left, other, rights) <==>
              p.leftBidder == primary && p.left == left && p.rightBidder == other && p.right in rights
                  && p.right != left
  {
    if rights != [] {
      var init := rights[..|rights| - 1];
      RowMembers(primary, left, other, init);
      assert rights == init + [rights[|rights| - 1]];
    }
  }

  lemma {:induction false} BlockMembers(primary: string, lefts: seq<string>, e: Entry)
    ensures forall p :: p in Block(primary, lefts, e) <==>
              p.leftBidder == primary && p.left in lefts && p.rightBidder == e.bidderId && p.right in e.documents
                  && p.right != p.left
  {
    if lefts != [] {
      var init, last := lefts[..|lefts| - 1], lefts[|lefts| - 1];
      BlockMembers(primary, init, e);
      RowMembers(primary, last, e.bidderId, e.documents);
      assert lefts == init + [last];
    }
  }

  lemma OfferedMembers(primary: string, lefts: seq<string>, e: Entry, p: Pair)
    ensures p in Offered(primary, lefts, e) <==>
            e.bidderId != primary && p.leftBidder == primary && p.left in lefts && p.rightBidder == e.bidderId
                && p.right in e.documents && p.right != p.left
  {
    BlockMembers(primary, lefts, e);
    hide Block;
  }

  lemma {:induction false} CandidateOfferer(primary: string, lefts: seq<string>, corpus: seq<Entry>, p: Pair)
    returns (k: nat)
    requires p in Candidates(primary, lefts, corpus)
    ensures k < |corpus| && p in Offered(primary, lefts, corpus[k])
  {
    hide Offered;
    var init := corpus[..|corpus| - 1];
    if p in Candidates(primary, lefts, init) {
      k := CandidateOfferer(primary, lefts, init, p);
    } else {
      k := |init|;
    }
  }

  lemma {:induction false} OfferedAreCandidates(primary: string, lefts: seq<string>, corpus: seq<Entry>, k: nat,
                                                p: Pair)
    requires k < |corpus| && p in Offered(primary, lefts, corpus[k])
    ensures p in Candidates(primary, lefts, corpus)
  {
    hide Offered;
    var init := corpus[..|corpus| - 1];
    if k < |init| {
      OfferedAreCandidates(primary, lefts, init, k, p);
    }
  }

  /** The keys met are those some corpus bidder offers. */
  lemma OfferedKeys(primary: string, lefts: seq<string>, corpus: seq<Entry>, key: (string, string))
    ensures key in Keys(Candidates(primary, lefts, corpus))
            <==> exists k :: 0 <= k < |corpus| && Offers(primary, lefts, corpus[k], key)
  {
    hide Key, Offered, Candidates;
    if p :| p in Candidates(primary, lefts, corpus) && PairKey(p) == key {
      var k := CandidateOfferer(primary, lefts, corpus, p);
      OfferedMembers(primary, lefts, corpus[k], p);
      assert Offers(primary, lefts, corpus[k], key);
    }
    if k :| 0 <= k < |corpus| && Offers(primary, lefts, corpus[k], key) {
      var l, r :| l in lefts && r in corpus[k].documents && l != r && Key(l, r) == key;
      var p := Pair(primary, l, corpus[k].bidderId, r);
      OfferedMembers(primary, lefts, corpus[k], p);
      OfferedAreCandidates(primary, lefts, corpus, k, p);
      assert PairKey(p) == key;
    }
  }

  lemma {:induction false} FirstByKeyIs(ps: seq<Pair>)
    ensures Keys(FirstByKey(ps)) == Keys(ps)
    ensures forall i, j :: 0 <= i < j < |FirstByKey(ps)| ==> PairKey(FirstByKey(ps)[i]) != PairKey(FirstByKey(ps)[j])
  {
    hide PairKey;
    if ps != [] {
      var init, p := ps[..|ps| - 1], ps[|ps| - 1];
      FirstByKeyIs(init);
      assert ps == init + [p];
      AppendCandidate(init, p);
      var before := FirstByKey(init);
      if PairKey(p) !in Keys(init) {
        forall i | 0 <= i < |before| ensures PairKey(before[i]) != PairKey(p) {
          assert before[i] in before;
          assert PairKey(before[i]) in Keys(before);
        }
        assert FirstByKey(ps) == before + [p];
        assert Keys(before + [p]) == Keys(before) + {PairKey(p)};
      }
    }
  }

  lemma {:induction false} FirstByKeyConcat(a: seq<Pair>, b: seq<Pair>, p: Pair)
    requires p in FirstByKey(a + b)
    ensures p in FirstByKey(a) || (p in b && PairKey(p) !in Keys(a))
  {
    hide PairKey;
    if b == [] {
      assert a + b == a;
    } else {
      var init, last := b[..|b| - 1], b[|b| - 1];
      assert a + b == (a + init) + [last];
      AppendCandidate(a + init, last);
      assert forall q :: q in init ==> q in b;
      assert Keys(a) <= Keys(a + init);
      if p in FirstByKey(a + init) {
        FirstByKeyConcat(a, init, p);
      }
    }
  }

  /** Pair enumeration: no unordered pair twice, exactly the pairs some other corpus
      bidder offers, never a document with itself or a bidder with itself. */
  lemma PairsAre(primary: string, lefts: seq<string>, corpus: seq<Entry>, key: (string, string))
    ensures var pairs := FirstByKey(Candidates(primary, lefts, corpus));
            && (forall i, j :: 0 <= i < j < |pairs| ==> PairKey(pairs[i]) != PairKey(pairs[j]))
            && (key in Keys(pairs) <==> exists k :: 0 <= k < |corpus| && Offers(primary, lefts, corpus[k], key))
  {
    hide PairKey, Offers, Candidates, FirstByKey;
    FirstByKeyIs(Candidates(primary, lefts, corpus));
    OfferedKeys(primary, lefts, corpus, key);
  }

  /** Each pair is attributed to the first corpus bidder that offers it, with the
      primary on the left. */
  lemma {:induction false} AttributedToFirstOffer(primary: string, lefts: seq<string>, corpus: seq<Entry>, p: Pair)
    returns (k: nat)
    requires p in FirstByKey(Candidates(primary, lefts, corpus))
    ensures k < |corpus| && p.leftBidder == primary && p.rightBidder == corpus[k].bidderId != primary
    ensures p.left in lefts && p.right in corpus[k].documents && p.left != p.right
    ensures Offers(primary, lefts, corpus[k], PairKey(p))
    ensures forall h :: 0 <= h < k ==> !Offers(primary, lefts, corpus[h], PairKey(p))
  {
    var init, last := corpus[..|corpus| - 1], corpus[|corpus| - 1];
    var before, block := Candidates(primary, lefts, init), Offered(primary, lefts, last);
    hide Key, Candidates, FirstByKey, Keys, Offered, Block, Offers;
    FirstByKeyConcat(before, block, p);
    if p in FirstByKey(before) {
      k := AttributedToFirstOffer(primary, lefts, init, p);
    } else {
      k := |init|;
      OfferedMembers(primary, lefts, last, p);
      OfferedKeys(primary, lefts, init, PairKey(p));
      CandidateIsOffered(primary, lefts, last, p);
    }
    assert forall h :: 0 <= h < |init| ==> init[h] == corpus[h];
  }

  lemma CandidateIsOffered(primary: string, lefts: seq<string>, e: Entry, p: Pair)
    requires e.bidderId != primary && p.left in lefts && p.right in e.documents && p.left != p.right
    ensures Offers(primary, lefts, e, PairKey(p))
  {
    hide Key;
  }

  // ----- verification references -----

  /** evidence id -> verification id; the first record of an evidence id wins. */
  function Index(records: seq<(Option<string>, string)>): map<string, string> {
    if records == [] then map[]
    else
      var before, r := Index(records[..|records| - 1]), records[|records| - 1];
      if r.0.None? || r.0.value in before then before else before[r.0.value := r.1]
  }

  method CollectVerificationIndex(records: seq<(Option<string>, string)>) returns (index: map<string, string>)
    ensures index == Index(records)
  {
    index := map[];
    for i := 0 to |records|
      invariant index == Index(records[..i])
    {
      assert records[..i + 1][..i] == records[..i];
      if records[i].0.Some? && records[i].0.value !in index {
        index := index[records[i].0.value := records[i].1];
      }
    }
    assert records[..|records|] == records;
  }

  /** Where the index has an evidence id, it has the verification of its first record. */
  lemma {:induction false} IndexIsFirstRecord(records: seq<(Option<string>, string)>, e: string) returns (i: nat)
    requires e in Index(records)
    ensures i < |records| && records[i] == (Some(e), Index(records)[e])
    ensures forall j :: 0 <= j < i ==> records[j].0 != Some(e)
  {
    var init := records[..|records| - 1];
    if e in Index(init) {
      i := IndexIsFirstRecord(init, e);
      assert forall j :: 0 <= j <= i ==> records[j] == init[j];
    } else {
      i := |init|;
      forall j | 0 <= j < i ensures records[j].0 != Some(e) {
        if records[j].0 == Some(e) { EveryRecordIndexed(init, j, e); }
      }
    }
  }

  lemma {:induction false} EveryRecordIndexed(records: seq<(Option<string>, string)>, j: nat, e: string)
    requires j < |records| && records[j].0 == Some(e)
    ensures e in Index(records)
  {
    var init := records[..|records| - 1];
    if j < |init| { EveryRecordIndexed(init, j, e); }
  }

  function AddRef(refs: seq<string>, index: map<string, string>, e: string): seq<string> {
    if e in index && index[e] !in refs then refs + [index[e]] else refs
  }

  /** The verifications of the evidence, left before right, each where first met. */
  function Refs(evidenceRefs: seq<string>, left: map<string, string>, right: map<string, string>): seq<string> {
    if evidenceRefs == [] then []
    else
      var before, e := Refs(evidenceRefs[..|evidenceRefs| - 1], left, right), evidenceRefs[|evidenceRefs| - 1];
      AddRef(AddRef(before, left, e), right, e)
  }

  /** Attaches to a finding the verifications of its evidence: exactly the indexed
      ones, each once, in the order met. */
  method AttachRefs(evidenceRefs: seq<string>, left: map<string, string>, right: map<string, string>)
    returns (refs: seq<string>)
    ensures refs == Refs(evidenceRefs, left, right)
    ensures forall v ::
              v in refs <==>
              exists e :: e in evidenceRefs && ((e in left && left[e] == v) || (e in right && right[e] == v))
    ensures forall i, j :: 0 <= i < j < |refs| ==> refs[i] != refs[j]
  {
    refs := [];
    for i := 0 to |evidenceRefs|
      invariant refs == Refs(evidenceRefs[..i], left, right)
      invariant forall j, k :: 0 <= j < k < |refs| ==> refs[j] != refs[k]
    {
      var e := evidenceRefs[i];
      assert evidenceRefs[..i + 1] == evidenceRefs[..i] + [e];
      assert evidenceRefs[..i + 1][..i] == evidenceRefs[..i];
      if e in left && left[e] !in refs {
        refs := refs + [left[e]];
      }
      if e in right && right[e] !in refs {
        refs := refs + [right[e]];
      }
    }
    assert evidenceRefs[..|evidenceRefs|] == evidenceRefs;
    forall v ensures v in refs <==>
                     exists e :: e in evidenceRefs && ((e in left && left[e] == v) || (e in right && right[e] == v)) {
      RefsAre(evidenceRefs, left, right, v);
    }
  }

  // ----- the whole run -----

  datatype Finding = Finding(findingId: string, evidenceRefs: seq<string>, verificationRefs: seq<string>)

  type Records = seq<(Option<string>, string)>

  datatype Bidder = Bidder(bidderId: string, evidence: seq<Evidence>, records: Records)

  function DocumentIds(docs: seq<Evidence>): (r: seq<string>)
    ensures |r| == |docs| && forall i :: 0 <= i < |r| ==> r[i] == docs[i].documentId
  {
    seq(|docs|, i requires 0 <= i < |docs| => docs[i].documentId)
  }

  function EntryOf(b: Bidder): Entry {
    Entry(b.bidderId, DocumentIds(FirstOfEach(b.evidence)))
  }

  function Entries(corpus: seq<Bidder>): (r: seq<Entry>)
    ensures |r| == |corpus| && forall i :: 0 <= i < |r| ==> r[i] == EntryOf(corpus[i])
  {
    seq(|corpus|, i requires 0 <= i < |corpus| => EntryOf(corpus[i]))
  }

  /** The pairs compared for a primary bidder. */
  function PairsFor(primary: Bidder, corpus: seq<Bidder>): seq<Pair> {
    FirstByKey(Candidates(primary.bidderId, DocumentIds(FirstOfEach(primary.evidence)), Entries(corpus)))
  }

  /** The records of the first corpus entry of that bidder. */
  function RecordsFor(corpus: seq<Bidder>, bidderId: string): Records {
    if corpus == [] then []
    else if corpus[0].bidderId == bidderId then corpus[0].records
    else RecordsFor(corpus[1..], bidderId)
  }

  function WithRefs(f: Finding, left: map<string, string>, right: map<string, string>): Finding {
    var refs := Refs(f.evidenceRefs, left, right);
    if refs == [] then f else f.(verificationRefs := refs)
  }

  function AllWithRefs(fs: seq<Finding>, left: map<string, string>, right: map<string, string>): (r: seq<Finding>)
    ensures |r| == |fs| && forall i :: 0 <= i < |r| ==> r[i] == WithRefs(fs[i], left, right)
  {
    seq(|fs|, i requires 0 <= i < |fs| => WithRefs(fs[i], left, right))
  }

  /** What one pair contributes, its findings given by the detector. */
  function PairFindings(p: Pair, detect: Pair -> seq<Finding>, own: Records, corpus: seq<Bidder>): seq<Finding> {
    AllWithRefs(detect(p), Index(own), Index(RecordsFor(corpus, p.rightBidder)))
  }

  function FindingsOf(pairs: seq<Pair>, detect: Pair -> seq<Finding>, own: Records, corpus: seq<Bidder>): seq<Finding> {
    if pairs == [] then []
    else
      FindingsOf(pairs[..|pairs| - 1], detect, own, corpus) + PairFindings(pairs[|pairs| - 1], detect, own, corpus)
  }

  method RecordsForBidder(corpus: seq<Bidder>, bidderId: string) returns (records: Records)
    ensures records == RecordsFor(corpus, bidderId)
  {
    for i := 0 to |corpus|
      invariant RecordsFor(corpus, bidderId) == RecordsFor(corpus[i..], bidderId)
    {
      assert corpus[i..][1..] == corpus[i + 1..];
      if corpus[i].bidderId == bidderId {
        return corpus[i].records;
      }
    }
    return [];
  }

  method AttachAll(fs: seq<Finding>, left: map<string, string>, right: map<string, string>) returns (r: seq<Finding>)
    ensures r == AllWithRefs(fs, left, right)
  {
    r := [];
    for i := 0 to |fs|
      invariant |r| == i && forall j :: 0 <= j < i ==> r[j] == WithRefs(fs[j], left, right)
    {
      var refs := AttachRefs(fs[i].evidenceRefs, left, right);
      r := r + [if refs == [] then fs[i] else fs[i].(verificationRefs := refs)];
    }
  }

  method IndexDocuments(corpus: seq<Bidder>) returns (entries: seq<Entry>)
    ensures entries == Entries(corpus)
  {
    hide FirstOfEach;
    entries := [];
    for i := 0 to |corpus|
      invariant |entries| == i && forall j :: 0 <= j < i ==> entries[j] == EntryOf(corpus[j])
    {
      var docs := UniqueDocuments(corpus[i].evidence);
      entries := entries + [Entry(corpus[i].bidderId, DocumentIds(docs))];
    }
  }

  /** Compares the primary bidder with the corpus, `detect` standing for the detector. */
  method Run(primary: Bidder, corpus: seq<Bidder>, detect: Pair -> seq<Finding>) returns (findings: seq<Finding>)
    ensures findings == FindingsOf(PairsFor(primary, corpus), detect, primary.records, corpus)
  {
    hide Candidates, FirstByKey, FirstOfEach, Entries, Index, RecordsFor, AllWithRefs, DocumentIds;
    var docs := UniqueDocuments(primary.evidence);
    var entries := IndexDocuments(corpus);
    var pairs := EnumeratePairs(primary.bidderId, DocumentIds(docs), entries);
    var left := CollectVerificationIndex(primary.records);
    findings := [];
    for i := 0 to |pairs|
      invariant findings == FindingsOf(pairs[..i], detect, primary.records, corpus)
    {
      assert pairs[..i + 1][..i] == pairs[..i];
      var records := RecordsForBidder(corpus, pairs[i].rightBidder);
      var right := CollectVerificationIndex(records);
      var attached := AttachAll(detect(pairs[i]), left, right);
      findings := findings + attached;
    }
    assert pairs[..|pairs|] == pairs;
  }

  /** Every finding of a run is one the detector made for a pair, its references
      replaced by those the indices give, if any. */
  lemma {:induction false} FindingsComeFromPairs(pairs: seq<Pair>, detect: Pair -> seq<Finding>, own: Records,
                                                 corpus: seq<Bidder>,
                                                 g: Finding)
    ensures g in FindingsOf(pairs, detect, own, corpus) <==>
            exists p, f :: p in pairs && f in detect(p)
                && g == WithRefs(f, Index(own), Index(RecordsFor(corpus, p.rightBidder)))
  {
    hide WithRefs, Index, RecordsFor;
    if pairs != [] {
      var init, p := pairs[..|pairs| - 1], pairs[|pairs| - 1];
      FindingsComeFromPairs(init, detect, own, corpus, g);
      FindingsOfPair(p, detect, own, corpus, g);
      hide PairFindings;
      assert pairs == init + [p];
    }
  }

  /** Attaching changes nothing but the references, and these only if an index has some. */
  lemma AttachedRefs(f: Finding, left: map<string, string>, right: map<string, string>, v: string)
    ensures var g := WithRefs(f, left, right);
            var found := exists e :: e in f.evidenceRefs && (e in left || e in right);
            && g.findingId == f.findingId && g.evidenceRefs == f.evidenceRefs
            && (!found ==> g == f)
            && (found ==> (v in g.verificationRefs <==>
                             exists e :: e in f.evidenceRefs
                                         && ((e in left && left[e] == v) || (e in right && right[e] == v))))
  {
    RefsAre(f.evidenceRefs, left, right, v);
    var refs := Refs(f.evidenceRefs, left, right);
    if refs != [] {
      RefsAre(f.evidenceRefs, left, right, refs[0]);
    }
    if e :| e in f.evidenceRefs && (e in left || e in right) {
      RefsAre(f.evidenceRefs, left, right, if e in left then left[e] else right[e]);
    }
    hide Refs;
  }

  lemma {:induction false} RefsAre(evidenceRefs: seq<string>, left: map<string, string>, right: map<string, string>,
                                   v: string)
    ensures v in Refs(evidenceRefs, left, right) <==>
            exists e :: e in evidenceRefs && ((e in left && left[e] == v) || (e in right && right[e] == v))
  {
    if evidenceRefs != [] {
      var init, e := evidenceRefs[..|evidenceRefs| - 1], evidenceRefs[|evidenceRefs| - 1];
      assert evidenceRefs == init + [e];
      RefsAre(init, left, right, v);
    }
  }

  lemma FindingsOfPair(p: Pair, detect: Pair -> seq<Finding>, own: Records, corpus: seq<Bidder>, g: Finding)
    ensures g in PairFindings(p, detect, own, corpus) <==>
            exists f :: f in detect(p) && g == WithRefs(f, Index(own), Index(RecordsFor(corpus, p.rightBidder)))
  {
    hide WithRefs, Index, RecordsFor;
    var all := PairFindings(p, detect, own, corpus);
    if f :| f in detect(p) && g == WithRefs(f, Index(own), Index(RecordsFor(corpus, p.rightBidder))) {
      var i :| 0 <= i < |detect(p)| && detect(p)[i] == f;
      assert all[i] == g;
    }
  }

  lemma {:induction false} FirstNamesake(corpus: seq<Bidder>, k: nat) returns (f: nat)
    requires k < |corpus|
    ensures f <= k && corpus[f].bidderId == corpus[k].bidderId
    ensures RecordsFor(corpus, corpus[k].bidderId) == corpus[f].records
    ensures forall h :: 0 <= h < f ==> corpus[h].bidderId != corpus[k].bidderId
  {
    if corpus[0].bidderId == corpus[k].bidderId {
      f := 0;
    } else {
      var g := FirstNamesake(corpus[1..], k - 1);
      f := g + 1;
      assert forall h :: 0 < h < |corpus| ==> corpus[h] == corpus[1..][h - 1];
    }
  }

  /** The findings of a pair take the records of the first corpus entry, `f`, of the
      pair's bidder, while the pair comes from the first entry, `k`, that offers it:
      these are the same entry exactly if no entry before `k` has its bidder id. */
  lemma RecordsOfOfferingEntry(primary: Bidder, corpus: seq<Bidder>, p: Pair) returns (k: nat, f: nat)
    requires p in PairsFor(primary, corpus)
    ensures f <= k < |corpus| && corpus[f].bidderId == corpus[k].bidderId == p.rightBidder
    ensures Offers(primary.bidderId, DocumentIds(FirstOfEach(primary.evidence)), EntryOf(corpus[k]), PairKey(p))
    ensures forall h :: 0 <= h < k ==>
              !Offers(primary.bidderId, DocumentIds(FirstOfEach(primary.evidence)), EntryOf(corpus[h]), PairKey(p))
    ensures RecordsFor(corpus, p.rightBidder) == corpus[f].records
    ensures f == k <==> forall h :: 0 <= h < k ==> corpus[h].bidderId != corpus[k].bidderId
  {
    hide Offers, FirstByKey, Candidates, FirstOfEach, RecordsFor, Key, PairKey;
    var entries := Entries(corpus);
    k := AttributedToFirstOffer(primary.bidderId, DocumentIds(FirstOfEach(primary.evidence)), entries, p);
    f := FirstNamesake(corpus, k);
    assert entries[k] == EntryOf(corpus[k]);
    forall h | 0 <= h < k
      ensures !Offers(primary.bidderId, DocumentIds(FirstOfEach(primary.evidence)), EntryOf(corpus[h]), PairKey(p))
    {
      assert entries[h] == EntryOf(corpus[h]);
    }
  }
}
