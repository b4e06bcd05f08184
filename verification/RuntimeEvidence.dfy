/** Runtime acceptance: every piece of browser evidence belongs to exactly one declared journey, which
    the code never checks directly but only through counts. */
module RuntimeEvidence {
  import opened Wrappers

  datatype Kind = Browser | Console | Network | Screenshot | Other

  datatype Evidence = Evidence(id: string, journey: string, kind: Kind, passed: bool)

  datatype JourneyResult = JourneyResult(passed: bool, evidenceIds: set<string>)

  datatype Receipt = Receipt(journey: string, evidenceCount: nat)

  datatype Observation = Observation(receipts: seq<Receipt>, evidenceCount: nat, screenshots: nat)

  predicate Distinct(items: seq<string>) {
    forall i, j :: 0 <= i < j < |items| ==> items[i] != items[j]
  }

  function Declared(journeys: seq<string>): set<string> {
    set i | 0 <= i < |journeys| :: journeys[i]
  }

  /** The evidence of one journey, in order. */
  function Of(evidence: seq<Evidence>, journey: string): seq<Evidence> {
    if evidence == [] then []
    else Of(evidence[..|evidence| - 1], journey) +
         (if evidence[|evidence| - 1].journey == journey then [evidence[|evidence| - 1]] else [])
  }

  function Shots(evidence: seq<Evidence>): nat {
    if evidence == [] then 0
    else Shots(evidence[..|evidence| - 1]) + (if evidence[|evidence| - 1].kind == Screenshot then 1 else 0)
  }

  function Ids(evidence: seq<Evidence>): set<string> {
    set i | 0 <= i < |evidence| :: evidence[i].id
  }

  function Kinds(evidence: seq<Evidence>): set<Kind> {
    set i | 0 <= i < |evidence| :: evidence[i].kind
  }

  /** What a receipt's constructor admits. */
  predicate ReceiptOk(evidenceCount: nat) {
    4 <= evidenceCount <= 32
  }

  /** A journey passed with complete passing evidence, one screenshot, and exactly the listed items. */
  predicate Complete(result: JourneyResult, evidence: seq<Evidence>) {
    && result.passed && (forall i :: 0 <= i < |evidence| ==> evidence[i].passed)
    && {Browser, Console, Network, Screenshot} <= Kinds(evidence) && Shots(evidence) == 1
    && result.evidenceIds == Ids(evidence)
  }

  function SumOfCounts(receipts: seq<Receipt>): nat {
    if receipts == [] then 0 else SumOfCounts(receipts[..|receipts| - 1]) + receipts[|receipts| - 1].evidenceCount
  }

  /** How much of the evidence the journeys claim together. */
  function Claimed(evidence: seq<Evidence>, journeys: seq<string>): nat {
    if journeys == [] then 0
    else Claimed(evidence, journeys[..|journeys| - 1]) + |Of(evidence, journeys[|journeys| - 1])|
  }

  /** What the observation's constructor checks of the counts. */
  predicate ObservationOk(o: Observation) {
    && 1 <= |o.receipts| <= 100
    && (forall i, j :: 0 <= i < j < |o.receipts| ==> o.receipts[i].journey != o.receipts[j].journey)
    && o.evidenceCount == SumOfCounts(o.receipts) && o.screenshots == |o.receipts|
  }

  lemma {:induction false} OneClaim(item: Evidence, evidence: seq<Evidence>, journeys: seq<string>)
    requires Distinct(journeys)
    ensures Claimed(evidence + [item], journeys) == Claimed(evidence, journeys) + (if item.journey in journeys then 1 else 0)
  {
    if journeys != [] {
      var front, last := journeys[..|journeys| - 1], journeys[|journeys| - 1];
      OneClaim(item, evidence, front);
      assert (evidence + [item])[..|evidence|] == evidence;
      assert item.journey in journeys <==> item.journey in front || item.journey == last;
    }
  }

  lemma {:induction false} NoClaim(journeys: seq<string>)
    ensures Claimed([], journeys) == 0
  {
    if journeys != [] {
      NoClaim(journeys[..|journeys| - 1]);
    }
  }

  /** For distinct journeys the claimed evidence counts up to all of it if and only if every item belongs
      to a declared journey; distinctness then makes that journey the only one. */
  lemma {:induction false} CountsPartition(evidence: seq<Evidence>, journeys: seq<string>)
    requires Distinct(journeys)
    ensures Claimed(evidence, journeys) <= |evidence|
    ensures Claimed(evidence, journeys) == |evidence| <==> forall i :: 0 <= i < |evidence| ==> evidence[i].journey in journeys
  {
    if evidence == [] {
      NoClaim(journeys);
    } else {
      var front, last := evidence[..|evidence| - 1], evidence[|evidence| - 1];
      assert evidence == front + [last];
      CountsPartition(front, journeys);
      OneClaim(last, front, journeys);
      assert forall i :: 0 <= i < |front| ==> evidence[i] == front[i];
    }
  }

  /** The receipts of the journeys before `n`. */
  ghost predicate ReceiptsOf(receipts: seq<Receipt>, evidence: seq<Evidence>, journeys: seq<string>) {
    && |receipts| == |journeys|
    && (forall i :: 0 <= i < |receipts| ==> receipts[i] == Receipt(journeys[i], |Of(evidence, journeys[i])|))
  }

  lemma {:induction false} ReceiptsClaim(receipts: seq<Receipt>, evidence: seq<Evidence>, journeys: seq<string>)
    requires ReceiptsOf(receipts, evidence, journeys)
    ensures SumOfCounts(receipts) == Claimed(evidence, journeys)
  {
    if receipts != [] {
      ReceiptsClaim(receipts[..|receipts| - 1], evidence, journeys[..|journeys| - 1]);
    }
  }

  lemma {:induction false} OfIsExact(evidence: seq<Evidence>, journey: string, item: Evidence)
    ensures item in Of(evidence, journey) <==> item in evidence && item.journey == journey
  {
    if evidence != [] {
      var front, last := evidence[..|evidence| - 1], evidence[|evidence| - 1];
      OfIsExact(front, journey, item);
      assert evidence == front + [last];
      assert item in evidence <==> item in front || item == last;
    }
  }

  /** Complete evidence never falls short of a receipt's lower limit. */
  lemma CompleteHasFour(result: JourneyResult, evidence: seq<Evidence>)
    requires Complete(result, evidence)
    ensures |evidence| >= 4
  {
    assert Browser in Kinds(evidence) && Console in Kinds(evidence) && Network in Kinds(evidence) && Screenshot in Kinds(evidence);
    var a :| 0 <= a < |evidence| && evidence[a].kind == Browser;
    var b :| 0 <= b < |evidence| && evidence[b].kind == Console;
    var c :| 0 <= c < |evidence| && evidence[c].kind == Network;
    var d :| 0 <= d < |evidence| && evidence[d].kind == Screenshot;
    assert a != b && a != c && a != d && b != c && b != d && c != d;
  }

  /** Where one journey's evidence stands, and its screenshots. */
  function Positions(evidence: seq<Evidence>, journey: string): set<nat> {
    set i: nat | i < |evidence| && evidence[i].journey == journey
  }

  function ShotsAt(evidence: seq<Evidence>, journey: string): set<nat> {
    set i: nat | i < |evidence| && evidence[i].journey == journey && evidence[i].kind == Screenshot
  }

  lemma OneMorePosition(front: seq<Evidence>, last: Evidence, journey: string)
    ensures |Positions(front + [last], journey)| == |Positions(front, journey)| + (if last.journey == journey then 1 else 0)
  {
    var n, before, after := |front|, Positions(front, journey), Positions(front + [last], journey);
    if last.journey == journey {
      assert after == before + {n};
    } else {
      assert after == before;
    }
  }

  lemma OneMoreShotAt(front: seq<Evidence>, last: Evidence, journey: string)
    ensures |ShotsAt(front + [last], journey)| == |ShotsAt(front, journey)| + (if last.journey == journey && last.kind == Screenshot then 1 else 0)
  {
    var n, before, after := |front|, ShotsAt(front, journey), ShotsAt(front + [last], journey);
    if last.journey == journey && last.kind == Screenshot {
      assert after == before + {n};
    } else {
      assert after == before;
    }
  }

  lemma OneMoreShot(items: seq<Evidence>, last: Evidence)
    ensures Shots(items + [last]) == Shots(items) + (if last.kind == Screenshot then 1 else 0)
  {
    assert (items + [last])[..|items|] == items;
  }

  lemma {:induction false} OfCounts(evidence: seq<Evidence>, journey: string)
    ensures |Of(evidence, journey)| == |Positions(evidence, journey)|
    ensures Shots(Of(evidence, journey)) == |ShotsAt(evidence, journey)|
  {
    if evidence != [] {
      hide Positions, ShotsAt, Shots;
      var front, last := evidence[..|evidence| - 1], evidence[|evidence| - 1];
      assert evidence == front + [last];
      OfCounts(front, journey);
      OneMorePosition(front, last, journey);
      OneMoreShotAt(front, last, journey);
      OneMoreShot(Of(front, journey), last);
      assert Of(front, journey) + [] == Of(front, journey);
    }
  }

  ghost predicate Has(evidence: seq<Evidence>, journey: string, kind: Kind) {
    exists item :: item in evidence && item.journey == journey && item.kind == kind
  }

  /** Item by item: a declared journey is receivable exactly when it and all its evidence passed, each of the
      four kinds is there, exactly one item is a screenshot, the result lists exactly the items' identifiers,
      and there are no more than 32 of them. */
  lemma ReceivableIff(results: map<string, JourneyResult>, evidence: seq<Evidence>, journey: string)
    ensures Receivable(results, evidence, journey) <==>
      && journey in results && results[journey].passed
      && (forall item :: item in evidence && item.journey == journey ==> item.passed)
      && Has(evidence, journey, Browser) && Has(evidence, journey, Console)
      && Has(evidence, journey, Network) && Has(evidence, journey, Screenshot)
      && |ShotsAt(evidence, journey)| == 1
      && (forall id :: id in results[journey].evidenceIds <==> exists item :: item in evidence && item.journey == journey && item.id == id)
      && |Positions(evidence, journey)| <= 32
  {
    hide Of, Shots, Positions, ShotsAt, Has, Kinds, Ids;
    OfCounts(evidence, journey);
    var items := Of(evidence, journey);
    forall item ensures item in items <==> item in evidence && item.journey == journey {
      OfIsExact(evidence, journey, item);
    }
    KindsAre(evidence, journey);
    IdsAre(evidence, journey);
    if journey in results {
      assert results[journey].evidenceIds == Ids(items) <==> forall id :: id in results[journey].evidenceIds <==> id in Ids(items);
    }
    assert (forall i :: 0 <= i < |items| ==> items[i].passed) <==> forall item :: item in items ==> item.passed;
  }

  lemma KindsAre(evidence: seq<Evidence>, journey: string)
    ensures forall kind :: kind in Kinds(Of(evidence, journey)) <==> Has(evidence, journey, kind)
  {
    hide Of;
    forall kind ensures kind in Kinds(Of(evidence, journey)) <==> Has(evidence, journey, kind) {
      forall item ensures item in Of(evidence, journey) <==> item in evidence && item.journey == journey {
        OfIsExact(evidence, journey, item);
      }
    }
  }

  lemma IdsAre(evidence: seq<Evidence>, journey: string)
    ensures forall id :: id in Ids(Of(evidence, journey)) <==> exists item :: item in evidence && item.journey == journey && item.id == id
  {
    hide Of;
    forall item ensures item in Of(evidence, journey) <==> item in evidence && item.journey == journey {
      OfIsExact(evidence, journey, item);
    }
  }

  /** A journey's evidence yields a receipt: complete, and no more of it than a receipt can count. */
  predicate Receivable(results: map<string, JourneyResult>, evidence: seq<Evidence>, journey: string) {
    && journey in results && Complete(results[journey], Of(evidence, journey))
    && |Of(evidence, journey)| <= 32
  }

  /** Everything that makes the receipt-building, the observation and the journey budget succeed. */
  ghost predicate Accepts(journeys: seq<string>, results: map<string, JourneyResult>, evidence: seq<Evidence>, login: string, maxJourneys: nat) {
    && 1 <= |journeys| <= maxJourneys && Distinct(journeys)
    && results.Keys == Declared(journeys)
    && (forall i :: 0 <= i < |journeys| ==> Receivable(results, evidence, journeys[i]))
    && login in results
    && (forall i :: 0 <= i < |evidence| ==> evidence[i].journey in journeys)
  }

  /** The receipt-building loop, the observation's checks and the journey budget, which an authority sets
      between 1 and 100: an observation is returned exactly when every declared journey is complete
      within a receipt's limit and every piece of evidence belongs to a declared journey. */
  method Observe(journeys: seq<string>, results: map<string, JourneyResult>, evidence: seq<Evidence>, login: string, maxJourneys: nat)
    returns (observation: Option<Observation>)
    requires 1 <= maxJourneys <= 100
    ensures observation.Some? <==> Accepts(journeys, results, evidence, login, maxJourneys)
    ensures observation.Some? ==> ReceiptsOf(observation.value.receipts, evidence, journeys) && observation.value.evidenceCount == |evidence|
  {
    hide Complete, Of, Claimed, SumOfCounts;
    if results.Keys != Declared(journeys) {
      return None;
    }
    var receipts: seq<Receipt> := [];
    for i := 0 to |journeys|
      invariant ReceiptsOf(receipts, evidence, journeys[..i])
      invariant forall j :: 0 <= j < i ==> Receivable(results, evidence, journeys[j])
    {
      assert journeys[i] in Declared(journeys);
      var items := Of(evidence, journeys[i]);
      if !Complete(results[journeys[i]], items) {
        return None;
      }
      CompleteHasFour(results[journeys[i]], items);
      if !ReceiptOk(|items|) {
        return None;
      }
      receipts := receipts + [Receipt(journeys[i], |items|)];
    }
    assert journeys[..|journeys|] == journeys;
    if login !in results {
      return None;
    }
    var candidate := Observation(receipts, |evidence|, |receipts|);
    CandidateOk(candidate, evidence, journeys);
    observation := if ObservationOk(candidate) && |receipts| <= maxJourneys then Some(candidate) else None;
  }

  /** The observation's count checks say that the evidence is partitioned by the declared journeys. */
  lemma CandidateOk(candidate: Observation, evidence: seq<Evidence>, journeys: seq<string>)
    requires ReceiptsOf(candidate.receipts, evidence, journeys)
    requires candidate.evidenceCount == |evidence| && candidate.screenshots == |candidate.receipts|
    ensures ObservationOk(candidate) <==>
      1 <= |journeys| <= 100 && Distinct(journeys) && forall i :: 0 <= i < |evidence| ==> evidence[i].journey in journeys
  {
    hide Of, Claimed, SumOfCounts;
    ReceiptsClaim(candidate.receipts, evidence, journeys);
    if Distinct(journeys) {
      CountsPartition(evidence, journeys);
    }
    assert Distinct(journeys) <==>
      forall i, j :: 0 <= i < j < |candidate.receipts| ==> candidate.receipts[i].journey != candidate.receipts[j].journey;
  }

  /** Hence each item is in the evidence of exactly one declared journey, and has passed. */
  lemma EvidenceIsPartitioned(journeys: seq<string>, results: map<string, JourneyResult>, evidence: seq<Evidence>, login: string, maxJourneys: nat, item: Evidence)
    requires Accepts(journeys, results, evidence, login, maxJourneys) && item in evidence
    ensures item.passed
    ensures exists i :: 0 <= i < |journeys| && item in Of(evidence, journeys[i])
    ensures forall i, j :: 0 <= i < |journeys| && 0 <= j < |journeys| && item in Of(evidence, journeys[i]) && item in Of(evidence, journeys[j]) ==> i == j
  {
    hide Of;
    forall journey ensures item in Of(evidence, journey) <==> item.journey == journey {
      OfIsExact(evidence, journey, item);
    }
    assert item.journey in journeys;
    var i :| 0 <= i < |journeys| && journeys[i] == item.journey;
    assert item in Of(evidence, journeys[i]);
  }
}
