/** The request handlers of `frontend/app.py` with Flask and BigQuery
    stripped away: `process_loan` (trim the id, look the profile up, score
    the first profile with the requested loan amount, pick the confidence,
    echo part of the profile), `get_random_customer`, and the page script's
    mapping from prediction to the rendered decision box.

    The profile query and the prediction query are the foreign calls
    `lookup(key)` and `score(features)`; each returns its rows or raises.
    An exception anywhere in a handler becomes a 500 reply carrying the
    exception's message. */
module LoanApi {
  import opened Outcomes
  import opened Text

  // ---------------------------------------------------------------------
  // Request and rows
  // ---------------------------------------------------------------------

  /** The `customer_id` member of the request body, as far as `str()` is
      concerned: absent, JSON null, a string, a non-negative integer or a
      boolean. */
  datatype IdField = Missing | Null | Given(s: string) | Number(n: nat) | Flag(b: bool)

  /** The request body; `loan_amount` is passed through uninspected, so its
      type is a parameter, and `None` when absent. */
  datatype LoanRequest<A> = LoanRequest(customerId: IdField, loanAmount: Option<A>)

  /** One row of the profile query: every column but `customer_id` and
      `default_risk`. */
  datatype Profile = Profile(
    age: int, income: int, creditScore: int, monthsEmployed: int,
    numCreditLines: int, interestRate: real, dtiRatio: real)

  /** The record the prediction query scores. */
  datatype Features<A> = Features(
    age: int, income: int, loanAmount: Option<A>, creditScore: int,
    monthsEmployed: int, numCreditLines: int, interestRate: real, dtiRatio: real)

  datatype LabelProb = LabelProb(outcome: int, prob: real)

  /** One row of the prediction query. */
  datatype Prediction = Prediction(predictedLabel: int, probs: seq<LabelProb>)

  /** The `profile` member of a successful reply. */
  datatype Echo = Echo(income: int, creditScore: int, dtiRatio: real, monthsEmployed: int)

  datatype Response =
    | Decision(profile: Echo, prediction: int, probability: real)
    | Failure(status: nat, message: string)

  // ---------------------------------------------------------------------
  // process_loan
  // ---------------------------------------------------------------------

  /** `str(req.get('customer_id', ''))`: an absent id is the empty
      default, a string is itself, a number prints in decimal without
      leading zeros, and null and the booleans print as Python spells them. */
  function IdText(f: IdField): (s: string)
    ensures f.Missing? ==> s == ""
    ensures f.Given? ==> s == f.s
    ensures f.Number? ==> AllDigits(s) && DecimalValue(s) == f.n && |s| > 0 && (|s| > 1 ==> s[0] != '0')
    ensures f.Null? ==> s == "None"
    ensures f.Flag? ==> s == (if f.b then "True" else "False")
  {
    if f.Number? then DecimalRoundTrip(f.n); IdTextCase(f) else IdTextCase(f)
  }

  function IdTextCase(f: IdField): string {
    match f
    case Missing => ""
    case Null => "None"
    case Given(s) => s
    case Number(n) => ShowNat(n)
    case Flag(b) => if b then "True" else "False"
  }

  /** The lookup key: the id's text with surrounding whitespace removed. */
  function LookupKey(f: IdField): (key: string)
    ensures exists i, j | 0 <= i <= j <= |IdText(f)| ::
      key == IdText(f)[i..j] && AllSpace(IdText(f)[..i]) && AllSpace(IdText(f)[j..])
    ensures |key| > 0 ==> !IsSpace(key[0]) && !IsSpace(key[|key| - 1])
  {
    Strip(IdText(f))
  }

  /** Trimming the key again changes nothing, and an absent id is the
      empty key. */
  lemma LookupKeyTrimmed(f: IdField)
    ensures Strip(LookupKey(f)) == LookupKey(f)
    ensures f == Missing ==> LookupKey(f) == ""
  {
    StripIdempotent(IdText(f));
  }

  function NotFoundMessage(key: string): string {
    "Customer ID '" + key + "' not found. Try using the Auto-fill button."
  }

  /** Python's message for `results[0]` on an empty list. */
  const IndexErrorMessage: string := "list index out of range"

  /** The feature record built from a profile row and the requested loan:
      each named column of the prediction query takes the profile column of
      the same name, and `loan_amount` the request's value. */
  function FeaturesOf<A>(p: Profile, loan: Option<A>): (f: Features<A>)
    ensures f.age == p.age && f.income == p.income && f.loanAmount == loan
    ensures f.creditScore == p.creditScore && f.monthsEmployed == p.monthsEmployed
    ensures f.numCreditLines == p.numCreditLines
    ensures f.interestRate == p.interestRate && f.dtiRatio == p.dtiRatio
  {
    Features(p.age, p.income, loan, p.creditScore, p.monthsEmployed,
             p.numCreditLines, p.interestRate, p.dtiRatio)
  }

  /** The profile columns carried by a feature record. */
  function ProfileOf<A>(f: Features<A>): Profile {
    Profile(f.age, f.income, f.creditScore, f.monthsEmployed,
            f.numCreditLines, f.interestRate, f.dtiRatio)
  }

  /** The features carry the seven profile columns unchanged and the
      request's loan amount, so two different (profile, loan) pairs never
      reach the scorer as the same record. */
  lemma FeaturesRoundTrip<A>(p: Profile, loan: Option<A>)
    ensures ProfileOf(FeaturesOf(p, loan)) == p
    ensures FeaturesOf(p, loan).loanAmount == loan
    ensures forall q: Profile, l: Option<A> | FeaturesOf(q, l) == FeaturesOf(p, loan) :: q == p && l == loan
  {
    forall q: Profile, l: Option<A> | FeaturesOf(q, l) == FeaturesOf(p, loan)
      ensures q == p && l == loan
    {
      assert ProfileOf(FeaturesOf(q, l)) == q;
    }
  }

  /** The `profile` member of the reply: four columns of the profile row,
      each under its own name. */
  function EchoOf(p: Profile): (e: Echo)
    ensures e.income == p.income && e.creditScore == p.creditScore
    ensures e.dtiRatio == p.dtiRatio && e.monthsEmployed == p.monthsEmployed
  {
    Echo(p.income, p.creditScore, p.dtiRatio, p.monthsEmployed)
  }

  /** Entry `i` is the last one whose label is `target`. */
  predicate IsLastMatch(probs: seq<LabelProb>, target: int, i: int) {
    && 0 <= i < |probs|
    && probs[i].outcome == target
    && forall j | i < j < |probs| :: probs[j].outcome != target
  }

  predicate NoMatch(probs: seq<LabelProb>, target: int) {
    forall j | 0 <= j < |probs| :: probs[j].outcome != target
  }

  /** The confidence the handler reports for `target`: the probability of
      the last entry with that label, or 0.0 when there is none. */
  function Confidence(probs: seq<LabelProb>, target: int): (c: real)
    ensures NoMatch(probs, target) ==> c == 0.0
    ensures !NoMatch(probs, target) ==>
      exists i | 0 <= i < |probs| :: IsLastMatch(probs, target, i) && c == probs[i].prob
    decreases |probs|
  {
    if |probs| == 0 then 0.0
    else if probs[|probs| - 1].outcome == target then probs[|probs| - 1].prob
    else
      var init := probs[..|probs| - 1];
      assert forall j | 0 <= j < |init| :: init[j] == probs[j];
      Confidence(init, target)
  }

  /** The handler's loop over `predicted_label_probs`, front to back,
      overwriting the confidence on every matching label. */
  method SelectConfidence(probs: seq<LabelProb>, target: int) returns (confidence: real)
    ensures confidence == Confidence(probs, target)
  {
    confidence := 0.0;
    for i := 0 to |probs|
      invariant confidence == Confidence(probs[..i], target)
    {
      assert probs[..i + 1][..i] == probs[..i];
      if probs[i].outcome == target {
        confidence := probs[i].prob;
      }
    }
    assert probs[..|probs|] == probs;
  }

  /** `process_loan` on a parsed request body. */
  function ProcessLoan<A>(
    req: LoanRequest<A>,
    lookup: string -> Result<seq<Profile>>,
    score: Features<A> -> Result<seq<Prediction>>): (r: Response)
    ensures lookup(LookupKey(req.customerId)).Raised? ==>
      r == Failure(500, lookup(LookupKey(req.customerId)).message)
    ensures (r.Failure? && r.status == 404) <==>
      lookup(LookupKey(req.customerId)).Ok? && |lookup(LookupKey(req.customerId)).value| == 0
    ensures r.Failure? && r.status == 404 ==>
      r.message == NotFoundMessage(LookupKey(req.customerId))
    ensures r.Decision? ==>
      var rows := lookup(LookupKey(req.customerId));
      && rows.Ok? && |rows.value| > 0
      && var results := score(FeaturesOf(rows.value[0], req.loanAmount));
      && results.Ok? && |results.value| > 0
      && r.profile == EchoOf(rows.value[0])
      && r.prediction == results.value[0].predictedLabel
      && r.probability == Confidence(results.value[0].probs, r.prediction)
    ensures
      var rows := lookup(LookupKey(req.customerId));
      rows.Ok? && |rows.value| > 0 ==>
      var results := score(FeaturesOf(rows.value[0], req.loanAmount));
      && (results.Ok? && |results.value| > 0 ==> r.Decision?)
      && (results.Raised? ==> r == Failure(500, results.message))
      && (results.Ok? && |results.value| == 0 ==> r == Failure(500, IndexErrorMessage))
    ensures r.Failure? ==> r.status == 404 || r.status == 500
  {
    var key := LookupKey(req.customerId);
    match lookup(key)
    case Raised(m) => Failure(500, m)
    case Ok(rows) =>
      if |rows| == 0 then Failure(404, NotFoundMessage(key))
      else
        var profile := rows[0];
        match score(FeaturesOf(profile, req.loanAmount))
        case Raised(m) => Failure(500, m)
        case Ok(results) =>
          if |results| == 0 then Failure(500, IndexErrorMessage)
          else
            var row := results[0];
            Decision(EchoOf(profile), row.predictedLabel, Confidence(row.probs, row.predictedLabel))
  }

  /** A reply is a decision exactly when the profile lookup and the scorer
      both return at least one row. */
  lemma DecisionIffRows<A>(
    req: LoanRequest<A>,
    lookup: string -> Result<seq<Profile>>,
    score: Features<A> -> Result<seq<Prediction>>)
    ensures ProcessLoan(req, lookup, score).Decision? <==>
      var rows := lookup(LookupKey(req.customerId));
      && rows.Ok? && |rows.value| > 0
      && var results := score(FeaturesOf(rows.value[0], req.loanAmount));
      && results.Ok? && |results.value| > 0
  {
  }

  /** An unknown customer gets the 404 reply whatever the scorer would do:
      no prediction is attempted. */
  lemma NotFoundSkipsScorer<A>(
    req: LoanRequest<A>,
    lookup: string -> Result<seq<Profile>>,
    score1: Features<A> -> Result<seq<Prediction>>,
    score2: Features<A> -> Result<seq<Prediction>>)
    requires lookup(LookupKey(req.customerId)) == Ok([])
    ensures ProcessLoan(req, lookup, score1) == ProcessLoan(req, lookup, score2)
    ensures ProcessLoan(req, lookup, score1) == Failure(404, NotFoundMessage(LookupKey(req.customerId)))
  {
  }

  /** Only the first profile row matters. */
  lemma FirstRowOnly<A>(
    req: LoanRequest<A>,
    lookup1: string -> Result<seq<Profile>>,
    lookup2: string -> Result<seq<Profile>>,
    score: Features<A> -> Result<seq<Prediction>>)
    requires lookup1(LookupKey(req.customerId)).Ok? && lookup2(LookupKey(req.customerId)).Ok?
    requires |lookup1(LookupKey(req.customerId)).value| > 0
    requires |lookup2(LookupKey(req.customerId)).value| > 0
    requires lookup1(LookupKey(req.customerId)).value[0] == lookup2(LookupKey(req.customerId)).value[0]
    ensures ProcessLoan(req, lookup1, score) == ProcessLoan(req, lookup2, score)
  {
  }

  /** The scorer is consulted only on the features of the first profile
      row with the requested loan amount. */
  lemma ScorerSeesOnlyFirstRow<A>(
    req: LoanRequest<A>,
    lookup: string -> Result<seq<Profile>>,
    score1: Features<A> -> Result<seq<Prediction>>,
    score2: Features<A> -> Result<seq<Prediction>>)
    requires lookup(LookupKey(req.customerId)).Ok? && |lookup(LookupKey(req.customerId)).value| > 0
    requires
      var f := FeaturesOf(lookup(LookupKey(req.customerId)).value[0], req.loanAmount);
      score1(f) == score2(f)
    ensures ProcessLoan(req, lookup, score1) == ProcessLoan(req, lookup, score2)
  {
  }

  /** Whitespace pasted around a string id does not change the reply. */
  lemma PaddedIdSameReply<A>(
    w1: string, s: string, w2: string, loan: Option<A>,
    lookup: string -> Result<seq<Profile>>,
    score: Features<A> -> Result<seq<Prediction>>)
    requires AllSpace(w1) && AllSpace(w2)
    ensures ProcessLoan(LoanRequest(Given(w1 + s + w2), loan), lookup, score)
         == ProcessLoan(LoanRequest(Given(s), loan), lookup, score)
  {
    PaddedKey(w1, s, w2);
    SameKeySameReply(LoanRequest(Given(w1 + s + w2), loan), LoanRequest(Given(s), loan), lookup, score);
  }

  lemma PaddedKey(w1: string, s: string, w2: string)
    requires AllSpace(w1) && AllSpace(w2)
    ensures LookupKey(Given(w1 + s + w2)) == LookupKey(Given(s))
  {
    StripPadded(w1, s, w2);
  }

  /** The reply depends on the request only through the lookup key and the
      loan amount. */
  lemma SameKeySameReply<A>(
    req1: LoanRequest<A>, req2: LoanRequest<A>,
    lookup: string -> Result<seq<Profile>>,
    score: Features<A> -> Result<seq<Prediction>>)
    requires LookupKey(req1.customerId) == LookupKey(req2.customerId)
    requires req1.loanAmount == req2.loanAmount
    ensures ProcessLoan(req1, lookup, score) == ProcessLoan(req2, lookup, score)
  {
  }

  // ---------------------------------------------------------------------
  // get_random_customer
  // ---------------------------------------------------------------------

  datatype RandomReply = Picked(customerId: string) | NoCustomer(status: nat, message: string)

  /** `get_random_customer` given the fetched ids (or the query's exception)
      and the index `random.randint(0, len(rows) - 1)` drew. */
  function RandomCustomer(fetched: Result<seq<string>>, index: int): (r: RandomReply)
    requires fetched.Ok? && |fetched.value| > 0 ==> 0 <= index < |fetched.value|
    ensures r.Picked? <==> fetched.Ok? && |fetched.value| > 0
    ensures r.Picked? ==> r.customerId in fetched.value
    ensures fetched.Ok? && |fetched.value| == 0 ==> r == NoCustomer(404, "No data found in table")
    ensures fetched.Raised? ==> r == NoCustomer(500, fetched.message)
  {
    match fetched
    case Raised(m) => NoCustomer(500, m)
    case Ok(rows) =>
      if |rows| == 0 then NoCustomer(404, "No data found in table")
      else Picked(rows[index])
  }

  /** Every listed id can be drawn. */
  lemma EveryRowReachable(rows: seq<string>, id: string)
    requires id in rows
    ensures exists index | 0 <= index < |rows| :: RandomCustomer(Ok(rows), index) == Picked(id)
  {
    var index :| 0 <= index < |rows| && rows[index] == id;
    assert RandomCustomer(Ok(rows), index) == Picked(id);
  }

  // ---------------------------------------------------------------------
  // The rendered decision
  // ---------------------------------------------------------------------

  /** The decision box the page script draws: its class and its text. */
  datatype DecisionBox = DecisionBox(className: string, text: string)

  const RejectedBox := DecisionBox("status-box rejected", "HIGH RISK - REJECTED")
  const ApprovedBox := DecisionBox("status-box approved", "LOW RISK - APPROVED")

  /** `data.prediction === 1` selects the rejected box; every other value
      the approved one. */
  function RenderDecision(prediction: int): (box: DecisionBox)
    ensures box == RejectedBox || box == ApprovedBox
    ensures box == RejectedBox <==> prediction == 1
  {
    if prediction == 1 then RejectedBox else ApprovedBox
  }

  /** A decision reply renders as rejected exactly when the scorer's first
      row predicts label 1. */
  lemma RenderedVerdict<A>(
    req: LoanRequest<A>,
    lookup: string -> Result<seq<Profile>>,
    score: Features<A> -> Result<seq<Prediction>>)
    requires ProcessLoan(req, lookup, score).Decision?
    ensures
      var rows := lookup(LookupKey(req.customerId)).value;
      var results := score(FeaturesOf(rows[0], req.loanAmount)).value;
      (RenderDecision(ProcessLoan(req, lookup, score).prediction) == RejectedBox) <==>
      (results[0].predictedLabel == 1)
  {
  }
}
