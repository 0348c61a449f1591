/** Matching a payment against Horizon records (src/modules/reconciler/stellar-verifier.ts). */
module Verifier {
  import opened Wrappers
  import opened Amounts

  datatype Environment = Test | Live

  /** What a payment asks for; fixed when the payment is created. */
  datatype Target = Target(
    linkMemo: string, destinationAddress: string, amount: string, currency: string,
    environment: Environment, expiresAt: Option<int>)

  datatype HorizonRecord = HorizonRecord(
    transactionHash: string, from: string, to: string, amount: string, assetType: string,
    assetCode: Option<string>, assetIssuer: Option<string>, createdAt: int, memo: Option<string>, successful: bool)

  /** The configured issuer accounts. */
  datatype Issuers = Issuers(usdcMainnet: string, usdcTestnet: string, eurcMainnet: string, eurcTestnet: string)

  datatype FailureCode =
    | WrongAsset | WrongIssuer | InsufficientAmount | WrongAmount | MemoMismatch
    | WrongDestination | LateArrival | DuplicateHash | TxUnsuccessful | NoMatch

  /** `Raised` is the exception `compareDecimalStrings` throws on an ungrammatical amount. */
  datatype VerifyResult =
    | Match(payment: HorizonRecord)
    | Mismatch(code: FailureCode, culprit: Option<HorizonRecord>)
    | Raised(operand: Operand)

  function UpperChar(c: char): char {
    if 'a' <= c <= 'z' then 'A' + (c - 'a') else c
  }

  function ToUpper(s: string): string {
    seq(|s|, i requires 0 <= i < |s| => UpperChar(s[i]))
  }

  function ExpectedIssuer(currency: string, environment: Environment, issuers: Issuers): Option<string> {
    if currency == "XLM" then None
    else if currency == "USDC" then Some(if environment.Live? then issuers.usdcMainnet else issuers.usdcTestnet)
    else if currency == "EURC" then Some(if environment.Live? then issuers.eurcMainnet else issuers.eurcTestnet)
    else None
  }

  function ActualCode(record: HorizonRecord): string {
    if record.assetType == "native" then "XLM"
    else if record.assetCode.Some? then record.assetCode.value else ""
  }

  /** `checkRecord`: the seven checks, in the order the code makes them. */
  function CheckRecord(target: Target, record: HorizonRecord, known: set<string>, issuers: Issuers): VerifyResult {
    var expectedCode := ToUpper(target.currency);
    if !record.successful then Mismatch(TxUnsuccessful, Some(record))
    else if record.to != target.destinationAddress then Mismatch(WrongDestination, Some(record))
    else if ActualCode(record) != expectedCode then Mismatch(WrongAsset, Some(record))
    else if record.assetIssuer != ExpectedIssuer(expectedCode, target.environment, issuers) then Mismatch(WrongIssuer, Some(record))
    else
      var cmp := CompareDecimalStrings(record.amount, target.amount);
      if cmp.Err? then Raised(cmp.error)
      else if cmp.value < 0 then Mismatch(InsufficientAmount, Some(record))
      else if cmp.value > 0 then Mismatch(WrongAmount, Some(record))
      else if record.memo != Some(target.linkMemo) then Mismatch(MemoMismatch, Some(record))
      else if record.transactionHash in known then Mismatch(DuplicateHash, Some(record))
      else if target.expiresAt.Some? && record.createdAt > target.expiresAt.value then Mismatch(LateArrival, Some(record))
      else Match(record)
  }

  // ---------- what a payment asks for ----------

  /** `upper` is `s` with its lower-case letters raised. */
  predicate SpeltUpper(s: string, upper: string) {
    |s| == |upper| && forall i | 0 <= i < |s| ::
      if 'a' <= s[i] <= 'z' then s[i] as int == upper[i] as int + 32 else s[i] == upper[i]
  }

  /** The record is in the asked asset: the native one counts as XLM. */
  predicate AskedCode(record: HorizonRecord, target: Target) {
    if record.assetType == "native" then SpeltUpper(target.currency, "XLM")
    else if record.assetCode.Some? then SpeltUpper(target.currency, record.assetCode.value)
    else target.currency == ""
  }

  /** Asset and issuer, currency by currency. XLM has no issuer; an unknown code is taken without one too. */
  predicate AskedAsset(record: HorizonRecord, target: Target, issuers: Issuers) {
    if SpeltUpper(target.currency, "XLM") then
      (record.assetType == "native" || record.assetCode == Some("XLM")) && record.assetIssuer == None
    else
      record.assetType != "native" &&
      if SpeltUpper(target.currency, "USDC") then
        record.assetCode == Some("USDC") && record.assetIssuer ==
          match target.environment case Live => Some(issuers.usdcMainnet) case Test => Some(issuers.usdcTestnet)
      else if SpeltUpper(target.currency, "EURC") then
        record.assetCode == Some("EURC") && record.assetIssuer ==
          match target.environment case Live => Some(issuers.eurcMainnet) case Test => Some(issuers.eurcTestnet)
      else AskedCode(record, target) && record.assetIssuer == None
  }

  predicate InTime(record: HorizonRecord, target: Target) {
    target.expiresAt.Some? ==> record.createdAt <= target.expiresAt.value
  }

  /** The record is on chain for exactly what the payment asks: the meaning of a match. */
  ghost predicate Settles(record: HorizonRecord, target: Target, issuers: Issuers) {
    && record.successful
    && record.to == target.destinationAddress
    && AskedAsset(record, target, issuers)
    && Grammatical(record.amount) && Grammatical(target.amount) && Value(record.amount) == Value(target.amount)
    && record.memo == Some(target.linkMemo)
    && InTime(record, target)
  }

  lemma SpeltUpperIff(s: string, upper: string)
    ensures SpeltUpper(s, upper) <==> ToUpper(s) == upper
  {
    if SpeltUpper(s, upper) {
      forall i | 0 <= i < |s| ensures ToUpper(s)[i] == upper[i] { UpperCharIff(s[i], upper[i]); }
    } else if ToUpper(s) == upper {
      forall i | 0 <= i < |s|
        ensures if 'a' <= s[i] <= 'z' then s[i] as int == upper[i] as int + 32 else s[i] == upper[i]
      {
        assert ToUpper(s)[i] == UpperChar(s[i]);
        UpperCharIff(s[i], upper[i]);
      }
    }
  }

  lemma UpperCharIff(c: char, u: char)
    ensures UpperChar(c) == u <==> if 'a' <= c <= 'z' then c as int == u as int + 32 else c == u
  {
  }

  /** The two checks of the code on asset and issuer are together the asked asset. */
  lemma AssetChecks(record: HorizonRecord, target: Target, issuers: Issuers)
    ensures ActualCode(record) == ToUpper(target.currency) <==> AskedCode(record, target)
    ensures AskedAsset(record, target, issuers) <==>
      AskedCode(record, target) && record.assetIssuer == ExpectedIssuer(ToUpper(target.currency), target.environment, issuers)
  {
    SpeltUpperIff(target.currency, ActualCode(record));
    SpeltUpperIff(target.currency, "XLM");
    SpeltUpperIff(target.currency, "USDC");
    SpeltUpperIff(target.currency, "EURC");
    assert SpeltUpper(target.currency, "") <==> target.currency == "";
  }

  predicate Candidate(record: HorizonRecord, target: Target) {
    record.successful && record.memo == Some(target.linkMemo)
  }

  /** Record `k` is the first successful one that bears the memo. */
  predicate IsFirst(records: seq<HorizonRecord>, memo: string, k: nat) {
    && k < |records| && records[k].successful && records[k].memo == Some(memo)
    && forall j | 0 <= j < k :: !(records[j].successful && records[j].memo == Some(memo))
  }

  lemma {:induction false} FirstExists(records: seq<HorizonRecord>, memo: string) returns (k: nat)
    requires exists x :: x in records && x.successful && x.memo == Some(memo)
    ensures IsFirst(records, memo, k)
    decreases |records|
  {
    if records[0].successful && records[0].memo == Some(memo) {
      k := 0;
    } else {
      assert forall x | x in records :: x == records[0] || x in records[1..];
      k := FirstExists(records[1..], memo);
      k := k + 1;
    }
  }

  /** The result the scan must produce: the verdict on the first candidate. */
  function FirstMatch(target: Target, records: seq<HorizonRecord>, known: set<string>, issuers: Issuers): VerifyResult {
    if records == [] then Mismatch(NoMatch, None)
    else if Candidate(records[0], target) then CheckRecord(target, records[0], known, issuers)
    else FirstMatch(target, records[1..], known, issuers)
  }

  /** `verify`: the scan; `memoHit` is what the branch after the loop tests. */
  method Verify(target: Target, records: seq<HorizonRecord>, known: set<string>, issuers: Issuers) returns (result: VerifyResult)
    ensures result == FirstMatch(target, records, known, issuers)
  {
    var memoHit: Option<HorizonRecord> := None;
    var i := 0;
    while i < |records|
      invariant 0 <= i <= |records|
      invariant memoHit == None
      invariant FirstMatch(target, records, known, issuers) == FirstMatch(target, records[i..], known, issuers)
    {
      var record := records[i];
      i := i + 1;
      if !record.successful { continue; }
      if record.memo != Some(target.linkMemo) { continue; }
      memoHit := Some(record);
      result := CheckRecord(target, record, known, issuers);
      return;
    }
    if memoHit.Some? {
      assert false; // the "memo matched but failed verification" answer is never given
    }
    result := Mismatch(NoMatch, None);
  }

  /** A match is exactly a settling record whose hash no other payment was seen to hold. */
  lemma MatchMeansSettled(target: Target, record: HorizonRecord, known: set<string>, issuers: Issuers)
    ensures CheckRecord(target, record, known, issuers) == Match(record)
      <==> Settles(record, target, issuers) && record.transactionHash !in known
    ensures CheckRecord(target, record, known, issuers).Match? ==> CheckRecord(target, record, known, issuers).payment == record
  {
    AssetChecks(record, target, issuers);
    if Grammatical(record.amount) && Grammatical(target.amount) {
      ComparisonIsRationalOrder(record.amount, target.amount);
    }
  }

  ghost predicate BothAmounts(record: HorizonRecord, target: Target) {
    Grammatical(record.amount) && Grammatical(target.amount)
  }

  /** The record is in the asset of this code and issuer. */
  predicate IsAsset(record: HorizonRecord, code: string, issuer: string) {
    record.assetType != "native" && record.assetCode == Some(code) && record.assetIssuer == Some(issuer)
  }

  /**
   * What each currency of the gateway asks for: a record that is right in the rest, with a hash not known, matches
   * exactly if it is in the asset of that name from the issuer of that network, and XLM exactly if it has no issuer.
   */
  lemma IssuerOfCurrency(target: Target, record: HorizonRecord, known: set<string>, issuers: Issuers)
    requires record.successful && record.to == target.destinationAddress && record.memo == Some(target.linkMemo)
    requires Grammatical(record.amount) && Grammatical(target.amount) && Value(record.amount) == Value(target.amount)
    requires InTime(record, target) && record.transactionHash !in known
    ensures var matched := CheckRecord(target, record, known, issuers) == Match(record);
      && (target.currency == "USDC" && target.environment == Live ==>
            (matched <==> IsAsset(record, "USDC", issuers.usdcMainnet)))
      && (target.currency == "USDC" && target.environment == Test ==>
            (matched <==> IsAsset(record, "USDC", issuers.usdcTestnet)))
      && (target.currency == "EURC" && target.environment == Live ==>
            (matched <==> IsAsset(record, "EURC", issuers.eurcMainnet)))
      && (target.currency == "EURC" && target.environment == Test ==>
            (matched <==> IsAsset(record, "EURC", issuers.eurcTestnet)))
      && (target.currency == "XLM" ==>
            (matched <==> (record.assetType == "native" || record.assetCode == Some("XLM")) && record.assetIssuer == None))
  {
    MatchMeansSettled(target, record, known, issuers);
    if target.currency in {"USDC", "EURC", "XLM"} {
      NamesAreUpper(target.currency, "USDC");
      NamesAreUpper(target.currency, "EURC");
      NamesAreUpper(target.currency, "XLM");
    }
  }

  lemma NamesAreUpper(name: string, other: string)
    requires name in {"USDC", "EURC", "XLM"} && other in {"USDC", "EURC", "XLM"}
    ensures SpeltUpper(name, other) <==> name == other
  {
    if |name| == |other| {
      assert name[0] == other[0] <==> name == other;
    }
  }

  /** A currency in lower case asks for what its upper-case spelling does. */
  lemma CaseIsIgnored(target: Target, upper: string, record: HorizonRecord, known: set<string>, issuers: Issuers)
    requires SpeltUpper(target.currency, upper)
    ensures CheckRecord(target.(currency := upper), record, known, issuers) == CheckRecord(target, record, known, issuers)
  {
    SpeltUpperIff(target.currency, upper);
    assert ToUpper(upper) == upper;
  }

  /** For a candidate, each failure code says exactly what is wrong, in terms of the exact amounts where they decide. */
  lemma CodesSayWhy(target: Target, record: HorizonRecord, known: set<string>, issuers: Issuers)
    requires record.successful && record.memo == Some(target.linkMemo)
    ensures var v := CheckRecord(target, record, known, issuers);
      var right := record.to == target.destinationAddress && AskedAsset(record, target, issuers);
      && (v == Mismatch(WrongDestination, Some(record)) <==> record.to != target.destinationAddress)
      && (v == Mismatch(WrongAsset, Some(record)) <==>
            record.to == target.destinationAddress && !AskedCode(record, target))
      && (v == Mismatch(WrongIssuer, Some(record)) <==>
            record.to == target.destinationAddress && AskedCode(record, target) && !right)
      && (v.Raised? <==> right && !BothAmounts(record, target))
      && (v == Mismatch(InsufficientAmount, Some(record)) <==>
            right && BothAmounts(record, target) && Value(record.amount) < Value(target.amount))
      && (v == Mismatch(WrongAmount, Some(record)) <==>
            right && BothAmounts(record, target) && Value(record.amount) > Value(target.amount))
      && (v == Mismatch(DuplicateHash, Some(record)) <==>
            right && BothAmounts(record, target) && Value(record.amount) == Value(target.amount) && record.transactionHash in known)
      && (v == Mismatch(LateArrival, Some(record)) <==>
            right && BothAmounts(record, target) && Value(record.amount) == Value(target.amount) && record.transactionHash !in known
            && !InTime(record, target))
  {
    AssetChecks(record, target, issuers);
    if BothAmounts(record, target) {
      ComparisonIsRationalOrder(record.amount, target.amount);
    } else {
      ComparisonErrors(record.amount, target.amount);
    }
  }

  /** Records that are not candidates can come and go anywhere in the list without changing the answer. */
  lemma {:induction false} UnrelatedRecordsAreIgnored(
    target: Target, before: seq<HorizonRecord>, noise: seq<HorizonRecord>, after: seq<HorizonRecord>, known: set<string>, issuers: Issuers)
    requires forall k | 0 <= k < |noise| :: !(noise[k].successful && noise[k].memo == Some(target.linkMemo))
    ensures FirstMatch(target, before + noise + after, known, issuers) == FirstMatch(target, before + after, known, issuers)
    decreases |before| + |noise|
  {
    if before != [] {
      assert (before + noise + after)[1..] == before[1..] + noise + after;
      assert (before + after)[1..] == before[1..] + after;
      UnrelatedRecordsAreIgnored(target, before[1..], noise, after, known, issuers);
    } else if noise != [] {
      assert (before + noise + after)[1..] == before + noise[1..] + after;
      UnrelatedRecordsAreIgnored(target, before, noise[1..], after, known, issuers);
    } else {
      assert before + noise + after == before + after;
    }
  }

  /** The first successful record with the memo alone decides. */
  lemma FirstCandidateDecides(target: Target, records: seq<HorizonRecord>, k: nat, known: set<string>, issuers: Issuers)
    requires IsFirst(records, target.linkMemo, k)
    ensures FirstMatch(target, records, known, issuers) == CheckRecord(target, records[k], known, issuers)
  {
    assert records == [] + records[..k] + records[k..] && [] + records[k..] == records[k..];
    UnrelatedRecordsAreIgnored(target, [], records[..k], records[k..], known, issuers);
  }

  /** no_match with no culprit is answered exactly when there is no candidate at all. */
  lemma {:induction false} NoMatchMeansNoCandidate(target: Target, records: seq<HorizonRecord>, known: set<string>, issuers: Issuers)
    ensures FirstMatch(target, records, known, issuers) == Mismatch(NoMatch, None)
      <==> forall r | r in records :: !(r.successful && r.memo == Some(target.linkMemo))
  {
    if records != [] && !Candidate(records[0], target) {
      NoMatchMeansNoCandidate(target, records[1..], known, issuers);
      assert forall r | r in records :: r == records[0] || r in records[1..];
    }
  }

  /** A match is one of the records and settles the target; two of the codes are never answered. */
  lemma {:induction false} PossibleAnswers(target: Target, records: seq<HorizonRecord>, known: set<string>, issuers: Issuers)
    ensures var r := FirstMatch(target, records, known, issuers);
      && (r.Match? ==> r.payment in records && Settles(r.payment, target, issuers) && r.payment.transactionHash !in known)
      && (r.Mismatch? ==> r.code != TxUnsuccessful && r.code != MemoMismatch && (r.code == NoMatch ==> r.culprit == None))
  {
    if records != [] {
      if Candidate(records[0], target) {
        MatchMeansSettled(target, records[0], known, issuers);
      } else {
        PossibleAnswers(target, records[1..], known, issuers);
      }
    }
  }
}
