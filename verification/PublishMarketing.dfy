/**
 What publishing does with the marketing document: the blank summary is filled with the generated
 price line where there is one, and the document is then checked and, if it changed, stored.
 */
module PublishMarketing {
  import opened Calls
  import opened SessionBilling
  import opened StableSort
  import opened Strings

  /** The line as it is stored. */
  function LineText(c: Conversions, line: PriceLine): string {
    "From " + line.amount + " " + line.currency + " / month \U{2014} includes " + c.locale(line.sessions) + " sessions."
  }

  // ---------- Reading the stored line back ----------

  /** The k-th word of a text, the words being what stands between blanks. */
  function WordAt(s: string, k: nat): string
    decreases k
  {
    if k == 0 then Before(s, ' ') else WordAt(Behind(s, ' '), k - 1)
  }

  lemma NextWord(word: string, rest: string, k: nat)
    requires ' ' !in word
    ensures WordAt(word + (" " + rest), 0) == word && WordAt(word + (" " + rest), k + 1) == WordAt(rest, k)
  {
    SplitAtSeparator(word, ' ', rest);
    assert [' '] + rest == " " + rest;
  }

  /** Amount, currency and count are the words they are written as. */
  lemma LineReads(c: Conversions, line: PriceLine)
    requires ' ' !in line.amount && ' ' !in line.currency && ' ' !in c.locale(line.sessions)
    ensures WordAt(LineText(c, line), 1) == line.amount && WordAt(LineText(c, line), 2) == line.currency
    ensures WordAt(LineText(c, line), 4) == "month" && WordAt(LineText(c, line), 7) == c.locale(line.sessions)
  {
    hide WordAt;
    var s7 := c.locale(line.sessions) + (" " + "sessions.");
    var s6 := "includes" + (" " + s7);
    var s5 := "\U{2014}" + (" " + s6);
    var s4 := "month" + (" " + s5);
    var s3 := "/" + (" " + s4);
    var s2 := line.currency + (" " + s3);
    var s1 := line.amount + (" " + s2);
    var s0 := "From" + (" " + s1);
    LineIsInWords(c, line, s3);
    forall k: nat ensures WordAt(s0, k + 1) == WordAt(s1, k) { NextWord("From", s1, k); }
    forall k: nat ensures WordAt(s1, k + 1) == WordAt(s2, k) && WordAt(s1, 0) == line.amount { NextWord(line.amount, s2, k); }
    forall k: nat ensures WordAt(s2, k + 1) == WordAt(s3, k) && WordAt(s2, 0) == line.currency { NextWord(line.currency, s3, k); }
    NextWord("/", s4, 0);
    NextWord("/", s4, 3);
    NextWord("month", s5, 0);
    NextWord("month", s5, 2);
    NextWord("\U{2014}", s6, 1);
    NextWord("includes", s7, 0);
    NextWord(c.locale(line.sessions), "sessions.", 0);
    assert WordAt(s0, 0 + 1) == WordAt(s1, 0);
    assert WordAt(s0, 1 + 1) == WordAt(s1, 1) == WordAt(s1, 0 + 1) == WordAt(s2, 0);
    assert WordAt(s0, 3 + 1) == WordAt(s1, 3) == WordAt(s1, 2 + 1) == WordAt(s2, 2) == WordAt(s2, 1 + 1) == WordAt(s3, 1);
    assert WordAt(s0, 6 + 1) == WordAt(s1, 6) == WordAt(s1, 5 + 1) == WordAt(s2, 5) == WordAt(s2, 4 + 1) == WordAt(s3, 4);
  }

  lemma LineIsInWords(c: Conversions, line: PriceLine, tail: string)
    requires tail == "/" + (" " + ("month" + (" " + ("\U{2014}" + (" " + ("includes" + (" " + (c.locale(line.sessions) + (" " + "sessions."))))))))) 
    ensures LineText(c, line) == "From" + (" " + (line.amount + (" " + (line.currency + (" " + tail)))))
  {
    assert tail == "/ month \U{2014} includes " + c.locale(line.sessions) + " sessions.";
  }

  lemma {:induction false} DecimalIsDigits(n: nat)
    ensures forall ch <- Decimal(n) :: '0' <= ch <= '9'
  {
    if n >= 10 { DecimalIsDigits(n / 10); }
  }

  lemma MoneyHasNoBlank(cents: nat)
    ensures ' ' !in Money(cents)
  {
    DecimalIsDigits(cents / 100);
  }

  /**
   The line generated for accepted session billing reads back as the cheapest amount, the accepted currency
   and that tier's count, as the locale writes it where that is one word.
   */
  lemma GeneratedLineReads(c: Conversions, m: Json, tokenLine: string) returns (at: nat)
    requires Lawful(c) && ValidSession(c, m) && BillingModel(c, m) == "subscription_sessions" && HasNumericAmount(m)
    requires forall n: int :: ' ' !in c.locale(n)
    ensures at < |Tiers(m).items| && NumericAmount(Tiers(m).items[at])
    ensures var text, tier := GeneratedLine(c, m, tokenLine), Tiers(m).items[at];
            && |WordAt(text, 1)| >= 3 && ReadMoney(WordAt(text, 1)) as real == AmountOf(tier)
            && WordAt(text, 2) == Currency(c, Get(m, "billing")) && WordAt(text, 4) == "month"
            && (exists n: int :: IsInteger(c.number(Get(tier, "includedSessions")), n) && WordAt(text, 7) == c.locale(n))
    ensures forall t <- Tiers(m).items :: NumericAmount(t) ==> AmountOf(Tiers(m).items[at]) <= AmountOf(t)
  {
    hide FormatSessionSummary, LineText, NumericAmount, AmountOf, Lawful, WordAt, ReadMoney, ValidTier;
    at := SummaryQuotesCheapestTier(c, m);
    LineIsGenerated(c, m, tokenLine);
    var line := FormatSessionSummary(c, m).value;
    LineIsOneWordEach(c, m);
    LineReads(c, line);
  }

  lemma LineIsOneWordEach(c: Conversions, m: Json)
    requires ValidSession(c, m) && FormatSessionSummary(c, m).Some?
    ensures ' ' !in FormatSessionSummary(c, m).value.amount
    ensures FormatSessionSummary(c, m).value.currency == Currency(c, Get(m, "billing")) ==> ' ' !in FormatSessionSummary(c, m).value.currency
  {
    hide PriceTiers, Money, ValidTier;
    var priced := Sort(PriceTiers(c, Tiers(m).items), Cents);
    MoneyHasNoBlank(priced[0].amountCents);
  }

  /** String(v ?? '').trim() of a field of a field. */
  function TextAt(c: Conversions, m: Json, outer: string, inner: string): string {
    Text(c, Get(Get(m, outer), inner))
  }

  function Summary(c: Conversions, m: Json): string {
    TextAt(c, m, "pricing", "summary")
  }

  /** The generated line; `tokenLine` is that of a token-based subscription. */
  function GeneratedLine(c: Conversions, m: Json, tokenLine: string): string {
    var model := BillingModel(c, m);
    if model == "subscription" then tokenLine
    else if model == "subscription_sessions" && FormatSessionSummary(c, m).Some? then LineText(c, FormatSessionSummary(c, m).value)
    else ""
  }

  /** What an array or a string spreads. */
  function Items(v: Json): seq<Json> {
    match v
    case Arr(items) => items
    case Str(text) => seq(|text|, i requires 0 <= i < |text| => Str([text[i]]))
    case _ => []
  }

  function Indexed(items: seq<Json>): map<string, Json> {
    if items == [] then map[] else Indexed(items[..|items|-1])[Decimal(|items| - 1) := items[|items|-1]]
  }

  /** { ...v }: the fields of an object, the entries of an array or a string under their indices. */
  function Spread(v: Json): map<string, Json> {
    if v.Obj? then v.fields else Indexed(Items(v))
  }

  lemma {:induction false} IndexedEntries(items: seq<Json>)
    ensures forall k :: 0 <= k < |items| ==> Decimal(k) in Indexed(items) && Indexed(items)[Decimal(k)] == items[k]
    ensures forall key <- Indexed(items) :: exists k :: 0 <= k < |items| && key == Decimal(k)
  {
    if items != [] {
      var last := |items| - 1;
      IndexedEntries(items[..last]);
      DecimalReads(last);
      forall k | 0 <= k < last ensures Decimal(k) in Indexed(items) && Indexed(items)[Decimal(k)] == items[k] {
        DecimalReads(k);
        assert items[..last][k] == items[k];
      }
      forall key | key in Indexed(items) ensures exists k :: 0 <= k < |items| && key == Decimal(k) {
        if key in Indexed(items[..last]) {
          var k :| 0 <= k < last && key == Decimal(k);
        }
      }
    }
  }

  /** Of an object its fields are spread, of an array its entries, of a string its characters, of anything else nothing. */
  lemma SpreadReads(v: Json, k: nat)
    ensures v.Obj? ==> Spread(v) == v.fields
    ensures v.Arr? && k < |v.items| ==> Decimal(k) in Spread(v) && Spread(v)[Decimal(k)] == v.items[k]
    ensures v.Str? && k < |v.s| ==> Decimal(k) in Spread(v) && Spread(v)[Decimal(k)] == Str([v.s[k]])
    ensures v.Undefined? || v.Null? || v.Bool? || v.Num? ==> Spread(v) == map[]
  {
    if v.Arr? || v.Str? { IndexedEntries(Items(v)); }
  }

  /**
   A document with its blank summary filled: nothing else differs, but that a string or an array as
   pricing is spread; without a blank to fill or a line nothing differs at all.
   */
  ghost predicate IsFilled(c: Conversions, m: Json, tokenLine: string, filled: Json) {
    && filled.Obj?
    && (Summary(c, m) != "" || GeneratedLine(c, m, tokenLine) == "" ==> filled == m)
    && (Summary(c, m) == "" && GeneratedLine(c, m, tokenLine) != "" ==>
          Get(Get(filled, "pricing"), "summary") == Str(GeneratedLine(c, m, tokenLine)))
    && (forall key :: key != "pricing" ==> Get(filled, key) == Get(m, key))
    && (forall key :: key != "summary" ==>
          Get(Get(filled, "pricing"), key) == Get(if filled == m then Get(m, "pricing") else Obj(Spread(Get(m, "pricing"))), key))
  }

  method FillSummary(c: Conversions, m: Json, tokenLine: string) returns (filled: Json)
    requires m.Obj?
    ensures IsFilled(c, m, tokenLine, filled)
  {
    filled := m;
    if Summary(c, m) == "" {
      var line := GeneratedLine(c, m, tokenLine);
      if line != "" {
        filled := Obj(m.fields["pricing" := Obj(Spread(Get(m, "pricing"))["summary" := Str(line)])]);
      }
    }
  }

  // ---------- The check before publishing ----------

  datatype Verdict =
    | Passed | NoDisplayName | NoShortDescription | NoSummary | NoSla | NoSteps | BadTokenBilling | BadSessionBilling(check: Check)

  /** Everything the check asks for but the summary and the billing. */
  predicate IsDescribed(c: Conversions, m: Json) {
    && Text(c, Get(m, "displayName")) != "" && Text(c, Get(m, "shortDescription")) != ""
    && (TextAt(c, m, "sla", "link") != "" || TextAt(c, m, "sla", "document") != "")
    && Text(c, Get(m, "recommendedOnboardingSteps")) != ""
  }

  ghost predicate BillingIsSound(c: Conversions, m: Json, tokenOk: bool) {
    && (BillingModel(c, m) == "subscription" ==> tokenOk)
    && (BillingModel(c, m) == "subscription_sessions" ==> ValidSession(c, m))
  }

  /** Passed exactly when described, with a summary, and with sound billing; the missing summary is named after the two names. */
  ghost predicate IsVerdict(c: Conversions, m: Json, tokenOk: bool, r: Verdict) {
    && (r == Passed <==> IsDescribed(c, m) && Summary(c, m) != "" && BillingIsSound(c, m, tokenOk))
    && (r == NoSummary <==>
          Text(c, Get(m, "displayName")) != "" && Text(c, Get(m, "shortDescription")) != "" && Summary(c, m) == "")
  }

  method ValidateMarketingForPublish(c: Conversions, m: Json, tokenOk: bool) returns (r: Verdict)
    ensures IsVerdict(c, m, tokenOk, r)
  {
    hide ValidSession, Text, Get, TextAt, Summary, BillingModel;
    if Text(c, Get(m, "displayName")) == "" { return NoDisplayName; }
    if Text(c, Get(m, "shortDescription")) == "" { return NoShortDescription; }
    if Summary(c, m) == "" { return NoSummary; }
    if TextAt(c, m, "sla", "link") == "" && TextAt(c, m, "sla", "document") == "" { return NoSla; }
    if Text(c, Get(m, "recommendedOnboardingSteps")) == "" { return NoSteps; }
    if BillingModel(c, m) == "subscription" && !tokenOk { return BadTokenBilling; }
    if BillingModel(c, m) == "subscription_sessions" {
      var check := ValidateSessionSubscriptionCommercial(c, m);
      if check != Fine { return BadSessionBilling(check); }
    }
    r := Passed;
  }

  /** What the check asks for besides summary and billing. */
  lemma DescribedMeans(c: Conversions, m: Json)
    requires Lawful(c)
    ensures IsDescribed(c, m) <==>
            && NotBlank(c, Get(m, "displayName")) && NotBlank(c, Get(m, "shortDescription")) && NotBlank(c, Get(m, "recommendedOnboardingSteps"))
            && (NotBlank(c, Get(Get(m, "sla"), "link")) || NotBlank(c, Get(Get(m, "sla"), "document")))
  {
    TextIsBlank(c, Get(m, "displayName"));
    TextIsBlank(c, Get(m, "shortDescription"));
    TextIsBlank(c, Get(m, "recommendedOnboardingSteps"));
    TextIsBlank(c, Get(Get(m, "sla"), "link"));
    TextIsBlank(c, Get(Get(m, "sla"), "document"));
  }

  /** The line comes from the billing model's own formatter, and other models have none. */
  lemma LineByModel(c: Conversions, m: Json, tokenLine: string)
    ensures BillingModel(c, m) == "subscription" ==> GeneratedLine(c, m, tokenLine) == tokenLine
    ensures BillingModel(c, m) !in {"subscription", "subscription_sessions"} ==> GeneratedLine(c, m, tokenLine) == ""
    ensures BillingModel(c, m) == "subscription_sessions" && FormatSessionSummary(c, m).None? ==> GeneratedLine(c, m, tokenLine) == ""
  {
  }

  /** A price line is not blank. */
  lemma LineIsNotBlank(c: Conversions, line: PriceLine)
    requires Lawful(c)
    ensures LineText(c, line) != "" && c.trim(LineText(c, line)) != ""
  {
    assert LineText(c, line)[0] == 'F' && 'F' in LineText(c, line) && IsUpperLetter('F');
  }

  /** Some tier's amount is a number. */
  ghost predicate HasNumericAmount(m: Json) {
    Tiers(m).Arr? && exists t <- Tiers(m).items :: NumericAmount(t)
  }

  /** For accepted session billing a line is generated if and only if some amount is a number, and it is not blank. */
  lemma LineIsGenerated(c: Conversions, m: Json, tokenLine: string)
    requires Lawful(c) && ValidSession(c, m) && BillingModel(c, m) == "subscription_sessions"
    ensures GeneratedLine(c, m, tokenLine) != "" <==> HasNumericAmount(m)
    ensures GeneratedLine(c, m, tokenLine) != "" ==>
              && FormatSessionSummary(c, m).Some? && GeneratedLine(c, m, tokenLine) == LineText(c, FormatSessionSummary(c, m).value)
              && c.trim(GeneratedLine(c, m, tokenLine)) != ""
  {
    hide FormatSessionSummary, LineText, NumericAmount, Quotes, AmountOf, Lawful;
    var at := SummaryQuotesCheapestTier(c, m);
    assert Tiers(m).Arr?;
    if FormatSessionSummary(c, m).Some? { LineIsNotBlank(c, FormatSessionSummary(c, m).value); }
  }

  lemma SummaryOfText(c: Conversions, m: Json, s: string)
    requires Lawful(c) && Get(Get(m, "pricing"), "summary") == Str(s)
    ensures Summary(c, m) == c.trim(s)
  {
  }

  /** A document that differs in its pricing only has the same billing and description. */
  lemma OnlyPricingDiffers(c: Conversions, m: Json, m': Json)
    requires m.Obj? && m'.Obj? && forall key :: key != "pricing" ==> Get(m', key) == Get(m, key)
    ensures ValidSession(c, m') <==> ValidSession(c, m)
    ensures BillingModel(c, m') == BillingModel(c, m) && (IsDescribed(c, m') <==> IsDescribed(c, m))
    ensures Text(c, Get(m', "displayName")) == Text(c, Get(m, "displayName"))
    ensures Text(c, Get(m', "shortDescription")) == Text(c, Get(m, "shortDescription"))
  {
  }

  /**
   Session billing that the publish check accepts: with a summary of its own the document is left
   alone; with a blank one it is published with the price line if and only if some tier's amount is a
   number, and fails for the missing summary otherwise.
   */
  lemma SessionVerdict(c: Conversions, m: Json, tokenLine: string, tokenOk: bool, filled: Json, r: Verdict)
    requires Lawful(c) && m.Obj? && ValidSession(c, m) && BillingModel(c, m) == "subscription_sessions"
    requires IsFilled(c, m, tokenLine, filled) && IsVerdict(c, filled, tokenOk, r)
    ensures Summary(c, m) != "" ==> filled == m
    ensures IsDescribed(c, m) ==> (r == Passed <==> Summary(c, m) != "" || HasNumericAmount(m))
    ensures IsDescribed(c, m) && r != Passed ==> r == NoSummary
    ensures Summary(c, m) == "" && r == Passed ==>
              && FormatSessionSummary(c, m).Some? && Summary(c, filled) != ""
              && Get(Get(filled, "pricing"), "summary") == Str(LineText(c, FormatSessionSummary(c, m).value))
  {
    hide ValidSession, FormatSessionSummary, LineText, GeneratedLine, HasNumericAmount, Lawful, BillingModel, Summary, Get;
    LineIsGenerated(c, m, tokenLine);
    OnlyPricingDiffers(c, m, filled);
    if Summary(c, m) == "" && GeneratedLine(c, m, tokenLine) != "" { SummaryOfText(c, filled, GeneratedLine(c, m, tokenLine)); }
    DescribedIsNamed(c, m);
  }

  lemma DescribedIsNamed(c: Conversions, m: Json)
    ensures IsDescribed(c, m) ==> Text(c, Get(m, "displayName")) != "" && Text(c, Get(m, "shortDescription")) != ""
  {
  }

  lemma SameBilling(c: Conversions, m: Json, m': Json)
    requires m.Obj? && m'.Obj? && Get(m', "billing") == Get(m, "billing")
    ensures ValidSession(c, m') <==> ValidSession(c, m)
    ensures BillingModel(c, m') == BillingModel(c, m) && Tiers(m') == Tiers(m)
  {
  }

  lemma ExampleHasNoNumericAmount()
    ensures BillingModel(ExampleConversions(), ExampleMarketing()) == "subscription_sessions" && !HasNumericAmount(ExampleMarketing())
  {
    hide ExampleTier, NumericAmount, ExampleCommercial;
    ExampleIsValid();
    ExampleTierIsValid();
    assert Get(ExampleBilling(), "model") == Str("subscription_sessions") && Get(ExampleMarketing(), "billing") == ExampleBilling();
  }

  lemma NoPricingNoSummary(c: Conversions, m: Json)
    requires Lawful(c) && Get(m, "pricing").Undefined?
    ensures Summary(c, m) == ""
  {
  }

  /**
   Accepted billing whose only amount is written as a string: a template that is described and has no
   pricing of its own fails for the missing summary.
   */
  lemma StringAmountFailsPublish(m: Json, tokenLine: string, tokenOk: bool, filled: Json, r: Verdict)
    requires m.Obj? && Get(m, "billing") == ExampleBilling() && Get(m, "pricing").Undefined?
    requires IsDescribed(ExampleConversions(), m) && IsFilled(ExampleConversions(), m, tokenLine, filled)
    requires IsVerdict(ExampleConversions(), filled, tokenOk, r)
    ensures ValidSession(ExampleConversions(), m) && r == NoSummary
  {
    hide *;
    ExampleBillingReads();
    ExampleIsObject();
    ExampleIsLawful();
    ExampleIsValid();
    ExampleHasNoNumericAmount();
    SameBilling(ExampleConversions(), ExampleMarketing(), m);
    SameAmounts(ExampleMarketing(), m);
    NoPricingNoSummary(ExampleConversions(), m);
    SessionVerdict(ExampleConversions(), m, tokenLine, tokenOk, filled, r);
  }

  lemma SameAmounts(m: Json, m': Json)
    requires Tiers(m') == Tiers(m)
    ensures HasNumericAmount(m') <==> HasNumericAmount(m)
  {
  }

  lemma ExampleIsObject()
    ensures ExampleMarketing().Obj?
  {
  }
}
