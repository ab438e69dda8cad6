/**
 Session billing, read three times: by the publish check, by the generated price line, and by
 the provisioning worker, which parses the published event on its own.
 */
module SessionBilling {
  import opened Calls
  import opened StableSort

  /** A value of a JSON document; `Undefined` is a missing field. */
  datatype Json = Undefined | Null | Bool(b: bool) | Num(n: real) | Str(s: string) | Arr(items: seq<Json>) | Obj(fields: map<string, Json>)

  function Get(v: Json, key: string): Json {
    if v.Obj? && key in v.fields then v.fields[key] else Undefined
  }

  /** typeof v is 'object', and v is not null: arrays count. */
  predicate IsObject(v: Json) {
    v.Obj? || v.Arr?
  }

  /** JavaScript's conversions.  `number` is None for NaN and the infinities. */
  datatype Conversions = Conversions(
    number: Json -> Option<real>,
    text: Json -> string,
    trim: string -> string,
    upper: string -> string,
    lower: string -> string,
    locale: int -> string,
    parse: string -> Option<Json>)

  /** What the readers rely on of them. */
  ghost predicate Lawful(c: Conversions) {
    && (forall r: real :: c.number(Num(r)) == Some(r))
    && (forall s: string :: c.text(Str(s)) == s)
    && c.trim("") == "" && c.upper("") == "" && c.lower("") == ""
    && (forall s: string :: (exists ch <- s :: IsUpperLetter(ch)) ==> c.trim(s) != "")
  }

  /** String(v ?? '').trim() */
  function Text(c: Conversions, v: Json): string {
    c.trim(if v.Undefined? || v.Null? then "" else c.text(v))
  }

  predicate IsUpperLetter(ch: char) {
    'A' <= ch <= 'Z'
  }

  predicate IsCurrency(s: string) {
    |s| == 3 && forall ch <- s :: IsUpperLetter(ch)
  }

  function Round(r: real): int {
    (r + 0.5).Floor
  }

  /** A finite whole number not below `least`. */
  predicate IsWhole(r: Option<real>, least: int) {
    r.Some? && r.value >= least as real && Round(r.value) as real == r.value
  }

  /** The nearest integer, the upper one on ties. */
  lemma RoundIsNearest(r: real, n: int)
    ensures Round(r) == n <==> n as real - 0.5 <= r < n as real + 0.5
  {
  }

  ghost predicate IsInteger(r: Option<real>, n: int) {
    r == Some(n as real)
  }

  lemma WholeIsInteger(r: Option<real>, least: int)
    ensures IsWhole(r, least) <==> exists n: int :: least <= n && IsInteger(r, n)
  {
    if IsWhole(r, least) {
      assert least <= Round(r.value) && IsInteger(r, Round(r.value));
    }
    if n: int :| least <= n && IsInteger(r, n) { RoundIsNearest(r.value, n); }
  }

  /** A field with a text that is not blank. */
  ghost predicate NotBlank(c: Conversions, v: Json) {
    !v.Undefined? && !v.Null? && c.trim(c.text(v)) != ""
  }

  lemma TextIsBlank(c: Conversions, v: Json)
    requires Lawful(c)
    ensures Text(c, v) != "" <==> NotBlank(c, v)
  {
  }

  // ---------- The publish check ----------

  datatype Check = Fine | NoBilling | BadCurrency | NoCommercial | BadVersion | NoModelId | NoTiers | BadTier(index: nat)

  function Currency(c: Conversions, billing: Json): string {
    c.upper(Text(c, Get(billing, "currency")))
  }

  predicate ValidTier(c: Conversions, t: Json) {
    && t.Obj?
    && Text(c, Get(t, "tierId")) != ""
    && Text(c, Get(t, "name")) != ""
    && IsWhole(c.number(Get(t, "includedSessions")), 1)
    && var recurring := Get(t, "recurring");
       && IsObject(recurring)
       && c.lower(Text(c, Get(recurring, "interval"))) == "month"
       && IsWhole(c.number(Get(recurring, "amountCents")), 1)
  }

  function Tiers(m: Json): Json {
    Get(Get(Get(m, "billing"), "sessionCommercial"), "tiers")
  }

  ghost predicate ValidSession(c: Conversions, m: Json) {
    var billing := Get(m, "billing");
    var commercial := Get(billing, "sessionCommercial");
    && IsObject(billing) && IsCurrency(Currency(c, billing))
    && IsObject(commercial)
    && (!Get(commercial, "schemaVersion").Undefined? && !Get(commercial, "schemaVersion").Null?)
    && c.text(Get(commercial, "schemaVersion")) == "1"
    && Text(c, Get(commercial, "modelId")) != ""
    && Tiers(m).Arr? && Tiers(m).items != []
    && forall t <- Tiers(m).items :: ValidTier(c, t)
  }

  /** An integer from 1 on, as the field reads as a number. */
  ghost predicate CountsFromOne(c: Conversions, v: Json) {
    exists n: int :: 1 <= n && IsInteger(c.number(v), n)
  }

  /** What the publish check asks of a tier: id, name, a number of sessions, and a monthly amount in cents. */
  lemma ValidTierMeans(c: Conversions, t: Json)
    requires Lawful(c)
    ensures ValidTier(c, t) <==>
            && t.Obj? && NotBlank(c, Get(t, "tierId")) && NotBlank(c, Get(t, "name")) && CountsFromOne(c, Get(t, "includedSessions"))
            && var recurring := Get(t, "recurring");
               && (recurring.Obj? || recurring.Arr?)
               && NotBlank(c, Get(recurring, "interval")) && c.lower(c.trim(c.text(Get(recurring, "interval")))) == "month"
               && CountsFromOne(c, Get(recurring, "amountCents"))
  {
    hide IsWhole;
    var recurring := Get(t, "recurring");
    TextIsBlank(c, Get(t, "tierId"));
    TextIsBlank(c, Get(t, "name"));
    TextIsBlank(c, Get(recurring, "interval"));
    WholeIsInteger(c.number(Get(t, "includedSessions")), 1);
    WholeIsInteger(c.number(Get(recurring, "amountCents")), 1);
  }

  /** The text of a field that is there, trimmed. */
  ghost function Written(c: Conversions, v: Json): string {
    if v.Undefined? || v.Null? then "" else c.trim(c.text(v))
  }

  lemma CapitalLetters(s: string)
    ensures IsCurrency(s) <==> |s| == 3 && forall k :: 0 <= k < 3 ==> 'A' <= s[k] <= 'Z'
  {
    if |s| == 3 && forall k :: 0 <= k < 3 ==> 'A' <= s[k] <= 'Z' {
      forall ch | ch in s ensures IsUpperLetter(ch) {
      }
    } else if IsCurrency(s) {
      forall k | 0 <= k < 3 ensures 'A' <= s[k] <= 'Z' { assert s[k] in s; }
    }
  }

  /** What the publish check asks of session billing, besides that its tiers pass. */
  lemma ValidSessionMeans(c: Conversions, m: Json)
    requires Lawful(c)
    ensures ValidSession(c, m) <==>
            var billing := Get(m, "billing");
            var commercial := Get(billing, "sessionCommercial");
            var currency, version, tiers := c.upper(Written(c, Get(billing, "currency"))), Get(commercial, "schemaVersion"), Get(commercial, "tiers");
            && (billing.Obj? || billing.Arr?) && (commercial.Obj? || commercial.Arr?)
            && |currency| == 3 && (forall k :: 0 <= k < 3 ==> 'A' <= currency[k] <= 'Z')
            && !version.Undefined? && !version.Null? && c.text(version) == "1"
            && NotBlank(c, Get(commercial, "modelId"))
            && tiers.Arr? && |tiers.items| > 0 && (forall k :: 0 <= k < |tiers.items| ==> ValidTier(c, tiers.items[k]))
  {
    hide ValidTier;
    var billing := Get(m, "billing");
    TextIsBlank(c, Get(Get(billing, "sessionCommercial"), "modelId"));
    var currency := Currency(c, billing);
    assert currency == c.upper(Written(c, Get(billing, "currency")));
    CapitalLetters(currency);
  }

  /** String(v ?? '') compared with '1'. */
  predicate IsVersionOne(c: Conversions, v: Json) {
    (if v.Undefined? || v.Null? then "" else c.text(v)) == "1"
  }

  method ValidateSessionSubscriptionCommercial(c: Conversions, m: Json) returns (r: Check)
    ensures r == Fine <==> ValidSession(c, m)
    ensures r == NoBilling <==> !Get(m, "billing").Obj? && !Get(m, "billing").Arr?
    ensures r == BadCurrency <==> (Get(m, "billing").Obj? || Get(m, "billing").Arr?) && !IsCurrency(Currency(c, Get(m, "billing")))
    ensures var commercial := Get(Get(m, "billing"), "sessionCommercial");
            && (r == NoCommercial <==> r != NoBilling && r != BadCurrency && !commercial.Obj? && !commercial.Arr?)
            && (r == BadVersion ==> !IsVersionOne(c, Get(commercial, "schemaVersion")))
            && (r in {NoModelId, NoTiers} || r.BadTier? ==> IsVersionOne(c, Get(commercial, "schemaVersion")))
            && (r == NoModelId ==> Text(c, Get(commercial, "modelId")) == "")
            && (r == NoTiers ==> Text(c, Get(commercial, "modelId")) != "" && (!Tiers(m).Arr? || Tiers(m).items == []))
    ensures r.BadTier? ==>
              && Tiers(m).Arr? && r.index < |Tiers(m).items| && !ValidTier(c, Tiers(m).items[r.index])
              && forall k :: 0 <= k < r.index ==> ValidTier(c, Tiers(m).items[k])
  {
    var billing := Get(m, "billing");
    if !IsObject(billing) { return NoBilling; }
    if !IsCurrency(Currency(c, billing)) { return BadCurrency; }
    var commercial := Get(billing, "sessionCommercial");
    if !IsObject(commercial) { return NoCommercial; }
    if !IsVersionOne(c, Get(commercial, "schemaVersion")) { return BadVersion; }
    if Text(c, Get(commercial, "modelId")) == "" { return NoModelId; }
    var raw := Get(commercial, "tiers");
    if !raw.Arr? || |raw.items| == 0 { return NoTiers; }
    var i := 0;
    while i < |raw.items|
      invariant 0 <= i <= |raw.items|
      invariant forall k :: 0 <= k < i ==> ValidTier(c, raw.items[k])
    {
      if !ValidTier(c, raw.items[i]) { return BadTier(i); }
      i := i + 1;
    }
    r := Fine;
  }

  // ---------- The provisioning worker's parser ----------

  datatype TierStamp = TierStamp(tierId: string, includedSessionsPerMonth: int)

  datatype Stamp = Stamp(modelId: string, tiers: seq<TierStamp>)

  /** An object, or a string that parses as one. */
  function AsRecord(c: Conversions, v: Json): Option<Json> {
    match v
    case Obj(_) => Some(v)
    case Str(s) => if c.parse(s).Some? && c.parse(s).value.Obj? then c.parse(s) else None
    case _ => None
  }

  lemma AsRecordReads(c: Conversions, v: Json, o: Json)
    ensures AsRecord(c, v) == Some(o) <==> o.Obj? && (v == o || (v.Str? && c.parse(v.s) == Some(o)))
  {
  }

  function StampTier(c: Conversions, t: Json): Option<TierStamp> {
    var tier := AsRecord(c, t);
    if tier.None? then None
    else
      var id := Text(c, Get(tier.value, "tierId"));
      var included := c.number(Get(tier.value, "includedSessions"));
      if id == "" || !IsWhole(included, 1) then None else Some(TierStamp(id, Round(included.value)))
  }

  /** What the worker asks of a tier: an id and a number of sessions; the amount and the name do not matter to it. */
  lemma StampTierMeans(c: Conversions, t: Json)
    requires Lawful(c)
    ensures StampTier(c, t).Some? <==>
            AsRecord(c, t).Some? && NotBlank(c, Get(AsRecord(c, t).value, "tierId")) && CountsFromOne(c, Get(AsRecord(c, t).value, "includedSessions"))
    ensures StampTier(c, t).Some? ==>
              && StampTier(c, t).value.tierId == c.trim(c.text(Get(AsRecord(c, t).value, "tierId")))
              && c.number(Get(AsRecord(c, t).value, "includedSessions")) == Some(StampTier(c, t).value.includedSessionsPerMonth as real)
  {
    if AsRecord(c, t).Some? {
      TextIsBlank(c, Get(AsRecord(c, t).value, "tierId"));
      WholeIsInteger(c.number(Get(AsRecord(c, t).value, "includedSessions")), 1);
    }
  }

  /** The session billing of a marketing document, each level of which may be an object or a string that parses as one. */
  function CommercialOf(c: Conversions, marketing: Json): Option<Json> {
    var m := AsRecord(c, marketing);
    var billing := if m.None? then None else AsRecord(c, Get(m.value, "billing"));
    if billing.None? || Text(c, Get(billing.value, "model")) != "subscription_sessions" then None
    else AsRecord(c, Get(billing.value, "sessionCommercial"))
  }

  /** Version 1 with a model id and at least one tier that can be read. */
  ghost predicate IsReadable(c: Conversions, commercial: Json) {
    && IsVersionOne(c, Get(commercial, "schemaVersion"))
    && Text(c, Get(commercial, "modelId")) != ""
    && Get(commercial, "tiers").Arr?
    && exists t <- Get(commercial, "tiers").items :: StampTier(c, t).Some?
  }

  ghost predicate Increasing(at: seq<nat>) {
    forall k, l :: 0 <= k < l < |at| ==> at[k] < at[l]
  }

  /** The stamps are those of exactly the raw tiers that can be read, in order; `at` says where they stand. */
  ghost predicate StampsReadable(c: Conversions, raw: seq<Json>, tiers: seq<TierStamp>, at: seq<nat>) {
    && |at| == |tiers| && Increasing(at)
    && (forall k :: 0 <= k < |at| ==> at[k] < |raw| && StampTier(c, raw[at[k]]) == Some(tiers[k]))
    && (forall i: nat :: i < |raw| && StampTier(c, raw[i]).Some? ==> i in at)
  }

  method SessionCommercialFromMarketing(c: Conversions, marketing: Json) returns (r: Option<Stamp>, ghost at: seq<nat>)
    ensures r.Some? <==> CommercialOf(c, marketing).Some? && IsReadable(c, CommercialOf(c, marketing).value)
    ensures r.Some? ==>
              var commercial := CommercialOf(c, marketing).value;
              && r.value.modelId == Text(c, Get(commercial, "modelId"))
              && StampsReadable(c, Get(commercial, "tiers").items, r.value.tiers, at)
  {
    hide StampTier;
    at := [];
    var m := AsRecord(c, marketing);
    if m.None? { return None, at; }
    var billing := AsRecord(c, Get(m.value, "billing"));
    if billing.None? || Text(c, Get(billing.value, "model")) != "subscription_sessions" { return None, at; }
    var commercial := AsRecord(c, Get(billing.value, "sessionCommercial"));
    if commercial.None? || !IsVersionOne(c, Get(commercial.value, "schemaVersion")) { return None, at; }
    var modelId := Text(c, Get(commercial.value, "modelId"));
    if modelId == "" { return None, at; }
    var raw := Get(commercial.value, "tiers");
    if !raw.Arr? || |raw.items| == 0 { return None, at; }
    var tiers;
    tiers, at := StampReadableTiers(c, raw.items);
    if tiers == [] { return None, at; }
    r := Some(Stamp(modelId, tiers));
  }

  /** The tiers that can be read; the others are skipped. */
  method StampReadableTiers(c: Conversions, raw: seq<Json>) returns (tiers: seq<TierStamp>, ghost at: seq<nat>)
    ensures StampsReadable(c, raw, tiers, at)
    ensures tiers != [] <==> exists t <- raw :: StampTier(c, t).Some?
  {
    hide StampTier;
    tiers, at := [], [];
    for i := 0 to |raw|
      invariant |at| == |tiers| && Increasing(at)
      invariant forall k :: 0 <= k < |at| ==> at[k] < i && StampTier(c, raw[at[k]]) == Some(tiers[k])
      invariant forall j: nat :: j < i && StampTier(c, raw[j]).Some? ==> j in at
    {
      var t := StampTier(c, raw[i]);
      if t.Some? {
        ghost var before := at;
        tiers, at := tiers + [t.value], at + [i];
        assert forall j <- before :: j in at;
        assert at[|at|-1] == i;
      }
    }
    SomeReadable(c, raw, tiers, at);
  }

  lemma SomeReadable(c: Conversions, raw: seq<Json>, tiers: seq<TierStamp>, at: seq<nat>)
    requires StampsReadable(c, raw, tiers, at)
    ensures tiers != [] <==> exists t <- raw :: StampTier(c, t).Some?
  {
    hide StampTier;
    if tiers != [] { assert raw[at[0]] in raw; }
    if t :| t in raw && StampTier(c, t).Some? {
      var i :| 0 <= i < |raw| && raw[i] == t;
      assert i in at;
    }
  }

  /** Numbers that increase and hold everything below n count it off. */
  lemma {:induction false} CountedOff(at: seq<nat>, n: nat, k: nat)
    requires Increasing(at) && (forall i: nat :: i < n ==> i in at) && k < n
    ensures k < |at| && at[k] == k
  {
    if k > 0 { CountedOff(at, n, k - 1); }
    assert k in at;
    var j :| 0 <= j < |at| && at[j] == k;
    assert j >= k by {
      if j < k { CountedOff(at, n, j); }
    }
  }

  lemma {:induction false} IncreasingIsAbove(at: seq<nat>, k: nat)
    requires Increasing(at) && k < |at|
    ensures at[k] >= k
  {
    if k > 0 { IncreasingIsAbove(at, k - 1); }
  }

  lemma ValidTierStamps(c: Conversions, t: Json)
    requires ValidTier(c, t)
    ensures c.number(Get(t, "includedSessions")).Some?
    ensures StampTier(c, t) == Some(TierStamp(Text(c, Get(t, "tierId")), Round(c.number(Get(t, "includedSessions")).value)))
  {
  }

  /** When every raw tier is valid, the stamps stand one to one. */
  lemma ValidTiersAreAllStamped(c: Conversions, raw: seq<Json>, tiers: seq<TierStamp>, at: seq<nat>)
    requires (forall t <- raw :: ValidTier(c, t)) && StampsReadable(c, raw, tiers, at)
    ensures |tiers| == |raw| && forall i :: 0 <= i < |raw| ==> StampTier(c, raw[i]) == Some(tiers[i])
  {
    hide ValidTier, StampTier;
    forall i: nat | i < |raw| ensures StampTier(c, raw[i]).Some? { ValidTierStamps(c, raw[i]); }
    forall i: nat | i < |raw| ensures i < |at| && at[i] == i { CountedOff(at, |raw|, i); }
    if |raw| > 0 { CountedOff(at, |raw|, |raw| - 1); }
    if |at| > 0 { IncreasingIsAbove(at, |at| - 1); }
  }

  /** What the publish check accepts holds objects where the parser wants objects. */
  lemma ValidSessionIsObjects(c: Conversions, m: Json)
    requires Lawful(c) && ValidSession(c, m)
    ensures m.Obj? && Get(m, "billing").Obj? && Get(Get(m, "billing"), "sessionCommercial").Obj?
  {
    assert Currency(c, Arr([])) == "";
  }

  /** getBillingModel: the trimmed model when it is a non-blank string. */
  function BillingModel(c: Conversions, m: Json): string {
    var model := Get(Get(m, "billing"), "model");
    if model.Str? && c.trim(model.s) != "" then c.trim(model.s) else "contact_sales"
  }

  /** A model that is a string and not blank counts, trimmed; any other reads as one sold by contact. */
  lemma BillingModelReads(c: Conversions, m: Json, model: string)
    ensures Get(Get(m, "billing"), "model") == Str(model) && c.trim(model) != "" ==> BillingModel(c, m) == c.trim(model)
    ensures !Get(Get(m, "billing"), "model").Str? || (Get(Get(m, "billing"), "model") == Str(model) && c.trim(model) == "") ==>
              BillingModel(c, m) == "contact_sales"
  {
  }

  /** Whatever the publish check accepts, the worker parses without loss: same tiers, order, ids and counts. */
  method ParseValidated(c: Conversions, m: Json) returns (r: Option<Stamp>)
    requires Lawful(c) && ValidSession(c, m) && BillingModel(c, m) == "subscription_sessions"
    ensures r.Some? && |r.value.tiers| == |Tiers(m).items|
    ensures r.value.modelId == Text(c, Get(Get(Get(m, "billing"), "sessionCommercial"), "modelId"))
    ensures forall i :: 0 <= i < |Tiers(m).items| ==> StampsTier(c, Tiers(m).items[i], r.value.tiers[i])
  {
    hide ValidTier, StampTier;
    ValidSessionIsObjects(c, m);
    ghost var at;
    r, at := SessionCommercialFromMarketing(c, m);
    ModelIsText(c, m);
    ValidTierStamps(c, Tiers(m).items[0]);
    assert CommercialOf(c, m) == Some(Get(Get(m, "billing"), "sessionCommercial"));
    assert Tiers(m).items[0] in Tiers(m).items;
    ValidTiersAreAllStamped(c, Tiers(m).items, r.value.tiers, at);
    forall i | 0 <= i < |Tiers(m).items| ensures StampsTier(c, Tiers(m).items[i], r.value.tiers[i]) {
      ValidTierStamps(c, Tiers(m).items[i]);
      ValidTierIsWhole(c, Tiers(m).items[i]);
    }
  }

  lemma ModelIsText(c: Conversions, m: Json)
    requires Lawful(c) && BillingModel(c, m) == "subscription_sessions"
    ensures Text(c, Get(Get(m, "billing"), "model")) == "subscription_sessions"
  {
  }

  /** The stamp carries the tier's id and its session count, unrounded. */
  ghost predicate StampsTier(c: Conversions, t: Json, stamp: TierStamp) {
    && stamp.tierId == Text(c, Get(t, "tierId"))
    && c.number(Get(t, "includedSessions")) == Some(stamp.includedSessionsPerMonth as real)
  }

  lemma ValidTierIsWhole(c: Conversions, t: Json)
    requires ValidTier(c, t)
    ensures IsWhole(c.number(Get(t, "includedSessions")), 1)
  {
  }

  /** The tier of a subscription: the stamped id when there is one, the first tier otherwise. */
  function ResolveTier(wanted: string, tiers: seq<TierStamp>): Option<TierStamp> {
    if tiers == [] then None
    else if wanted == "" || tiers[0].tierId == wanted then Some(tiers[0])
    else ResolveTier(wanted, tiers[1..])
  }

  lemma {:induction false} ResolveTierFindsFirst(wanted: string, tiers: seq<TierStamp>)
    ensures ResolveTier(wanted, tiers).None? <==> if wanted == "" then tiers == [] else forall t <- tiers :: t.tierId != wanted
    ensures ResolveTier(wanted, tiers).Some? ==>
              exists i :: 0 <= i < |tiers| && tiers[i] == ResolveTier(wanted, tiers).value
                          && (if wanted == "" then i == 0 else tiers[i].tierId == wanted && forall k :: 0 <= k < i ==> tiers[k].tierId != wanted)
  {
    if tiers != [] && wanted != "" && tiers[0].tierId != wanted {
      ResolveTierFindsFirst(wanted, tiers[1..]);
      assert tiers == [tiers[0]] + tiers[1..];
      if ResolveTier(wanted, tiers).Some? {
        var i :| 0 <= i < |tiers[1..]| && tiers[1..][i] == ResolveTier(wanted, tiers[1..]).value
                 && tiers[1..][i].tierId == wanted && forall k :: 0 <= k < i ==> tiers[1..][k].tierId != wanted;
        assert tiers[i+1] == ResolveTier(wanted, tiers).value;
        forall k | 0 <= k < i + 1 ensures tiers[k].tierId != wanted {
          if k > 0 { assert tiers[k] == tiers[1..][k-1]; }
        }
      }
    }
  }

  // ---------- The generated price line ----------

  function Digit(d: nat): char
    requires d < 10
  {
    (d as char) + '0'
  }

  function Decimal(n: nat): string {
    if n < 10 then [Digit(n)] else Decimal(n / 10) + [Digit(n % 10)]
  }

  /** (cents / 100).toFixed(2) */
  function Money(cents: nat): string {
    Decimal(cents / 100) + "." + [Digit(cents % 100 / 10), Digit(cents % 10)]
  }

  function ReadDecimal(s: string): int {
    if s == "" then 0 else 10 * ReadDecimal(s[..|s|-1]) + (s[|s|-1] as int - '0' as int)
  }

  /** The cents of an amount with a point before its last two digits. */
  function ReadMoney(s: string): int
    requires |s| >= 3
  {
    ReadDecimal(s[..|s|-3] + s[|s|-2..])
  }

  lemma {:induction false} DecimalReads(n: nat)
    ensures Decimal(n) != "" && ReadDecimal(Decimal(n)) == n
  {
    if n < 10 {
      assert Decimal(n)[..0] == "";
    } else {
      DecimalReads(n / 10);
      assert Decimal(n)[..|Decimal(n)|-1] == Decimal(n / 10);
    }
  }

  /** An amount reads back as the cents it was made of. */
  lemma MoneyReads(cents: nat)
    ensures |Money(cents)| >= 4 && ReadMoney(Money(cents)) == cents
  {
    var whole, tens, units := Decimal(cents / 100), Digit(cents % 100 / 10), Digit(cents % 10);
    DecimalReads(cents / 100);
    var m := Money(cents);
    assert m[..|m|-3] + m[|m|-2..] == whole + [tens] + [units];
    assert (whole + [tens] + [units])[..|whole|+1] == whole + [tens];
    assert (whole + [tens])[..|whole|] == whole;
    assert ReadDecimal(whole + [tens]) == 10 * (cents / 100) + cents % 100 / 10;
  }

  /** A tier as the price line sees it. */
  datatype PricedTier = PricedTier(amountCents: nat, sessions: int)

  function Cents(t: PricedTier): int {
    t.amountCents
  }

  function PriceTier(c: Conversions, t: Json): Option<PricedTier> {
    if !IsObject(t) || t.Arr? then None
    else
      var recurring := Get(t, "recurring");
      var amount := Get(recurring, "amountCents");
      var sessions := c.number(Get(t, "includedSessions"));
      if !amount.Num? || Round(amount.n) < 0 || c.lower(Text(c, Get(recurring, "interval"))) != "month" then None
      else if !IsWhole(sessions, 1) then None
      else Some(PricedTier(Round(amount.n), Round(sessions.value)))
  }

  function PriceTiers(c: Conversions, ts: seq<Json>): seq<PricedTier> {
    if ts == [] then []
    else
      var first := PriceTier(c, ts[0]);
      (if first.Some? then [first.value] else []) + PriceTiers(c, ts[1..])
  }

  /** 'From <amount> <currency> / month - includes <sessions> sessions.' */
  datatype PriceLine = PriceLine(amount: string, currency: string, sessions: int)

  function FormatSessionSummary(c: Conversions, m: Json): Option<PriceLine> {
    var billing := Get(m, "billing");
    var commercial := Get(billing, "sessionCommercial");
    var raw := Tiers(m);
    if !IsObject(billing) || !IsObject(commercial) || !IsVersionOne(c, Get(commercial, "schemaVersion")) || !raw.Arr? then None
    else
      var priced := Sort(PriceTiers(c, raw.items), Cents);
      if priced == [] then None
      else
        var written := Get(billing, "currency");
        var currency := c.upper(c.trim(if written.Undefined? || written.Null? then "USD" else c.text(written)));
        Some(PriceLine(Money(priced[0].amountCents), if currency == "" then "USD" else currency, priced[0].sessions))
  }

  /** The currency of a line, in capital letters; US dollars when none is given. */
  lemma LineCurrency(c: Conversions, m: Json)
    requires FormatSessionSummary(c, m).Some?
    ensures var line, written := FormatSessionSummary(c, m).value, Get(Get(m, "billing"), "currency");
            var given := c.upper(c.trim(if written.Undefined? || written.Null? then "USD" else c.text(written)));
            && (given != "" ==> line.currency == given)
            && (given == "" ==> line.currency == "USD")
  {
  }

  /** The amount of a tier is a number, not a string that converts to one. */
  predicate NumericAmount(t: Json) {
    Get(Get(t, "recurring"), "amountCents").Num?
  }

  /** What the price line asks of a tier: a monthly amount that is a number and rounds to no negative one, and a number of sessions. */
  lemma PriceTierMeans(c: Conversions, t: Json)
    requires Lawful(c)
    ensures PriceTier(c, t).Some? <==>
            && t.Obj? && NumericAmount(t) && AmountOf(t) >= -0.5
            && NotBlank(c, Get(Get(t, "recurring"), "interval")) && c.lower(c.trim(c.text(Get(Get(t, "recurring"), "interval")))) == "month"
            && CountsFromOne(c, Get(t, "includedSessions"))
    ensures PriceTier(c, t).Some? ==>
              && -0.5 <= AmountOf(t) - PriceTier(c, t).value.amountCents as real < 0.5
              && c.number(Get(t, "includedSessions")) == Some(PriceTier(c, t).value.sessions as real)
  {
    hide IsWhole;
    TextIsBlank(c, Get(Get(t, "recurring"), "interval"));
    var sessions := c.number(Get(t, "includedSessions"));
    WholeIsInteger(sessions, 1);
    if PriceTier(c, t).Some? {
      var n: int :| 1 <= n && IsInteger(sessions, n);
      RoundIsNearest(sessions.value, n);
    }
    if NumericAmount(t) { RoundIsNearest(AmountOf(t), Round(AmountOf(t))); }
  }

  /** A valid tier is priced exactly when its amount is a number, and then at that amount. */
  lemma ValidTierPrices(c: Conversions, t: Json)
    requires Lawful(c) && ValidTier(c, t)
    ensures PriceTier(c, t).Some? <==> NumericAmount(t)
    ensures NumericAmount(t) ==>
              && Get(Get(t, "recurring"), "amountCents").n == PriceTier(c, t).value.amountCents as real
              && c.number(Get(t, "includedSessions")) == Some(PriceTier(c, t).value.sessions as real)
  {
  }

  /** The head of the sorted prices is the cheapest priced tier, the earliest on ties. */
  lemma {:induction false} CheapestIsFirst(c: Conversions, ts: seq<Json>) returns (at: nat)
    requires exists t <- ts :: PriceTier(c, t).Some?
    ensures at < |ts| && PriceTier(c, ts[at]).Some?
    ensures Sort(PriceTiers(c, ts), Cents) != [] && Sort(PriceTiers(c, ts), Cents)[0] == PriceTier(c, ts[at]).value
    ensures forall j :: 0 <= j < |ts| && PriceTier(c, ts[j]).Some? ==>
              PriceTier(c, ts[at]).value.amountCents <= PriceTier(c, ts[j]).value.amountCents
    ensures forall j :: 0 <= j < at && PriceTier(c, ts[j]).Some? ==>
              PriceTier(c, ts[at]).value.amountCents < PriceTier(c, ts[j]).value.amountCents
  {
    hide PriceTier;
    var first, tail := PriceTier(c, ts[0]), ts[1..];
    assert ts == [ts[0]] + tail;
    assert forall j :: 0 < j < |ts| ==> ts[j] == tail[j-1];
    if exists t <- tail :: PriceTier(c, t).Some? {
      var rest := CheapestIsFirst(c, tail);
      var sorted := Sort(PriceTiers(c, tail), Cents);
      if first.None? {
        assert PriceTiers(c, ts) == PriceTiers(c, tail);
        at := rest + 1;
      } else {
        assert PriceTiers(c, ts)[1..] == PriceTiers(c, tail);
        assert Sort(PriceTiers(c, ts), Cents) == Insert(first.value, sorted, Cents);
        at := if first.value.amountCents <= sorted[0].amountCents then 0 else rest + 1;
      }
    } else {
      NothingPriced(c, tail);
      assert PriceTiers(c, ts) == [first.value];
      at := 0;
    }
  }

  lemma {:induction false} NothingPriced(c: Conversions, ts: seq<Json>)
    requires forall t <- ts :: PriceTier(c, t).None?
    ensures PriceTiers(c, ts) == []
  {
    if ts != [] { NothingPriced(c, ts[1..]); }
  }

  /**
   A price line is generated for accepted billing if and only if some tier's amount is a number;
   it quotes the cheapest of those tiers, the earliest listed on ties, in the accepted currency.
   */
  lemma {:induction false} SummaryQuotesCheapestTier(c: Conversions, m: Json) returns (at: nat)
    requires Lawful(c) && ValidSession(c, m)
    ensures FormatSessionSummary(c, m).Some? <==> exists t <- Tiers(m).items :: NumericAmount(t)
    ensures FormatSessionSummary(c, m).Some? ==>
              var line := FormatSessionSummary(c, m).value;
              && at < |Tiers(m).items|
              && Quotes(c, line, Tiers(m).items[at])
              && line.currency == Currency(c, Get(m, "billing"))
              && (forall t <- Tiers(m).items :: NumericAmount(t) ==> AmountOf(Tiers(m).items[at]) <= AmountOf(t))
              && (forall j :: 0 <= j < at && NumericAmount(Tiers(m).items[j]) ==> AmountOf(Tiers(m).items[at]) < AmountOf(Tiers(m).items[j]))
  {
    hide ValidTier, PriceTier, PriceTiers, Money, ReadMoney, Round;
    var ts := Tiers(m).items;
    forall t <- ts ensures PriceTier(c, t).Some? <==> NumericAmount(t) { ValidTierPrices(c, t); }
    forall t <- ts | NumericAmount(t) ensures AmountOf(t) == PriceTier(c, t).value.amountCents as real { ValidTierPrices(c, t); }
    if t :| t in ts && NumericAmount(t) {
      at := CheapestIsFirst(c, ts);
      ValidTierPrices(c, ts[at]);
      MoneyReads(PriceTier(c, ts[at]).value.amountCents);
      var written := Get(Get(m, "billing"), "currency");
      assert Currency(c, Get(m, "billing")) != "";
      assert !written.Undefined? && !written.Null?;
    } else {
      NothingPriced(c, ts);
      at := 0;
    }
  }

  function AmountOf(t: Json): real {
    var amount := Get(Get(t, "recurring"), "amountCents");
    if amount.Num? then amount.n else 0.0
  }

  /** The line shows the amount and the session count of the tier. */
  ghost predicate Quotes(c: Conversions, line: PriceLine, t: Json) {
    && NumericAmount(t) && |line.amount| >= 3
    && AmountOf(t) == ReadMoney(line.amount) as real
    && c.number(Get(t, "includedSessions")) == Some(line.sessions as real)
  }

  // An amount written as a string.

  function ExampleConversions(): Conversions {
    Conversions(ExampleNumber, ExampleText, s => s, s => s, s => s, n => "", s => None)
  }

  function ExampleNumber(v: Json): Option<real> {
    match v case Num(r) => Some(r) case Str(_) => Some(1500.0) case _ => None
  }

  function ExampleText(v: Json): string {
    match v case Str(s) => s case _ => ""
  }

  function ExampleTier(): Json {
    Obj(map["tierId" := Str("basic"), "name" := Str("Basic"), "includedSessions" := Num(10.0),
            "recurring" := Obj(map["interval" := Str("month"), "amountCents" := Str("1500")])])
  }

  function ExampleCommercial(): Json {
    Obj(map["schemaVersion" := Str("1"), "modelId" := Str("sessions"), "tiers" := Arr([ExampleTier()])])
  }

  function ExampleBilling(): Json {
    Obj(map["model" := Str("subscription_sessions"), "currency" := Str("USD"), "sessionCommercial" := ExampleCommercial()])
  }

  function ExampleMarketing(): Json {
    Obj(map["billing" := ExampleBilling()])
  }

  lemma ExampleTierIsValid()
    ensures ValidTier(ExampleConversions(), ExampleTier()) && !NumericAmount(ExampleTier())
  {
    var recurring := Get(ExampleTier(), "recurring");
    assert Get(recurring, "interval") == Str("month");
    assert Get(recurring, "amountCents") == Str("1500");
  }

  lemma ExampleIsLawful()
    ensures Lawful(ExampleConversions())
  {
  }

  lemma ExampleCommercialReads()
    ensures var commercial := ExampleCommercial();
            && commercial.Obj? && Get(commercial, "schemaVersion") == Str("1") && Get(commercial, "modelId") == Str("sessions")
            && Get(commercial, "tiers") == Arr([ExampleTier()])
  {
    hide ExampleTier;
  }

  lemma ExampleBillingReads()
    ensures var billing := ExampleBilling();
            && billing.Obj? && Get(billing, "currency") == Str("USD") && Get(billing, "sessionCommercial") == ExampleCommercial()
            && Get(ExampleMarketing(), "billing") == billing
  {
    hide ExampleCommercial;
  }

  lemma {:induction false} ExampleIsValid()
    ensures ValidSession(ExampleConversions(), ExampleMarketing()) && Tiers(ExampleMarketing()) == Arr([ExampleTier()])
  {
    hide ValidTier, ExampleTier, ExampleCommercial, ExampleBilling, ExampleMarketing, Get;
    ExampleTierIsValid();
    ExampleCommercialReads();
    ExampleBillingReads();
  }

  /**
   An amount written as a string passes the publish check and yields no price line.
   */
  lemma {:induction false} StringAmountHasNoLine()
    ensures Lawful(ExampleConversions()) && ValidSession(ExampleConversions(), ExampleMarketing())
    ensures FormatSessionSummary(ExampleConversions(), ExampleMarketing()).None?
  {
    hide *;
    ExampleIsLawful();
    ExampleIsValid();
    ExampleTierIsValid();
    var at := SummaryQuotesCheapestTier(ExampleConversions(), ExampleMarketing());
  }
}
