/** Publishing a stored template: the marketing document is prepared, checked, and the publish writes follow. */
module TemplatePublishing {
  import opened Calls
  import opened UpdateExpressions
  import opened TemplateLifecycle
  import Billing = SessionBilling
  import Marketing = PublishMarketing

  /** The stored document, or an empty one when it cannot be parsed. */
  function StoredMarketing(c: Billing.Conversions, item: Item): (m: Billing.Json)
    ensures m.Obj?
  {
    var stored := TextOf(item, Attr.Marketing);
    if stored.Some? && c.parse(stored.value).Some? && c.parse(stored.value).value.Obj? then c.parse(stored.value).value else Billing.Obj(map[])
  }

  /** The document has session billing the check accepts, and everything else the check asks for but a summary. */
  ghost predicate HasSessionBilling(c: Billing.Conversions, m: Billing.Json) {
    && Billing.Lawful(c) && Billing.ValidSession(c, m) && Billing.BillingModel(c, m) == "subscription_sessions"
    && Marketing.IsDescribed(c, m)
  }

  /**
   `render` is the document's JSON text; `tokenLine` and `tokenOk` are the line and the check of a
   token-based subscription, `slugQuery` the slug query's answer.  A template with accepted session billing that is ready in every other
   respect is not refused when it has a summary of its own or a numeric amount, and not published
   otherwise.
   */
  method PublishStored(t: TemplateStore, id: Id, c: Billing.Conversions, render: Billing.Json -> string,
                       tokenLine: string, tokenOk: bool, slugQuery: Call<()>, actor: string, now: string) returns (r: Outcome, ghost filled: Billing.Json)
    requires t.Valid()
    modifies t
    ensures t.Valid() && old(t.history) <= t.history
    ensures r == NotFound <==> id !in old(t.items)
    ensures r in {NotFound, Refused, CallFailed} ==> t.items == old(t.items)
    ensures t.failed >= old(t.failed) && (r == WriteFailed <==> t.failed > old(t.failed))
    ensures id in old(t.items) ==> Marketing.IsFilled(c, StoredMarketing(c, old(t.items)[id]), tokenLine, filled)
    ensures r == Done ==>
              t.items == old(t.items)[id := PublishedItem(Patched(old(t.items)[id],
                Rewritten(render, StoredMarketing(c, old(t.items)[id]), filled), now), actor, now)]
    ensures r == Done ==>
              TextOf(t.items[id], Attr.Marketing) ==
              if render(filled) != render(StoredMarketing(c, old(t.items)[id])) then Some(render(filled)) else TextOf(old(t.items)[id], Attr.Marketing)
    ensures r in {Done, WriteFailed} ==>
              && MayPublish(old(t.items), id)
              && Marketing.IsDescribed(c, filled) && Marketing.Summary(c, filled) != "" && Marketing.BillingIsSound(c, filled, tokenOk)
    ensures r == Refused && MayPublish(old(t.items), id) ==>
              !(Marketing.IsDescribed(c, filled) && Marketing.Summary(c, filled) != "" && Marketing.BillingIsSound(c, filled, tokenOk))
    ensures id in old(t.items) && MayPublish(old(t.items), id) && HasSessionBilling(c, StoredMarketing(c, old(t.items)[id])) ==>
              var m := StoredMarketing(c, old(t.items)[id]);
              if slugQuery.Thrown? then r == CallFailed
              else if Marketing.Summary(c, m) != "" || Marketing.HasNumericAmount(m) then r in {Done, WriteFailed} else r == Refused
  {
    hide PublishedItem, Patched, MayPublish, StatusAllows, StoredMarketing, Good, Run, Marketing.IsFilled, Marketing.IsVerdict,
         Billing.ValidSession, Marketing.HasNumericAmount, Marketing.Summary, Marketing.IsDescribed, Billing.BillingModel, Billing.Lawful;
    filled := Billing.Obj(map[]);
    if id !in t.items { return NotFound, filled; }
    var m := StoredMarketing(c, t.items[id]);
    var checked := Marketing.FillSummary(c, m, tokenLine);
    filled := checked;
    var verdict := Marketing.ValidateMarketingForPublish(c, checked, tokenOk);
    VerdictSpelled(c, checked, tokenOk, verdict);
    MayPublishStatus(t.items, id);
    if HasSessionBilling(c, m) { Marketing.SessionVerdict(c, m, tokenLine, tokenOk, checked, verdict); }
    MarketingIsKept(t.items[id], Rewritten(render, m, checked), actor, now);
    r := t.PublishTemplate(id, PublishChecks(Rewritten(render, m, checked), verdict == Marketing.Passed, slugQuery), actor, now);
  }

  /** What a published item shows as its marketing document. */
  lemma MarketingIsKept(item: Item, marketing: Option<string>, actor: string, now: string)
    ensures TextOf(PublishedItem(Patched(item, marketing, now), actor, now), Attr.Marketing) ==
            if marketing.Some? then marketing else TextOf(item, Attr.Marketing)
  {
  }

  /** The stored text counts when it parses to an object; otherwise the document is empty. */
  lemma StoredReads(c: Billing.Conversions, item: Item, text: string)
    ensures TextOf(item, Attr.Marketing) == Some(text) && c.parse(text).Some? && c.parse(text).value.Obj? ==>
              StoredMarketing(c, item) == c.parse(text).value
    ensures TextOf(item, Attr.Marketing).None? || (TextOf(item, Attr.Marketing) == Some(text) && !(c.parse(text).Some? && c.parse(text).value.Obj?)) ==>
              StoredMarketing(c, item) == Billing.Obj(map[])
  {
  }

  lemma MayPublishStatus(s: Store, id: Id)
    requires id in s && Good(s[id])
    ensures Typed(s[id]) && (MayPublish(s, id) ==> StatusAllows(s[id]))
  {
  }

  /** The text to store, when the document changed. */
  function Rewritten(render: Billing.Json -> string, m: Billing.Json, filled: Billing.Json): Option<string> {
    if render(filled) != render(m) then Some(render(filled)) else None
  }

  lemma VerdictSpelled(c: Billing.Conversions, m: Billing.Json, tokenOk: bool, r: Marketing.Verdict)
    requires Marketing.IsVerdict(c, m, tokenOk, r)
    ensures r == Marketing.Passed <==> Marketing.IsDescribed(c, m) && Marketing.Summary(c, m) != "" && Marketing.BillingIsSound(c, m, tokenOk)
  {
  }
}
