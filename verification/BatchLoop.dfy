/**
 The loop over a queue batch, as in both invocation workers.  A failed record takes the records
 right behind it on the same connection with it, and the rest of the batch is reported when the
 time runs low.
 */
module BatchLoop {
  import opened Calls

  /** `connection` is the request's own; `attribute` is the queue attribute the failures are grouped by. */
  datatype Record = Record(messageId: string, connection: string, attribute: string)

  datatype Fate = Invoked | Reported

  const REMAINING_TIME_THRESHOLD_MS := 20_000

  /** An answer for each attempt: by the record, and by the number of attempts made for it before. */
  type Outcomes = (nat, nat) -> bool

  /** The time left, in ms, at the check before an attempt. */
  type Times = (nat, nat) -> int

  predicate TimeLeft(remaining: Times, i: nat, tries: nat) {
    remaining(i, tries) >= REMAINING_TIME_THRESHOLD_MS
  }

  /** An attempt that makes no progress takes time.  Of other checks nothing is asked. */
  ghost predicate RetriesTakeTime(remaining: Times) {
    forall i: nat, tries: nat :: remaining(i, tries + 1) < remaining(i, tries)
  }

  datatype Attempt = Attempt(record: nat, tries: nat)

  function ReportedIds(records: seq<Record>, fates: seq<Fate>): set<string>
    requires |fates| <= |records|
  {
    set i | 0 <= i < |fates| && fates[i].Reported? :: records[i].messageId
  }

  /** The records i to j are on one connection. */
  ghost predicate OneBlock(records: seq<Record>, i: nat, j: nat) {
    i <= j < |records| && forall k :: i <= k <= j ==> records[k].attribute == records[i].attribute
  }

  /** Within a block of one connection the successes form a prefix and the failures a suffix. */
  ghost predicate SuffixFails(records: seq<Record>, fates: seq<Fate>) {
    forall i, j :: 0 <= i <= j < |fates| && OneBlock(records, i, j) && fates[i].Reported? ==> fates[j].Reported?
  }

  /** A record failed, and every record from it up to `i` is on its connection. */
  ghost predicate FailedBefore(records: seq<Record>, ok: Outcomes, i: nat) {
    exists f: nat :: f <= i && OneBlock(records, f, i) && !ok(f, 0)
  }

  /** The record's failures are grouped by another connection than its own. */
  predicate Off(records: seq<Record>, i: nat)
    requires i < |records|
  {
    records[i].connection != records[i].attribute
  }

  /** The first failing record of a block is off its attribute. */
  ghost predicate Loops(records: seq<Record>, ok: Outcomes, i: nat) {
    i < |records| && !ok(i, 0) && Off(records, i) && forall f: nat :: f < i && OneBlock(records, f, i) ==> ok(f, 0)
  }

  ghost predicate Regular(records: seq<Record>, ok: Outcomes, n: nat) {
    forall i: nat :: i < n ==> !Loops(records, ok, i)
  }

  /** The first record of a block, which never succeeds and is off its attribute. */
  ghost predicate Stuck(records: seq<Record>, ok: Outcomes, i: nat) {
    && i < |records| && (i > 0 ==> records[i].attribute != records[i-1].attribute)
    && Off(records, i) && forall attempt :: !ok(i, attempt)
  }

  /** What holds of the fates given so far. */
  ghost predicate Fair(records: seq<Record>, ok: Outcomes, fates: seq<Fate>) {
    && |fates| <= |records|
    && SuffixFails(records, fates)
    && (forall i :: 0 <= i < |fates| && fates[i].Invoked? ==> exists attempt :: ok(i, attempt))
    && (forall i :: 0 <= i < |fates| ==> !Stuck(records, ok, i))
    && (Regular(records, ok, |fates|) ==> forall i :: 0 <= i < |fates| ==> (fates[i].Invoked? <==> !FailedBefore(records, ok, i)))
  }

  /** The next record is not on the connection of a record just reported. */
  ghost predicate NewBlock(records: seq<Record>, fates: seq<Fate>) {
    0 < |fates| < |records| && fates[|fates|-1].Reported? ==> records[|fates|].attribute != records[|fates|-1].attribute
  }

  /** A record reached after regular blocks, which fails off its attribute, is the first of its block to fail. */
  lemma ReachedLoops(records: seq<Record>, ok: Outcomes, fates: seq<Fate>)
    requires Fair(records, ok, fates) && NewBlock(records, fates) && |fates| < |records|
    requires Regular(records, ok, |fates|) && !ok(|fates|, 0) && Off(records, |fates|)
    ensures Loops(records, ok, |fates|)
  {
    var n := |fates|;
    forall f: nat | f < n && OneBlock(records, f, n) ensures ok(f, 0) {
      assert records[n].attribute == records[n-1].attribute && fates[n-1].Invoked?;
      assert OneBlock(records, f, n - 1);
    }
  }

  lemma SuccessIsFair(records: seq<Record>, ok: Outcomes, fates: seq<Fate>, tries: nat)
    requires Fair(records, ok, fates) && NewBlock(records, fates) && |fates| < |records|
    requires ok(|fates|, tries) && (tries > 0 ==> !ok(|fates|, 0) && Off(records, |fates|))
    ensures Fair(records, ok, fates + [Invoked]) && NewBlock(records, fates + [Invoked])
  {
    var n := |fates|;
    var fates' := fates + [Invoked];
    if tries > 0 && Regular(records, ok, n) { ReachedLoops(records, ok, fates); }
    forall i: nat | i < n && OneBlock(records, i, n)
      ensures fates[i].Invoked? && (Regular(records, ok, n) ==> ok(i, 0))
    {
      assert records[n].attribute == records[n-1].attribute && fates[n-1].Invoked?;
      assert OneBlock(records, i, n - 1);
    }
    forall i, j | 0 <= i <= j < |fates'| && OneBlock(records, i, j) ensures fates'[i].Reported? ==> fates'[j].Reported? {
      if i < j == n { assert fates[i].Invoked?; }
    }
    assert Regular(records, ok, n + 1) ==> Regular(records, ok, n) && !Loops(records, ok, n);
  }

  lemma FailureIsFair(records: seq<Record>, ok: Outcomes, fates: seq<Fate>, next: nat)
    requires Fair(records, ok, fates) && |fates| < next <= |records|
    requires !ok(|fates|, 0)
    requires forall i :: |fates| <= i < next ==> records[i].attribute == records[|fates|].connection
    requires next < |records| ==> records[next].attribute != records[|fates|].connection
    ensures var fates' := fates + seq(next - |fates|, i => Reported); Fair(records, ok, fates') && NewBlock(records, fates')
    ensures Regular(records, ok, |fates|) ==> Regular(records, ok, next)
  {
    var n := |fates|;
    var fates' := fates + seq(next - n, i => Reported);
    forall i | n <= i < next ensures OneBlock(records, n, i) && !Stuck(records, ok, i) && FailedBefore(records, ok, i) && !Loops(records, ok, i) {
      assert OneBlock(records, n, i) && !ok(n, 0);
    }
    assert forall i :: 0 <= i < n ==> fates'[i] == fates[i];
    assert Regular(records, ok, next) ==> Regular(records, ok, n);
  }

  lemma CutOffIsFair(records: seq<Record>, fates: seq<Fate>)
    requires |fates| <= |records| && SuffixFails(records, fates)
    ensures SuffixFails(records, fates + seq(|records| - |fates|, i => Reported))
  {
  }

  /** Reports the records from `index` on while they are grouped under the connection. */
  method ReportConnection(records: seq<Record>, index: nat, connection: string) returns (next: nat, ids: set<string>)
    requires index <= |records|
    ensures index <= next <= |records|
    ensures forall i :: index <= i < next ==> records[i].attribute == connection
    ensures next < |records| ==> records[next].attribute != connection
    ensures ids == set i | index <= i < next :: records[i].messageId
  {
    next, ids := index, {};
    while next < |records| && records[next].attribute == connection
      invariant index <= next <= |records|
      invariant forall i :: index <= i < next ==> records[i].attribute == connection
      invariant ids == set i | index <= i < next :: records[i].messageId
    {
      ids := ids + {records[next].messageId};
      next := next + 1;
    }
  }

  lemma ReportedIdsGrow(records: seq<Record>, fates: seq<Fate>, next: nat)
    requires |fates| <= next <= |records|
    ensures ReportedIds(records, fates + seq(next - |fates|, i => Reported)) ==
            ReportedIds(records, fates) + set i | |fates| <= i < next :: records[i].messageId
  {
    var more := fates + seq(next - |fates|, i => Reported);
    assert forall i :: 0 <= i < |fates| ==> more[i] == fates[i];
    assert forall i :: |fates| <= i < next ==> more[i] == Reported;
  }

  lemma InvokedIsNotReported(records: seq<Record>, fates: seq<Fate>)
    requires |fates| < |records|
    ensures ReportedIds(records, fates + [Invoked]) == ReportedIds(records, fates)
  {
    assert forall i :: 0 <= i < |fates| ==> (fates + [Invoked])[i] == fates[i];
  }

  /** The messages a block-wise batch reports that is cut off before the record `cut`. */
  ghost function BlockwiseReport(records: seq<Record>, ok: Outcomes, cut: nat): set<string> {
    set i | 0 <= i < |records| && (cut <= i || FailedBefore(records, ok, i)) :: records[i].messageId
  }

  /** After a failed attempt off its attribute the same record is attempted again, otherwise a later one for the first time. */
  ghost predicate ComesNext(records: seq<Record>, ok: Outcomes, a: Attempt, b: Attempt) {
    && a.record < |records|
    && if !ok(a.record, a.tries) && Off(records, a.record) then b == Attempt(a.record, a.tries + 1)
       else a.record < b.record && b.tries == 0
  }

  ghost predicate InTurn(records: seq<Record>, ok: Outcomes, attempts: seq<Attempt>) {
    forall k :: 0 < k < |attempts| ==> ComesNext(records, ok, attempts[k-1], attempts[k])
  }

  ghost predicate SomeTwice(attempts: seq<Attempt>) {
    exists k :: 0 < k < |attempts| && attempts[k].record == attempts[k-1].record
  }

  ghost predicate Increasing(attempts: seq<Attempt>) {
    forall i, j :: 0 <= i < j < |attempts| ==> attempts[i].record < attempts[j].record
  }

  /** Neighbouring attempts are for the same record if and only if the first one failed and the record is off its attribute. */
  lemma SameRecordAgain(records: seq<Record>, ok: Outcomes, attempts: seq<Attempt>, k: nat)
    requires InTurn(records, ok, attempts) && 0 < k < |attempts|
    ensures var a := attempts[k-1];
            && a.record < |records|
            && (attempts[k].record == a.record <==> !ok(a.record, a.tries) && Off(records, a.record))
  {
    assert ComesNext(records, ok, attempts[k-1], attempts[k]);
  }

  /** How the account of the attempts stands when `next` would be the next one. */
  ghost predicate Account(records: seq<Record>, ok: Outcomes, attempts: seq<Attempt>, next: Attempt) {
    && InTurn(records, ok, attempts)
    && (attempts != [] ==> ComesNext(records, ok, attempts[|attempts|-1], next))
    && (attempts == [] ==> next.tries == 0)
    && (next.tries > 0 ==> next.record < |records| && !ok(next.record, 0) && Off(records, next.record))
    && (next.tries > 1 ==> SomeTwice(attempts))
    && (!Regular(records, ok, next.record) ==> SomeTwice(attempts))
    && (Regular(records, ok, |records|) ==> next.tries == 0 && Increasing(attempts) && forall a <- attempts :: a.record < next.record)
  }

  /** A failed attempt off the attribute is entered, and the same record is next. */
  lemma RetryIsEntered(records: seq<Record>, ok: Outcomes, attempts: seq<Attempt>, next: Attempt, fates: seq<Fate>)
    requires Account(records, ok, attempts, next) && next.record == |fates| < |records|
    requires Fair(records, ok, fates) && NewBlock(records, fates)
    requires !ok(next.record, next.tries) && Off(records, next.record)
    ensures Account(records, ok, attempts + [next], Attempt(next.record, next.tries + 1))
  {
    var more := attempts + [next];
    if next.tries > 0 { assert more[|more|-2].record == next.record == more[|more|-1].record; }
    if SomeTwice(attempts) { TwiceStays(attempts, next); }
    if Regular(records, ok, |records|) { ReachedLoops(records, ok, fates); }
  }

  lemma TwiceStays(attempts: seq<Attempt>, next: Attempt)
    requires SomeTwice(attempts)
    ensures SomeTwice(attempts + [next])
  {
    var k :| 0 < k < |attempts| && attempts[k].record == attempts[k-1].record;
    assert (attempts + [next])[k] == attempts[k] && (attempts + [next])[k-1] == attempts[k-1];
  }

  /** Any other attempt is entered, and the record `i` is next, for the first time. */
  lemma ProgressIsEntered(records: seq<Record>, ok: Outcomes, attempts: seq<Attempt>, next: Attempt, i: nat)
    requires Account(records, ok, attempts, next) && next.record < i <= |records|
    requires ok(next.record, next.tries) || !Off(records, next.record)
    requires Regular(records, ok, next.record) && next.tries == 0 ==> Regular(records, ok, i)
    requires next.tries > 0 ==> i == next.record + 1
    ensures Account(records, ok, attempts + [next], Attempt(i, 0))
  {
    var more := attempts + [next];
    if next.tries > 0 { assert more[|more|-2].record == next.record == more[|more|-1].record; }
    if SomeTwice(attempts) { TwiceStays(attempts, next); }
  }

  /** An attempt is made with at least 20 s left, of a record that can be processed. */
  ghost predicate InTime(a: Attempt, remaining: Times, unreadable: Outcomes) {
    remaining(a.record, a.tries) >= 20_000 && !unreadable(a.record, a.tries)
  }

  /** It succeeds, or its error is sent. */
  ghost predicate Answered(a: Attempt, ok: Outcomes, mute: Outcomes) {
    ok(a.record, a.tries) || !mute(a.record, a.tries)
  }

  ghost predicate Succeeded(attempts: seq<Attempt>, ok: Outcomes, i: nat) {
    exists a <- attempts :: a.record == i && ok(i, a.tries)
  }

  /** The records invoked are those with an attempt that succeeded. */
  ghost predicate Matched(ok: Outcomes, fates: seq<Fate>, attempts: seq<Attempt>) {
    && (forall i: nat :: i < |fates| ==> (fates[i].Invoked? <==> Succeeded(attempts, ok, i)))
    && (forall a <- attempts :: ok(a.record, a.tries) ==> a.record < |fates|)
  }

  lemma MatchedSuccess(ok: Outcomes, fates: seq<Fate>, attempts: seq<Attempt>, next: Attempt)
    requires Matched(ok, fates, attempts) && next.record == |fates| && ok(next.record, next.tries)
    ensures Matched(ok, fates + [Invoked], attempts + [next])
  {
    assert next in attempts + [next];
    forall i: nat | i < |fates| ensures fates[i].Invoked? <==> Succeeded(attempts + [next], ok, i) {
      if Succeeded(attempts, ok, i) {
        var a :| a in attempts && a.record == i && ok(i, a.tries);
        assert a in attempts + [next];
      }
    }
  }

  lemma MatchedFailure(ok: Outcomes, fates: seq<Fate>, attempts: seq<Attempt>, next: Attempt, n: nat)
    requires Matched(ok, fates, attempts) && next.record == |fates| && !ok(next.record, next.tries)
    ensures Matched(ok, fates + seq(n, i => Reported), attempts + [next])
  {
    forall i: nat | i < |fates| ensures fates[i].Invoked? <==> Succeeded(attempts + [next], ok, i) {
      if Succeeded(attempts, ok, i) {
        var a :| a in attempts && a.record == i && ok(i, a.tries);
        assert a in attempts + [next];
      }
    }
  }

  lemma MatchedCutOff(ok: Outcomes, fates: seq<Fate>, attempts: seq<Attempt>, n: nat)
    requires Matched(ok, fates, attempts)
    ensures Matched(ok, fates + seq(n, i => Reported), attempts)
  {
  }

  /**
   Each record is exactly one of invoked and reported, whatever the time left and the outcomes, with
   failures a suffix of each block.  Attempts follow each other in turn.  Unless the first failing
   record of some block is off its attribute, no record is attempted twice and the batch reports what
   the block-wise one reports; with time for a second attempt some record is attempted twice if and
   only if there is such a block.  Every attempt is made with at least 20 s left, and the batch is cut off
   only for want of time.  `unreadable` tells when a record cannot be processed, `mute` when
   the error of a failed attempt cannot be sent: either fails the whole batch.
   */
  method HandleBatch(records: seq<Record>, remaining: Times, ok: Outcomes, unreadable: Outcomes, mute: Outcomes)
    returns (r: Call<set<string>>, ghost fates: seq<Fate>, ghost cut: nat, ghost attempts: seq<Attempt>)
    requires RetriesTakeTime(remaining)
    ensures r.Thrown? ==>
              || (attempts != [] && !Answered(attempts[|attempts|-1], ok, mute))
              || exists tries: nat :: unreadable(cut, tries) && remaining(cut, tries) >= 20_000
    ensures forall a <- attempts :: InTime(a, remaining, unreadable)
    ensures r.Answer? ==> forall a <- attempts :: Answered(a, ok, mute)
    ensures r.Answer? && cut < |records| ==> exists tries: nat :: remaining(cut, tries) < 20_000
    ensures r.Answer? ==> Matched(ok, fates, attempts)
    ensures r.Answer? ==> |fates| == |records| && r.value == ReportedIds(records, fates)
    ensures r.Answer? ==> SuffixFails(records, fates)
    ensures r.Answer? ==> forall i :: 0 <= i < |records| && fates[i].Invoked? ==> i < cut
    ensures r.Answer? ==> forall i :: cut <= i < |records| ==> fates[i].Reported?
    ensures r.Answer? ==> forall i :: Stuck(records, ok, i) ==> cut <= i
    ensures r.Answer? && Regular(records, ok, cut) ==>
              && (forall i: nat :: i < |records| ==> (fates[i].Reported? <==> cut <= i || FailedBefore(records, ok, i)))
              && r.value == BlockwiseReport(records, ok, cut)
    ensures r.Answer? && Regular(records, ok, |records|) && (forall i: nat :: i < |records| ==> TimeLeft(remaining, i, 0)) ==>
              r.value == BlockwiseReport(records, ok, |records|)
    ensures InTurn(records, ok, attempts)
    ensures r.Answer? && attempts != [] ==>
              var last := attempts[|attempts|-1];
              last.record < |records| && (!ok(last.record, last.tries) && Off(records, last.record) ==> cut == last.record)
    ensures Regular(records, ok, |records|) ==> Increasing(attempts)
    ensures r.Answer? && (forall i: nat :: i < |records| ==> TimeLeft(remaining, i, 0) && TimeLeft(remaining, i, 1)) ==>
              (SomeTwice(attempts) <==> !Regular(records, ok, |records|))
  {
    hide SuffixFails, Fair, NewBlock, FailedBefore, Stuck, ReportedIds, Account, InTurn, SomeTwice, Increasing, Regular, Loops, Matched, InTime, Answered, ComesNext;
    var failures: set<string> := {};
    var index := 0;
    var tries := 0;
    fates, attempts := [], [];
    StartIsFair(records, ok);
    while index < |records| && TimeLeft(remaining, index, tries)
      invariant index == |fates| <= |records|
      invariant failures == ReportedIds(records, fates)
      invariant Fair(records, ok, fates) && NewBlock(records, fates)
      invariant Account(records, ok, attempts, Attempt(index, tries))
      invariant Matched(ok, fates, attempts)
      invariant forall a <- attempts :: InTime(a, remaining, unreadable) && Answered(a, ok, mute)
      decreases |records| - index, remaining(index, tries)
    {
      AccountSpelled(records, ok, attempts, Attempt(index, tries));
      if unreadable(index, tries) { return Thrown("the record cannot be processed"), fates, index, attempts; }
      ghost var next := Attempt(index, tries);
      MadeInTime(next, remaining, ok, unreadable, mute);
      if ok(index, tries) {
        SuccessIsFair(records, ok, fates, tries);
        SuccessIsRegular(records, ok, index, tries);
        ProgressIsEntered(records, ok, attempts, next, index + 1);
        InvokedIsNotReported(records, fates);
        MatchedSuccess(ok, fates, attempts, next);
        fates := fates + [Invoked];
        index, tries := index + 1, 0;
      } else {
        if mute(index, tries) {
          ReturnsInTurn(records, ok, attempts, next);
          return Thrown("the error was not sent"), fates, index, attempts + [next];
        }
        var after, ids := ReportConnection(records, index, records[index].connection);
        ReportedIdsGrow(records, fates, after);
        MatchedFailure(ok, fates, attempts, next, after - index);
        failures := failures + ids;
        if after > index {
          FailureIsFair(records, ok, fates, after);
          ProgressIsEntered(records, ok, attempts, next, after);
          fates := fates + seq(after - index, i => Reported);
          index, tries := after, 0;
        } else {
          RetryIsEntered(records, ok, attempts, next, fates);
          assert fates + seq(0, i => Reported) == fates;
          assert remaining(index, tries + 1) < remaining(index, tries);
          tries := tries + 1;
        }
      }
      attempts := attempts + [next];
    }
    cut := index;
    AccountSpelled(records, ok, attempts, Attempt(index, tries));
    ReportedIdsGrow(records, fates, |records|);
    FairSpelled(records, ok, fates);
    CutOffIsFair(records, fates);
    FairIsBlockwise(records, ok, fates);
    MatchedCutOff(ok, fates, attempts, |records| - index);
    failures := failures + set i | index <= i < |records| :: records[i].messageId;
    fates := fates + seq(|records| - index, i => Reported);
    r := Answer(failures);
  }

  lemma MadeInTime(a: Attempt, remaining: Times, ok: Outcomes, unreadable: Outcomes, mute: Outcomes)
    requires TimeLeft(remaining, a.record, a.tries) && !unreadable(a.record, a.tries)
    ensures InTime(a, remaining, unreadable)
    ensures Answered(a, ok, mute) <==> ok(a.record, a.tries) || !mute(a.record, a.tries)
  {
  }

  lemma AccountSpelled(records: seq<Record>, ok: Outcomes, attempts: seq<Attempt>, next: Attempt)
    requires Account(records, ok, attempts, next)
    ensures InTurn(records, ok, attempts)
    ensures attempts != [] ==> ComesNext(records, ok, attempts[|attempts|-1], next)
    ensures next.tries > 0 ==> next.record < |records| && !ok(next.record, 0) && Off(records, next.record)
    ensures next.tries > 1 || !Regular(records, ok, next.record) ==> SomeTwice(attempts)
    ensures Regular(records, ok, |records|) ==> next.tries == 0 && Increasing(attempts) && !SomeTwice(attempts)
  {
  }

  lemma ReturnsInTurn(records: seq<Record>, ok: Outcomes, attempts: seq<Attempt>, next: Attempt)
    requires Account(records, ok, attempts, next)
    ensures InTurn(records, ok, attempts + [next])
    ensures Regular(records, ok, |records|) ==> Increasing(attempts + [next])
  {
  }

  lemma SuccessIsRegular(records: seq<Record>, ok: Outcomes, i: nat, tries: nat)
    requires ok(i, tries)
    ensures Regular(records, ok, i) && tries == 0 ==> Regular(records, ok, i + 1)
  {
  }

  /** A batch cut off after the fates given so far reports what the block-wise batch reports. */
  lemma FairIsBlockwise(records: seq<Record>, ok: Outcomes, fates: seq<Fate>)
    requires Fair(records, ok, fates)
    ensures var all := fates + seq(|records| - |fates|, i => Reported);
            Regular(records, ok, |fates|) ==>
              && (forall i: nat :: i < |records| ==> (all[i].Reported? <==> |fates| <= i || FailedBefore(records, ok, i)))
              && ReportedIds(records, all) == BlockwiseReport(records, ok, |fates|)
  {
    hide FailedBefore, SuffixFails, Stuck, Regular;
    var all := fates + seq(|records| - |fates|, i => Reported);
    if Regular(records, ok, |fates|) {
      forall i: nat | i < |records| ensures all[i].Reported? <==> |fates| <= i || FailedBefore(records, ok, i) {
        if i < |fates| { assert all[i] == fates[i]; }
      }
    }
  }

  lemma StartIsFair(records: seq<Record>, ok: Outcomes)
    ensures Fair(records, ok, []) && NewBlock(records, []) && ReportedIds(records, []) == {}
    ensures Account(records, ok, [], Attempt(0, 0)) && Matched(ok, [], [])
  {
  }

  lemma FairSpelled(records: seq<Record>, ok: Outcomes, fates: seq<Fate>)
    requires Fair(records, ok, fates)
    ensures |fates| <= |records| && SuffixFails(records, fates)
    ensures forall i :: 0 <= i < |fates| && fates[i].Invoked? ==> exists attempt :: ok(i, attempt)
    ensures forall i: nat :: Stuck(records, ok, i) ==> |fates| <= i
    ensures Regular(records, ok, |records|) ==> Regular(records, ok, |fates|)
  {
  }

  /**
   Only records right behind each other are grouped: with a record of another connection in between,
   the outcome of the earlier record makes no difference to the later one.
   */
  lemma InterleavedIsNotHeldBack(records: seq<Record>, ok: Outcomes, ok': Outcomes, f: nat, k: nat, i: nat)
    requires f < k < i < |records| && records[k].attribute != records[i].attribute
    requires forall other: nat, tries: nat :: other != f ==> ok'(other, tries) == ok(other, tries)
    ensures FailedBefore(records, ok', i) <==> FailedBefore(records, ok, i)
  {
    assert forall g: nat :: g <= f ==> !OneBlock(records, g, i);
  }

  /** With distinct message ids the report names exactly the records that were not invoked. */
  lemma ReportIsExact(records: seq<Record>, fates: seq<Fate>, i: nat)
    requires |fates| == |records| && i < |records|
    requires forall k, l :: 0 <= k < l < |records| ==> records[k].messageId != records[l].messageId
    ensures records[i].messageId in ReportedIds(records, fates) <==> fates[i].Reported?
  {
    if records[i].messageId in ReportedIds(records, fates) {
      var k :| 0 <= k < |fates| && fates[k].Reported? && records[k].messageId == records[i].messageId;
      assert k == i;
    }
  }
}
