/** The micro-feedback capture (`setSentiment` and `saveMicroFeedback` in
    script.js): the user marks the result helpful or not sure, may pick a
    next action, and saving prepends a record to a history of at most 200
    entries kept in local storage. The clock, the page address and the user
    agent are passed in as an opaque `Meta`; storage is a whole-value
    read and overwrite of one key. */
module Feedback {
  import opened JsValues
  import opened Quote
  import opened FeeBucket

  datatype Sentiment = Helpful | NotSure
  {
    /** The string stored in a record and sent with events. */
    function Name(): string {
      match this
      case Helpful => "helpful"
      case NotSure => "not_sure"
    }
  }

  /** The `is-active` flags of the two sentiment buttons. */
  datatype SentimentButtons = SentimentButtons(helpfulActive: bool, notSureActive: bool)

  /** The buttons before any sentiment has been chosen. */
  const NoneActive: SentimentButtons := SentimentButtons(false, false)

  /** The sentiment `saveMicroFeedback` reads off the buttons: helpful wins
      if both are somehow active, none if neither is. */
  function ActiveSentiment(b: SentimentButtons): (s: Option<Sentiment>)
    ensures s.None? <==> !b.helpfulActive && !b.notSureActive
  {
    if b.helpfulActive then Some(Helpful)
    else if b.notSureActive then Some(NotSure)
    else None
  }

  /** `setSentiment`: each button's flag is forced to whether it is the
      chosen one, so whatever was active before, afterwards exactly the
      chosen sentiment is active and is the one a save will read. */
  function SetSentiment(chosen: Sentiment): (b: SentimentButtons)
    ensures !(b.helpfulActive && b.notSureActive)
    ensures ActiveSentiment(b) == Some(chosen)
  {
    SentimentButtons(chosen == Helpful, chosen == NotSure)
  }

  /** One next-action radio button: its value and whether it is checked. */
  datatype ActionOption = ActionOption(value: string, checked: bool)

  /** The value of the first checked radio button, if any (`find`). */
  function SelectedAction(radios: seq<ActionOption>): (a: Option<string>)
    ensures a.None? <==> forall i :: 0 <= i < |radios| ==> !radios[i].checked
    ensures a.Some? ==> exists i :: (0 <= i < |radios| && radios[i].checked && radios[i].value == a.value
      && forall k :: 0 <= k < i ==> !radios[k].checked)
  {
    if radios == [] then None
    else if radios[0].checked then Some(radios[0].value)
    else
      var rest := SelectedAction(radios[1..]);
      assert forall k :: 1 <= k < |radios| ==> radios[k] == radios[1..][k - 1];
      rest
  }

  /** The record metadata: timestamp, page address and user agent. */
  datatype Meta = Meta(tsISO: string, url: string, userAgent: string)

  /** One saved feedback record. */
  datatype Record = Record(
    sentiment: Sentiment,
    actionIntent: Option<string>,
    snapshot: Option<Snapshot>,
    meta: Meta)

  /** What reading the history key can find: nothing (or an empty string),
      a value that fails to parse or is not an array, or an array. */
  datatype Stored = Absent | Malformed | Arr(records: seq<Record>)

  /** The most records the history keeps. */
  const Capacity: nat := 200

  /** The history as the save reads it: an array is taken as it is, and
      anything else (absent, unparsable, not an array) reads as empty. */
  function ReadHistory(st: Stored): (h: seq<Record>)
    ensures h == [] || st == Arr(h)
    ensures st.Arr? ==> h == st.records
  {
    if st.Arr? then st.records else []
  }

  /** `slice(0, 200)`: the first `Capacity` records, or all if fewer. */
  function Bounded(s: seq<Record>): (t: seq<Record>)
    ensures |t| == if |s| <= Capacity then |s| else Capacity
    ensures t <= s
  {
    if |s| <= Capacity then s else s[..Capacity]
  }

  /** `unshift` then `slice`: the new record comes first and the old ones
      follow it in their old order, the list growing by one until it
      reaches the capacity, beyond which the oldest records are dropped. */
  function PushFront(history: seq<Record>, payload: Record): (h: seq<Record>)
    ensures |h| == if |history| + 1 <= Capacity then |history| + 1 else Capacity
    ensures h[0] == payload
    ensures forall i :: 1 <= i < |h| ==> h[i] == history[i - 1]
  {
    Bounded([payload] + history)
  }

  datatype StatusState = StatusError | StatusSuccess

  /** The inline status line under the feedback buttons. */
  datatype Status = Status(text: string, state: StatusState)

  /** The analytics event a successful save emits: summaries only, never
      the snapshot itself. */
  datatype SaveEvent = SaveEvent(
    sentiment: Sentiment,
    actionIntent: Option<string>,
    verdict: Option<string>,
    feeBucket: Bucket)

  /** What one click on the save button leaves behind: the status line, the
      stored history value and the event emitted, if any. */
  datatype SaveOutcome = SaveOutcome(status: Status, stored: Stored, event: Option<SaveEvent>)

  /** The record a save with the given sentiment builds. */
  function Payload(sentiment: Sentiment, radios: seq<ActionOption>, snapshot: Option<Snapshot>, meta: Meta): Record {
    Record(sentiment, SelectedAction(radios), snapshot, meta)
  }

  /** The event fields read off the last snapshot; with no snapshot the
      verdict is missing and the fee bucket unknown. */
  function SnapshotVerdict(snapshot: Option<Snapshot>): Option<string> {
    if snapshot.Some? then Some(snapshot.value.verdict.Label()) else None
  }

  function SnapshotBucket(snapshot: Option<Snapshot>): Bucket {
    if snapshot.Some? then BucketOf(snapshot.value.feePercent) else BucketOf(NonFinite)
  }

  /** `saveMicroFeedback`. Without an active sentiment it only reports the
      error on the status line: storage is not written and nothing is
      emitted. Otherwise the stored history (empty when absent or unusable)
      gets the new record in front, is cut to the capacity and written back
      whole, the status reports success and a save event is emitted. */
  function SaveMicroFeedback(
    buttons: SentimentButtons,
    radios: seq<ActionOption>,
    snapshot: Option<Snapshot>,
    meta: Meta,
    stored: Stored): (o: SaveOutcome)
    ensures o.status.state == StatusError <==> ActiveSentiment(buttons).None?
    ensures o.status.state == StatusError ==> o.stored == stored && o.event.None?
    ensures o.status.state == StatusSuccess ==>
      && o.stored.Arr?
      && 1 <= |o.stored.records| <= Capacity
      && o.stored.records[0] == Payload(ActiveSentiment(buttons).value, radios, snapshot, meta)
      && o.event.Some?
  {
    match ActiveSentiment(buttons)
    case None =>
      SaveOutcome(Status("Please select helpful or not sure.", StatusError), stored, None)
    case Some(sentiment) =>
      var payload := Payload(sentiment, radios, snapshot, meta);
      var next := PushFront(ReadHistory(stored), payload);
      var event := SaveEvent(sentiment, payload.actionIntent, SnapshotVerdict(snapshot), SnapshotBucket(snapshot));
      SaveOutcome(Status("Saved!", StatusSuccess), Arr(next), Some(event))
  }

  /** A successful save keeps the old records that fit, in their old order,
      right behind the new one; absent or unusable stored data counts as an
      empty history. */
  lemma SaveKeepsHistoryOrder(
    buttons: SentimentButtons,
    radios: seq<ActionOption>,
    snapshot: Option<Snapshot>,
    meta: Meta,
    stored: Stored)
    requires ActiveSentiment(buttons).Some?
    ensures var o := SaveMicroFeedback(buttons, radios, snapshot, meta, stored);
      var before := ReadHistory(stored);
      && |o.stored.records| == (if |before| + 1 <= Capacity then |before| + 1 else Capacity)
      && forall i :: 1 <= i < |o.stored.records| ==> o.stored.records[i] == before[i - 1]
    ensures !stored.Arr? ==>
      SaveMicroFeedback(buttons, radios, snapshot, meta, stored).stored.records
        == [Payload(ActiveSentiment(buttons).value, radios, snapshot, meta)]
  {
  }

  /** Saving before a sentiment is chosen changes nothing stored. */
  lemma SaveWithoutSentimentIsRejected(
    radios: seq<ActionOption>,
    snapshot: Option<Snapshot>,
    meta: Meta,
    stored: Stored)
    ensures var o := SaveMicroFeedback(NoneActive, radios, snapshot, meta, stored);
      o.status.state == StatusError && o.stored == stored && o.event.None?
  {
  }

  /** The event's fee bucket is "unknown" exactly when no evaluation has
      produced a snapshot yet: a snapshot's fee is always finite. */
  lemma SaveEventBucketKnownIffEvaluated(
    cfg: QuoteConfig.Config,
    last: Option<QuoteForm>,
    buttons: SentimentButtons,
    radios: seq<ActionOption>,
    meta: Meta,
    stored: Stored)
    requires ActiveSentiment(buttons).Some?
    ensures var snapshot := if last.Some? then Some(UpdateResult(cfg, last.value).snapshot) else None;
      var o := SaveMicroFeedback(buttons, radios, snapshot, meta, stored);
      o.event.value.feeBucket == Unknown <==> last.None?
  {
  }

  /* ---------------- a session of saves ---------------- */

  /** One click on the save button, with the page state at that moment. */
  datatype SaveRequest = SaveRequest(
    buttons: SentimentButtons,
    radios: seq<ActionOption>,
    snapshot: Option<Snapshot>,
    meta: Meta)

  /** The stored value after the given clicks, in order. */
  function Replay(stored: Stored, reqs: seq<SaveRequest>): Stored
    decreases |reqs|
  {
    if reqs == [] then stored
    else
      var r := reqs[0];
      Replay(SaveMicroFeedback(r.buttons, r.radios, r.snapshot, r.meta, stored).stored, reqs[1..])
  }

  /** The records the accepted clicks build, in click order; clicks without
      a sentiment build none. */
  function SavedRecords(reqs: seq<SaveRequest>): seq<Record>
    decreases |reqs|
  {
    if reqs == [] then []
    else
      var r := reqs[0];
      match ActiveSentiment(r.buttons)
      case None => SavedRecords(reqs[1..])
      case Some(s) => [Payload(s, r.radios, r.snapshot, r.meta)] + SavedRecords(reqs[1..])
  }

  function Reverse<T>(s: seq<T>): (r: seq<T>)
    ensures |r| == |s|
    ensures forall i :: 0 <= i < |s| ==> r[i] == s[|s| - 1 - i]
  {
    if s == [] then [] else Reverse(s[1..]) + [s[0]]
  }

  /** Cutting twice is cutting once. */
  lemma {:induction false} BoundedAbsorbs(a: seq<Record>, b: seq<Record>)
    ensures Bounded(a + Bounded(b)) == Bounded(a + b)
  {
    if |b| > Capacity {
      var x, y := Bounded(a + Bounded(b)), Bounded(a + b);
      assert |x| == |y| == Capacity;
      forall i | 0 <= i < Capacity
        ensures x[i] == y[i]
      {
        if i >= |a| {
          assert x[i] == b[i - |a|];
        }
      }
    }
  }

  /** The records one click adds: one if it carries a sentiment. */
  function Accepted(r: SaveRequest): seq<Record> {
    match ActiveSentiment(r.buttons)
    case None => []
    case Some(s) => [Payload(s, r.radios, r.snapshot, r.meta)]
  }

  lemma OneSave(r: SaveRequest, stored: Stored)
    ensures ReadHistory(SaveMicroFeedback(r.buttons, r.radios, r.snapshot, r.meta, stored).stored)
      == if Accepted(r) == [] then ReadHistory(stored) else Bounded(Accepted(r) + ReadHistory(stored))
  {
  }

  lemma {:induction false} SavedRecordsStep(reqs: seq<SaveRequest>)
    requires reqs != []
    ensures Reverse(SavedRecords(reqs)) == Reverse(SavedRecords(reqs[1..])) + Accepted(reqs[0])
  {
    var tail := SavedRecords(reqs[1..]);
    if Accepted(reqs[0]) != [] {
      assert SavedRecords(reqs) == Accepted(reqs[0]) + tail;
      assert (Accepted(reqs[0]) + tail)[1..] == tail;
    }
  }

  /** Saving `acc` (at most one record) onto `h`, then the records `rev`
      on top, is saving `rev + acc` onto `h` in one go. */
  lemma {:induction false} ComposeStep(rev: seq<Record>, acc: seq<Record>, h: seq<Record>)
    ensures var mid := if acc == [] then h else Bounded(acc + h);
      (if rev == [] then mid else Bounded(rev + mid))
        == (if rev + acc == [] then h else Bounded((rev + acc) + h))
  {
    if acc == [] {
      assert rev + acc == rev;
    } else if rev == [] {
      assert rev + acc == acc;
    } else {
      BoundedAbsorbs(rev, acc + h);
      assert rev + (acc + h) == (rev + acc) + h;
    }
  }

  /** After a session of clicks the history is the accepted records, newest
      first, in front of what was stored before, cut to the capacity; a
      session in which every click was rejected leaves the stored history
      as it was, whatever its length. */
  lemma {:induction false} HistoryAfterSession(stored: Stored, reqs: seq<SaveRequest>)
    ensures ReadHistory(Replay(stored, reqs))
      == if SavedRecords(reqs) == [] then ReadHistory(stored)
         else Bounded(Reverse(SavedRecords(reqs)) + ReadHistory(stored))
    decreases |reqs|
  {
    if reqs != [] {
      var r := reqs[0];
      var next := SaveMicroFeedback(r.buttons, r.radios, r.snapshot, r.meta, stored).stored;
      OneSave(r, stored);
      HistoryAfterSession(next, reqs[1..]);
      SavedRecordsStep(reqs);
      var saved, tail := SavedRecords(reqs), SavedRecords(reqs[1..]);
      assert saved == [] <==> Reverse(saved) == [];
      assert tail == [] <==> Reverse(tail) == [];
      ComposeStep(Reverse(tail), Accepted(r), ReadHistory(stored));
    }
  }

  /** Starting from nothing stored, 201 accepted saves leave exactly 200
      records: the newest in front and the first one, if it differs from
      all later ones, gone. */
  lemma OldestDroppedAfterCapacityExceeded(reqs: seq<SaveRequest>)
    requires |reqs| == Capacity + 1
    requires forall i :: 0 <= i < |reqs| ==> ActiveSentiment(reqs[i].buttons).Some?
    ensures var h := ReadHistory(Replay(Absent, reqs));
      var recs := SavedRecords(reqs);
      && |recs| == Capacity + 1
      && |h| == Capacity
      && h[0] == recs[Capacity]
      && (recs[0] !in recs[1..] ==> recs[0] !in h)
  {
    AllAcceptedSaved(reqs);
    HistoryAfterSession(Absent, reqs);
    var recs := SavedRecords(reqs);
    assert Reverse(recs) + [] == Reverse(recs);
    if recs[0] !in recs[1..] {
      FirstNotKept(recs);
    }
  }

  lemma FirstNotKept(recs: seq<Record>)
    requires |recs| == Capacity + 1 && recs[0] !in recs[1..]
    ensures recs[0] !in Bounded(Reverse(recs))
  {
    var rev := Reverse(recs);
    var h := Bounded(rev);
    assert h == rev[..Capacity];
    forall i | 0 <= i < |h|
      ensures h[i] != recs[0]
    {
      assert h[i] == rev[i] == recs[Capacity - i];
      assert recs[Capacity - i] == recs[1..][Capacity - i - 1];
    }
  }

  /** When every click carries a sentiment, every click builds a record. */
  lemma {:induction false} AllAcceptedSaved(reqs: seq<SaveRequest>)
    requires forall i :: 0 <= i < |reqs| ==> ActiveSentiment(reqs[i].buttons).Some?
    ensures |SavedRecords(reqs)| == |reqs|
    decreases |reqs|
  {
    if reqs != [] {
      assert forall i :: 0 <= i < |reqs[1..]| ==> reqs[1..][i] == reqs[i + 1];
      AllAcceptedSaved(reqs[1..]);
    }
  }

  /** Three saves marked helpful, not sure and helpful, made at moments
      `m1`, `m2` and `m3`, leave three records, the latest first. */
  lemma ThreeSavesNewestFirst(radios: seq<ActionOption>, snapshot: Option<Snapshot>, m1: Meta, m2: Meta, m3: Meta)
    ensures var reqs := [
        SaveRequest(SetSentiment(Helpful), radios, snapshot, m1),
        SaveRequest(SetSentiment(NotSure), radios, snapshot, m2),
        SaveRequest(SetSentiment(Helpful), radios, snapshot, m3)];
      ReadHistory(Replay(Absent, reqs)) == [
        Payload(Helpful, radios, snapshot, m3),
        Payload(NotSure, radios, snapshot, m2),
        Payload(Helpful, radios, snapshot, m1)]
  {
    var reqs := [
        SaveRequest(SetSentiment(Helpful), radios, snapshot, m1),
        SaveRequest(SetSentiment(NotSure), radios, snapshot, m2),
        SaveRequest(SetSentiment(Helpful), radios, snapshot, m3)];
    HistoryAfterSession(Absent, reqs);
    var p1, p2, p3 := Payload(Helpful, radios, snapshot, m1), Payload(NotSure, radios, snapshot, m2), Payload(Helpful, radios, snapshot, m3);
    assert reqs[1..][1..] == [reqs[2]];
    assert SavedRecords([reqs[2]]) == [p3];
    assert SavedRecords(reqs[1..]) == [p2, p3];
    assert SavedRecords(reqs) == [p1, p2, p3];
    assert Reverse(SavedRecords(reqs)) + [] == [p3, p2, p1];
  }
}
