/** The due query on the notification outbox (`list_due_outbox`), which compares timestamps as text. */
module OutboxQueue {
  import opened CodexModel
  import opened Timestamps

  /* ---- a query: select, order, limit ---- */

  function Insert(before: (nat, nat) -> bool, ids: seq<nat>, id: nat): seq<nat>
    decreases ids
  {
    if ids == [] || before(id, ids[0]) then [id] + ids else [ids[0]] + Insert(before, ids[1..], id)
  }

  /** The selected ids below `n`, in order. */
  function Query(selected: nat -> bool, before: (nat, nat) -> bool, n: nat): seq<nat>
    decreases n
  {
    if n == 0 then []
    else if selected(n - 1) then Insert(before, Query(selected, before, n - 1), n - 1)
    else Query(selected, before, n - 1)
  }

  function Limit(ids: seq<nat>, limit: nat): seq<nat> {
    if |ids| <= limit then ids else ids[..limit]
  }

  /** `sent_at IS NULL AND next_attempt_at <= ?` on the stored texts. */
  function SelectedByText(outbox: seq<OutboxItem>, now: Time): nat -> bool {
    (id: nat) => id < |outbox| && outbox[id].sentAt.None? && !Less(Stamp(now), Stamp(outbox[id].nextAttemptAt))
  }

  /** `ORDER BY next_attempt_at, id` on the stored texts. */
  function BeforeByText(outbox: seq<OutboxItem>): (nat, nat) -> bool {
    (a: nat, b: nat) =>
      a < |outbox| && b < |outbox|
      && (Less(Stamp(outbox[a].nextAttemptAt), Stamp(outbox[b].nextAttemptAt))
          || (Stamp(outbox[a].nextAttemptAt) == Stamp(outbox[b].nextAttemptAt) && a < b))
  }

  function ListDue(outbox: seq<OutboxItem>, now: Time, limit: nat): seq<nat> {
    Limit(Query(SelectedByText(outbox, now), BeforeByText(outbox), |outbox|), limit)
  }

  /* ---- what it means, in times ---- */

  ghost predicate InRange(outbox: seq<OutboxItem>) {
    forall k :: 0 <= k < |outbox| ==> Representable(outbox[k].nextAttemptAt)
  }

  predicate IsDue(outbox: seq<OutboxItem>, id: nat, now: Time) {
    id < |outbox| && outbox[id].sentAt.None? && outbox[id].nextAttemptAt <= now
  }

  predicate Earlier(outbox: seq<OutboxItem>, a: nat, b: nat) {
    a < |outbox| && b < |outbox|
    && (outbox[a].nextAttemptAt < outbox[b].nextAttemptAt
        || (outbox[a].nextAttemptAt == outbox[b].nextAttemptAt && a < b))
  }

  ghost predicate InTimeOrder(outbox: seq<OutboxItem>, ids: seq<nat>) {
    && (forall k :: 0 <= k < |ids| ==> ids[k] < |outbox|)
    && (forall i, j :: 0 <= i < j < |ids| ==> Earlier(outbox, ids[i], ids[j]))
  }

  lemma TextTestsAreTimeTests(outbox: seq<OutboxItem>, now: Time)
    requires InRange(outbox) && Representable(now)
    ensures forall id: nat :: SelectedByText(outbox, now)(id) <==> IsDue(outbox, id, now)
    ensures forall a: nat, b: nat :: BeforeByText(outbox)(a, b) <==> Earlier(outbox, a, b)
  {
    forall id: nat ensures SelectedByText(outbox, now)(id) <==> IsDue(outbox, id, now) {
      if id < |outbox| {
        StampOrder(now, outbox[id].nextAttemptAt);
      }
    }
    forall a: nat, b: nat ensures BeforeByText(outbox)(a, b) <==> Earlier(outbox, a, b) {
      if a < |outbox| && b < |outbox| {
        StampOrder(outbox[a].nextAttemptAt, outbox[b].nextAttemptAt);
      }
    }
  }

  lemma {:induction false} InsertedIds(before: (nat, nat) -> bool, ids: seq<nat>, id: nat, x: nat)
    ensures x in Insert(before, ids, id) <==> x == id || x in ids
    decreases ids
  {
    if ids != [] && !before(id, ids[0]) {
      InsertedIds(before, ids[1..], id, x);
      assert ids == [ids[0]] + ids[1..];
    }
  }

  lemma {:induction false} InsertKeepsTimeOrder(
    before: (nat, nat) -> bool, outbox: seq<OutboxItem>, ids: seq<nat>, id: nat)
    requires forall a: nat, b: nat :: before(a, b) <==> Earlier(outbox, a, b)
    requires InTimeOrder(outbox, ids) && id < |outbox| && id !in ids
    ensures InTimeOrder(outbox, Insert(before, ids, id))
    decreases ids
  {
    if ids == [] {
    } else if before(id, ids[0]) {
      var r := [id] + ids;
      forall j | 1 <= j < |r| ensures Earlier(outbox, id, r[j]) {
        assert r[j] == ids[j - 1];
      }
    } else {
      var rest := ids[1..];
      InsertKeepsTimeOrder(before, outbox, rest, id);
      var r := Insert(before, rest, id);
      forall j | 0 <= j < |r| ensures Earlier(outbox, ids[0], r[j]) {
        InsertedIds(before, rest, id, r[j]);
        if r[j] != id {
          var k :| 0 <= k < |rest| && rest[k] == r[j];
          assert Earlier(outbox, ids[0], ids[k + 1]);
        }
      }
    }
  }

  lemma {:induction false} QuerySelects(selected: nat -> bool, before: (nat, nat) -> bool, n: nat, id: nat)
    ensures id in Query(selected, before, n) <==> id < n && selected(id)
    decreases n
  {
    if n > 0 {
      QuerySelects(selected, before, n - 1, id);
      if selected(n - 1) {
        InsertedIds(before, Query(selected, before, n - 1), n - 1, id);
      }
    }
  }

  lemma {:induction false} QueryIsInOrder(
    selected: nat -> bool, before: (nat, nat) -> bool, outbox: seq<OutboxItem>, n: nat)
    requires forall a: nat, b: nat :: before(a, b) <==> Earlier(outbox, a, b)
    requires n <= |outbox|
    ensures InTimeOrder(outbox, Query(selected, before, n))
    decreases n
  {
    if n > 0 {
      var ids := Query(selected, before, n - 1);
      QueryIsInOrder(selected, before, outbox, n - 1);
      if selected(n - 1) {
        QuerySelects(selected, before, n - 1, n - 1);
        InsertKeepsTimeOrder(before, outbox, ids, n - 1);
      } else {
        assert Query(selected, before, n) == ids;
      }
    }
  }

  /** `ids` answers the query: unsent rows due by `now`, in time order and each once; a due row is left
      out only when `limit` earlier ones fill the answer. */
  ghost predicate Answers(outbox: seq<OutboxItem>, now: Time, limit: nat, ids: seq<nat>) {
    && |ids| <= limit && InTimeOrder(outbox, ids)
    && (forall k :: 0 <= k < |ids| ==> IsDue(outbox, ids[k], now))
    && (forall id: nat :: IsDue(outbox, id, now) && id !in ids ==>
      |ids| == limit && forall k :: 0 <= k < |ids| ==> Earlier(outbox, ids[k], id))
  }

  lemma LimitedQueryAnswers(outbox: seq<OutboxItem>, now: Time, limit: nat, all: seq<nat>)
    requires InTimeOrder(outbox, all)
    requires forall id: nat :: id in all <==> IsDue(outbox, id, now)
    ensures Answers(outbox, now, limit, Limit(all, limit))
  {
    var ids := Limit(all, limit);
    forall k | 0 <= k < |ids| ensures IsDue(outbox, ids[k], now) {
      assert ids[k] == all[k] && all[k] in all;
    }
    forall id: nat | IsDue(outbox, id, now) && id !in ids
      ensures |ids| == limit && forall k :: 0 <= k < |ids| ==> Earlier(outbox, ids[k], id)
    {
      var j :| 0 <= j < |all| && all[j] == id;
      assert forall k :: 0 <= k < |ids| ==> ids[k] == all[k] && k != j;
    }
  }

  lemma DueQueryIsExact(outbox: seq<OutboxItem>, now: Time, limit: nat)
    requires InRange(outbox) && Representable(now)
    ensures Answers(outbox, now, limit, ListDue(outbox, now, limit))
  {
    var selected, before := SelectedByText(outbox, now), BeforeByText(outbox);
    TextTestsAreTimeTests(outbox, now);
    QueryIsInOrder(selected, before, outbox, |outbox|);
    var all := Query(selected, before, |outbox|);
    forall id: nat ensures id in all <==> IsDue(outbox, id, now) {
      QuerySelects(selected, before, |outbox|, id);
      assert selected(id) <==> IsDue(outbox, id, now);
    }
    LimitedQueryAnswers(outbox, now, limit, all);
  }

  lemma NotEarlier(outbox: seq<OutboxItem>, now: Time, limit: nat, a: seq<nat>, b: seq<nat>, k: nat)
    requires Answers(outbox, now, limit, a) && Answers(outbox, now, limit, b)
    requires k < |a| && k < |b| && forall j :: 0 <= j < k ==> a[j] == b[j]
    ensures !Earlier(outbox, a[k], b[k])
  {
    assert IsDue(outbox, a[k], now);
    if a[k] in b {
      var j :| 0 <= j < |b| && b[j] == a[k];
      assert j >= k;
    }
  }

  lemma {:induction false} AgreeUpTo(
    outbox: seq<OutboxItem>, now: Time, limit: nat, a: seq<nat>, b: seq<nat>, k: nat)
    requires Answers(outbox, now, limit, a) && Answers(outbox, now, limit, b)
    requires k <= |a| && k <= |b|
    ensures forall j :: 0 <= j < k ==> a[j] == b[j]
    decreases k
  {
    if k > 0 {
      AgreeUpTo(outbox, now, limit, a, b, k - 1);
      NotEarlier(outbox, now, limit, a, b, k - 1);
      NotEarlier(outbox, now, limit, b, a, k - 1);
    }
  }

  lemma NoLonger(outbox: seq<OutboxItem>, now: Time, limit: nat, a: seq<nat>, b: seq<nat>)
    requires Answers(outbox, now, limit, a) && Answers(outbox, now, limit, b)
    ensures |b| <= |a|
  {
    if |a| < |b| {
      var next := b[|a|];
      assert IsDue(outbox, next, now);
      AgreeUpTo(outbox, now, limit, a, b, |a|);
    }
  }

  /** One list answers the query. */
  lemma AnswerIsUnique(outbox: seq<OutboxItem>, now: Time, limit: nat, a: seq<nat>, b: seq<nat>)
    requires Answers(outbox, now, limit, a) && Answers(outbox, now, limit, b)
    ensures a == b
  {
    NoLonger(outbox, now, limit, a, b);
    NoLonger(outbox, now, limit, b, a);
    AgreeUpTo(outbox, now, limit, a, b, |a|);
  }
}
