/** Mail counts of five minutes: which log events are new messages, and what each adds. */
module MonitorCounts {
  import opened Options

  /** What monitorEvent makes of a log row. */
  datatype Event =
    | Ignored
    | Unparseable
    | Removed(qid: string)
    | Submission(qid: string, pid: string, client: string, account: Option<string>, authenticated: bool)
    | Rejection(rejected: Option<string>, pid: string, stage: string, from: Option<string>)

  /** The same message logged twice has the same key. */
  datatype Key = Sent(qid: string, pid: string, client: string, account: Option<string>) | Refused(qid: string, pid: string, stage: string)

  datatype Counts = Counts(account: map<string, nat>, total: nat, received: map<string, nat>, rejected: map<string, nat>,
                           unauthenticated: map<string, nat>, accountUnknown: bool)

  const NoCounts := Counts(map[], 0, map[], map[], map[], false)

  function At(m: map<string, nat>, key: string): nat { if key in m then m[key] else 0 }

  function Add(m: map<string, nat>, key: string): map<string, nat> { m[key := At(m, key) + 1] }

  function KeyOf(e: Event): Option<Key> {
    match e
    case Submission(qid, pid, client, account, _) => Some(Sent(qid, pid, client, account))
    case Rejection(Some(qid), pid, stage, _) => Some(Refused(qid, pid, stage))
    case _ => None
  }

  /** Is the event a new message, and not one logged again? */
  predicate Counted(e: Event, seen: map<Key, int>) { (e.Submission? || e.Rejection?) && (KeyOf(e).None? || KeyOf(e).value !in seen) }

  function CountOne(c: Counts, e: Event): Counts {
    match e
    case Submission(_, _, client, account, authenticated) =>
      Counts(if authenticated && account.Some? then Add(c.account, account.value) else c.account,
             if authenticated then c.total + 1 else c.total,
             Add(c.received, client), c.rejected,
             if authenticated then c.unauthenticated else Add(c.unauthenticated, client),
             c.accountUnknown || (authenticated && account.None?))
    case Rejection(_, _, _, Some(client)) => c.(rejected := Add(c.rejected, client))
    case _ => c
  }

  function See(seen: map<Key, int>, e: Event, to: int): map<Key, int> {
    match e
    case Removed(qid) => map k | k in seen && k.qid != qid :: seen[k]
    case _ => if KeyOf(e).Some? then seen[KeyOf(e).value := to] else seen
  }

  datatype Pass = Pass(counts: Counts, seen: map<Key, int>)

  function Step(p: Pass, e: Event, to: int): Pass {
    Pass(if Counted(e, p.seen) then CountOne(p.counts, e) else p.counts, See(p.seen, e, to))
  }

  /** One pass over the rows of a bucket, in order. */
  function Count(events: seq<Event>, seen: map<Key, int>, to: int): Pass {
    if events == [] then Pass(NoCounts, seen) else Step(Count(events[..|events| - 1], seen, to), events[|events| - 1], to)
  }

  lemma CountSnoc(events: seq<Event>, e: Event, seen: map<Key, int>, to: int)
    ensures Count(events + [e], seen, to) == Step(Count(events, seen, to), e, to)
  {
    assert (events + [e])[..|events|] == events;
  }

  // ---------- which messages are known ----------

  /** The message is not removed from the queue by any of these events. */
  predicate Stays(events: seq<Event>, qid: string) { forall j {:trigger events[j]} :: 0 <= j < |events| ==> events[j] != Removed(qid) }

  /** The message was logged among these events, and not removed since. */
  ghost predicate Logged(events: seq<Event>, k: Key) {
    exists j {:trigger events[j]} :: 0 <= j < |events| && KeyOf(events[j]) == Some(k) && Stays(events[j + 1..], k.qid)
  }

  /** The message is known after these events: from them, or from before. */
  ghost predicate Known(events: seq<Event>, seen: map<Key, int>, k: Key) {
    Logged(events, k) || (k in seen && Stays(events, k.qid))
  }

  lemma StaysSnoc(events: seq<Event>, e: Event, qid: string)
    ensures Stays(events + [e], qid) <==> Stays(events, qid) && e != Removed(qid)
  {
    var all := events + [e];
    assert all[|events|] == e && forall j :: 0 <= j < |events| ==> all[j] == events[j];
  }

  lemma LoggedSnoc(events: seq<Event>, e: Event, k: Key)
    ensures Logged(events + [e], k) <==> KeyOf(e) == Some(k) || (Logged(events, k) && e != Removed(k.qid))
  {
    var all := events + [e];
    assert all[|events|] == e && all[|events| + 1..] == [];
    forall j | 0 <= j < |events| ensures all[j] == events[j] && (Stays(all[j + 1..], k.qid) <==> Stays(events[j + 1..], k.qid) && e != Removed(k.qid)) {
      assert all[j + 1..] == events[j + 1..] + [e];
      StaysSnoc(events[j + 1..], e, k.qid);
    }
    if Logged(events, k) && e != Removed(k.qid) {
      var j :| 0 <= j < |events| && KeyOf(events[j]) == Some(k) && Stays(events[j + 1..], k.qid);
      assert all[j] == events[j];
    }
  }

  /** The keys kept after a pass are exactly those of the messages that are known; one that was logged in the pass
      is dated by its end. */
  lemma {:induction false} SeenExact(events: seq<Event>, seen: map<Key, int>, to: int, k: Key)
    ensures var after := Count(events, seen, to).seen;
      && (k in after <==> Known(events, seen, k))
      && (k in after ==> after[k] == if Logged(events, k) then to else seen[k])
  {
    if events != [] {
      var front, e := events[..|events| - 1], events[|events| - 1];
      assert events == front + [e];
      SeenExact(front, seen, to, k);
      LoggedSnoc(front, e, k);
      StaysSnoc(front, e, k.qid);
    }
  }

  // ---------- what is counted ----------

  /** After these events, the event is a message of which nothing is known. */
  ghost predicate New(before: seq<Event>, seen: map<Key, int>, e: Event) {
    (e.Submission? || e.Rejection?) && forall k {:trigger Known(before, seen, k)} :: KeyOf(e) == Some(k) ==> !Known(before, seen, k)
  }

  /** Kinds of messages: authenticated, by an account, by none that can be told, through a client, through it and
      without authentication, and refused to a client. */
  datatype Kind = Authentic | By(account: string) | Nameless | Through(client: string) | Open(client: string) | Repelled(client: string)

  predicate Is(e: Event, kind: Kind) {
    match kind
    case Authentic => e.Submission? && e.authenticated
    case By(account) => e.Submission? && e.authenticated && e.account == Some(account)
    case Nameless => e.Submission? && e.authenticated && e.account.None?
    case Through(client) => e.Submission? && e.client == client
    case Open(client) => e.Submission? && e.client == client && !e.authenticated
    case Repelled(client) => e.Rejection? && e.from == Some(client)
  }

  /** How many of the events are new messages of a kind. */
  ghost function Number(events: seq<Event>, seen: map<Key, int>, kind: Kind): nat {
    if events == [] then 0
    else
      var front, e := events[..|events| - 1], events[|events| - 1];
      Number(front, seen, kind) + if New(front, seen, e) && Is(e, kind) then 1 else 0
  }

  /** The counts say that there are so many. */
  predicate Says(c: Counts, kind: Kind, n: nat) {
    match kind
    case Authentic => c.total == n
    case By(account) => Lists(c.account, account, n)
    case Nameless => c.accountUnknown <==> n > 0
    case Through(client) => Lists(c.received, client, n)
    case Open(client) => Lists(c.unauthenticated, client, n)
    case Repelled(client) => Lists(c.rejected, client, n)
  }

  /** So many are listed under the name, which is not listed at all if there are none. */
  predicate Lists(m: map<string, nat>, name: string, n: nat) { At(m, name) == n && (name in m <==> n > 0) }

  /** The counts of a bucket are the numbers of new messages of each kind. */
  lemma {:induction false} CountsExact(events: seq<Event>, seen: map<Key, int>, to: int, kind: Kind)
    ensures Says(Count(events, seen, to).counts, kind, Number(events, seen, kind))
  {
    hide New, CountOne, Counted, Is;
    if events != [] {
      var front, e := events[..|events| - 1], events[|events| - 1];
      CountsExact(front, seen, to, kind);
      CountedIsNew(front, seen, to, e);
      CountedOne(Count(front, seen, to).counts, e, kind, Number(front, seen, kind));
    }
  }

  /** One message more is one more of each kind it is of. */
  lemma CountedOne(c: Counts, e: Event, kind: Kind, n: nat)
    requires Says(c, kind, n)
    ensures Says(CountOne(c, e), kind, n + if Is(e, kind) then 1 else 0)
  {}

  lemma CountedIsNew(before: seq<Event>, seen: map<Key, int>, to: int, e: Event)
    ensures Counted(e, Count(before, seen, to).seen) <==> New(before, seen, e)
  {
    hide Known, Logged, Count;
    if KeyOf(e).Some? {
      SeenExact(before, seen, to, KeyOf(e).value);
      assert Known(before, seen, KeyOf(e).value) || !Known(before, seen, KeyOf(e).value);
    }
  }

  ghost function SumOf(m: map<string, nat>): nat
    decreases |m|
  {
    if m == map[] then 0 else var k :| k in m; m[k] + SumOf(m - {k})
  }

  lemma {:induction false} SumOfSplit(m: map<string, nat>, k: string)
    requires k in m
    ensures SumOf(m) == m[k] + SumOf(m - {k})
    decreases |m|
  {
    var j :| j in m && SumOf(m) == m[j] + SumOf(m - {j});
    if j != k {
      SumOfSplit(m - {j}, k);
      SumOfSplit(m - {k}, j);
      assert (m - {j}) - {k} == (m - {k}) - {j};
    }
  }

  lemma SumOfAdd(m: map<string, nat>, k: string)
    ensures SumOf(Add(m, k)) == SumOf(m) + 1
  {
    var m' := Add(m, k);
    SumOfSplit(m', k);
    assert m' - {k} == m - {k};
    if k in m { SumOfSplit(m, k); } else { assert m - {k} == m; }
  }

  /** The counts of a bucket add up: every authenticated submission is in the total, every submission is counted by
      its client, and every authenticated one by account unless some account could not be told. */
  lemma {:induction false} CountsAddUp(events: seq<Event>, seen: map<Key, int>, to: int)
    ensures var c := Count(events, seen, to).counts;
      && SumOf(c.received) == c.total + SumOf(c.unauthenticated)
      && SumOf(c.account) <= c.total && (SumOf(c.account) == c.total <==> !c.accountUnknown)
  {
    hide SumOf, Add;
    if events == [] {
      assert SumOf(map[]) == 0 by { EmptySum(); }
    } else {
      var front, e := events[..|events| - 1], events[|events| - 1];
      CountsAddUp(front, seen, to);
      var before := Count(front, seen, to);
      if e.Submission? && Counted(e, before.seen) {
        SumOfAdd(before.counts.received, e.client);
        SumOfAdd(before.counts.unauthenticated, e.client);
        if e.account.Some? { SumOfAdd(before.counts.account, e.account.value); }
      }
    }
  }

  lemma EmptySum()
    ensures SumOf(map[]) == 0
  {}
}
