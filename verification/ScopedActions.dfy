/** A selection being executed, one request after the other. */
module ScopedActions {
  import opened Options
  import opened UidSets
  import opened ScopedGroup
  import opened ScopedLedger

  datatype Phase = Ready | Running | Completed | Errored | Stopped

  /** Why a request stopped; All and Threw are for the loop alone. */
  datatype Reason = All | Budget | Batch | Threw | Complete | StaleStop | ErrorStop

  datatype Receipt = Receipt(sequence: nat, delta: Totals, totals: Totals, failed: seq<Failure>, next: Option<nat>,
                             remaining: nat, reason: Reason, error: Option<Error>)

  datatype Refusal = Expired | NotCurrent | TooMuch

  datatype Reply = Replayed(receipt: Receipt) | Ran(receipt: Receipt) | Refused(why: Refusal) | Escaped

  /** What one planned batch of a call has to do with: whether the selection is disposed of or the store closed
      before it, whether time is short; if the target folder is still to be created, whether opening the source
      folder fails, whether that folder was replaced, and how looking up and creating the target end; and the
      conversation of the run. */
  datatype Turn = Turn(gone: bool, short: bool, fence: Option<Fault>, stale: bool, folders: Option<Fault>, created: Option<Fault>, talk: Talk)

  /** The target folder is there or not needed, is still to be created, or its one creation failed before. */
  datatype Target = Known | ToCreate | Tried

  /** A batch as it was planned, what stood when its turn came, and the replies it was given. */
  datatype Step = Step(g: nat, validity: nat, uids: seq<nat>, target: Target, pace: Pace, turn: Turn)

  /** Messages of one mailbox. */
  function Refs(uids: seq<nat>, validity: nat): set<Ref> { set u | u in uids :: Ref(u, validity) }

  function RefsOf(step: Step): set<Ref> { Refs(step.uids, step.validity) }

  /** The step with another conversation. */
  function With(step: Step, talk: Talk): Step { step.(turn := step.turn.(talk := talk)) }

  function Quietly(f: Fault): End { if f == SessionLost then Severs(false) else Over(false) }

  /** How the turn ends, and whether a message gets its outcome in it: by the replies. */
  function StepEnd(action: Action, step: Step): End {
    var turn := step.turn;
    if turn.gone then Severs(false)
    else if turn.short then Over(false)
    else if step.target != Known && turn.fence.Some? then Quietly(turn.fence.value)
    else if step.target != Known && (turn.stale || step.target == Tried) then Over(false)
    else if step.target == ToCreate && turn.folders.Some? then Quietly(turn.folders.value)
    else if step.target == ToCreate && turn.created.Some? then Quietly(turn.created.value)
    else EndOf(action, turn.talk, RefsOf(step), step.pace, MIN_START_MS)
  }

  /** The turn gets to its run. */
  predicate Opens(step: Step) {
    var turn := step.turn;
    !turn.gone && !turn.short
    && (step.target == Known || (step.target == ToCreate && turn.fence.None? && !turn.stale && turn.folders.None? && turn.created.None?))
  }

  /** The creation of the target folder was attempted, now or before. */
  predicate Attempted(step: Step) {
    step.target == Tried || (step.target == ToCreate && step.turn.fence.None? && !step.turn.stale && step.turn.folders.None?)
  }

  /** The error of a turn that does not get to its run. */
  function Hindrance(step: Step): Option<Error>
    requires !Opens(step)
  {
    var turn := step.turn;
    if turn.gone then Some(Gone)
    else if turn.short then None
    else if turn.fence.Some? then ErrorOf(turn.fence)
    else if turn.stale then Some(StaleScope)
    else if step.target == Tried then Some(App("MAIL_REJECTED"))
    else if turn.folders.Some? then ErrorOf(turn.folders)
    else ErrorOf(turn.created)
  }

  /** The error a client is told of after this turn, by the replies: the folder was replaced, or the target folder is
      refused.  Running out of time is told only after an attempt to create the target; a run tells no other error. */
  function Shown(step: Step): Option<Error> {
    if Opens(step) then
      if step.turn.talk.selected.None? && !Uniform(RefsOf(step), step.turn.talk.validity) then Some(StaleScope) else None
    else
      var e := Hindrance(step);
      if e == Some(Exhausted) && !Attempted(step) then None else e
  }

  /** What one batch leaves for its messages, given the error of its run and whether a command is in doubt. */
  ghost predicate RowFate(action: Action, talk: Talk, refs: set<Ref>, all: seq<nat>, uids: seq<nat>, row: Row, e: Option<Error>, doubt: bool) {
    && |row| == |all| && (doubt ==> exists i :: 0 <= i < |row| && all[i] in uids && row[i] == Some(Unknown))
    && forall i {:trigger row[i]} :: 0 <= i < |row| && all[i] in uids ==>
      match row[i]
      case None => !doubt && e.Some? && !Refuses(e) && (Searched(talk, refs) ==> all[i] in talk.found)
      case Some(status) => Fate(WayOf(action, talk, refs), Searched(talk, refs), talk.found, status, all[i], e, doubt)
  }

  function Verdict(thrown: Option<Error>, exhausted: bool, unknown: bool): Reason {
    if thrown.Some? then Threw else if exhausted then Budget else if unknown then Batch else All
  }

  /** The run of a batch went as the replies say, and so did its messages. */
  ghost predicate RunDone(action: Action, talk: Talk, refs: set<Ref>, all: seq<nat>, uids: seq<nat>, row: Row, thrown: Option<Error>, verdict: Reason) {
    exists e, doubt {:trigger RowFate(action, talk, refs, all, uids, row, e, doubt)} ::
      && Caused(WayOf(action, talk, refs), action, talk.batches, e, doubt) && RowFate(action, talk, refs, all, uids, row, e, doubt)
      && thrown == (if !doubt && (e == Some(StaleScope) || e == Some(NoSession)) then e else None)
      && verdict == Verdict(thrown, e == Some(Exhausted), doubt)
  }

  /** A turn went as the replies say: it was hindered, or its run was made. */
  ghost predicate StepDone(action: Action, manifest: seq<Group>, rows: seq<Row>, step: Step, thrown: Option<Error>, verdict: Reason) {
    step.g < |manifest| == |rows| && |rows[step.g]| == |manifest[step.g].uids| &&
    if Opens(step) then RunDone(action, step.turn.talk, RefsOf(step), manifest[step.g].uids, step.uids, rows[step.g], thrown, verdict)
    else
      && thrown == Hindrance(step) && verdict == (if thrown.Some? then Threw else Budget)
      && forall i {:trigger rows[step.g][i]} :: 0 <= i < |rows[step.g]| && manifest[step.g].uids[i] in step.uids ==> rows[step.g][i].None?
  }

  /** A failure that is reported stands for a message of the turn, and bears the code of the refusal or of the doubt. */
  ghost predicate FailureDue(action: Action, manifest: seq<Group>, rows: seq<Row>, step: Step, f: Failure) {
    f.g == step.g < |manifest| == |rows| && Charged(action, step.turn.talk, RefsOf(step), manifest[f.g].uids, step.uids, rows[f.g], f)
  }

  ghost predicate Charged(action: Action, talk: Talk, refs: set<Ref>, all: seq<nat>, uids: seq<nat>, row: Row, f: Failure) {
    && f.index < |row| == |all| && all[f.index] in uids
    && match row[f.index]
       case Some(Failed) => f.retryable == (f.code == UNAVAILABLE)
         && exists e {:trigger CodeOf(e)} :: Caused(WayOf(action, talk, refs), action, talk.batches, e, false) && f.code == CodeOf(e)
       case Some(Unknown) => f.code == UNCONFIRMED && !f.retryable
       case _ => false
  }

  ghost predicate AllCharged(action: Action, talk: Talk, refs: set<Ref>, all: seq<nat>, uids: seq<nat>, row: Row, g: nat, news: seq<Failure>) {
    forall k {:trigger news[k]} :: 0 <= k < |news| ==> news[k].g == g && Charged(action, talk, refs, all, uids, row, news[k])
  }

  /** So do all of them. */
  ghost predicate NewsDue(action: Action, manifest: seq<Group>, rows: seq<Row>, steps: seq<Step>, news: seq<Failure>) {
    forall k {:trigger news[k]} :: 0 <= k < |news| ==> FailureOf(action, manifest, rows, steps, news[k])
  }

  ghost predicate FailureOf(action: Action, manifest: seq<Group>, rows: seq<Row>, steps: seq<Step>, f: Failure) {
    exists i {:trigger steps[i]} :: 0 <= i < |steps| && FailureDue(action, manifest, rows, steps[i], f)
  }

  lemma NoNews(action: Action, manifest: seq<Group>, rows: seq<Row>, steps: seq<Step>)
    ensures NewsDue(action, manifest, rows, steps, [])
  {}

  lemma NewsOn(action: Action, manifest: seq<Group>, before: seq<Row>, rows: seq<Row>, steps: seq<Step>, said: seq<Step>, news: seq<Failure>, more: seq<Failure>)
    requires NewsDue(action, manifest, before, steps, news) && Kept(before, rows) && NewsDue(action, manifest, rows, said, more)
    ensures NewsDue(action, manifest, rows, steps + said, news + more)
  {
    hide Charged, RowKept;
    var all, every := steps + said, news + more;
    forall k | 0 <= k < |every| ensures FailureOf(action, manifest, rows, all, every[k]) {
      if k < |news| {
        assert FailureOf(action, manifest, before, steps, news[k]);
        var i :| 0 <= i < |steps| && FailureDue(action, manifest, before, steps[i], news[k]);
        ChargedStill(action, steps[i].turn.talk, RefsOf(steps[i]), manifest[steps[i].g].uids, steps[i].uids, before[steps[i].g], rows[steps[i].g], news[k]);
        assert all[i] == steps[i] && every[k] == news[k];
      } else {
        assert FailureOf(action, manifest, rows, said, more[k - |news|]);
        var i :| 0 <= i < |said| && FailureDue(action, manifest, rows, said[i], more[k - |news|]);
        assert all[|steps| + i] == said[i] && every[k] == more[k - |news|];
      }
    }
  }

  lemma ChargedStill(action: Action, talk: Talk, refs: set<Ref>, all: seq<nat>, uids: seq<nat>, row: Row, row': Row, f: Failure)
    requires Charged(action, talk, refs, all, uids, row, f) && RowKept(row, row')
    ensures Charged(action, talk, refs, all, uids, row', f)
  {
    hide Caused, WayOf, CodeOf;
    assert row'[f.index] == row[f.index];
  }

  /** A call of execute that went past its checks: what it recorded, whether it left a receipt, the turns it took
      with the replies they met, and whether the selection or the store was gone at the end. */
  datatype Call = Call(delta: Totals, receipt: Option<Receipt>, steps: seq<Step>, closing: bool)

  function Sum(t: Totals): nat { t.processed + t.skipped + t.failed }

  predicate Severed(e: Option<Error>) { e == Some(NoSession) || e == Some(Gone) }

  /** The last turn goes down with the session, the selection or the store. */
  predicate Cut(action: Action, steps: seq<Step>) { steps != [] && StepEnd(action, steps[|steps| - 1]).Severs? }

  /** So does the call. */
  predicate Broken(action: Action, steps: seq<Step>, closing: bool) { Cut(action, steps) || closing }

  /** By the replies, a message got its outcome in one of the turns. */
  predicate AnySettled(action: Action, steps: seq<Step>) { exists i :: 0 <= i < |steps| && StepEnd(action, steps[i]).settled }

  lemma SettledSnoc(action: Action, steps: seq<Step>, step: Step)
    ensures AnySettled(action, steps + [step]) <==> AnySettled(action, steps) || StepEnd(action, step).settled
    ensures Cut(action, steps + [step]) <==> StepEnd(action, step).Severs?
  {
    hide StepEnd;
    var all := steps + [step];
    assert all[|steps|] == step;
    assert forall i :: 0 <= i < |steps| ==> all[i] == steps[i];
  }

  lemma SettledConcat(action: Action, a: seq<Step>, b: seq<Step>)
    ensures AnySettled(action, a + b) <==> AnySettled(action, a) || AnySettled(action, b)
    ensures b != [] ==> (Cut(action, a + b) <==> Cut(action, b))
  {
    hide StepEnd;
    assert forall i :: 0 <= i < |a| ==> (a + b)[i] == a[i];
    assert forall i :: 0 <= i < |b| ==> (a + b)[|a| + i] == b[i];
  }

  function Plus(a: Totals, b: Totals): Totals { Totals(a.processed + b.processed, a.skipped + b.skipped, a.failed + b.failed) }

  const Zero := Totals(0, 0, 0)

  function SumAll(calls: seq<Call>): Totals {
    if calls == [] then Zero else Plus(SumAll(calls[..|calls| - 1]), calls[|calls| - 1].delta)
  }

  /** The sum of the deltas a client gets to see. */
  function SumReceipts(calls: seq<Call>): Totals {
    if calls == [] then Zero
    else if calls[|calls| - 1].receipt.Some? then Plus(SumReceipts(calls[..|calls| - 1]), calls[|calls| - 1].receipt.value.delta)
    else SumReceipts(calls[..|calls| - 1])
  }

  /** A receipt reports what its call recorded; there is none exactly if the replies broke the call off; and
      something was recorded exactly if the replies settled a message. */
  predicate Honored(action: Action, c: Call) {
    && (c.receipt.Some? ==> c.receipt.value.delta == c.delta)
    && (c.receipt.None? <==> Broken(action, c.steps, c.closing))
    && (c.delta == Zero <==> !AnySettled(action, c.steps))
  }

  predicate Truthful(action: Action, calls: seq<Call>) { forall i {:trigger calls[i]} :: 0 <= i < |calls| ==> Honored(action, calls[i]) }

  /** The replies did not break a call off that they had settled a message in. */
  predicate NothingLost(action: Action, calls: seq<Call>) { forall i {:trigger calls[i]} :: 0 <= i < |calls| ==> !Loses(action, calls[i]) }

  predicate Loses(action: Action, c: Call) { Broken(action, c.steps, c.closing) && AnySettled(action, c.steps) }

  predicate AtMost(a: Totals, b: Totals) { a.processed <= b.processed && a.skipped <= b.skipped && a.failed <= b.failed }

  lemma SumAllSnoc(calls: seq<Call>, c: Call)
    ensures SumAll(calls + [c]) == Plus(SumAll(calls), c.delta)
    ensures SumReceipts(calls + [c]) == if c.receipt.Some? then Plus(SumReceipts(calls), c.receipt.value.delta) else SumReceipts(calls)
  {
    assert (calls + [c])[..|calls|] == calls;
  }

  lemma SplitLast(action: Action, calls: seq<Call>, c: Call)
    ensures Truthful(action, calls + [c]) <==> Truthful(action, calls) && Honored(action, c)
    ensures NothingLost(action, calls + [c]) <==> NothingLost(action, calls) && !Loses(action, c)
  {
    hide Honored, Loses;
    var all := calls + [c];
    assert all[|calls|] == c && forall i :: 0 <= i < |calls| ==> all[i] == calls[i];
  }

  lemma SumsOfNone(action: Action)
    ensures SumAll([]) == SumReceipts([]) == Zero && NothingLost(action, [])
  {}

  /** The deltas of the receipts add up to the totals exactly when the replies break no call off, by the end of the
      session, of the selection or of the store, in which they have settled a message. */
  lemma {:induction false} ReceiptsAddUp(action: Action, calls: seq<Call>)
    requires Truthful(action, calls)
    ensures SumReceipts(calls) == SumAll(calls) <==> NothingLost(action, calls)
    ensures AtMost(SumReceipts(calls), SumAll(calls))
  {
    hide SumAll, SumReceipts, Truthful, NothingLost, Broken, AnySettled;
    if calls == [] {
      SumsOfNone(action);
    } else {
      var front, last := calls[..|calls| - 1], calls[|calls| - 1];
      assert calls == front + [last];
      SumAllSnoc(front, last);
      SplitLast(action, front, last);
      ReceiptsAddUp(action, front);
    }
  }

  // ---------- messages ----------

  predicate Shaped(manifest: seq<Group>, rows: seq<Row>) {
    |rows| == |manifest| && forall g {:trigger rows[g]} {:trigger manifest[g]} :: 0 <= g < |manifest| ==> |rows[g]| == |manifest[g].uids| && Uids(manifest[g].uids)
  }

  /** Only messages recorded as processed or unknown can ever have been sent. */
  predicate Clean(uids: seq<nat>, row: Row, touched: set<nat>) {
    |uids| == |row| && forall i {:trigger row[i]} :: 0 <= i < |row| && uids[i] in touched ==> row[i] == Some(Processed) || row[i] == Some(Unknown)
  }

  predicate AllClean(manifest: seq<Group>, rows: seq<Row>, touched: seq<set<nat>>) {
    |touched| == |manifest| == |rows| && forall g {:trigger rows[g]} :: 0 <= g < |manifest| ==> Clean(manifest[g].uids, rows[g], touched[g])
  }

  /** Outcomes are never changed, only added. */
  predicate Kept(rows: seq<Row>, rows': seq<Row>) {
    |rows'| == |rows| && forall g {:trigger rows'[g]} :: 0 <= g < |rows| ==> RowKept(rows[g], rows'[g])
  }

  predicate RowKept(row: Row, row': Row) {
    |row'| == |row| && forall i {:trigger row'[i]} :: 0 <= i < |row| && row[i].Some? ==> row'[i] == row[i]
  }

  lemma KeptTrans(a: seq<Row>, b: seq<Row>, c: seq<Row>)
    requires Kept(a, b) && Kept(b, c)
    ensures Kept(a, c)
  {
    forall g | 0 <= g < |a| ensures RowKept(a[g], c[g]) {
      assert RowKept(a[g], b[g]) && RowKept(b[g], c[g]);
    }
  }

  /** What one batch's outcomes make of a group's row. */
  predicate RowAfter(uids: seq<nat>, row: Row, row': Row, outcomes: seq<Outcome>, done: nat)
    requires done <= |outcomes|
  {
    |row'| == |row| == |uids| && forall i {:trigger row'[i]} :: 0 <= i < |row| ==>
      if row[i].Some? then row'[i] == row[i]
      else (row'[i].Some? ==> exists k :: 0 <= k < done && outcomes[k].ref.uid == uids[i] && row'[i] == Some(outcomes[k].status))
           && (row'[i].None? ==> forall k :: 0 <= k < done ==> outcomes[k].ref.uid != uids[i])
  }

  /** Each of these failures is the outcome of a message that was reported as failed or unknown. */
  ghost predicate Reports(uids: seq<nat>, row: Row, g: nat, outcomes: seq<Outcome>, news: seq<Failure>) {
    forall j {:trigger news[j]} :: 0 <= j < |news| ==> Reported1(uids, row, g, outcomes, news[j])
  }

  ghost predicate Reported1(uids: seq<nat>, row: Row, g: nat, outcomes: seq<Outcome>, f: Failure) {
    f.g == g && f.index < |row| == |uids| && exists k {:trigger outcomes[k]} :: 0 <= k < |outcomes| && Tells(uids, row, outcomes[k], f)
  }

  predicate Tells(uids: seq<nat>, row: Row, o: Outcome, f: Failure)
    requires f.index < |row| == |uids|
  {
    && o.ref.uid == uids[f.index] && row[f.index] == Some(o.status) && (o.status == Failed || o.status == Unknown)
    && f.code == o.code && f.retryable == (o.status == Failed && o.retryable)
  }

  lemma ReportsMore(uids: seq<nat>, row: Row, row': Row, g: nat, outcomes: seq<Outcome>, news: seq<Failure>, k: nat, at: Option<nat>, failure: Option<Failure>)
    requires Reports(uids, row, g, outcomes, news) && k < |outcomes| && |row| == |uids|
    requires at.Some? ==> at.value < |uids| && uids[at.value] == outcomes[k].ref.uid
    requires row' == if at.Some? && row[at.value].None? then row[at.value := Some(outcomes[k].status)] else row
    requires failure.Some? ==> at.Some? && row[at.value].None? && (outcomes[k].status == Failed || outcomes[k].status == Unknown)
    requires failure.Some? ==> failure.value == Failure(g, at.value, outcomes[k].code, outcomes[k].status != Unknown && outcomes[k].retryable)
    ensures Reports(uids, row', g, outcomes, news + if failure.Some? then [failure.value] else [])
  {
    var every := news + if failure.Some? then [failure.value] else [];
    forall j | 0 <= j < |every| ensures Reported1(uids, row', g, outcomes, every[j]) {
      if j < |news| {
        assert Reported1(uids, row, g, outcomes, news[j]);
      } else {
        assert Tells(uids, row', outcomes[k], failure.value);
      }
    }
  }

  /** Where a UID stands in a group. */
  method Position(uids: seq<nat>, uid: nat) returns (at: Option<nat>)
    ensures at.Some? ==> at.value < |uids| && uids[at.value] == uid
    ensures at.None? ==> uid !in uids
  {
    for i := 0 to |uids|
      invariant forall j {:trigger uids[j]} :: 0 <= j < i ==> uids[j] != uid
    {
      if uids[i] == uid {
        return Some(i);
      }
    }
    at := None;
  }

  lemma RowBefore(uids: seq<nat>, row: Row, g: nat, outcomes: seq<Outcome>)
    ensures |row| == |uids| ==> RowAfter(uids, row, row, outcomes, 0)
    ensures Reports(uids, row, g, outcomes, [])
  {}

  lemma RowAfterMore(uids: seq<nat>, row: Row, row': Row, outcomes: seq<Outcome>, done: nat, row'': Row, at: Option<nat>)
    requires Uids(uids) && done < |outcomes| && RowAfter(uids, row, row', outcomes, done)
    requires at.Some? ==> at.value < |uids| && uids[at.value] == outcomes[done].ref.uid
    requires at.None? ==> outcomes[done].ref.uid !in uids
    requires row'' == if at.Some? && row'[at.value].None? then row'[at.value := Some(outcomes[done].status)] else row'
    ensures RowAfter(uids, row, row'', outcomes, done + 1)
  {
    var uid := outcomes[done].ref.uid;
    assert at.Some? ==> forall i :: 0 <= i < |uids| && uids[i] == uid ==> i == at.value;
    assert at.None? ==> forall i :: 0 <= i < |uids| ==> uids[i] != uid;
  }

  /** The message is one of the group and has no outcome yet. */
  predicate Unsettled(uids: seq<nat>, row: Row, uid: nat) { uid in uids && |row| == |uids| && forall i {:trigger row[i]} :: 0 <= i < |row| && uids[i] == uid ==> row[i].None? }

  /** One message, and everything goes well for it. */
  predicate Fine(action: Action, talk: Talk, validity: nat, uids: seq<nat>) {
    |uids| == 1 && Smooth(action, talk, {Ref(uids[0], validity)}, MIN_START_MS)
  }

  class Selection {
    const manifest: seq<Group>
    const action: Action
    const batches: seq<BatchState>
    const initialTotal: nat
    var rows: seq<Row>
    var totals: Totals
    var failures: seq<Failure>
    var errorCounts: map<string, nat>
    var phase: Phase
    var cursor: Option<nat>
    var receipts: map<nat, Receipt>
    var sequence: nat
    var unused: nat                // cursors are random; here they are counted
    const targetNeedsCreate: bool
    var targetCreateAttempted: bool
    var targetReady: bool
    ghost var calls: seq<Call>
    ghost var touched: seq<set<nat>>   // per group, every UID that was ever sent

    /** The books: totals, failure list and counters agree with the outcomes. */
    ghost predicate Booked()
      reads this
    {
      Shaped(manifest, rows) && Ledger(rows, totals, failures, errorCounts) && initialTotal == Size(rows)
    }

    /** A new selection, as bindAction leaves it. */
    constructor (manifest: seq<Group>, action: Action, batches: seq<BatchState>, needsCreate: bool, unused: nat)
      requires |batches| == |manifest| && forall g {:trigger manifest[g]} :: 0 <= g < |manifest| ==> Uids(manifest[g].uids)
      requires forall g {:trigger batches[g]} :: 0 <= g < |batches| ==> MIN_SIZE <= batches[g].size <= batches[g].max
      ensures Valid() && this.manifest == manifest && this.batches == batches && totals == Zero && failures == [] && phase == Ready
      ensures this.action == action && cursor == Some(unused) && targetNeedsCreate == needsCreate
      ensures receipts == map[] && calls == [] && rows == seq(|manifest|, g requires 0 <= g < |manifest| => seq(|manifest[g].uids|, _ => None))
    {
      this.manifest, this.action, this.batches := manifest, action, batches;
      rows := seq(|manifest|, g requires 0 <= g < |manifest| => seq(|manifest[g].uids|, _ => None));
      initialTotal := SumOf(manifest);
      totals, failures, errorCounts, phase := Zero, [], map[], Ready;
      cursor, receipts, sequence, this.unused := Some(unused), map[], 0, unused + 1;
      this.targetNeedsCreate, targetCreateAttempted, targetReady := needsCreate, false, false;
      calls, touched := [], seq(|manifest|, _ => {});
      new;
      Untold(manifest, rows);
      assert forall code :: Counted([], map[], code);
    }

    /** What onOutcome does with one outcome: the first one of a message counts. */
    method Settle(g: nat, i: nat, o: Outcome) returns (failure: Option<Failure>)
      requires Booked() && g < |rows| && i < |rows[g]| && (o.status == Unknown ==> !o.retryable)
      modifies this`rows, this`totals, this`failures, this`errorCounts
      ensures Booked()
      ensures rows == if old(rows[g][i]).Some? then old(rows) else old(rows)[g := old(rows[g])[i := Some(o.status)]]
      ensures AtMost(old(totals), totals) && (old(rows[g][i]).None? ==> Sum(totals) == Sum(old(totals)) + 1) && (old(rows[g][i]).Some? ==> totals == old(totals))
      ensures failures == old(failures) + if failure.Some? then [failure.value] else []
      ensures failure.Some? <==> old(rows[g][i]).None? && (o.status == Failed || o.status == Unknown)
      ensures failure.Some? ==> failure.value == Failure(g, i, o.code, o.status != Unknown && o.retryable)
    {
      hide Ledger, Size, Tally;
      if rows[g][i].Some? {
        return None;
      }
      var f := Failure(g, i, o.code, o.status != Unknown && o.retryable);
      LedgerSettle(rows, totals, failures, errorCounts, g, i, o.status, f);
      SizeSet(rows, g, i, Some(o.status));
      rows := rows[g := rows[g][i := Some(o.status)]];
      totals := TotalsAfter(totals, o.status);
      failure := None;
      if o.status != Processed && o.status != Skipped {
        failures := failures + [f];
        errorCounts := errorCounts[f.code := (if f.code in errorCounts then errorCounts[f.code] else 0) + 1];
        failure := Some(f);
      }
    }

    /** All outcomes of one batch, in the order in which they were reported. */
    method Record(g: nat, outcomes: seq<Outcome>) returns (news: seq<Failure>)
      requires Booked() && g < |rows| && forall k {:trigger outcomes[k]} :: 0 <= k < |outcomes| && outcomes[k].status == Unknown ==> !outcomes[k].retryable
      modifies this`rows, this`totals, this`failures, this`errorCounts
      ensures Booked() && failures == old(failures) + news && AtMost(old(totals), totals)
      ensures |rows| == |old(rows)| && rows == old(rows)[g := rows[g]]
      ensures RowAfter(manifest[g].uids, old(rows)[g], rows[g], outcomes, |outcomes|) && Reports(manifest[g].uids, rows[g], g, outcomes, news)
      ensures outcomes == [] ==> totals == old(totals) && rows == old(rows)
      ensures outcomes != [] && Unsettled(manifest[g].uids, old(rows)[g], outcomes[0].ref.uid) ==> Sum(totals) > Sum(old(totals))
    {
      hide Ledger, Size, RowAfter, Reports;
      news := [];
      RowBefore(manifest[g].uids, rows[g], g, outcomes);
      for k := 0 to |outcomes|
        invariant Booked() && failures == old(failures) + news && AtMost(old(totals), totals)
        invariant |rows| == |old(rows)| && rows == old(rows)[g := rows[g]]
        invariant RowAfter(manifest[g].uids, old(rows)[g], rows[g], outcomes, k) && Reports(manifest[g].uids, rows[g], g, outcomes, news)
        invariant if k == 0 then rows == old(rows) && totals == old(totals)
                  else Unsettled(manifest[g].uids, old(rows)[g], outcomes[0].ref.uid) ==> Sum(totals) > Sum(old(totals))
      {
        var at := Position(manifest[g].uids, outcomes[k].ref.uid);
        ghost var before := rows[g];
        var failure := None;
        if at.Some? {
          failure := Settle(g, at.value, outcomes[k]);
        }
        RowAfterMore(manifest[g].uids, old(rows)[g], before, outcomes, k, rows[g], at);
        ReportsMore(manifest[g].uids, before, rows[g], g, outcomes, news, k, at, failure);
        news := news + if failure.Some? then [failure.value] else [];
      }
    }

    ghost predicate Sized()
      reads this, batches
    {
      |batches| == |manifest| && forall g {:trigger batches[g]} :: 0 <= g < |batches| ==> MIN_SIZE <= batches[g].size <= batches[g].max
    }

    /** The run of one planned batch against the server; `n` exchanges of the conversation took place. */
    method Converse(g: nat, uids: seq<nat>, started: nat, talk: Talk)
      returns (thrown: Option<Error>, exhausted: bool, outcomes: seq<Outcome>, started': nat, ghost left: Left, ghost n: nat, ghost e: Option<Error>)
      requires Sized() && g < |manifest| && Uids(uids) && uids != [] && Fits(uids, batches[g].size)
      modifies batches
      ensures Sized() && started <= started'
      ensures var refs := Refs(uids, manifest[g].validity);
        Sound(refs, action, talk.ownTarget, left.pending, outcomes, left.log, left.flight, left.doubt)
      ensures forall r {:trigger r in left.pending} :: r in left.pending ==> !Touched(left.log, r.uid)
      ensures thrown.Some? ==> thrown.value == StaleScope || thrown.value == NoSession
      ensures thrown.None? && !exhausted ==> left.pending == {}
      ensures Conversed(action, Heard(talk, n), Refs(uids, manifest[g].validity), left, outcomes, thrown, exhausted, e)
      ensures talk.selected == Some(SessionLost) ==> thrown == Some(NoSession) && outcomes == []
      ensures started == 0 && Fine(action, talk, manifest[g].validity, uids) ==> thrown.None? && !exhausted && AllProcessed(outcomes)
      ensures EndOf(action, Heard(talk, n), Refs(uids, manifest[g].validity), old(Pace(batches[g].lastMs, batches[g].lastCount, started)), MIN_START_MS)
           == if thrown == Some(NoSession) then Severs(outcomes != []) else Over(outcomes != [])
    {
      hide Sound, Fits, Uids, Touched, Reported, Text, RunsOf, Smooth, AllProcessed, EndOf, OneBatchful, WayOf, Searched, Fated, Caused, Heard, AnyUnknown, Parted, Numbered, AllAcked, Conversed, Refs;
      var validity := manifest[g].validity;
      var refs := Refs(uids, validity);
      ghost var pace := Pace(batches[g].lastMs, batches[g].lastCount, started);
      var group := new GroupRun(refs, action, talk, MIN_START_MS, batches[g], started);
      RefsNumbered(uids, validity, refs);
      Batchful(uids, validity, refs, batches[g].size);
      NeverTooLong(uids, batches[g].size, refs);
      var remaining;
      thrown, remaining, exhausted, e := group.Run();
      if |uids| == 1 { OneRef(uids, validity, refs); }
      n := group.round;
      LostEnd(action, talk, n, refs, pace);
      outcomes, started', left := group.outcomes, group.started, Left(group.pending, group.log, group.flight, group.sent || group.mutated);
      ItConversed(action, talk, n, refs, left, outcomes, thrown, exhausted, e);
    }

    /** One planned batch, and its outcomes in the books. */
    method RunBatch(g: nat, uids: seq<nat>, started: nat, talk: Talk)
      returns (thrown: Option<Error>, exhausted: bool, unknown: bool, news: seq<Failure>, started': nat, ghost n: nat)
      requires Booked() && Sized() && AllClean(manifest, rows, touched) && g < |rows|
      requires Uids(uids) && uids != [] && Fits(uids, batches[g].size) && Planned(manifest[g].uids, rows[g], uids)
      modifies this`rows, this`totals, this`failures, this`errorCounts, this`touched, batches
      ensures Booked() && Sized() && AllClean(manifest, rows, touched) && Kept(old(rows), rows)
      ensures failures == old(failures) + news && started <= started' && AtMost(old(totals), totals)
      ensures rows == old(rows)[g := rows[g]] && OnlyThese(manifest[g].uids, old(rows)[g], rows[g], uids)
      ensures thrown.Some? ==> thrown.value == StaleScope || thrown.value == NoSession
      ensures thrown.None? && !exhausted ==> Told(manifest[g].uids, rows[g], uids)
      ensures RunDone(action, Heard(talk, n), Refs(uids, manifest[g].validity), manifest[g].uids, uids, rows[g], thrown, Verdict(thrown, exhausted, unknown))
      ensures AllCharged(action, Heard(talk, n), Refs(uids, manifest[g].validity), manifest[g].uids, uids, rows[g], g, news)
      ensures Ended(old(totals), totals, thrown,
                    EndOf(action, Heard(talk, n), Refs(uids, manifest[g].validity), old(Pace(batches[g].lastMs, batches[g].lastCount, started)), MIN_START_MS))
      ensures talk.selected == Some(SessionLost) ==> thrown == Some(NoSession) && rows == old(rows)
      ensures started == 0 && Fine(action, talk, manifest[g].validity, uids) ==>
        thrown.None? && !exhausted && !unknown && AllDone(manifest[g].uids, rows[g], uids)
    {
      hide Sound, Ledger, Size, Clean, Kept, RowAfter, Planned, Told, OnlyThese, Fits, Uids, Touched, Fine, Unsettled, AllProcessed, EndOf, RunDone, Conversed, AnyUnknown, AllCharged, Reports, AllDone, Refs;
      var outcomes: seq<Outcome>;
      ghost var left: Left;
      ghost var e;
      thrown, exhausted, outcomes, started', left, n, e := Converse(g, uids, started, talk);
      unknown := AnyUnknown(outcomes);
      ghost var before, all, validity := rows, manifest[g].uids, manifest[g].validity;
      BatchFacts(all, rows[g], uids, validity, action, talk.ownTarget, left, outcomes);
      news := Record(g, outcomes);
      BatchSettled(all, before[g], rows[g], touched[g], uids, validity, action, talk.ownTarget, left, outcomes);
      BatchFated(all, before[g], rows[g], uids, validity, action, Heard(talk, n), left, outcomes, thrown, exhausted, e);
      BatchCharged(all, rows[g], uids, validity, action, Heard(talk, n), left, outcomes, thrown, exhausted, e, g, news);
      touched := touched[g := touched[g] + set u | u in uids && Touched(left.log, u)];
      KeptOne(all, before, rows, g, outcomes);
      if thrown.None? && !exhausted && AllProcessed(outcomes) {
        FineRow(all, before[g], rows[g], outcomes, uids);
      }
    }

    /** What stands of the target folder. */
    ghost function TargetNow(): Target
      reads this
    {
      if targetReady || initialTotal == 0 || !targetNeedsCreate then Known else if targetCreateAttempted then Tried else ToCreate
    }

    /** How long the last batch of each group took, at the start of a request. */
    ghost function Paces(): (paces: seq<Pace>)
      reads this, batches
      ensures |paces| == |batches| && forall g {:trigger batches[g]} :: 0 <= g < |paces| ==> paces[g] == Pace(batches[g].lastMs, batches[g].lastCount, 0)
    {
      seq(|batches|, g requires 0 <= g < |batches| reads this, batches => Pace(batches[g].lastMs, batches[g].lastCount, 0))
    }

    /** ensureTarget, called before the first mutation: it may fail, and its one attempt is remembered. */
    method EnsureTarget(turn: Turn, ghost step: Step) returns (e: Option<Error>)
      requires step.turn == turn && step.target == TargetNow() && !turn.gone && !turn.short
      modifies this`targetCreateAttempted, this`targetReady
      ensures old(targetCreateAttempted) ==> targetCreateAttempted
      ensures !targetNeedsCreate ==> e.None?
      ensures e != Some(Gone) && (e.None? ==> TargetNow() == Known)
      ensures e.Some? ==> StepEnd(action, step) == if e == Some(NoSession) then Severs(false) else Over(false)
      ensures if e.None? then Opens(step) else !Opens(step) && e == Hindrance(step) && (targetCreateAttempted <==> Attempted(step))
      ensures e.None? ==> forall talk {:trigger With(step, talk)} :: StepEnd(action, With(step, talk)) == EndOf(action, talk, RefsOf(step), step.pace, MIN_START_MS)
    {
      hide EndOf;
      e := None;
      if targetReady || initialTotal == 0 {
        return;
      }
      if targetNeedsCreate {
        e := ErrorOf(turn.fence);
        if e.Some? {
          return;
        }
        if turn.stale {
          return Some(StaleScope);
        }
        if targetCreateAttempted {
          return Some(App("MAIL_REJECTED"));
        }
        e := ErrorOf(turn.folders);
        if e.Some? {
          return;
        }
        targetCreateAttempted := true;
        e := ErrorOf(turn.created);
        if e.Some? {
          return;
        }
      }
      targetReady := true;
    }

    /** One planned batch of a group, from the checks before it to its outcomes. */
    method TakeTurn(g: nat, uids: seq<nat>, turn: Turn, started: nat)
      returns (thrown: Option<Error>, reason: Reason, news: seq<Failure>, started': nat, ghost step: Step)
      requires Booked() && Sized() && AllClean(manifest, rows, touched) && (phase == Ready || phase == Running) && g < |manifest| == |rows|
      requires Uids(uids) && uids != [] && Fits(uids, batches[g].size) && Planned(manifest[g].uids, rows[g], uids)
      modifies this`rows, this`totals, this`failures, this`errorCounts, this`touched, this`targetCreateAttempted, this`targetReady, this`phase, batches
      ensures Booked() && Sized() && AllClean(manifest, rows, touched) && Kept(old(rows), rows)
      ensures failures == old(failures) + news && (phase == old(phase) || phase == Running)
      ensures rows == old(rows)[g := rows[g]] && OnlyThese(manifest[g].uids, old(rows)[g], rows[g], uids)
      ensures reason == All ==> thrown.None? && Told(manifest[g].uids, rows[g], uids) && TargetNow() == Known
      ensures Ended(old(totals), totals, thrown, StepEnd(action, step)) && PosedAt(manifest, turn, step)
      ensures step.g == g && step.target == old(TargetNow()) && step.pace == old(Pace(batches[g].lastMs, batches[g].lastCount, started))
      ensures StepDone(action, manifest, rows, step, thrown, reason) && (thrown == Some(Exhausted) ==> (targetCreateAttempted <==> Attempted(step)))
      ensures NewsDue(action, manifest, rows, [step], news)
      ensures !targetNeedsCreate && LostTurn(turn) ==> thrown == Some(NoSession) && rows == old(rows)
      ensures !targetNeedsCreate && Unhindered(turn) && started == 0 && Fine(action, turn.talk, manifest[g].validity, uids) ==>
        reason == All && AllDone(manifest[g].uids, rows[g], uids)
    {
      hide Ledger, Size, AllClean, Uids, Planned, Told, NoneUnset, Tally, OnlyThese, Shaped, Fits, Kept, Fine, StepEnd, EndOf, PosedAt, RunDone, Opens, Hindrance, Attempted, StepDone, NewsDue, AllCharged, AllDone;
      KeptSelf(rows);
      ShapedAt(manifest, rows, g);
      OnlySame(manifest[g].uids, rows, g, uids);
      thrown, reason, news, started' := None, Threw, [], started;
      step := Step(g, manifest[g].validity, uids, TargetNow(), Pace(batches[g].lastMs, batches[g].lastCount, started), turn);
      PosedWhole(manifest, rows[g], turn, step);
      EarlyEnd(action, step);
      Hindered(action, manifest, rows, step);
      NoNews(action, manifest, rows, [step]);
      if turn.gone {
        thrown := Some(Gone);
        return;
      }
      if turn.short {
        reason := Budget;
        return;
      }
      thrown := EnsureTarget(turn, step);
      if thrown.Some? {
        return;
      }
      phase := Running;
      var exhausted, unknown;
      ghost var n;
      PosedAgain(manifest, turn, step);
      OpensAgain(step);
      thrown, exhausted, unknown, news, started', n := RunBatch(g, uids, started, turn.talk);
      step := With(step, Heard(turn.talk, n));
      reason := Verdict(thrown, exhausted, unknown);
      ShapedAt(manifest, rows, g);
      RunStep(action, manifest, rows, step, thrown, reason);
      RunNews(action, manifest, rows, step, news);
    }

    /** What the books say of one group. */
    lemma At(g: nat)
      requires Booked() && Sized() && g < |manifest|
      ensures |rows| == |manifest| == |batches| && |rows[g]| == |manifest[g].uids| && Uids(manifest[g].uids)
      ensures MIN_SIZE <= batches[g].size <= batches[g].max
    {
      hide Ledger, Size, Uids;
    }

    lemma Widths()
      requires Booked() && Sized()
      ensures |rows| == |manifest| == |batches|
    {
      hide Ledger, Size;
    }

    /** The next batch of a group, planned and run. */
    method NextTurn(g: nat, pending: seq<nat>, offset: nat, turn: Turn, started: nat)
      returns (thrown: Option<Error>, reason: Reason, news: seq<Failure>, started': nat, n: nat, ghost step: Step)
      requires Booked() && Sized() && AllClean(manifest, rows, touched) && (phase == Ready || phase == Running) && g < |manifest| == |rows|
      requires NoneUnset(rows, g) && Uids(pending) && offset < |pending| && Facing(manifest[g].uids, rows[g], pending, offset)
      modifies this`rows, this`totals, this`failures, this`errorCounts, this`touched, this`targetCreateAttempted, this`targetReady, this`phase, batches
      ensures Booked() && Sized() && AllClean(manifest, rows, touched) && Kept(old(rows), rows) && |rows| == |old(rows)|
      ensures failures == old(failures) + news && (phase == old(phase) || phase == Running) && offset + n <= |pending| && n > 0
      ensures reason == All ==> thrown.None? && TargetNow() == Known && NoneUnset(rows, g) && Facing(manifest[g].uids, rows[g], pending, offset + n)
      ensures Ended(old(totals), totals, thrown, StepEnd(action, step)) && PosedAt(manifest, turn, step)
      ensures step.g == g && step.target == old(TargetNow()) && step.pace == old(Pace(batches[g].lastMs, batches[g].lastCount, started))
      ensures StepDone(action, manifest, rows, step, thrown, reason) && (thrown == Some(Exhausted) ==> (targetCreateAttempted <==> Attempted(step)))
      ensures NewsDue(action, manifest, rows, [step], news)
      ensures !targetNeedsCreate && LostTurn(turn) ==> thrown == Some(NoSession) && rows == old(rows)
      ensures offset == 0 && pending == manifest[g].uids && Alone(manifest, old(rows), g) && !targetNeedsCreate && FineTurn(action, turn, manifest[g]) && started == 0 ==>
        reason == All && rows == old(rows)[g := [Some(Processed)]]
    {
      hide Booked, Sized, Ledger, Size, AllClean, Uids, RowKept, Planned, Told, NoneUnset, Tally, Facing, OnlyThese, Shaped, Unset, Fits, Kept, Ascending, RunsOf, Text, PosedAt, Ended, StepEnd, Fine, Sum, Severed, Broken, AnySettled, AtMost, Clean, LostTurn, Quick, Smooth, RefsOf, Quietly, Cut, EndOf, Heard, StepDone, Attempted, NewsDue;
      At(g);
      SuffixUids(pending, offset);
      var uids := NextBatch(pending[offset..], batches[g].size);
      ghost var before, all, alone := rows, manifest[g].uids, offset == 0 && pending == manifest[g].uids && Alone(manifest, rows, g);
      if alone { OnlyOne(pending, uids, all); }
      PlannedNext(all, rows[g], pending, offset, uids);
      n := |uids|;
      thrown, reason, news, started', step := TakeTurn(g, uids, turn, started);
      if reason == All {
        NextRow(all, before, rows, pending, offset, uids, g);
        if alone { AloneDone(all, before, rows, g, uids); }
      }
    }

    /** The batches of what has no outcome yet in one group. */
    method RunGroup(g: nat, started: nat, turns: seq<Turn>, at: nat)
      returns (thrown: Option<Error>, reason: Reason, news: seq<Failure>, started': nat, at': nat, ghost steps: seq<Step>, ghost verdict: Reason)
      requires Booked() && Sized() && AllClean(manifest, rows, touched) && (phase == Ready || phase == Running)
      requires g < |manifest| && NoneUnset(rows, g)
      modifies this`rows, this`totals, this`failures, this`errorCounts, this`touched, this`targetCreateAttempted, this`targetReady, this`phase, batches
      ensures Booked() && Sized() && AllClean(manifest, rows, touched) && Kept(old(rows), rows)
      ensures failures == old(failures) + news && (phase == old(phase) || phase == Running)
      ensures reason == All ==> thrown.None? && NoneUnset(rows, g + 1)
      ensures at' == at + |steps| && (thrown.Some? ==> steps != [])
      ensures Logged(action, manifest, turns, at, old(TargetNow()), g, old(Pace(batches[g].lastMs, batches[g].lastCount, started)), old(totals), totals, steps, thrown)
      ensures Retold(action, manifest, rows, steps, thrown, verdict) && Ceases(thrown, reason, verdict, at' >= |turns|)
      ensures NewsDue(action, manifest, rows, steps, news)
      ensures thrown == Some(Exhausted) ==> (targetCreateAttempted <==> Attempted(steps[|steps| - 1]))
      ensures if steps == [] then started' == started && unchanged(this`targetReady, this`targetCreateAttempted) && unchanged(batches)
              else reason == All ==> TargetNow() == Known
      ensures Alone(manifest, old(rows), g) && at < |turns| && LostTurn(turns[at]) && !targetNeedsCreate ==> thrown == Some(NoSession) && rows == old(rows)
      ensures Alone(manifest, old(rows), g) && at < |turns| && FineTurn(action, turns[at], manifest[g]) && started == 0 && !targetNeedsCreate ==>
        reason == All && rows == old(rows)[g := [Some(Processed)]] && at' == at + 1
    {
      hide Logged, Booked, Sized, Ledger, Size, AllClean, Uids, RowKept, Planned, Told, NoneUnset, Tally, Facing, OnlyThese, Shaped, Unset, Fits, Kept, Ascending, RunsOf, Text, PosedAt, Ended, StepEnd, Fine, Sum, Severed, Broken, AnySettled, AtMost, Clean, LostTurn, Quick, Smooth, RefsOf, Quietly, Cut, EndOf, Heard, Retold, StepDone, Attempted, NewsDue;
      thrown, reason, news, started', at', steps, verdict := None, All, [], started, at, [], All;
      KeptSelf(rows);
      At(g);
      RetoldNone(action, manifest, rows);
      NoNews(action, manifest, rows, []);
      var pending := Unset(manifest[g].uids, rows[g]);
      var offset: nat := 0;
      ghost var pace := Pace(batches[g].lastMs, batches[g].lastCount, started);
      LoggedNone(action, manifest, turns, at, TargetNow(), g, pace, totals);
      ghost var alone := Alone(manifest, rows, g) && at < |turns| && !targetNeedsCreate;
      if alone { AloneUnset(manifest[g].uids, rows[g]); }
      StartRow(manifest[g].uids, rows[g], pending);
      while offset < |pending|
        invariant offset <= |pending| && Booked() && Sized() && AllClean(manifest, rows, touched) && Kept(old(rows), rows)
        invariant failures == old(failures) + news && (phase == old(phase) || phase == Running)
        invariant thrown.None? && reason == All && g < |rows| && NoneUnset(rows, g) && Uids(pending)
        invariant Facing(manifest[g].uids, rows[g], pending, offset)
        invariant at' == at + |steps| && (offset == 0 <==> steps == [])
        invariant if offset == 0 then started' == started && rows == old(rows) && unchanged(this`targetReady, this`targetCreateAttempted) && unchanged(batches)
                  else TargetNow() == Known
        invariant Logged(action, manifest, turns, at, old(TargetNow()), g, pace, old(totals), totals, steps, None)
        invariant Retold(action, manifest, rows, steps, None, All) && verdict == All && NewsDue(action, manifest, rows, steps, news)
        invariant alone && offset > 0 ==> !LostTurn(turns[at]) && offset == |pending|
        invariant alone && offset > 0 && FineTurn(action, turns[at], manifest[g]) && started == 0 ==> rows == old(rows)[g := [Some(Processed)]] && at' == at + 1
      {
        if at' >= |turns| {
          reason := Budget;
          return;
        }
        Widths();
        ghost var before, sums := rows, totals;
        var more, n;
        ghost var step;
        thrown, reason, more, started', n, step := NextTurn(g, pending, offset, turns[at'], started');
        KeptTrans(old(rows), before, rows);
        LoggedMore(action, manifest, turns, at, old(TargetNow()), g, pace, old(totals), sums, totals, steps, step, thrown);
        RetoldMore(action, manifest, before, rows, steps, step, thrown, reason);
        NewsOn(action, manifest, before, rows, steps, [step], news, more);
        at', news, steps, verdict := at' + 1, news + more, steps + [step], reason;
        if reason != All {
          return;
        }
        offset := offset + n;
      }
      if alone { assert |pending| == 1; }
      RowDone(manifest[g].uids, rows, pending, g);
    }

    /** The groups in order, until one of them stops the request. */
    method RunGroups(turns: seq<Turn>) returns (thrown: Option<Error>, reason: Reason, news: seq<Failure>, ghost steps: seq<Step>, ghost verdict: Reason)
      requires Booked() && Sized() && AllClean(manifest, rows, touched) && (phase == Ready || phase == Running)
      modifies this`rows, this`totals, this`failures, this`errorCounts, this`touched, this`targetCreateAttempted, this`targetReady, this`phase, batches
      ensures Booked() && Sized() && AllClean(manifest, rows, touched) && Kept(old(rows), rows)
      ensures failures == old(failures) + news && (phase == old(phase) || phase == Running)
      ensures reason == All ==> thrown.None? && NoneUnset(rows, |rows|)
      ensures Heeded(action, old(totals), totals, steps, thrown)
      ensures Posed(manifest, turns, 0, steps, old(TargetNow())) && Begun(old(Paces()), steps)
      ensures Retold(action, manifest, rows, steps, thrown, verdict) && Ceases(thrown, reason, verdict, |steps| >= |turns|)
      ensures NewsDue(action, manifest, rows, steps, news)
      ensures thrown == Some(Exhausted) ==> steps != [] && (targetCreateAttempted <==> Attempted(steps[|steps| - 1]))
      ensures Losing(manifest, old(rows), action, turns) && !targetNeedsCreate ==> thrown == Some(NoSession) && rows == old(rows)[0 := [Some(Processed)]]
    {
      hide Booked, Sized, Ledger, Size, AllClean, NoneUnset, Tally, Kept, FineTurn, LostTurn, Heeded, Posed, Retold, Attempted, NewsDue;
      thrown, reason, news, steps, verdict := None, All, [], [], All;
      RetoldNone(action, manifest, rows);
      NoNews(action, manifest, rows, []);
      var g, started, at: nat := 0, 0, 0;
      KeptSelf(rows);
      Widths();
      SelfMost(action, totals);
      PosedNone(manifest, turns, at, TargetNow());
      NothingBefore(rows);
      while g < |manifest|
        invariant g <= |manifest| && Booked() && Sized() && AllClean(manifest, rows, touched) && Kept(old(rows), rows)
        invariant failures == old(failures) + news && (phase == old(phase) || phase == Running)
        invariant g <= |rows| == |manifest| == |batches| && NoneUnset(rows, g) && thrown.None? && reason == All && Heeded(action, old(totals), totals, steps, None)
        invariant Retold(action, manifest, rows, steps, None, All) && verdict == All && NewsDue(action, manifest, rows, steps, news)
        invariant at == |steps| && Posed(manifest, turns, 0, steps, old(TargetNow()))
        invariant if steps == [] then started == 0 && unchanged(this`targetReady, this`targetCreateAttempted) && unchanged(batches) else TargetNow() == Known
        invariant Begun(old(Paces()), steps)
        invariant g == 0 ==> at == 0 && started == 0 && rows == old(rows)
        invariant Losing(manifest, old(rows), action, turns) && !targetNeedsCreate && g > 0 ==> g == 1 && at == 1 && rows == old(rows)[0 := [Some(Processed)]]
      {
        var more;
        ghost var before, sums, said, target := rows, totals, [], TargetNow();
        thrown, reason, more, started, at, said, verdict := RunGroup(g, started, turns, at);
        Widths();
        KeptTrans(old(rows), before, rows);
        HeededOn(action, old(totals), sums, totals, steps, said, thrown);
        PosedOn(manifest, turns, steps, said, old(TargetNow()), target);
        RetoldOn(action, manifest, before, rows, steps, said, thrown, verdict);
        NewsOn(action, manifest, before, rows, steps, said, news, more);
        news, steps := news + more, steps + said;
        if thrown.Some? || reason != All {
          reason := if reason == All then Threw else reason;
          return;
        }
        g := g + 1;
      }
    }

    /** What holds between requests: the books, the reference lists, and the chain of cursors. */
    ghost predicate Valid()
      reads this, batches
    {
      && Booked() && Sized() && AllClean(manifest, rows, touched)
      && totals == SumAll(calls) && Truthful(action, calls)
      && Chained(receipts, cursor, unused)
      && (phase == Ready || phase == Running ==> cursor.Some?)
    }

    /** execute, for the record that owns the cursor `c`. */
    method Execute(c: nat, full: bool, turns: seq<Turn>, closing: bool) returns (reply: Reply)
      requires Valid()
      modifies this, batches
      ensures forall k {:trigger k in old(receipts)} :: k in old(receipts) ==> k in receipts && receipts[k] == old(receipts)[k]
      ensures old(phase) != Stopped && c in old(receipts) ==> reply == Replayed(old(receipts)[c])
      ensures reply == Refused(Expired) <==> old(phase) == Stopped
      ensures reply == Refused(NotCurrent) <==> old(phase != Stopped && c !in receipts && ((phase != Ready && phase != Running) || cursor != Some(c)))
      ensures reply == Refused(TooMuch) <==> old((phase == Ready || phase == Running) && cursor == Some(c) && c !in receipts) && full
      ensures reply.Replayed? ==> old(phase != Stopped && c in receipts)
      ensures reply.Replayed? || reply.Refused? ==> unchanged(this) && forall b {:trigger b.size} :: b in batches ==> unchanged(b)
      ensures reply.Ran? ==> old(cursor) == Some(c) && receipts == old(receipts)[c := reply.receipt]
      ensures AtMost(old(totals), totals)
      ensures reply.Ran? ==> Settled(reply.receipt, old(totals), totals, rows) && failures == old(failures) + reply.receipt.failed
      ensures reply.Ran? ==> cursor == reply.receipt.next && PhaseFits(phase, reply.receipt)
      ensures reply.Escaped? ==> receipts == old(receipts) && cursor == old(cursor) == Some(c)
      ensures reply.Ran? || reply.Escaped? ==> calls != [] && Recounted(action, manifest, rows, calls[|calls| - 1].steps)
      ensures reply.Ran? ==> calls != [] && Answers(action, manifest, turns, rows, calls[|calls| - 1].steps, reply.receipt)
      ensures if reply.Ran? || reply.Escaped? then Noted(action, manifest, turns, closing, old(TargetNow()), old(Paces()), old(calls), calls, old(totals), totals, reply)
              else calls == old(calls)
      ensures old(phase == Ready && cursor == Some(c) && c !in receipts) && !full && !targetNeedsCreate && Losing(manifest, old(rows), action, turns) ==>
        reply.Escaped? && rows == old(rows)[0 := [Some(Processed)]]
      ensures Valid() && Kept(old(rows), rows)
    {
      hide Ledger, Size, AllClean, NoneUnset, Tally, Kept, SumAll, Truthful, Shaped, Count, Settled, PhaseFits, Noted, Losing, Answers, Recounted;
      KeptSelf(rows);
      if phase == Stopped {
        return Refused(Expired);
      }
      if c in receipts {
        return Replayed(receipts[c]);
      }
      if (phase != Ready && phase != Running) || cursor != Some(c) {
        return Refused(NotCurrent);
      }
      if full {
        return Refused(TooMuch);
      }
      reply := Proceed(c, turns, closing);
    }

    /** execute, once the cursor is found to be the current one. */
    method Proceed(c: nat, turns: seq<Turn>, closing: bool) returns (reply: Reply)
      requires Valid() && (phase == Ready || phase == Running) && cursor == Some(c)
      modifies this, batches
      ensures Valid() && Kept(old(rows), rows) && AtMost(old(totals), totals) && (reply.Ran? || reply.Escaped?)
      ensures reply.Ran? ==> receipts == old(receipts)[c := reply.receipt] && Settled(reply.receipt, old(totals), totals, rows)
      ensures reply.Ran? ==> failures == old(failures) + reply.receipt.failed && cursor == reply.receipt.next && PhaseFits(phase, reply.receipt)
      ensures reply.Escaped? ==> receipts == old(receipts) && cursor == old(cursor)
      ensures calls != [] && Recounted(action, manifest, rows, calls[|calls| - 1].steps)
      ensures reply.Ran? ==> Answers(action, manifest, turns, rows, calls[|calls| - 1].steps, reply.receipt)
      ensures Noted(action, manifest, turns, closing, old(TargetNow()), old(Paces()), old(calls), calls, old(totals), totals, reply)
      ensures !targetNeedsCreate && Losing(manifest, old(rows), action, turns) ==> reply.Escaped? && rows == old(rows)[0 := [Some(Processed)]]
    {
      hide Ledger, Size, AllClean, NoneUnset, Tally, Kept, SumAll, Truthful, Shaped, Count, Settled, PhaseFits, AtMost, Broken, Cut, AnySettled, Honored, Losing, Less, SumReceipts, NothingLost, Heeded, Posed, Begun, Noted, Accounted, Retold, Answers, Marked, Attempted, NewsDue;
      ghost var before, said, target, paces := totals, calls, TargetNow(), Paces();
      var start := totals;
      var thrown, reason, news;
      ghost var steps;
      ghost var verdict;
      thrown, reason, news, steps, verdict := RunGroups(turns);
      HeededWhole(action, before, totals, steps, thrown, closing);
      if Severed(thrown) || closing {
        BreakOff(before, Severed(thrown) && thrown == Some(NoSession), steps, closing);
        LessPlus(before, totals);
        ItIsNoted(action, manifest, turns, closing, target, paces, said, before, totals, Escaped, Call(Less(totals, before), None, steps, closing));
        return Escaped;
      }
      var receipt := Conclude(c, start, thrown, reason, news, steps);
      ItAnswers(action, manifest, turns, rows, steps, receipt, thrown, verdict, targetCreateAttempted, reason);
      reply := Ran(receipt);
      ItIsNoted(action, manifest, turns, closing, target, paces, said, before, totals, reply, Call(receipt.delta, Some(receipt), steps, false));
    }

    /** A request that goes down with the session, the selection or the store. */
    method BreakOff(ghost before: Totals, lost: bool, ghost steps: seq<Step>, ghost closing: bool)
      requires Booked() && Sized() && AllClean(manifest, rows, touched) && before == SumAll(calls) && Truthful(action, calls)
      requires Broken(action, steps, closing) && AtMost(before, totals) && (Less(totals, before) == Zero <==> !AnySettled(action, steps))
      requires (phase == Ready || phase == Running)
      requires Chained(receipts, cursor, unused) && cursor.Some?
      modifies this`calls, this`phase
      ensures Valid() && AtMost(before, totals) && calls == old(calls) + [Call(Less(totals, before), None, steps, closing)]
    {
      hide Ledger, Size, AllClean, SumAll, Truthful, Shaped, Broken, AnySettled, Honored, Less, AtMost;
      ghost var call := Call(Less(totals, before), None, steps, closing);
      BrokenOff(action, before, totals, calls, call);
      calls := calls + [call];
      if !lost {
        phase := Stopped;
      }
    }

    /** The end of a request: its receipt is stored under the cursor it came with. */
    method Conclude(c: nat, before: Totals, thrown: Option<Error>, reason: Reason, news: seq<Failure>, ghost steps: seq<Step>) returns (receipt: Receipt)
      requires Booked() && Sized() && AllClean(manifest, rows, touched) && AtMost(before, totals) && before == SumAll(calls) && Truthful(action, calls)
      requires Chained(receipts, cursor, unused) && cursor == Some(c)
      requires reason == All ==> NoneUnset(rows, |rows|)
      requires !Broken(action, steps, false) && (Less(totals, before) == Zero <==> !AnySettled(action, steps))
      modifies this`phase, this`cursor, this`sequence, this`unused, this`receipts, this`calls
      ensures Valid() && receipts == old(receipts)[c := receipt] && calls == old(calls) + [Call(receipt.delta, Some(receipt), steps, false)]
      ensures Settled(receipt, before, totals, rows) && Plus(before, receipt.delta) == totals && receipt.failed == news
      ensures cursor == receipt.next && PhaseFits(phase, receipt) && Marked(receipt, thrown, targetCreateAttempted, reason)
    {
      hide Ledger, Size, AllClean, NoneUnset, Tally, SumAll, Truthful, Shaped, Count, AtMost, Broken, AnySettled, Honored, Less, Settled, ReceiptOf, PhaseFits, Marked, Chained, Refs, RefsOf, Quietly, StepEnd, Cut, Plus, Clean, ReasonOf, WayOf, Searched, BatchesEnd, EndOf, Missed, Closed, CountIn;
      Balance(rows, totals, failures, errorCounts, initialTotal);
      var left: nat := initialTotal - totals.processed - totals.skipped - totals.failed;
      if reason == All {
        AllSet(rows);
      }
      receipt := ReceiptOf(sequence, before, totals, news, unused, left, thrown, targetCreateAttempted, reason);
      Concluded(sequence, before, totals, news, unused, left, thrown, targetCreateAttempted, reason, rows, receipt, action, calls, steps);
      ChainedOn(receipts, c, receipt, unused);
      phase := if receipt.error.Some? then Errored else if receipt.next.None? then Completed else Running;
      cursor, sequence, unused := receipt.next, sequence + 1, unused + 1;
      receipts := receipts[c := receipt];
      calls := calls + [Call(receipt.delta, Some(receipt), steps, false)];
    }

    /** The selection a retry starts with: per folder, the failed messages that may be tried again. */
    method Retry() returns (again: seq<Group>, origin: seq<nat>)
      requires Valid()
      ensures |origin| == |again| && forall j {:trigger again[j]} :: 0 <= j < |again| ==>
        RetryGroup(manifest, failures, touched, origin[j], again[j])
      ensures forall g {:trigger g in origin} :: 0 <= g < |manifest| && g !in origin ==> Retryable(manifest, failures, g) == {}
      ensures forall i, j {:trigger origin[i], origin[j]} :: 0 <= i < j < |origin| ==> origin[i] < origin[j]
    {
      hide Ledger, Size, AllClean, Uids, Shaped, Retryable;
      again, origin := [], [];
      for g := 0 to |manifest|
        invariant |origin| == |again| && forall j {:trigger again[j]} :: 0 <= j < |again| ==> RetryGroup(manifest, failures, touched, origin[j], again[j])
        invariant forall h {:trigger h in origin} :: 0 <= h < g && h !in origin ==> Retryable(manifest, failures, h) == {}
        invariant forall i {:trigger origin[i]} :: 0 <= i < |origin| ==> origin[i] < g
        invariant forall i, j {:trigger origin[i], origin[j]} :: 0 <= i < j < |origin| ==> origin[i] < origin[j]
      {
        var uids: seq<nat> := [];
        ShapedAt(manifest, rows, g);
        NoRetry(manifest, failures, g);
        for k := 0 to |failures|
          invariant Uids(uids) && forall u {:trigger u in uids} :: u in uids <==> u in Retryable(manifest, failures[..k], g)
        {
          RetryMore(manifest, rows, totals, failures, errorCounts, g, k);
          if failures[k].g == g && failures[k].retryable {
            InsertAscending(uids, manifest[g].uids[failures[k].index]);
            uids := Insert(uids, manifest[g].uids[failures[k].index]);
          }
        }
        assert failures[..|failures|] == failures;
        RetryUntouched(manifest, rows, totals, failures, errorCounts, touched, g);
        if uids != [] {
          assert uids[0] in uids;
          assert RetryGroup(manifest, failures, touched, g, Group(manifest[g].path, manifest[g].validity, uids));
          again, origin := again + [Group(manifest[g].path, manifest[g].validity, uids)], origin + [g];
        }
        assert uids == [] ==> Retryable(manifest, failures, g) == {} by { assert forall u :: u in Retryable(manifest, failures, g) ==> u in uids; }
      }
    }
  }

  // ---------- what a call hears ----------

  /** The totals moved exactly if a message got its outcome, and the error is one that ends calls exactly if the
      turn goes down with it. */
  predicate Ended(before: Totals, now: Totals, thrown: Option<Error>, end: End) {
    && AtMost(before, now) && (if end.settled then Sum(now) > Sum(before) else now == before) && (end.Severs? <==> Severed(thrown))
  }

  /** The same for several turns. */
  predicate Heeded(action: Action, before: Totals, now: Totals, steps: seq<Step>, thrown: Option<Error>) {
    && AtMost(before, now) && (AnySettled(action, steps) <==> Sum(now) > Sum(before)) && (Cut(action, steps) <==> Severed(thrown))
  }

  lemma HeededMore(action: Action, before: Totals, mid: Totals, now: Totals, steps: seq<Step>, step: Step, thrown: Option<Error>)
    requires Heeded(action, before, mid, steps, None) && Ended(mid, now, thrown, StepEnd(action, step))
    ensures Heeded(action, before, now, steps + [step], thrown)
  {
    hide AnySettled, Cut, StepEnd;
    SettledSnoc(action, steps, step);
  }

  lemma SelfMost(action: Action, t: Totals)
    ensures AtMost(t, t) && Heeded(action, t, t, [], None)
  {}

  lemma HeededOn(action: Action, before: Totals, mid: Totals, now: Totals, steps: seq<Step>, said: seq<Step>, thrown: Option<Error>)
    requires Heeded(action, before, mid, steps, None) && Heeded(action, mid, now, said, thrown) && (thrown.Some? ==> said != [])
    ensures Heeded(action, before, now, steps + said, thrown)
  {
    hide AnySettled, StepEnd;
    SettledConcat(action, steps, said);
    if said == [] { assert steps + said == steps; }
  }

  /** A turn that ends before the run, and what can be told of it at once. */
  lemma EarlyEnd(action: Action, step: Step)
    ensures step.turn.gone ==> StepEnd(action, step) == Severs(false)
    ensures !step.turn.gone && step.turn.short ==> StepEnd(action, step) == Over(false)
  {}

  /** The turns went as the replies say, each through all its messages, but perhaps the last, which came to this. */
  ghost predicate Retold(action: Action, manifest: seq<Group>, rows: seq<Row>, steps: seq<Step>, thrown: Option<Error>, verdict: Reason) {
    && (forall i {:trigger steps[i]} :: 0 <= i < |steps| - 1 ==> StepDone(action, manifest, rows, steps[i], None, All))
    && if steps == [] then thrown.None? && verdict == All else StepDone(action, manifest, rows, steps[|steps| - 1], thrown, verdict)
  }

  ghost predicate Recounted(action: Action, manifest: seq<Group>, rows: seq<Row>, steps: seq<Step>) {
    exists thrown, verdict {:trigger Retold(action, manifest, rows, steps, thrown, verdict)} :: Retold(action, manifest, rows, steps, thrown, verdict)
  }

  /** The request ceases with its last turn, or when there is no time for another. */
  predicate Ceases(thrown: Option<Error>, reason: Reason, verdict: Reason, late: bool) {
    reason == verdict || (thrown.None? && verdict == All && reason == Budget && late)
  }

  lemma RetoldNone(action: Action, manifest: seq<Group>, rows: seq<Row>)
    ensures Retold(action, manifest, rows, [], None, All)
  {}

  /** What is done with stays so. */
  lemma DoneKept(action: Action, manifest: seq<Group>, rows: seq<Row>, rows': seq<Row>, step: Step)
    requires StepDone(action, manifest, rows, step, None, All) && Kept(rows, rows')
    ensures StepDone(action, manifest, rows', step, None, All)
  {
    hide WayOf, Fate, Caused, Searched;
    assert RowKept(rows[step.g], rows'[step.g]);
    if Opens(step) {
      var talk, refs, all, row, row' := step.turn.talk, RefsOf(step), manifest[step.g].uids, rows[step.g], rows'[step.g];
      var e, doubt :| Caused(WayOf(action, talk, refs), action, talk.batches, e, doubt) && RowFate(action, talk, refs, all, step.uids, row, e, doubt)
        && None == (if !doubt && (e == Some(StaleScope) || e == Some(NoSession)) then e else None) && All == Verdict(None, e == Some(Exhausted), doubt);
      forall i | 0 <= i < |row'| && all[i] in step.uids ensures row'[i] == row[i] { assert row[i].Some?; }
      assert RowFate(action, talk, refs, all, step.uids, row', e, doubt);
    }
  }

  lemma RetoldMore(action: Action, manifest: seq<Group>, before: seq<Row>, rows: seq<Row>, steps: seq<Step>, step: Step, thrown: Option<Error>, verdict: Reason)
    requires Retold(action, manifest, before, steps, None, All) && Kept(before, rows) && StepDone(action, manifest, rows, step, thrown, verdict)
    ensures Retold(action, manifest, rows, steps + [step], thrown, verdict)
  {
    hide StepDone, Kept;
    var all := steps + [step];
    forall i | 0 <= i < |all| - 1 ensures StepDone(action, manifest, rows, all[i], None, All) {
      assert all[i] == steps[i];
      DoneKept(action, manifest, before, rows, steps[i]);
    }
  }

  lemma RetoldOn(action: Action, manifest: seq<Group>, before: seq<Row>, rows: seq<Row>, steps: seq<Step>, said: seq<Step>, thrown: Option<Error>, verdict: Reason)
    requires Retold(action, manifest, before, steps, None, All) && Kept(before, rows) && Retold(action, manifest, rows, said, thrown, verdict)
    ensures Retold(action, manifest, rows, steps + said, thrown, verdict)
  {
    hide StepDone, Kept;
    var all := steps + said;
    forall i | 0 <= i < |steps| ensures all[i] == steps[i] && StepDone(action, manifest, rows, steps[i], None, All) {
      DoneKept(action, manifest, before, rows, steps[i]);
    }
    assert forall i :: |steps| <= i < |all| ==> all[i] == said[i - |steps|];
  }

  /** A turn that is hindered settles nothing. */
  lemma Hindered(action: Action, manifest: seq<Group>, rows: seq<Row>, step: Step)
    requires step.g < |manifest| == |rows| && |rows[step.g]| == |manifest[step.g].uids| && Planned(manifest[step.g].uids, rows[step.g], step.uids)
    ensures step.turn.gone ==> StepDone(action, manifest, rows, step, Some(Gone), Threw)
    ensures !step.turn.gone && step.turn.short ==> StepDone(action, manifest, rows, step, None, Budget)
    ensures !Opens(step) && Hindrance(step).Some? ==> StepDone(action, manifest, rows, step, Hindrance(step), Threw)
  {}

  lemma OpensAgain(step: Step)
    ensures forall talk {:trigger With(step, talk)} :: Opens(With(step, talk)) <==> Opens(step)
  {}

  lemma RunNews(action: Action, manifest: seq<Group>, rows: seq<Row>, step: Step, news: seq<Failure>)
    requires step.g < |manifest| == |rows|
    requires AllCharged(action, step.turn.talk, Refs(step.uids, step.validity), manifest[step.g].uids, step.uids, rows[step.g], step.g, news)
    ensures NewsDue(action, manifest, rows, [step], news)
  {
    hide Charged;
    forall k | 0 <= k < |news| ensures FailureOf(action, manifest, rows, [step], news[k]) { assert FailureDue(action, manifest, rows, [step][0], news[k]); }
  }

  lemma RunStep(action: Action, manifest: seq<Group>, rows: seq<Row>, step: Step, thrown: Option<Error>, verdict: Reason)
    requires step.g < |manifest| == |rows| && |rows[step.g]| == |manifest[step.g].uids| && Opens(step)
    requires RunDone(action, step.turn.talk, Refs(step.uids, step.validity), manifest[step.g].uids, step.uids, rows[step.g], thrown, verdict)
    ensures StepDone(action, manifest, rows, step, thrown, verdict)
  {}

  /** The step is the turn, as far as it was heard, for messages of one of the groups. */
  ghost predicate PosedAt(manifest: seq<Group>, turn: Turn, step: Step) {
    && step.g < |manifest| && step.validity == manifest[step.g].validity && step.uids != []
    && (forall u {:trigger u in step.uids} :: u in step.uids ==> u in manifest[step.g].uids)
    && step.turn == turn.(talk := step.turn.talk) && exists n: nat {:trigger Heard(turn.talk, n)} :: step.turn.talk == Heard(turn.talk, n)
  }

  /** The steps are the turns in order; only the first of them can find the target folder missing. */
  ghost predicate Posed(manifest: seq<Group>, turns: seq<Turn>, at: nat, steps: seq<Step>, target: Target) {
    (steps != [] ==> at + |steps| <= |turns|) && forall i {:trigger steps[i]} :: 0 <= i < |steps| ==>
      PosedAt(manifest, turns[at + i], steps[i]) && steps[i].target == if i == 0 then target else Known
  }

  predicate Opened(steps: seq<Step>, g: nat, pace: Pace) { steps != [] ==> steps[0].g == g && steps[0].pace == pace }

  /** Steps of one group, from turn `at` on, and what they add to the totals. */
  ghost predicate Logged(action: Action, manifest: seq<Group>, turns: seq<Turn>, at: nat, target: Target, g: nat, pace: Pace,
                         before: Totals, now: Totals, steps: seq<Step>, thrown: Option<Error>) {
    Heeded(action, before, now, steps, thrown) && Opened(steps, g, pace) && Posed(manifest, turns, at, steps, target)
  }

  lemma LoggedNone(action: Action, manifest: seq<Group>, turns: seq<Turn>, at: nat, target: Target, g: nat, pace: Pace, totals: Totals)
    ensures Logged(action, manifest, turns, at, target, g, pace, totals, totals, [], None)
  {
    SelfMost(action, totals);
  }

  lemma LoggedMore(action: Action, manifest: seq<Group>, turns: seq<Turn>, at: nat, target: Target, g: nat, pace: Pace,
                   before: Totals, mid: Totals, now: Totals, steps: seq<Step>, step: Step, thrown: Option<Error>)
    requires Logged(action, manifest, turns, at, target, g, pace, before, mid, steps, None) && Ended(mid, now, thrown, StepEnd(action, step))
    requires at + |steps| < |turns| && PosedAt(manifest, turns[at + |steps|], step) && step.g == g
    requires if steps == [] then step.target == target && step.pace == pace else step.target == Known
    ensures Logged(action, manifest, turns, at, target, g, pace, before, now, steps + [step], thrown)
  {
    hide Heeded, Posed, PosedAt, StepEnd;
    HeededMore(action, before, mid, now, steps, step, thrown);
    PosedMore(manifest, turns, at, steps, step, target);
  }

  predicate Begun(paces: seq<Pace>, steps: seq<Step>) { steps != [] ==> steps[0].g < |paces| && steps[0].pace == paces[steps[0].g] }

  /** The call's turns are those it was given, from the state it found; by them it was broken off, or not, and a
      message got its outcome, or not. */
  ghost predicate Accounted(action: Action, manifest: seq<Group>, turns: seq<Turn>, closing: bool, target: Target, paces: seq<Pace>,
                            call: Call, escaped: bool, moved: bool) {
    && Posed(manifest, turns, 0, call.steps, target) && Begun(paces, call.steps) && call.closing == closing
    && (escaped <==> Broken(action, call.steps, closing)) && (moved <==> AnySettled(action, call.steps))
  }

  /** The books know the call with its receipt, if it left one, and with all it added to the totals. */
  ghost predicate Noted(action: Action, manifest: seq<Group>, turns: seq<Turn>, closing: bool, target: Target, paces: seq<Pace>,
                        before: seq<Call>, now: seq<Call>, was: Totals, totals: Totals, reply: Reply) {
    && |now| == |before| + 1 && now[..|before|] == before
    && Accounted(action, manifest, turns, closing, target, paces, now[|before|], reply.Escaped?, totals != was)
    && now[|before|].receipt == (if reply.Ran? then Some(reply.receipt) else None) && Plus(was, now[|before|].delta) == totals
  }

  lemma ItIsNoted(action: Action, manifest: seq<Group>, turns: seq<Turn>, closing: bool, target: Target, paces: seq<Pace>,
                  before: seq<Call>, was: Totals, totals: Totals, reply: Reply, call: Call)
    requires Posed(manifest, turns, 0, call.steps, target) && Begun(paces, call.steps) && call.closing == closing
    requires (reply.Escaped? <==> Broken(action, call.steps, closing)) && (totals != was <==> AnySettled(action, call.steps))
    requires call.receipt == (if reply.Ran? then Some(reply.receipt) else None) && Plus(was, call.delta) == totals
    ensures Noted(action, manifest, turns, closing, target, paces, before, before + [call], was, totals, reply)
  {
    hide Posed, Begun, Broken, AnySettled, Plus;
    assert (before + [call])[..|before|] == before;
  }

  lemma PosedNone(manifest: seq<Group>, turns: seq<Turn>, at: nat, target: Target)
    ensures Posed(manifest, turns, at, [], target)
  {}

  lemma PosedMore(manifest: seq<Group>, turns: seq<Turn>, at: nat, steps: seq<Step>, step: Step, target: Target)
    requires Posed(manifest, turns, at, steps, target) && at + |steps| < |turns| && PosedAt(manifest, turns[at + |steps|], step)
    requires step.target == if steps == [] then target else Known
    ensures Posed(manifest, turns, at, steps + [step], target)
  {
    hide PosedAt;
  }

  lemma PosedOn(manifest: seq<Group>, turns: seq<Turn>, steps: seq<Step>, said: seq<Step>, target: Target, later: Target)
    requires Posed(manifest, turns, 0, steps, target) && Posed(manifest, turns, |steps|, said, later)
    requires later == if steps == [] then target else Known
    ensures Posed(manifest, turns, 0, steps + said, target)
  {
    hide PosedAt;
    if said == [] {
      assert steps + said == steps;
    } else {
      var all := steps + said;
      forall i | 0 <= i < |all| ensures PosedAt(manifest, turns[0 + i], all[i]) && all[i].target == if i == 0 then target else Known {
        if i < |steps| { assert all[i] == steps[i]; } else { assert all[i] == said[i - |steps|]; }
      }
    }
  }

  lemma PosedWhole(manifest: seq<Group>, row: Row, turn: Turn, step: Step)
    requires step.g < |manifest| && step.validity == manifest[step.g].validity && step.uids != [] && Planned(manifest[step.g].uids, row, step.uids)
    requires step.turn == turn
    ensures PosedAt(manifest, turn, step)
  {
    assert Heard(turn.talk, |turn.talk.batches|) == turn.talk by { assert turn.talk.batches[..|turn.talk.batches|] == turn.talk.batches; }
  }

  lemma PosedAgain(manifest: seq<Group>, turn: Turn, step: Step)
    requires PosedAt(manifest, turn, step)
    ensures forall n: nat {:trigger Heard(turn.talk, n)} :: PosedAt(manifest, turn, With(step, Heard(turn.talk, n)))
  {}

  /** By the replies, the run came to this error, and its messages to their results. */
  ghost predicate Conversed(action: Action, talk: Talk, refs: set<Ref>, left: Left, outcomes: seq<Outcome>, thrown: Option<Error>, exhausted: bool, e: Option<Error>) {
    && Caused(WayOf(action, talk, refs), action, talk.batches, e, left.doubt)
    && Fated(WayOf(action, talk, refs), Searched(talk, refs), talk.found, left.pending, outcomes, e, left.doubt)
    && (left.doubt ==> AnyUnknown(outcomes)) && (exhausted <==> e == Some(Exhausted))
    && thrown == (if !left.doubt && (e == Some(StaleScope) || e == Some(NoSession)) then e else None)
  }

  /** What a run leaves behind: the pending messages, the commands sent, those in flight, and whether they are in doubt. */
  datatype Left = Left(pending: set<Ref>, log: seq<Command>, flight: seq<nat>, doubt: bool)

  lemma BatchFacts(all: seq<nat>, row: Row, uids: seq<nat>, validity: nat, action: Action, own: bool, left: Left, outcomes: seq<Outcome>)
    requires Planned(all, row, uids)
    requires Sound(Refs(uids, validity), action, own, left.pending, outcomes, left.log, left.flight, left.doubt)
    ensures forall k {:trigger outcomes[k]} :: 0 <= k < |outcomes| && outcomes[k].status == Unknown ==> !outcomes[k].retryable
    ensures outcomes != [] ==> Unsettled(all, row, outcomes[0].ref.uid)
  {
    hide Sound, Planned, Unsettled, Reported, Honest;
    var refs := Refs(uids, validity);
    RunFacts(refs, action, own, left.pending, outcomes, left.log, left.flight, left.doubt);
    if outcomes != [] { FirstUnset(all, row, uids, refs, validity, outcomes, left.pending); }
  }

  lemma BatchSettled(all: seq<nat>, row: Row, row': Row, touched: set<nat>, uids: seq<nat>, validity: nat, action: Action, own: bool,
                     left: Left, outcomes: seq<Outcome>)
    requires Clean(all, row, touched) && RowAfter(all, row, row', outcomes, |outcomes|) && Planned(all, row, uids)
    requires Sound(Refs(uids, validity), action, own, left.pending, outcomes, left.log, left.flight, left.doubt)
    requires forall r {:trigger r in left.pending} :: r in left.pending ==> !Touched(left.log, r.uid)
    ensures Clean(all, row', touched + set u | u in uids && Touched(left.log, u))
    ensures OnlyThese(all, row, row', uids) && (left.pending == {} ==> Told(all, row', uids))
  {
    hide Sound, Planned, Reported, Honest, Clean, RowAfter, Touched, OnlyThese, Told;
    var refs := Refs(uids, validity);
    RunFacts(refs, action, own, left.pending, outcomes, left.log, left.flight, left.doubt);
    Cleaned(all, row, row', touched, refs, action, own, left.pending, outcomes, left.log, left.flight, left.doubt, uids, validity);
    ChangedThese(all, row, row', refs, left.pending, outcomes, uids, validity);
    if left.pending == {} { AllTold(all, row, row', refs, left.pending, outcomes, uids, validity); }
  }

  /** So are the messages in the books. */
  lemma BatchFated(all: seq<nat>, row: Row, row': Row, uids: seq<nat>, validity: nat, action: Action, talk: Talk, left: Left, outcomes: seq<Outcome>,
                   thrown: Option<Error>, exhausted: bool, e: Option<Error>)
    requires Planned(all, row, uids) && RowAfter(all, row, row', outcomes, |outcomes|)
    requires Sound(Refs(uids, validity), action, talk.ownTarget, left.pending, outcomes, left.log, left.flight, left.doubt)
    requires Conversed(action, talk, Refs(uids, validity), left, outcomes, thrown, exhausted, e)
    ensures RunDone(action, talk, Refs(uids, validity), all, uids, row', thrown, Verdict(thrown, exhausted, AnyUnknown(outcomes)))
  {
    hide WayOf, Searched, Fate, Caused, Honest, AllAdmitted, Touched, Verdict, ErrorOf, Once, Confirmed, Final, Effected, Admitted, UidsOf, Uniform, Blame, Blamed, WayAllowed, WayFound, WayMoved, Admits, Refuses, CodeOf, AnyUnknown, NoneFound;
    var refs := Refs(uids, validity);
    forall i | 0 <= i < |row'| && all[i] in uids && row'[i].None?
      ensures !left.doubt && e.Some? && !Refuses(e) && (Searched(talk, refs) ==> all[i] in talk.found)
    {
      var r := Ref(all[i], validity);
      assert r in refs && r !in Reported(outcomes);
      assert r in left.pending;
    }
    OnlyInDoubt(WayOf(action, talk, refs), Searched(talk, refs), talk.found, left.pending, outcomes, e, left.doubt);
    if left.doubt { UnknownShown(all, row, row', uids, validity, refs, left.pending, outcomes); }
    assert RowFate(action, talk, refs, all, uids, row', e, left.doubt);
  }

  lemma BatchCharged(all: seq<nat>, row: Row, uids: seq<nat>, validity: nat, action: Action, talk: Talk, left: Left, outcomes: seq<Outcome>,
                     thrown: Option<Error>, exhausted: bool, e: Option<Error>, g: nat, news: seq<Failure>)
    requires Reports(all, row, g, outcomes, news)
    requires Sound(Refs(uids, validity), action, talk.ownTarget, left.pending, outcomes, left.log, left.flight, left.doubt)
    requires Conversed(action, talk, Refs(uids, validity), left, outcomes, thrown, exhausted, e)
    ensures AllCharged(action, talk, Refs(uids, validity), all, uids, row, g, news)
  {
    hide WayOf, Searched, Caused, AllAdmitted, Touched, Confirmed, Effected, CodeOf, AnyUnknown;
    var refs := Refs(uids, validity);
    forall j | 0 <= j < |news| ensures news[j].g == g && Charged(action, talk, refs, all, uids, row, news[j]) {
      assert Reported1(all, row, g, outcomes, news[j]);
      var k :| 0 <= k < |outcomes| && Tells(all, row, outcomes[k], news[j]);
      assert outcomes[k].ref in Reported(outcomes) && outcomes[k].ref in refs;
      assert Due(WayOf(action, talk, refs), Searched(talk, refs), talk.found, outcomes[k], e, left.doubt);
    }
  }

  lemma OnlyInDoubt(way: Way, searched: bool, found: set<nat>, pending: set<Ref>, outcomes: seq<Outcome>, e: Option<Error>, doubt: bool)
    requires Fated(way, searched, found, pending, outcomes, e, doubt)
    ensures AnyUnknown(outcomes) ==> doubt
  {}

  /** What a run ensures, of what was heard of the conversation. */
  lemma ItConversed(action: Action, talk: Talk, n: nat, refs: set<Ref>, left: Left, outcomes: seq<Outcome>, thrown: Option<Error>, exhausted: bool, e: Option<Error>)
    requires n <= |talk.batches| && Caused(WayOf(action, talk, refs), action, talk.batches[..n], e, left.doubt)
    requires Fated(WayOf(action, talk, refs), Searched(talk, refs), talk.found, left.pending, outcomes, e, left.doubt)
    requires (left.doubt ==> AnyUnknown(outcomes)) && (exhausted <==> e == Some(Exhausted))
    requires thrown == if !left.doubt && (e == Some(StaleScope) || e == Some(NoSession)) then e else None
    ensures Conversed(action, Heard(talk, n), refs, left, outcomes, thrown, exhausted, e)
    ensures thrown.None? && !exhausted ==> left.pending == {}
  {
    hide Due, Caused, AnyUnknown;
    assert WayOf(action, Heard(talk, n), refs) == WayOf(action, talk, refs) && Searched(Heard(talk, n), refs) == Searched(talk, refs);
  }

  /** A session that is lost before the folder is opened. */
  lemma LostEnd(action: Action, talk: Talk, n: nat, refs: set<Ref>, pace: Pace)
    ensures talk.selected == Some(SessionLost) ==> EndOf(action, Heard(talk, n), refs, pace, MIN_START_MS) == Severs(false)
  {}

  lemma UnknownShown(all: seq<nat>, row: Row, row': Row, uids: seq<nat>, validity: nat, refs: set<Ref>, pending: set<Ref>, outcomes: seq<Outcome>)
    requires Planned(all, row, uids) && RowAfter(all, row, row', outcomes, |outcomes|) && AnyUnknown(outcomes)
    requires refs == Refs(uids, validity) && refs == pending + Reported(outcomes) && Once(outcomes)
    ensures exists i :: 0 <= i < |row'| && all[i] in uids && row'[i] == Some(Unknown)
  {
    var k :| 0 <= k < |outcomes| && outcomes[k].status == Unknown;
    assert outcomes[k].ref in Reported(outcomes);
    var i :| 0 <= i < |all| && all[i] == outcomes[k].ref.uid;
    assert row'[i].Some?;
    var j :| 0 <= j < |outcomes| && outcomes[j].ref.uid == all[i] && row'[i] == Some(outcomes[j].status);
    assert outcomes[j].ref in Reported(outcomes);
    assert outcomes[j].ref == outcomes[k].ref;
  }

  lemma OneRef(uids: seq<nat>, validity: nat, refs: set<Ref>)
    requires |uids| == 1 && refs == Refs(uids, validity)
    ensures refs == {Ref(uids[0], validity)}
  {
    assert uids[0] in uids;
  }

  predicate AllDone(all: seq<nat>, row: Row, uids: seq<nat>) {
    |row| == |all| && forall i {:trigger row[i]} :: 0 <= i < |row| && all[i] in uids ==> row[i] == Some(Processed)
  }

  /** A batch of which everything was processed. */
  lemma FineRow(all: seq<nat>, row: Row, row': Row, outcomes: seq<Outcome>, uids: seq<nat>)
    requires RowAfter(all, row, row', outcomes, |outcomes|) && AllProcessed(outcomes) && Told(all, row', uids) && Planned(all, row, uids)
    ensures AllDone(all, row', uids) && !AnyUnknown(outcomes)
  {
    forall i | 0 <= i < |row'| && all[i] in uids ensures row'[i] == Some(Processed) { assert row[i].None? && row'[i].Some?; }
  }

  lemma HeededWhole(action: Action, before: Totals, now: Totals, steps: seq<Step>, thrown: Option<Error>, closing: bool)
    requires Heeded(action, before, now, steps, thrown)
    ensures AtMost(before, now) && (Less(now, before) == Zero <==> !AnySettled(action, steps)) && (now != before <==> AnySettled(action, steps))
    ensures Broken(action, steps, closing) <==> Severed(thrown) || closing
  {
    hide AnySettled, Cut;
  }

  /** A call that is broken off is in the books without a receipt. */
  lemma BrokenOff(action: Action, before: Totals, now: Totals, calls: seq<Call>, call: Call)
    requires Truthful(action, calls) && before == SumAll(calls) && AtMost(before, now) && call.receipt.None? && call.delta == Less(now, before)
    requires Broken(action, call.steps, call.closing) && (call.delta == Zero <==> !AnySettled(action, call.steps))
    ensures Truthful(action, calls + [call]) && SumAll(calls + [call]) == now
  {
    hide AnySettled, Broken, SumAll, Truthful;
    SumAllSnoc(calls, call);
    SplitLast(action, calls, call);
    LessPlus(before, now);
  }

  lemma FirstUnset(all: seq<nat>, row: Row, uids: seq<nat>, refs: set<Ref>, validity: nat, outcomes: seq<Outcome>, pending: set<Ref>)
    requires Planned(all, row, uids) && refs == Refs(uids, validity) && refs == pending + Reported(outcomes) && outcomes != []
    ensures Unsettled(all, row, outcomes[0].ref.uid)
  {
    assert outcomes[0].ref in Reported(outcomes);
  }

  // ---------- a receipt that is missing ----------

  /** A group of one message that has no outcome yet. */
  predicate Alone(manifest: seq<Group>, rows: seq<Row>, g: nat) {
    g < |manifest| == |rows| && |manifest[g].uids| == 1 && rows[g] == [None]
  }

  predicate Unhindered(turn: Turn) { !turn.gone && !turn.short }

  predicate FineTurn(action: Action, turn: Turn, group: Group) { Unhindered(turn) && Fine(action, turn.talk, group.validity, group.uids) }

  predicate LostTurn(turn: Turn) { Unhindered(turn) && turn.talk.selected == Some(SessionLost) }

  /** Two groups of one message each: the first goes well, and the session ends before the second. */
  predicate Losing(manifest: seq<Group>, rows: seq<Row>, action: Action, turns: seq<Turn>) {
    && |manifest| == 2 && Alone(manifest, rows, 0) && Alone(manifest, rows, 1) && |turns| >= 2
    && FineTurn(action, turns[0], manifest[0]) && LostTurn(turns[1])
  }

  /** Two folders with a message each; the first is flagged, and the session ends before the second is selected. */
  const TwoFolders := [Group("Archive", 1, [1]), Group("INBOX", 1, [1])]
  const GoesWell := Talk(None, 1, false, false, None, true, true, None, {1}, None, true, true, true,
                         [Exchange(None, 45000.0, false, None, false, None, 20.0)])
  const SessionEnds := [Turn(false, false, None, false, None, None, GoesWell),
                        Turn(false, false, None, false, None, None, GoesWell.(selected := Some(SessionLost)))]

  lemma LosingScript(rows: seq<Row>)
    requires rows == [[None], [None]]
    ensures Losing(TwoFolders, rows, Flag, SessionEnds)
  {
    assert Smooth(Flag, GoesWell, {Ref(1, 1)}, MIN_START_MS);
    assert FineTurn(Flag, SessionEnds[0], TwoFolders[0]);
  }

  /** Receipts do miss outcomes: after this call, which any client can make, a message is processed that no receipt
      will ever report. */
  method LosesAReceipt() returns (s: Selection, reply: Reply)
    ensures s.Valid() && reply.Escaped? && s.receipts == map[] && s.cursor == Some(0)
    ensures s.totals == SumAll(s.calls) == Totals(1, 0, 0) && SumReceipts(s.calls) == Zero && !NothingLost(Flag, s.calls)
  {
    hide Losing, Ledger, Shaped, Size, SumAll, SumReceipts, NothingLost, Truthful, Tally, Honored, Settled, PhaseFits, Kept, AllClean, Noted, Posed, Begun;
    var first := new BatchState(true);
    var second := new BatchState(true);
    OneUid();
    s := new Selection(TwoFolders, Flag, [first, second], false, 0);
    assert s.rows == [[None], [None]] by {
      assert |s.rows| == 2 && s.rows[0] == [None] && s.rows[1] == [None];
    }
    LosingScript(s.rows);
    ghost var target, paces := s.TargetNow(), s.Paces();
    reply := s.Execute(0, false, SessionEnds, false);
    OneNoted(Flag, TwoFolders, SessionEnds, false, target, paces, s.calls, Zero, s.totals, reply);
    assert s.rows == [[Some(Processed)], [None]];
    LostTally(s.rows);
    LedgerTally(s.rows, s.totals, s.failures, s.errorCounts);
    LostCall(s.calls, s.totals);
    ReceiptsAddUp(Flag, s.calls);
  }

  lemma OneNoted(action: Action, manifest: seq<Group>, turns: seq<Turn>, closing: bool, target: Target, paces: seq<Pace>,
                 calls: seq<Call>, was: Totals, totals: Totals, reply: Reply)
    requires Noted(action, manifest, turns, closing, target, paces, [], calls, was, totals, reply) && reply.Escaped?
    ensures |calls| == 1 && calls[0].receipt.None?
  {}

  lemma LedgerTally(rows: seq<Row>, totals: Totals, failures: seq<Failure>, counts: map<string, nat>)
    requires Ledger(rows, totals, failures, counts)
    ensures totals == Tally(rows)
  {}

  lemma OneUid()
    ensures Uids([1])
  {}

  lemma CountTwo(a: Row, b: Row, m: Option<Status>)
    requires |a| == 1 && |b| == 1
    ensures Count([a, b], m) == One(a[0] == m) + One(b[0] == m)
  {
    assert [a, b][1..] == [b] && [b][1..] == [];
    assert a[1..] == [] && b[1..] == [];
    assert Count([b], m) == CountIn(b, m) + 0;
  }

  lemma LostTally(rows: seq<Row>)
    requires rows == [[Some(Processed)], [None]]
    ensures Tally(rows) == Totals(1, 0, 0)
  {
    CountTwo(rows[0], rows[1], Some(Processed));
    CountTwo(rows[0], rows[1], Some(Skipped));
    CountTwo(rows[0], rows[1], Some(Failed));
    CountTwo(rows[0], rows[1], Some(Unknown));
    assert rows == [rows[0], rows[1]];
  }

  lemma LostCall(calls: seq<Call>, totals: Totals)
    requires |calls| == 1 && calls[0].receipt.None? && SumAll(calls) == totals && totals != Zero
    ensures SumReceipts(calls) == Zero
  {
    assert calls[..0] == [];
  }

  lemma AloneUnset(uids: seq<nat>, row: Row)
    requires |uids| == 1 && row == [None]
    ensures Unset(uids, row) == uids
  {
    assert Unset(uids[1..], row[1..]) == [];
    assert uids == [uids[0]] + [];
  }

  lemma AloneDone(all: seq<nat>, rows: seq<Row>, rows': seq<Row>, g: nat, uids: seq<nat>)
    requires |all| == 1 && g < |rows| == |rows'| && rows' == rows[g := rows'[g]] && |rows[g]| == 1 && Kept(rows, rows') && uids == all
    ensures |rows'[g]| == 1 && all[0] in uids
    ensures rows'[g][0] == Some(Processed) ==> rows' == rows[g := [Some(Processed)]]
  {
    assert RowKept(rows[g], rows'[g]);
    assert rows'[g] == [rows'[g][0]];
  }

  lemma OnlyOne(pending: seq<nat>, uids: seq<nat>, all: seq<nat>)
    requires |pending| == 1
    ensures uids != [] && uids <= pending[0..] ==> uids == pending
  {
    if uids != [] && uids <= pending[0..] { assert uids == pending[0..][..|uids|]; }
  }

  lemma OnlySame(all: seq<nat>, rows: seq<Row>, g: nat, uids: seq<nat>)
    requires g < |rows| && |rows[g]| == |all|
    ensures OnlyThese(all, rows[g], rows[g], uids) && rows == rows[g := rows[g]]
  {}

  /** The receipt of a request; `next` is the cursor it may offer. */
  function ReceiptOf(sequence: nat, before: Totals, totals: Totals, news: seq<Failure>, next: nat, left: nat,
                     thrown: Option<Error>, created: bool, reason: Reason): (r: Receipt)
    requires AtMost(before, totals) && (reason == All ==> left == 0)
    ensures Plus(before, r.delta) == totals == r.totals && r.failed == news && r.remaining == left && (r.reason == All ==> left == 0)
    ensures r.next == None || r.next == Some(next)
    ensures r.next.None? <==> r.error.Some? || left == 0
  {
    var error := if thrown.Some? && (thrown != Some(Exhausted) || created) then thrown else None;
    var completed := left == 0 && error.None?;
    Receipt(sequence, Less(totals, before), totals, news, if error.Some? || completed then None else Some(next), left,
            if error == Some(StaleScope) then StaleStop else if error.Some? then ErrorStop
            else if completed then Complete else if thrown.Some? then Budget else reason, error)
  }

  /** What a receipt says of the end of its request, by the error thrown. */
  predicate Marked(receipt: Receipt, thrown: Option<Error>, created: bool, reason: Reason) {
    && receipt.error == (if thrown == Some(Exhausted) && !created then None else thrown)
    && (receipt.next.None? <==> receipt.error.Some? || receipt.remaining == 0)
    && receipt.reason == ReasonOf(receipt, if thrown.Some? then Budget else reason) && (reason == All ==> receipt.remaining == 0)
  }

  function ReasonOf(receipt: Receipt, reason: Reason): Reason {
    if receipt.error == Some(StaleScope) then StaleStop else if receipt.error.Some? then ErrorStop
    else if receipt.remaining == 0 then Complete else reason
  }

  /** A receipt answers for the turns of its request.  They went as the replies say, each to its end but perhaps the
      last; the error is the one the replies to the last turn call for, and with it the selection ends; without one
      there is a next cursor as long as messages remain.  The request stopped because a command of the last turn was
      left in doubt, or else for want of time: the replies to the last turn say so, or there was no turn left. */
  ghost predicate Answers(action: Action, manifest: seq<Group>, turns: seq<Turn>, rows: seq<Row>, steps: seq<Step>, receipt: Receipt) {
    && receipt.error == (if steps == [] then None else Shown(steps[|steps| - 1]))
    && (receipt.next.None? <==> receipt.error.Some? || receipt.remaining == 0) && NewsDue(action, manifest, rows, steps, receipt.failed)
    && exists thrown, verdict {:trigger Retold(action, manifest, rows, steps, thrown, verdict)} ::
      && Retold(action, manifest, rows, steps, thrown, verdict)
      && receipt.reason == ReasonOf(receipt, if verdict == Batch then Batch else Budget)
      && (verdict == All && receipt.remaining > 0 ==> |steps| >= |turns|)
  }

  lemma ItAnswers(action: Action, manifest: seq<Group>, turns: seq<Turn>, rows: seq<Row>, steps: seq<Step>, receipt: Receipt,
                  thrown: Option<Error>, verdict: Reason, created: bool, reason: Reason)
    requires Retold(action, manifest, rows, steps, thrown, verdict) && Ceases(thrown, reason, verdict, |steps| >= |turns|) && !Severed(thrown)
    requires thrown == Some(Exhausted) ==> steps != [] && (created <==> Attempted(steps[|steps| - 1]))
    requires Marked(receipt, thrown, created, reason) && NewsDue(action, manifest, rows, steps, receipt.failed)
    ensures Answers(action, manifest, turns, rows, steps, receipt)
  {
    hide RunDone, Attempted, Opens, NewsDue;
    if steps != [] {
      var step := steps[|steps| - 1];
      StepShown(action, manifest, rows, step, thrown, verdict);
    }
  }

  /** Every receipt is kept under a cursor given out before, and the current cursor has none. */
  predicate Chained(receipts: map<nat, Receipt>, cursor: Option<nat>, unused: nat) {
    (forall c {:trigger c in receipts} :: c in receipts ==> c < unused) && (cursor.Some? ==> cursor.value < unused && cursor.value !in receipts)
  }

  lemma ChainedOn(receipts: map<nat, Receipt>, c: nat, receipt: Receipt, unused: nat)
    requires Chained(receipts, Some(c), unused) && (receipt.next == None || receipt.next == Some(unused))
    ensures Chained(receipts[c := receipt], receipt.next, unused + 1)
  {}

  /** What a turn throws, and what the client is told of it. */
  lemma StepShown(action: Action, manifest: seq<Group>, rows: seq<Row>, step: Step, thrown: Option<Error>, verdict: Reason)
    requires StepDone(action, manifest, rows, step, thrown, verdict)
    ensures thrown == Some(NoSession) || Shown(step) == if thrown == Some(Exhausted) && !Attempted(step) then None else thrown
    ensures thrown.Some? <==> verdict == Threw
    ensures verdict == All || verdict == Batch || verdict == Budget || verdict == Threw
  {
    hide RowFate;
    if Opens(step) {
      var talk, refs := step.turn.talk, RefsOf(step);
      var e, doubt :| Caused(WayOf(action, talk, refs), action, talk.batches, e, doubt) && RowFate(action, talk, refs, manifest[step.g].uids, step.uids, rows[step.g], e, doubt)
        && thrown == (if !doubt && (e == Some(StaleScope) || e == Some(NoSession)) then e else None) && verdict == Verdict(thrown, e == Some(Exhausted), doubt);
      StaleOnly(action, talk, refs, e, doubt);
    }
  }

  /** The folder is found replaced exactly if it opens with another UIDVALIDITY. */
  lemma StaleOnly(action: Action, talk: Talk, refs: set<Ref>, e: Option<Error>, doubt: bool)
    requires Caused(WayOf(action, talk, refs), action, talk.batches, e, doubt)
    ensures e == Some(StaleScope) <==> talk.selected.None? && !Uniform(refs, talk.validity)
    ensures e == Some(StaleScope) ==> !doubt
  {}

  /** The receipt and the call it belongs to. */
  lemma Concluded(sequence: nat, before: Totals, totals: Totals, news: seq<Failure>, next: nat, left: nat, thrown: Option<Error>, created: bool,
                  reason: Reason, rows: seq<Row>, receipt: Receipt, action: Action, calls: seq<Call>, steps: seq<Step>)
    requires AtMost(before, totals) && (reason == All ==> left == 0) && left == Count(rows, None)
    requires receipt == ReceiptOf(sequence, before, totals, news, next, left, thrown, created, reason)
    requires Truthful(action, calls) && before == SumAll(calls) && !Broken(action, steps, false) && (Less(totals, before) == Zero <==> !AnySettled(action, steps))
    ensures Settled(receipt, before, totals, rows) && receipt.failed == news && (receipt.next == None || receipt.next == Some(next))
    ensures Marked(receipt, thrown, created, reason)
    ensures PhaseFits(if receipt.error.Some? then Errored else if receipt.next.None? then Completed else Running, receipt)
    ensures Truthful(action, calls + [Call(receipt.delta, Some(receipt), steps, false)])
    ensures SumAll(calls + [Call(receipt.delta, Some(receipt), steps, false)]) == totals
  {
    hide Count, Broken, AnySettled, Truthful, SumAll;
    SumAllSnoc(calls, Call(receipt.delta, Some(receipt), steps, false));
    SplitLast(action, calls, Call(receipt.delta, Some(receipt), steps, false));
  }

  /** A receipt reports what its request added, and where the selection stands. */
  predicate Settled(receipt: Receipt, before: Totals, totals: Totals, rows: seq<Row>) {
    Plus(before, receipt.delta) == totals == receipt.totals && receipt.remaining == Count(rows, None)
    && (receipt.reason == All ==> receipt.remaining == 0)
  }

  predicate PhaseFits(phase: Phase, receipt: Receipt) {
    (receipt.next.Some? <==> phase == Running) && (phase == Errored <==> receipt.error.Some?)
    && (phase == Completed <==> receipt.remaining == 0 && receipt.error.None?)
  }

  function Less(a: Totals, b: Totals): Totals
    requires AtMost(b, a)
  {
    Totals(a.processed - b.processed, a.skipped - b.skipped, a.failed - b.failed)
  }

  lemma LessPlus(before: Totals, totals: Totals)
    requires AtMost(before, totals)
    ensures Plus(before, Less(totals, before)) == totals
  {}

  /** What remains is what has no outcome. */
  lemma Balance(rows: seq<Row>, totals: Totals, failures: seq<Failure>, counts: map<string, nat>, initialTotal: nat)
    requires Ledger(rows, totals, failures, counts) && initialTotal == Size(rows)
    ensures initialTotal == totals.processed + totals.skipped + totals.failed + Count(rows, None)
  {
    LeftIsUnset(rows);
  }

  function Retryable(manifest: seq<Group>, failures: seq<Failure>, g: nat): set<nat>
    requires g < |manifest|
  {
    set k | 0 <= k < |failures| && failures[k].g == g && failures[k].retryable && failures[k].index < |manifest[g].uids| :: manifest[g].uids[failures[k].index]
  }

  /** A group to try again holds exactly the group's retryable failures, and the server was never
      asked to change any of them. */
  ghost predicate RetryGroup(manifest: seq<Group>, failures: seq<Failure>, touched: seq<set<nat>>, g: nat, again: Group) {
    && g < |manifest| == |touched| && again.path == manifest[g].path && again.validity == manifest[g].validity
    && Uids(again.uids) && again.uids != []
    && (forall u {:trigger u in again.uids} :: u in again.uids <==> u in Retryable(manifest, failures, g))
    && (forall u {:trigger u in again.uids} :: u in again.uids ==> u !in touched[g])
  }

  lemma NoRetry(manifest: seq<Group>, failures: seq<Failure>, g: nat)
    requires g < |manifest|
    ensures Uids([]) && Retryable(manifest, failures[..0], g) == {}
  {}

  lemma RetryMore(manifest: seq<Group>, rows: seq<Row>, totals: Totals, failures: seq<Failure>, counts: map<string, nat>, g: nat, k: nat)
    requires Shaped(manifest, rows) && Ledger(rows, totals, failures, counts) && g < |manifest| && k < |failures|
    ensures failures[k].g == g ==> failures[k].index < |manifest[g].uids| && 0 < manifest[g].uids[failures[k].index] <= MAX_UID
    ensures Retryable(manifest, failures[..k + 1], g) == Retryable(manifest, failures[..k], g)
      + if failures[k].g == g && failures[k].retryable then {manifest[g].uids[failures[k].index]} else {}
  {
    hide Tally, Counted;
    assert Listed(rows, failures[k]);
    assert forall j :: 0 <= j < k ==> failures[..k + 1][j] == failures[..k][j];
    assert failures[..k + 1][k] == failures[k];
  }

  lemma RetryUntouched(manifest: seq<Group>, rows: seq<Row>, totals: Totals, failures: seq<Failure>, counts: map<string, nat>,
                       touched: seq<set<nat>>, g: nat)
    requires Shaped(manifest, rows) && Ledger(rows, totals, failures, counts) && AllClean(manifest, rows, touched) && g < |manifest|
    ensures |touched| == |manifest|
    ensures forall u {:trigger u in Retryable(manifest, failures, g)} :: u in Retryable(manifest, failures, g) ==> u !in touched[g]
  {
    hide Tally, Counted;
    forall u | u in Retryable(manifest, failures, g) ensures u !in touched[g] {
      var k :| 0 <= k < |failures| && failures[k].g == g && failures[k].retryable && failures[k].index < |manifest[g].uids| && u == manifest[g].uids[failures[k].index];
      assert Listed(rows, failures[k]);
      assert rows[g][failures[k].index] == Some(Failed);
    }
  }

  lemma ShapedAt(manifest: seq<Group>, rows: seq<Row>, g: nat)
    requires Shaped(manifest, rows) && g < |manifest|
    ensures |rows| == |manifest| && |rows[g]| == |manifest[g].uids| && Uids(manifest[g].uids)
  {}


  lemma KeptSelf(rows: seq<Row>)
    ensures Kept(rows, rows)
  {}

  lemma NothingBefore(rows: seq<Row>)
    ensures NoneUnset(rows, 0)
  {}

  /** The messages of a group that have no outcome yet. */
  function Unset(uids: seq<nat>, row: Row): seq<nat>
    requires |uids| == |row|
  {
    if uids == [] then [] else if row[0].None? then [uids[0]] + Unset(uids[1..], row[1..]) else Unset(uids[1..], row[1..])
  }

  lemma UnsetExact(uids: seq<nat>, row: Row)
    requires |uids| == |row| && Uids(uids)
    ensures Uids(Unset(uids, row)) && forall u {:trigger u in Unset(uids, row)} :: u in Unset(uids, row) ==> u in uids
    ensures forall i {:trigger row[i]} :: 0 <= i < |row| ==> (row[i].None? <==> uids[i] in Unset(uids, row))
  {
    hide Unset, Uids;
    UnsetUids(uids, row);
    forall i | 0 <= i < |row| ensures row[i].None? <==> uids[i] in Unset(uids, row) { UnsetAt(uids, row, i); }
  }

  lemma {:induction false} UnsetUids(uids: seq<nat>, row: Row)
    requires |uids| == |row| && Uids(uids)
    ensures Uids(Unset(uids, row)) && forall u {:trigger u in Unset(uids, row)} :: u in Unset(uids, row) ==> u in uids
  {
    hide Uids;
    if uids != [] {
      TailUids(uids);
      UnsetUids(uids[1..], row[1..]);
      ConsUids(uids[0], Unset(uids[1..], row[1..]));
    } else {
      NoUids();
    }
  }

  lemma {:induction false} UnsetAt(uids: seq<nat>, row: Row, i: nat)
    requires |uids| == |row| && Uids(uids) && i < |row|
    ensures row[i].None? <==> uids[i] in Unset(uids, row)
  {
    hide Uids;
    TailUids(uids);
    UnsetUids(uids[1..], row[1..]);
    if i > 0 {
      UnsetAt(uids[1..], row[1..], i - 1);
      assert uids[1..][i - 1] == uids[i] && uids[i] in uids[1..];
    }
  }

  lemma NoUids()
    ensures Uids([])
  {}

  /** What is still to be planned is what has no outcome yet, and nothing planned has one. */
  predicate Facing(all: seq<nat>, row: Row, pending: seq<nat>, offset: nat) {
    && offset <= |pending| && |row| == |all|
    && (forall u {:trigger u in pending[offset..]} :: u in pending[offset..] ==> u in all)
    && forall i {:trigger row[i]} :: 0 <= i < |row| ==> (row[i].None? <==> all[i] in pending[offset..])
  }

  lemma StartRow(all: seq<nat>, row: Row, pending: seq<nat>)
    requires |all| == |row| && Uids(all) && pending == Unset(all, row)
    ensures Uids(pending) && Facing(all, row, pending, 0)
  {
    hide Uids, Unset;
    UnsetExact(all, row);
    assert pending[0..] == pending;
  }

  lemma PlannedNext(all: seq<nat>, row: Row, pending: seq<nat>, offset: nat, uids: seq<nat>)
    requires Facing(all, row, pending, offset) && uids <= pending[offset..] && Uids(pending[offset..])
    ensures Planned(all, row, uids) && Uids(uids)
  {
    PrefixAscending(pending[offset..], uids);
    assert forall u :: u in uids ==> u in pending[offset..];
  }

  lemma NextRow(all: seq<nat>, rows: seq<Row>, rows': seq<Row>, pending: seq<nat>, offset: nat, uids: seq<nat>, g: nat)
    requires g < |rows| && |rows'| == |rows| && Kept(rows, rows') && rows' == rows[g := rows'[g]] && NoneUnset(rows, g)
    requires Facing(all, rows[g], pending, offset) && Uids(pending) && uids <= pending[offset..]
    requires Told(all, rows'[g], uids) && OnlyThese(all, rows[g], rows'[g], uids)
    ensures NoneUnset(rows', g) && Facing(all, rows'[g], pending, offset + |uids|)
  {
    var rest, left := pending[offset..], pending[offset + |uids|..];
    assert forall u {:trigger u in rest} :: u in rest <==> u in uids || u in left by { SplitMembers(pending, offset, uids); }
    assert forall u {:trigger u in uids} :: u in uids ==> u !in left by { SplitMembers(pending, offset, uids); }
    hide Uids;
    assert NoneUnset(rows', g) by { KeptBefore(rows, rows', g); }
    forall u | u in left ensures u in all { assert u in rest; }
    forall i | 0 <= i < |all| ensures rows'[g][i].None? <==> all[i] in left {
      assert rows[g][i].None? <==> all[i] in rest;
      assert all[i] in uids ==> rows'[g][i].Some?;
    }
  }

  lemma KeptBefore(rows: seq<Row>, rows': seq<Row>, g: nat)
    requires g < |rows| && |rows'| == |rows| && rows' == rows[g := rows'[g]] && NoneUnset(rows, g)
    ensures NoneUnset(rows', g)
  {}

  lemma SplitMembers(pending: seq<nat>, offset: nat, uids: seq<nat>)
    requires Uids(pending) && offset <= |pending| && uids <= pending[offset..]
    ensures offset + |uids| <= |pending|
    ensures forall u {:trigger u in uids} :: u in uids ==> u !in pending[offset + |uids|..]
    ensures forall u {:trigger u in pending[offset..]} :: u in pending[offset..] <==> u in uids || u in pending[offset + |uids|..]
  {
    var rest, left := pending[offset..], pending[offset + |uids|..];
    assert rest == uids + left;
    assert forall i :: 0 <= i < |uids| ==> uids[i] == pending[offset + i];
    assert forall i :: 0 <= i < |left| ==> left[i] == pending[offset + |uids| + i];
  }

  /** A batch changes the outcomes of its own messages only. */
  predicate OnlyThese(all: seq<nat>, row: Row, row': Row, uids: seq<nat>) {
    |row| == |row'| == |all| && forall i {:trigger row'[i]} :: 0 <= i < |row| && all[i] !in uids ==> row'[i] == row[i]
  }

  lemma RowDone(all: seq<nat>, rows: seq<Row>, pending: seq<nat>, g: nat)
    requires g < |rows| && NoneUnset(rows, g) && Facing(all, rows[g], pending, |pending|)
    ensures NoneUnset(rows, g + 1)
  {
    assert pending[|pending|..] == [];
    forall h, i | 0 <= h < g + 1 && 0 <= i < |rows[h]| ensures rows[h][i] != None {
      if h == g { assert rows[g][i].Some?; }
    }
  }

  /** These messages are of the group and have no outcome yet. */
  predicate Planned(all: seq<nat>, row: Row, uids: seq<nat>) {
    |row| == |all| && (forall u {:trigger u in uids} :: u in uids ==> u in all) && forall i {:trigger row[i]} :: 0 <= i < |row| && all[i] in uids ==> row[i].None?
  }

  predicate Told(all: seq<nat>, row: Row, uids: seq<nat>) {
    |row| == |all| && forall i {:trigger row[i]} :: 0 <= i < |row| && all[i] in uids ==> row[i].Some?
  }

  lemma RefsNumbered(uids: seq<nat>, validity: nat, refs: set<Ref>)
    requires Uids(uids) && refs == Refs(uids, validity)
    ensures Numbered(refs) && forall u {:trigger u in uids} :: u in uids <==> u in UidsOf(refs)
  {
    forall u ensures u in uids <==> u in UidsOf(refs) {
      if u in uids { assert Ref(u, validity) in refs && Ref(u, validity).uid in UidsOf(refs); }
    }
    forall r | r in refs ensures 0 < r.uid <= MAX_UID {
      var i :| 0 <= i < |uids| && uids[i] == r.uid;
    }
  }

  lemma Batchful(uids: seq<nat>, validity: nat, refs: set<Ref>, size: nat)
    requires Uids(uids) && Fits(uids, size) && refs == Refs(uids, validity)
    requires forall u {:trigger u in uids} :: u in uids <==> u in UidsOf(refs)
    ensures OneBatchful(refs, size) && (uids != [] ==> refs != {})
  {
    hide Uids, Fits;
    forall other | Uids(other) && (forall u :: u in other <==> u in UidsOf(refs)) ensures Fits(other, size) { SameSorted(uids, other); }
    if uids != [] { assert Ref(uids[0], validity) in refs; }
  }

  /** A planned batch always passes the length check of runScopedGroup. */
  lemma NeverTooLong(uids: seq<nat>, limit: nat, refs: set<Ref>)
    requires Uids(uids) && Fits(uids, limit) && forall u {:trigger u in uids} :: u in uids <==> u in UidsOf(refs)
    ensures exists other {:trigger Text(RunsOf(other))} ::
      Uids(other) && (forall u :: u in other <==> u in UidsOf(refs)) && |Text(RunsOf(other))| <= SET_LIMIT
  {
    hide Uids;
    assert |Text(RunsOf(uids))| <= SET_LIMIT;
  }

  /** What the run of a batch guarantees, as the ledger uses it. */
  lemma RunFacts(refs: set<Ref>, action: Action, own: bool, pending: set<Ref>, outcomes: seq<Outcome>, log: seq<Command>, flight: seq<nat>, doubt: bool)
    requires Sound(refs, action, own, pending, outcomes, log, flight, doubt)
    ensures refs == pending + Reported(outcomes) && Honest(action, own, log, outcomes)
    ensures forall k {:trigger outcomes[k]} :: 0 <= k < |outcomes| && outcomes[k].status == Unknown ==> !outcomes[k].retryable
  {
    hide Reported, Once, AllAdmitted, Touched, Confirmed, Effected;
  }

  /** A batch leaves no trace of having been sent on anything it skipped, failed or left. */
  lemma Cleaned(all: seq<nat>, row: Row, row': Row, touched: set<nat>, refs: set<Ref>, action: Action, own: bool, pending: set<Ref>,
                outcomes: seq<Outcome>, log: seq<Command>, flight: seq<nat>, doubt: bool, uids: seq<nat>, validity: nat)
    requires Clean(all, row, touched) && RowAfter(all, row, row', outcomes, |outcomes|)
    requires Sound(refs, action, own, pending, outcomes, log, flight, doubt)
    requires refs == Refs(uids, validity) && Planned(all, row, uids)
    requires forall r {:trigger r in pending} :: r in pending ==> !Touched(log, r.uid)
    ensures Clean(all, row', touched + set u | u in uids && Touched(log, u))
  {
    hide Once, AllAdmitted, Touched, Confirmed, Effected;
    forall i | 0 <= i < |row'| && (all[i] in touched || (all[i] in uids && Touched(log, all[i])))
      ensures row'[i] == Some(Processed) || row'[i] == Some(Unknown)
    {
      if all[i] in touched {
        assert row[i].Some?;
      } else {
        assert row[i].None?;
        var r := Ref(all[i], validity);
        assert r in refs && r !in pending;
        assert r in Reported(outcomes);
        var k :| 0 <= k < |outcomes| && outcomes[k].ref == r;
        assert row'[i].Some?;
      }
    }
  }

  lemma KeptOne(all: seq<nat>, rows: seq<Row>, rows': seq<Row>, g: nat, outcomes: seq<Outcome>)
    requires g < |rows| && |rows'| == |rows| && rows' == rows[g := rows'[g]] && RowAfter(all, rows[g], rows'[g], outcomes, |outcomes|)
    ensures Kept(rows, rows')
  {}

  lemma ChangedThese(all: seq<nat>, row: Row, row': Row, refs: set<Ref>, pending: set<Ref>, outcomes: seq<Outcome>, uids: seq<nat>, validity: nat)
    requires RowAfter(all, row, row', outcomes, |outcomes|) && refs == pending + Reported(outcomes)
    requires refs == Refs(uids, validity)
    ensures OnlyThese(all, row, row', uids)
  {
    forall k | 0 <= k < |outcomes| ensures outcomes[k].ref.uid in uids { assert outcomes[k].ref in Reported(outcomes); }
  }

  lemma AllTold(all: seq<nat>, row: Row, row': Row, refs: set<Ref>, pending: set<Ref>, outcomes: seq<Outcome>, uids: seq<nat>, validity: nat)
    requires RowAfter(all, row, row', outcomes, |outcomes|) && refs == pending + Reported(outcomes) && pending == {}
    requires refs == Refs(uids, validity)
    ensures Told(all, row', uids)
  {
    forall i | 0 <= i < |row'| && all[i] in uids ensures row'[i].Some? {
      var r := Ref(all[i], validity);
      assert r in refs && r in Reported(outcomes);
    }
  }

  function SumOf(manifest: seq<Group>): nat { if manifest == [] then 0 else |manifest[0].uids| + SumOf(manifest[1..]) }

  /** Before the first request there is no outcome. */
  lemma {:induction false} Untold(manifest: seq<Group>, rows: seq<Row>)
    requires |rows| == |manifest| && forall g {:trigger rows[g]} :: 0 <= g < |rows| ==> |rows[g]| == |manifest[g].uids| && forall i :: 0 <= i < |rows[g]| ==> rows[g][i] == None
    ensures Tally(rows) == Zero && Size(rows) == SumOf(manifest)
  {
    if rows != [] {
      Blank(rows[0]);
      assert forall g :: 0 <= g < |rows| - 1 ==> rows[1..][g] == rows[g + 1] && manifest[1..][g] == manifest[g + 1];
      Untold(manifest[1..], rows[1..]);
    }
  }

  lemma {:induction false} Blank(row: Row)
    requires forall i :: 0 <= i < |row| ==> row[i] == None
    ensures forall status :: CountIn(row, Some(status)) == 0
  {
    if row != [] { Blank(row[1..]); }
  }
}
