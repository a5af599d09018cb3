/** One batch of a select-all action against a mail server that may acknowledge, refuse or lose any
    command, under a budget that may run out anywhere. */
module ScopedGroup {
  import opened Options
  import opened UidSets

  /** A message reference; its token is injective, so the two are not told apart. */
  datatype Ref = Ref(uid: nat, validity: nat)

  datatype Status = Processed | Skipped | Failed | Unknown

  datatype Outcome = Outcome(ref: Ref, status: Status, code: string, retryable: bool)

  /** What an awaited call may throw; NoSession stands for NO_SESSION and SESSION_EXPIRED. */
  datatype Error = StaleScope | NoSession | Exhausted | Invalid | App(code: string) | Plain | Gone

  /** What the mail session may answer instead of going on; SessionLost is NO_SESSION or SESSION_EXPIRED. */
  datatype Fault = SessionLost | OutOfTime | AppFault(code: string) | OtherFault

  function ErrorOf(f: Option<Fault>): (e: Option<Error>)
    ensures e != Some(StaleScope) && e != Some(Invalid) && e != Some(Gone)
  {
    match f
    case None => None
    case Some(SessionLost) => Some(NoSession)
    case Some(OutOfTime) => Some(Exhausted)
    case Some(AppFault(code)) => Some(App(code))
    case Some(OtherFault) => Some(Plain)
  }

  /** One batch on the wire: the check before it, the time left, whether the run is cut off before a command,
      and the answer to each command, None being OK. */
  datatype Exchange = Exchange(check: Option<Fault>, remainingMs: real, late: bool, first: Option<Fault>,
                               lateAgain: bool, second: Option<Fault>, elapsedMs: real)

  /** Everything one run of a group hears from the folder and the server, in order.  When the exchanges are
      used up there is no time left. */
  datatype Talk = Talk(selected: Option<Fault>, validity: nat, shared: bool, ownTarget: bool, rights: Option<Fault>, allowed: bool, inScope: bool,
                       searched: Option<Fault>, found: set<nat>, listed: Option<Fault>, capable: bool, present: bool, insertable: bool,
                       batches: seq<Exchange>)

  datatype Action = Flag | Delete | Move

  datatype Verb = Store | Expunge | MoveTo

  /** A mutating command: the server may have acted on it as soon as it is listed. */
  datatype Command = Command(verb: Verb, uids: seq<nat>, acked: bool, admittedMs: real, reserveMs: real, probe: bool)

  const UNAVAILABLE := "MAIL_UNAVAILABLE"
  const UNCONFIRMED := "ACTION_OUTCOME_UNKNOWN"
  const READONLY := "FOLDER_READONLY"
  const STALL_MS := 38000.0
  const MIN_START_MS := 10000.0

  // ---------- outcomes ----------

  function Reported(outcomes: seq<Outcome>): set<Ref> { set i | 0 <= i < |outcomes| :: outcomes[i].ref }

  function OfStatus(outcomes: seq<Outcome>, status: Status): set<Ref> {
    set i | 0 <= i < |outcomes| && outcomes[i].status == status :: outcomes[i].ref
  }

  predicate Once(outcomes: seq<Outcome>) {
    forall i, j {:trigger outcomes[i], outcomes[j]} :: 0 <= i < j < |outcomes| ==> outcomes[i].ref != outcomes[j].ref
  }

  lemma ReportedSnoc(outcomes: seq<Outcome>, o: Outcome)
    ensures Reported(outcomes + [o]) == Reported(outcomes) + {o.ref}
    ensures Once(outcomes) && o.ref !in Reported(outcomes) ==> Once(outcomes + [o])
  {
    var all := outcomes + [o];
    assert all[|outcomes|] == o;
    assert forall i :: 0 <= i < |outcomes| ==> all[i] == outcomes[i];
    if Once(outcomes) && o.ref !in Reported(outcomes) {
      forall i, j | 0 <= i < j < |all| ensures all[i].ref != all[j].ref {
        if j == |outcomes| { assert outcomes[i].ref in Reported(outcomes); }
      }
    }
  }

  /** The five result lists of a group: no reference is in two of them. */
  lemma StatusesDisjoint(outcomes: seq<Outcome>, a: Status, b: Status)
    requires Once(outcomes) && a != b
    ensures OfStatus(outcomes, a) !! OfStatus(outcomes, b)
    ensures Reported(outcomes) == OfStatus(outcomes, Processed) + OfStatus(outcomes, Skipped) + OfStatus(outcomes, Failed) + OfStatus(outcomes, Unknown)
  {}

  // ---------- what was sent ----------

  predicate Touched(log: seq<Command>, uid: nat) { exists i :: 0 <= i < |log| && uid in log[i].uids }

  predicate Confirmed(log: seq<Command>, uid: nat) { forall i :: 0 <= i < |log| && uid in log[i].uids ==> log[i].acked }

  function Final(action: Action): Verb {
    match action
    case Flag => Store
    case Delete => Expunge
    case Move => MoveTo
  }

  /** The command that does what was asked for was acknowledged. */
  predicate Effected(action: Action, log: seq<Command>, uid: nat) {
    exists i :: 0 <= i < |log| && uid in log[i].uids && log[i].acked && log[i].verb == Final(action)
  }

  /** What was skipped or has failed was never sent, and what was processed was acknowledged. */
  predicate Honest(action: Action, own: bool, log: seq<Command>, outcomes: seq<Outcome>) {
    forall i {:trigger outcomes[i]} :: 0 <= i < |outcomes| ==>
      match outcomes[i].status
      case Processed => Confirmed(log, outcomes[i].ref.uid) && (own || Effected(action, log, outcomes[i].ref.uid))
      case Skipped => !Touched(log, outcomes[i].ref.uid)
      case Failed => !Touched(log, outcomes[i].ref.uid) && (outcomes[i].retryable <==> outcomes[i].code == UNAVAILABLE)
      case Unknown => !outcomes[i].retryable
  }

  /** A command is sent only with enough time left, or once per request as a small probe; moving and
      deleting need time for the server to stall; and only what was marked is expunged. */
  predicate Admitted(action: Action, log: seq<Command>, i: nat)
    requires i < |log|
  {
    var c := log[i];
    && (action != Flag ==> c.admittedMs >= STALL_MS)
    && (c.admittedMs > c.reserveMs || (c.probe && |c.uids| <= MIN_SIZE && (i == 0 || c.verb == Expunge)))
    && c.admittedMs >= MIN_START_MS
    && (c.verb == Expunge ==> i > 0 && log[i - 1].verb == Store && log[i - 1].uids == c.uids && log[i - 1].acked)
    && (c.verb == match action case Flag => Store case Move => MoveTo case Delete => if c.verb == Expunge then Expunge else Store)
  }

  predicate AllAcked(log: seq<Command>) { forall i {:trigger log[i]} :: 0 <= i < |log| ==> log[i].acked }

  predicate AllAdmitted(action: Action, log: seq<Command>) { forall i {:trigger log[i]} :: 0 <= i < |log| ==> Admitted(action, log, i) }

  /** Every reference is pending or was reported exactly once; no pending one was ever sent, save
      those of the batch in flight, and none is in flight unless a command is in doubt. */
  ghost predicate Sound(refs: set<Ref>, action: Action, own: bool, pending: set<Ref>, outcomes: seq<Outcome>, log: seq<Command>, flight: seq<nat>, doubt: bool) {
    && refs == pending + Reported(outcomes) && pending !! Reported(outcomes) && Once(outcomes)
    && Honest(action, own, log, outcomes) && AllAdmitted(action, log)
    && (forall r {:trigger r in pending} :: r in pending && Touched(log, r.uid) ==> r.uid in flight)
    && (forall u {:trigger Touched(log, u)} :: Touched(log, u) ==> u in UidsOf(refs))
    && (!doubt ==> flight == [])
    && (log == [] ==> !doubt)
  }

  /** May a reference of this standing be reported with this status? */
  ghost predicate Reportable(action: Action, own: bool, status: Status, uid: nat, log: seq<Command>, doubt: bool) {
    match status
    case Processed => Confirmed(log, uid) && (own || Effected(action, log, uid))
    case Unknown => true
    case Skipped => !doubt
    case Failed => !doubt
  }

  lemma ReportOne(refs: set<Ref>, action: Action, own: bool, pending: set<Ref>, outcomes: seq<Outcome>, log: seq<Command>, flight: seq<nat>,
                  doubt: bool, r: Ref, status: Status, code: string)
    requires Sound(refs, action, own, pending, outcomes, log, flight, doubt) && r in pending && Reportable(action, own, status, r.uid, log, doubt)
    ensures Sound(refs, action, own, pending - {r}, outcomes + [Outcome(r, status, code, status == Failed && code == UNAVAILABLE)], log, flight, doubt)
  {
    hide Reported, Once, AllAdmitted, Touched, Confirmed;
    var o := Outcome(r, status, code, status == Failed && code == UNAVAILABLE);
    ReportedSnoc(outcomes, o);
    assert !Touched(log, r.uid) || r.uid in flight;
  }

  // ---------- sending ----------

  predicate Within(uids: seq<nat>, refs: set<Ref>) { forall u {:trigger u in uids} :: u in uids ==> u in UidsOf(refs) }

  /** None of these UIDs belongs to a reference that has a result. */
  predicate Apart(uids: seq<nat>, outcomes: seq<Outcome>) {
    forall i {:trigger outcomes[i]} :: 0 <= i < |outcomes| ==> outcomes[i].ref.uid !in uids
  }

  lemma TouchedMore(action: Action, log: seq<Command>, c: Command, uid: nat)
    ensures Touched(log + [c], uid) <==> Touched(log, uid) || uid in c.uids
    ensures Confirmed(log + [c], uid) <==> Confirmed(log, uid) && (uid in c.uids ==> c.acked)
    ensures Effected(action, log + [c], uid) <==> Effected(action, log, uid) || (uid in c.uids && c.acked && c.verb == Final(action))
  {
    var all := log + [c];
    assert all[|log|] == c;
    assert forall i :: 0 <= i < |log| ==> all[i] == log[i];
  }

  lemma AdmittedMore(action: Action, log: seq<Command>, c: Command)
    requires AllAdmitted(action, log) && Admitted(action, log + [c], |log|)
    ensures AllAdmitted(action, log + [c])
  {
    forall i | 0 <= i < |log| ensures Admitted(action, log + [c], i) { assert log[i] == (log + [c])[i]; }
  }

  /** Sending puts the batch in doubt. */
  lemma SendOne(refs: set<Ref>, action: Action, own: bool, pending: set<Ref>, outcomes: seq<Outcome>, log: seq<Command>, flight: seq<nat>, doubt: bool, c: Command)
    requires Sound(refs, action, own, pending, outcomes, log, flight, doubt) && Apart(c.uids, outcomes) && !c.acked
    requires doubt ==> flight == c.uids
    requires Admitted(action, log + [c], |log|) && Within(c.uids, refs)
    ensures Sound(refs, action, own, pending, outcomes, log + [c], c.uids, true)
  {
    hide Reported, Once, AllAdmitted, Touched, Confirmed, Admitted, Effected;
    AdmittedMore(action, log, c);
    forall uid ensures Touched(log + [c], uid) <==> Touched(log, uid) || uid in c.uids
      ensures Confirmed(log + [c], uid) <==> Confirmed(log, uid) && (uid in c.uids ==> c.acked)
      ensures Effected(action, log, uid) ==> Effected(action, log + [c], uid)
    {
      TouchedMore(action, log, c, uid);
    }
  }

  /** An acknowledgement leaves everything but its own command as it was. */
  lemma AckOne(refs: set<Ref>, action: Action, own: bool, pending: set<Ref>, outcomes: seq<Outcome>, log: seq<Command>, c: Command)
    requires Sound(refs, action, own, pending, outcomes, log + [c], c.uids, true) && Apart(c.uids, outcomes)
    ensures Sound(refs, action, own, pending, outcomes, log + [c.(acked := true)], c.uids, true)
  {
    hide Reported, Once, Touched, Confirmed, Effected;
    var was, now := log + [c], log + [c.(acked := true)];
    forall i | 0 <= i < |now| ensures Admitted(action, now, i) {
      assert Admitted(action, was, i) by { assert was[i] == was[i]; }
      assert i > 0 ==> now[i - 1] == was[i - 1];
    }
    forall uid ensures Touched(now, uid) == Touched(was, uid)
      ensures Confirmed(was, uid) ==> Confirmed(now, uid)
      ensures Effected(action, was, uid) ==> Effected(action, now, uid)
    {
      TouchedMore(action, log, c, uid);
      TouchedMore(action, log, c.(acked := true), uid);
    }
    assert AllAdmitted(action, now);
    assert Honest(action, own, now, outcomes);
  }

  // ---------- the UIDs of a group ----------

  function Insert(s: seq<nat>, uid: nat): seq<nat> {
    if s == [] || uid < s[0] then [uid] + s else if uid == s[0] then s else [s[0]] + Insert(s[1..], uid)
  }

  lemma ConsUids(uid: nat, s: seq<nat>)
    requires Uids(s) && 0 < uid <= MAX_UID && forall u {:trigger u in s} :: u in s ==> uid < u
    ensures Uids([uid] + s) && forall u {:trigger u in [uid] + s} :: u in [uid] + s <==> u == uid || u in s
  {
    assert forall i :: 0 <= i < |s| ==> s[i] in s;
  }

  lemma TailUids(s: seq<nat>)
    requires Uids(s) && s != []
    ensures Uids(s[1..]) && 0 < s[0] <= MAX_UID && s == [s[0]] + s[1..] && forall u {:trigger u in s[1..]} :: u in s[1..] ==> s[0] < u
  {
    assert forall i :: 0 <= i < |s| - 1 ==> s[1..][i] == s[i + 1];
  }

  lemma {:induction false} InsertAscending(s: seq<nat>, uid: nat)
    requires Uids(s) && 0 < uid <= MAX_UID
    ensures Uids(Insert(s, uid)) && forall u {:trigger u in Insert(s, uid)} :: u in Insert(s, uid) <==> u == uid || u in s
  {
    hide Uids;
    if s == [] {
      ConsUids(uid, s);
    } else {
      TailUids(s);
      var x, rest := s[0], s[1..];
      ConsUids(x, rest);
      if uid < x {
        ConsUids(uid, s);
      } else if uid > x {
        InsertAscending(rest, uid);
        ConsUids(x, Insert(rest, uid));
      }
    }
  }

  function UidsOf(refs: set<Ref>): set<nat> { set r | r in refs :: r.uid }

  predicate Numbered(refs: set<Ref>) { forall r {:trigger r in refs} :: r in refs ==> 0 < r.uid <= MAX_UID }

  /** The UIDs of some references, sorted. */
  method SortedUids(refs: set<Ref>) returns (uids: seq<nat>)
    requires Numbered(refs)
    ensures Uids(uids) && forall u :: u in uids <==> u in UidsOf(refs)
  {
    uids := [];
    var left := refs;
    while left != {}
      invariant left <= refs && Uids(uids) && forall u :: u in uids <==> u in UidsOf(refs - left)
      decreases |left|
    {
      var r :| r in left;
      InsertAscending(uids, r.uid);
      ghost var more := Insert(uids, r.uid);
      assert UidsOf(refs - (left - {r})) == UidsOf(refs - left) + {r.uid};
      uids, left := Insert(uids, r.uid), left - {r};
    }
    assert refs - left == refs;
  }

  predicate Uniform(refs: set<Ref>, validity: nat) { forall r {:trigger r in refs} :: r in refs ==> r.validity == validity }

  lemma SomePending(pending: set<Ref>, validity: nat, candidates: seq<nat>, offset: nat)
    requires offset < |candidates| && forall r {:trigger r in pending} :: r in pending <==> r.validity == validity && r.uid in candidates[offset..]
    ensures pending != {}
  {
    assert candidates[offset..][0] in candidates[offset..];
    assert Ref(candidates[offset], validity) in pending;
  }

  /** A list that fits is one batch. */
  lemma WholeBatch(candidates: seq<nat>, uids: seq<nat>, limit: nat)
    requires Uids(candidates) && Fits(candidates, limit) && uids <= candidates[0..] && (|uids| < |candidates| ==> !Fits(candidates[0..][..|uids| + 1], limit))
    ensures uids == candidates
  {
    hide Fits;
    assert candidates[0..] == candidates;
    if |uids| < |candidates| { FitsFront(candidates, |uids| + 1, limit); }
  }

  /** References to one mailbox are told apart by their UIDs. */
  lemma ApartFromPending(refs: set<Ref>, pending: set<Ref>, outcomes: seq<Outcome>, validity: nat, uids: seq<nat>)
    requires Uniform(refs, validity) && refs == pending + Reported(outcomes) && pending !! Reported(outcomes)
    requires forall u {:trigger u in uids} :: u in uids ==> Ref(u, validity) in pending
    ensures Apart(uids, outcomes)
  {
    forall i | 0 <= i < |outcomes| ensures outcomes[i].ref.uid !in uids {
      var r := outcomes[i].ref;
      assert r in Reported(outcomes) && r in refs && r == Ref(r.uid, validity);
    }
  }

  lemma NeverSent(log: seq<Command>, uid: nat)
    requires !Touched(log, uid)
    ensures Confirmed(log, uid)
  {}

  /** Once its batch has landed, nothing is in doubt. */
  lemma Landed(refs: set<Ref>, action: Action, own: bool, pending: set<Ref>, outcomes: seq<Outcome>, log: seq<Command>, flight: seq<nat>)
    requires Sound(refs, action, own, pending, outcomes, log, flight, true)
    requires forall r {:trigger r in pending} :: r in pending ==> r.uid !in flight
    ensures Sound(refs, action, own, pending, outcomes, log, [], false)
  {
    hide Reported, Once, Honest, AllAdmitted, Touched;
  }

  /** scopedBatchReserve: how long a batch of this size is expected to take, with a margin. */
  function Reserve(lastMs: real, lastCount: nat, count: nat): (ms: real)
    ensures ms >= MIN_START_MS
  {
    var estimate := if lastCount > 0 then lastMs * (count as real) / (lastCount as real) else 0.0;
    if estimate * 2.0 + 2000.0 > MIN_START_MS then estimate * 2.0 + 2000.0 else MIN_START_MS
  }

  /** Both commands of an exchange are answered in time. */
  predicate Answered(x: Exchange) { !x.late && x.first.None? && !x.lateAgain && x.second.None? }

  /** The first exchange goes through, with all the time it can need. */
  predicate Quick(talk: Talk, minStart: real) {
    talk.batches != [] && talk.batches[0].check.None? && Answered(talk.batches[0])
    && talk.batches[0].remainingMs >= STALL_MS && talk.batches[0].remainingMs >= minStart
  }

  /** A run over one message in which everything goes well. */
  predicate Smooth(action: Action, talk: Talk, refs: set<Ref>, minStart: real) {
    && |refs| == 1 && (forall r :: r in refs ==> r.validity == talk.validity && r.uid in talk.found)
    && talk.selected.None? && !talk.shared && talk.rights.None? && talk.allowed && talk.inScope && talk.searched.None?
    && (action == Move ==> talk.listed.None? && talk.capable && talk.present && talk.insertable)
    && Quick(talk, minStart)
  }

  // ---------- how a run ends, from the replies ----------

  /** How a run ends for its caller: with the session or in a way that leaves a receipt; and whether a message
      got its outcome in it. */
  datatype End = Severs(settled: bool) | Over(settled: bool)

  /** How long the last batch took, and how many mutations this request has started. */
  datatype Pace = Pace(lastMs: real, lastCount: nat, started: nat)

  /** There is not enough time left to send the first batch, of `count` messages. */
  predicate TooLate(action: Action, x: Exchange, count: nat, pace: Pace, minStart: real) {
    var estimate := Reserve(pace.lastMs, pace.lastCount, count);
    (action != Flag && x.remainingMs < STALL_MS)
    || (x.remainingMs <= (if estimate > minStart then estimate else minStart)
        && (pace.started > 0 || x.remainingMs < (if minStart > MIN_START_MS then minStart else MIN_START_MS)))
  }

  /** What the commands of an exchange come to. */
  function AnswerOf(action: Action, x: Exchange): Option<Error> {
    if x.late then Some(Exhausted)
    else if x.first.Some? then ErrorOf(x.first)
    else if action != Delete then None
    else if x.lateAgain then Some(Exhausted)
    else ErrorOf(x.second)
  }

  /** The error the last exchange leaves, and whether it leaves a command in doubt: the fault of the check before it,
      or what its commands came to; or there was not enough time to send them. */
  predicate Blame(action: Action, x: Exchange, e: Option<Error>, doubt: bool) {
    if x.check.Some? then e == ErrorOf(x.check) && !doubt
    else (e == Some(Exhausted) && !doubt) || (e == AnswerOf(action, x) && (doubt <==> e.Some? && !x.late))
  }

  /** The same for all the exchanges of a run; there is none if there was no time for one. */
  predicate Blamed(action: Action, heard: seq<Exchange>, e: Option<Error>, doubt: bool) {
    if heard == [] then e == Some(Exhausted) && !doubt
    else Blame(action, heard[|heard| - 1], e, doubt)
  }

  /** How far a run gets before its batches: it ends there, with an error or without, or the batches are sent. */
  datatype Way = Halts(error: Option<Error>) | Sends

  function WayOf(action: Action, talk: Talk, refs: set<Ref>): Way {
    if talk.selected.Some? then Halts(ErrorOf(talk.selected))
    else if exists r :: r in refs && r.validity != talk.validity then Halts(Some(StaleScope))
    else if talk.shared then Halts(Some(App(READONLY)))
    else WayAllowed(action, talk, refs)
  }

  /** The way on in a folder that may be changed. */
  function WayAllowed(action: Action, talk: Talk, refs: set<Ref>): Way {
    if talk.rights.Some? then Halts(ErrorOf(talk.rights))
    else if !talk.allowed then Halts(Some(App(READONLY)))
    else if !talk.inScope then Halts(None)
    else WayFound(action, talk, refs)
  }

  /** The way on once the folder is found to be right. */
  function WayFound(action: Action, talk: Talk, refs: set<Ref>): Way {
    if talk.searched.Some? then Halts(ErrorOf(talk.searched))
    else if NoneFound(talk.found, refs) then Halts(None)
    else WayMoved(action, talk)
  }

  /** The way on once the search is over. */
  function WayMoved(action: Action, talk: Talk): Way {
    if action != Move then Sends
    else if talk.listed.Some? then Halts(ErrorOf(talk.listed))
    else if !talk.capable then Halts(Some(App("MOVE_UNSUPPORTED")))
    else if !talk.present then Halts(Some(App("FOLDER_NOT_ALLOWED")))
    else if !talk.insertable then Halts(Some(App(READONLY)))
    else if talk.ownTarget then Halts(None)
    else Sends
  }

  /** The error of a run, and whether a command is in doubt, as the replies have it. */
  predicate Caused(way: Way, action: Action, heard: seq<Exchange>, e: Option<Error>, doubt: bool) {
    match way
    case Halts(x) => e == x && !doubt
    case Sends => Blamed(action, heard, e, doubt)
  }

  /** The search was made, and told what still is in the scope. */
  predicate Searched(talk: Talk, refs: set<Ref>) {
    talk.selected.None? && Uniform(refs, talk.validity) && !talk.shared && Admits(talk)
  }

  predicate Admits(talk: Talk) { talk.rights.None? && talk.allowed && talk.inScope && talk.searched.None? }

  /** The error makes the pending messages fail. */
  predicate Refuses(e: Option<Error>) { e.Some? && e.value != Exhausted && e.value != NoSession && e.value != StaleScope }

  /** The result of a message, by the replies.  It is processed only if it was found and the way is free; it is
      skipped if it was not found, or if the folder as a whole is not in the scope; it is unknown only if a command
      was in doubt, and failed only by a refusal. */
  predicate Fate(way: Way, searched: bool, found: set<nat>, status: Status, uid: nat, e: Option<Error>, doubt: bool) {
    match status
    case Processed => searched && uid in found && (way == Sends || way == Halts(None))
    case Skipped => if searched then uid !in found else way == Halts(None)
    case Failed => !doubt && Refuses(e) && (searched ==> uid in found)
    case Unknown => doubt && (searched ==> uid in found)
  }

  /** The code of a refusal. */
  function CodeOf(e: Option<Error>): string { if e.Some? && e.value.App? then e.value.code else UNAVAILABLE }

  predicate Due(way: Way, searched: bool, found: set<nat>, o: Outcome, e: Option<Error>, doubt: bool) {
    && Fate(way, searched, found, o.status, o.ref.uid, e, doubt)
    && o.code == match o.status case Processed => "" case Skipped => "" case Failed => CodeOf(e) case Unknown => UNCONFIRMED
  }

  /** A result from before the error is dealt with. */
  predicate Proper(way: Way, searched: bool, found: set<nat>, o: Outcome) {
    (o.status == Processed || o.status == Skipped) && Due(way, searched, found, o, None, false)
  }

  /** The results before the error is dealt with: what was not found is no longer pending. */
  predicate Sifted(way: Way, searched: bool, found: set<nat>, pending: set<Ref>, outcomes: seq<Outcome>) {
    && (forall i {:trigger outcomes[i]} :: 0 <= i < |outcomes| ==> Proper(way, searched, found, outcomes[i]))
    && (searched ==> forall r {:trigger r in pending} :: r in pending ==> r.uid in found)
  }

  lemma SiftedFirst(way: Way, found: set<nat>, pending: set<Ref>)
    ensures Sifted(way, false, found, pending, [])
  {}

  /** The whole folder is out of the scope. */
  lemma SiftedOut(found: set<nat>, refs: set<Ref>, outcomes: seq<Outcome>)
    requires Gained([], outcomes, Skipped, "", refs)
    ensures Sifted(Halts(None), false, found, {}, outcomes)
  {}

  /** After the search; then what is found may be processed. */
  lemma SiftedOn(way: Way, found: set<nat>, missing: set<Ref>, pending: set<Ref>, before: seq<Outcome>, now: seq<Outcome>, left: set<Ref>)
    requires Gained([], before, Skipped, "", missing) && forall r {:trigger r in missing} :: r in missing ==> r.uid !in found
    requires Gained(before, now, Processed, "", pending) && forall r {:trigger r in pending} :: r in pending ==> r.uid in found
    requires left <= pending && (way != Sends && way != Halts(None) ==> now == before)
    ensures Sifted(way, true, found, left, now)
  {
    forall i | 0 <= i < |now| ensures Proper(way, true, found, now[i]) {
      assert i < |before| ==> now[i] == before[i];
    }
  }

  /** All results of a run.  A message is without one only for want of time, or because the run was broken off;
      and what the search did not find never is. */
  predicate Fated(way: Way, searched: bool, found: set<nat>, remaining: set<Ref>, outcomes: seq<Outcome>, e: Option<Error>, doubt: bool) {
    && (forall i {:trigger outcomes[i]} :: 0 <= i < |outcomes| ==> Due(way, searched, found, outcomes[i], e, doubt))
    && (searched ==> forall r {:trigger r in remaining} :: r in remaining ==> r.uid in found)
    && (remaining != {} ==> !doubt && e.Some? && !Refuses(e))
  }

  /** How the run deals with its error: all that is pending fails or is unknown, or stays as it is. */
  predicate Dealt(e: Option<Error>, doubt: bool, pending: set<Ref>, before: seq<Outcome>, remaining: set<Ref>, now: seq<Outcome>) {
    if doubt then remaining == {} && Gained(before, now, Unknown, UNCONFIRMED, pending) && (pending != {} ==> |now| > |before|)
    else if Refuses(e) then remaining == {} && Gained(before, now, Failed, CodeOf(e), pending)
    else remaining == pending && now == before
  }

  predicate AnyUnknown(outcomes: seq<Outcome>) { exists k :: 0 <= k < |outcomes| && outcomes[k].status == Unknown }

  lemma FatedAs(way: Way, searched: bool, found: set<nat>, e: Option<Error>, doubt: bool, pending: set<Ref>, before: seq<Outcome>,
                remaining: set<Ref>, now: seq<Outcome>)
    requires Sifted(way, searched, found, pending, before) && Dealt(e, doubt, pending, before, remaining, now) && (e.None? ==> pending == {})
    ensures Fated(way, searched, found, remaining, now, e, doubt) && (doubt && pending != {} ==> AnyUnknown(now))
  {
    forall i | 0 <= i < |now| ensures Due(way, searched, found, now[i], e, doubt) {
      assert i < |before| ==> now[i] == before[i] && Proper(way, searched, found, before[i]);
    }
    assert doubt && pending != {} ==> now[|before|].status == Unknown;
  }

  /** There is not enough time for some number of messages up to `most`. */
  ghost predicate NoTimeFor(action: Action, x: Exchange, most: nat, pace: Pace, minStart: real) {
    exists count: nat {:trigger TooLate(action, x, count, pace, minStart)} :: 0 < count <= most && TooLate(action, x, count, pace, minStart)
  }

  /** The end after these exchanges; all of them but the last went through. */
  function BatchesEnd(action: Action, batches: seq<Exchange>, count: nat, pace: Pace, minStart: real, settled: bool): End {
    if batches == [] then Over(settled)
    else
      var x, before := batches[|batches| - 1], settled || |batches| > 1;
      if x.check.Some? then Closed(ErrorOf(x.check), false, before) else Over(before || !(TooLate(action, x, count, pace, minStart) || x.late))
  }

  /** The ends after the exchange number `n`, by what became of it. */
  lemma EndNow(action: Action, batches: seq<Exchange>, n: nat, count: nat, pace: Pace, minStart: real, settled: bool, now: bool)
    requires 0 < n <= |batches| && (now <==> settled || n > 1)
    ensures var x, end := batches[n - 1], BatchesEnd(action, batches[..n], count, pace, minStart, settled);
      && (x.check.Some? ==> end == Closed(ErrorOf(x.check), false, now))
      && (x.check.None? && (n == 1 ==> TooLate(action, x, count, pace, minStart) || x.late) ==> end == Closed(Some(Exhausted), false, now))
      && (x.check.None? && (n == 1 ==> !(TooLate(action, x, count, pace, minStart) || x.late)) ==> end == Over(true))
  {
    hide TooLate;
    assert batches[..n][n - 1] == batches[n - 1];
  }

  lemma LastHeard(action: Action, batches: seq<Exchange>, n: nat)
    requires n <= |batches|
    ensures n > 0 ==> batches[..n] != [] && forall e, doubt {:trigger Caused(Sends, action, batches[..n], e, doubt)} ::
      Blame(action, batches[n - 1], e, doubt) ==> Caused(Sends, action, batches[..n], e, doubt)
    ensures n > 0 && Blame(action, batches[n - 1], None, false) ==> Caused(Sends, action, batches[..n], Some(Exhausted), false)
    ensures n == 0 ==> Caused(Sends, action, batches[..n], Some(Exhausted), false)
  {}

  lemma {:induction false} SmallerSet(a: set<Ref>, b: set<Ref>)
    requires a <= b
    ensures |a| <= |b|
    decreases b
  {
    if b != {} {
      var r :| r in b;
      SmallerSet(a - {r}, b - {r});
      assert r in a ==> |a - {r}| == |a| - 1;
      assert r !in a ==> a - {r} == a;
    }
  }

  lemma CountFree(action: Action, batches: seq<Exchange>, count: nat, other: nat, pace: Pace, minStart: real)
    ensures BatchesEnd(action, batches, count, pace, minStart, true) == BatchesEnd(action, batches, other, pace, minStart, true)
  {}

  /** New results, all with this status and code, for some of the references. */
  predicate Gained(before: seq<Outcome>, now: seq<Outcome>, status: Status, code: string, refs: set<Ref>) {
    before <= now && forall i {:trigger now[i]} :: |before| <= i < |now| ==> now[i].status == status && now[i].code == code && now[i].ref in refs
  }

  lemma GainedMore(before: seq<Outcome>, now: seq<Outcome>, o: Outcome, refs: set<Ref>)
    ensures Gained(now, now, o.status, o.code, refs)
    ensures Gained(before, now, o.status, o.code, refs) && o.ref in refs ==> Gained(before, now + [o], o.status, o.code, refs)
  {}

  /** What is left of `all` when all tokens but those in `left` have been taken away. */
  function Without(all: set<Ref>, tokens: set<Ref>, left: set<Ref>): set<Ref> { all - (tokens - left) }

  lemma WithoutNone(all: set<Ref>, tokens: set<Ref>)
    ensures Without(all, tokens, tokens) == all && Without(all, tokens, {}) == all - tokens
  {}

  lemma WithoutOne(all: set<Ref>, tokens: set<Ref>, left: set<Ref>, r: Ref)
    requires left <= tokens <= all && r in left
    ensures Without(all, tokens, left) - {r} == Without(all, tokens, left - {r}) && r in Without(all, tokens, left)
  {}

  lemma GainedNone(outcomes: seq<Outcome>, refs: set<Ref>)
    ensures forall status, code {:trigger Gained(outcomes, outcomes, status, code, refs)} :: Gained(outcomes, outcomes, status, code, refs)
  {}

  lemma Processing(outcomes: seq<Outcome>, code: string, refs: set<Ref>)
    requires Gained([], outcomes, Processed, code, refs)
    ensures AllProcessed(outcomes)
  {}

  lemma Nowhere(action: Action, batches: seq<Exchange>, count: nat, pace: Pace, minStart: real, settled: bool)
    ensures BatchesEnd(action, batches[..0], count, pace, minStart, settled) == Over(settled) == Closed(Some(Exhausted), false, settled)
    ensures Closed(Some(Exhausted), false, true) == Over(true) && forall s {:trigger Closed(None, false, s)} :: Closed(None, false, s) == Over(true)
    ensures forall e, s {:trigger Closed(e, true, s)} :: Closed(e, true, s) == Over(true)
  {}

  /** The end of a run over `refs` that has heard all of this. */
  function EndOf(action: Action, talk: Talk, refs: set<Ref>, pace: Pace, minStart: real): End {
    var missed := Searched(talk, refs) && Missed(talk.found, refs);
    match WayOf(action, talk, refs)
    case Halts(e) => Closed(e, false, missed)
    case Sends => BatchesEnd(action, talk.batches, |refs|, pace, minStart, missed)
  }

  /** A message of the run is not among those the search found. */
  predicate NoneFound(found: set<nat>, refs: set<Ref>) { forall r :: r in refs ==> r.uid !in found }

  predicate Missed(found: set<nat>, refs: set<Ref>) { exists r :: r in refs && r.uid !in found }

  /** What of a conversation was heard in `n` exchanges. */
  function Heard(talk: Talk, n: nat): Talk { if n <= |talk.batches| then talk.(batches := talk.batches[..n]) else talk }

  /** What an error means for the caller, once the run has dealt with what is pending. */
  function Closed(e: Option<Error>, doubt: bool, settled: bool): End {
    if e.None? || doubt then Over(true)
    else if e == Some(NoSession) then Severs(settled)
    else if e == Some(Exhausted) || e == Some(StaleScope) then Over(settled)
    else Over(true)
  }

  /** The whole group fits into one batch, as planned groups do. */
  ghost predicate OneBatchful(refs: set<Ref>, size: nat) {
    forall uids {:trigger Fits(uids, size)} :: Uids(uids) && (forall u :: u in uids <==> u in UidsOf(refs)) ==> Fits(uids, size)
  }

  predicate AllProcessed(outcomes: seq<Outcome>) { forall i {:trigger outcomes[i]} :: 0 <= i < |outcomes| ==> outcomes[i].status == Processed }

  class GroupRun {
    const refs: set<Ref>
    const action: Action
    const talk: Talk
    const ownTarget: bool   // the messages already are in the target folder
    const minStart: real
    const batch: BatchState
    var started: nat        // mutations started by this request, over all its groups
    var pending: set<Ref>
    var outcomes: seq<Outcome>   // the result lists, in the order in which they were reported
    var sent: bool
    var mutated: bool
    var finished: bool
    var round: nat          // exchanges so far
    ghost var log: seq<Command>
    ghost var flight: seq<nat>   // the UIDs of the batch being sent

    ghost predicate Valid()
      reads this
    {
      Sound(refs, action, ownTarget, pending, outcomes, log, flight, sent || mutated) && (!sent ==> AllAcked(log)) && ownTarget == talk.ownTarget
    }

    constructor (refs: set<Ref>, action: Action, talk: Talk, minStart: real, batch: BatchState, started: nat)
      requires minStart >= 0.0
      ensures Valid() && !sent && !mutated && !finished && pending == refs && log == [] && outcomes == [] && round == 0
      ensures this.refs == refs && this.action == action && this.talk == talk && this.ownTarget == talk.ownTarget
      ensures this.batch == batch && this.minStart == minStart && this.started == started
    {
      this.refs, this.action, this.talk, this.ownTarget, this.minStart, this.batch, this.started :=
        refs, action, talk, talk.ownTarget, minStart, batch, started;
      pending, outcomes, sent, mutated, finished, round, log, flight := refs, [], false, false, false, 0, [], [];
    }

    /** settle; after the end of the run it does nothing. */
    method Settle(status: Status, code: string, tokens: set<Ref>)
      requires Valid() && tokens <= pending
      requires forall r {:trigger r in tokens} :: r in tokens ==> Reportable(action, ownTarget, status, r.uid, log, sent || mutated)
      modifies this`pending, this`outcomes
      ensures Valid()
      ensures finished ==> unchanged(this)
      ensures tokens == {} ==> outcomes == old(outcomes)
      ensures !finished && tokens != {} ==> |outcomes| > |old(outcomes)|
      ensures !finished ==> pending == old(pending) - tokens
      ensures Gained(old(outcomes), outcomes, status, code, tokens)
    {
      hide Sound, Reportable, Gained, AllAcked, Without;
      WithoutNone(pending, tokens);
      GainedMore(outcomes, outcomes, Outcome(Ref(0, 0), status, code, false), tokens);
      if finished {
        return;
      }
      var left := tokens;
      while left != {}
        invariant Valid() && left <= tokens && Gained(old(outcomes), outcomes, status, code, tokens)
        invariant tokens <= old(pending) && pending == Without(old(pending), tokens, left)
        invariant (tokens == {} ==> outcomes == old(outcomes)) && |old(outcomes)| <= |outcomes| && (left != tokens ==> |outcomes| > |old(outcomes)|)
        decreases |left|
      {
        var r :| r in left;
        WithoutOne(old(pending), tokens, left, r);
        var o := SettleOne(r, status, code);
        GainedMore(old(outcomes), outcomes[..|outcomes| - 1], o, tokens);
        left := left - {r};
      }
    }

    /** One reference gets its result. */
    method SettleOne(r: Ref, status: Status, code: string) returns (o: Outcome)
      requires Valid() && r in pending && Reportable(action, ownTarget, status, r.uid, log, sent || mutated)
      modifies this`pending, this`outcomes
      ensures Valid() && o == Outcome(r, status, code, status == Failed && code == UNAVAILABLE)
      ensures outcomes == old(outcomes) + [o] && outcomes[..|outcomes| - 1] == old(outcomes) && pending == old(pending) - {r}
    {
      hide Sound, Reportable, AllAcked;
      o := Outcome(r, status, code, status == Failed && code == UNAVAILABLE);
      ReportOne(refs, action, ownTarget, pending, outcomes, log, flight, sent || mutated, r, status, code);
      outcomes, pending := outcomes + [o], pending - {r};
    }

    /** One mutating command.  From the moment it is sent, any answer but OK leaves it in doubt; after
        the end of the run, or of its time, nothing is sent. */
    method Send(c: Command, late: bool, answer: Option<Fault>) returns (e: Option<Error>)
      requires Valid() && !sent && Apart(c.uids, outcomes) && Within(c.uids, refs) && !c.acked
      requires mutated ==> flight == c.uids
      requires Admitted(action, log + [c], |log|)
      modifies this`sent, this`mutated, this`started, this`log, this`flight
      ensures Valid()
      ensures finished ==> unchanged(this) && e.Some?
      ensures e.None? ==> log == old(log) + [c.(acked := true)] && !sent && mutated && flight == c.uids
      ensures !finished && !late ==> e == ErrorOf(answer)
      ensures !finished && late ==> e == Some(Exhausted) && !sent && mutated == old(mutated) && started == old(started)
      ensures !finished && !late && e.Some? ==> sent
      ensures e != Some(StaleScope) && (e.Some? ==> log == old(log) || (log == old(log) + [c] && sent))
      ensures old(started) <= started && |log| - |old(log)| <= started - old(started)
    {
      hide Sound, Admitted;
      if finished {
        return Some(Exhausted);
      }
      if late {
        return Some(Exhausted);
      }
      SendOne(refs, action, ownTarget, pending, outcomes, log, flight, sent || mutated, c);
      sent, started, log, flight := true, started + 1, log + [c], c.uids;
      e := ErrorOf(answer);
      if e.Some? {
        return;
      }
      AckOne(refs, action, ownTarget, pending, outcomes, old(log), c);
      log := old(log) + [c.(acked := true)];
      sent, mutated := false, true;
    }

    /** The commands of one admitted batch. */
    method SendBatch(uids: seq<nat>, x: Exchange, reserveMs: real, probe: bool) returns (e: Option<Error>)
      requires Valid() && !sent && !mutated && Apart(uids, outcomes) && Within(uids, refs)
      requires action != Flag ==> x.remainingMs >= STALL_MS
      requires x.remainingMs >= MIN_START_MS && (x.remainingMs > reserveMs || (probe && |uids| <= MIN_SIZE && log == []))
      modifies this`sent, this`mutated, this`started, this`log, this`flight
      ensures Valid() && e != Some(StaleScope)
      ensures !finished ==> e == AnswerOf(action, x)
      ensures !finished ==> if x.late then e == Some(Exhausted) && !sent && !mutated && started == old(started) else e.Some? ==> sent || mutated
      ensures e.None? ==> !sent && mutated && flight == uids
      ensures e.None? ==> forall u {:trigger u in uids} :: u in uids && Confirmed(old(log), u) ==> Confirmed(log, u) && Effected(action, log, u)
      ensures old(log) <= log && old(started) <= started && |log| - |old(log)| <= started - old(started)
    {
      hide Sound, Confirmed, Effected;
      var c := Command(match action case Move => MoveTo case Flag => Store case Delete => Store, uids, false, x.remainingMs, reserveMs, probe);
      forall u, l ensures Confirmed(l + [c.(acked := true)], u) <==> Confirmed(l, u)
        ensures u in uids && c.verb == Final(action) ==> Effected(action, l + [c.(acked := true)], u)
      { TouchedMore(action, l, c.(acked := true), u); }
      e := Send(c, x.late, x.first);
      if e.Some? || action != Delete {
        return;
      }
      var d := c.(verb := Expunge);
      forall u, l ensures Confirmed(l + [d.(acked := true)], u) <==> Confirmed(l, u)
        ensures u in uids && d.verb == Final(action) ==> Effected(action, l + [d.(acked := true)], u)
      { TouchedMore(action, l, d.(acked := true), u); }
      e := Send(d, x.lateAgain, x.second);
    }

    /** The pending references are those of the candidates that are left. */
    ghost predicate Facing(validity: nat, left: seq<nat>)
      reads this
    {
      forall r {:trigger r in pending} :: r in pending <==> r.validity == validity && r.uid in left
    }

    /** Batch after batch, as the budget allows. */
    method Mutate(candidates: seq<nat>, validity: nat) returns (e: Option<Error>)
      requires Valid() && !sent && !mutated && !finished && started >= |log| && round == 0
      requires Uniform(refs, validity) && Uids(candidates) && Facing(validity, candidates) && candidates != []
      requires MIN_SIZE <= batch.size <= batch.max && minStart >= 0.0
      modifies this, batch
      ensures Valid() && !finished && e != Some(StaleScope) && old(started) <= started
      ensures MIN_SIZE <= batch.size <= batch.max
      ensures e.None? ==> !sent && !mutated && pending == {}
      ensures round <= |talk.batches| && (e.Some? ==> pending != {}) && (e.None? ==> outcomes != [])
      ensures (old(outcomes) == [] ==> Fits(candidates, old(batch.size))) ==>
        Closed(e, sent || mutated, outcomes != [])
        == BatchesEnd(action, talk.batches[..round], |candidates|, Pace(old(batch.lastMs), old(batch.lastCount), old(started)), minStart, old(outcomes) != [])
      ensures |candidates| == 1 && old(started) == 0 && Quick(talk, minStart) ==> e.None?
      ensures Gained(old(outcomes), outcomes, Processed, "", old(pending)) && pending <= old(pending)
      ensures Follows(Sends, e) && (Late(e) ==> Pressed(|candidates|))
    {
      hide Sound, Fits, Uids, BatchesEnd, Closed, TooLate, AllAcked, NoTimeFor, Blame;
      var offset: nat := 0;
      assert candidates[0..] == candidates;
      ghost var pace, settled := Pace(batch.lastMs, batch.lastCount, started), outcomes != [];
      ghost var whole := outcomes == [] ==> Fits(candidates, batch.size);
      Nowhere(action, talk.batches, |candidates|, pace, minStart, settled);
      while offset < |candidates|
        invariant offset <= |candidates| && Valid() && !sent && !mutated && !finished && started >= |log| && old(started) <= started
        invariant Facing(validity, candidates[offset..]) && MIN_SIZE <= batch.size <= batch.max && round <= |talk.batches|
        invariant Gained(old(outcomes), outcomes, Processed, "", old(pending)) && pending <= old(pending) && (outcomes != [] <==> settled || round > 0)
        invariant if offset == 0 then round == 0 && pace == Pace(batch.lastMs, batch.lastCount, started) && batch.size == old(batch.size) else round > 0
        invariant round > 0 ==> Blame(action, talk.batches[round - 1], None, false)
        invariant whole && offset > 0 ==> BatchesEnd(action, talk.batches[..round], |candidates|, pace, minStart, settled) == Over(true)
      {
        if round < |talk.batches| { EndNow(action, talk.batches, round + 1, |candidates|, pace, minStart, settled, outcomes != []); }
        if round == 0 { assert talk.batches[..round] == talk.batches[..0]; }
        var taken;
        e, taken := NextExchange(candidates, offset, validity);
        LastHeard(action, talk.batches, round);
        if e.Some? {
          return;
        }
        offset := offset + taken;
      }
      assert candidates[offset..] == [];
      e := None;
    }

    /** One exchange with the server, if there is one. */
    method NextExchange(candidates: seq<nat>, offset: nat, validity: nat) returns (e: Option<Error>, taken: nat)
      requires Valid() && !sent && !mutated && !finished && started >= |log| && round <= |talk.batches|
      requires Uniform(refs, validity) && Uids(candidates) && offset < |candidates| && Facing(validity, candidates[offset..])
      requires MIN_SIZE <= batch.size <= batch.max && minStart >= 0.0
      modifies this, batch
      ensures Valid() && !finished && e != Some(StaleScope) && old(started) <= started && MIN_SIZE <= batch.size <= batch.max
      ensures e.None? ==> !sent && !mutated && started >= |log| && outcomes != []
      ensures e.None? ==> 0 < taken <= |candidates| - offset && Facing(validity, candidates[offset + taken..])
      ensures e.Some? ==> pending != {}
      ensures round == if old(round) < |talk.batches| then old(round) + 1 else old(round)
      ensures old(round) == |talk.batches| ==> Late(e) && outcomes == old(outcomes)
      ensures old(round) < |talk.batches| ==> Blame(action, talk.batches[old(round)], e, sent || mutated)
      ensures old(round) < |talk.batches| && talk.batches[old(round)].check.None? && !talk.batches[old(round)].late && Late(e) ==>
        NoTimeFor(action, talk.batches[old(round)], |candidates|, old(Pace(batch.lastMs, batch.lastCount, started)), minStart)
      ensures Late(e) ==> Pace(batch.lastMs, batch.lastCount, started) == old(Pace(batch.lastMs, batch.lastCount, started))
      ensures old(round) < |talk.batches| && talk.batches[old(round)].check.Some? ==>
        e == ErrorOf(talk.batches[old(round)].check) && !sent && !mutated && outcomes == old(outcomes)
      ensures old(round) < |talk.batches| && talk.batches[old(round)].check.None? ==> e.None? || sent || mutated || (Late(e) && outcomes == old(outcomes))
      ensures old(round) < |talk.batches| && talk.batches[old(round)].check.None? && offset == 0 && Fits(candidates, old(batch.size)) ==>
        (Late(e) <==> TooLate(action, talk.batches[old(round)], |candidates|, Pace(old(batch.lastMs), old(batch.lastCount), old(started)), minStart)
                      || talk.batches[old(round)].late)
      ensures Gained(old(outcomes), outcomes, Processed, "", old(pending)) && pending <= old(pending)
      ensures |candidates| == 1 && old(started) == 0 && old(round) == 0 && Quick(talk, minStart) ==> e.None?
    {
      hide Sound, Confirmed, Touched, Fits, Uids, Reserve, Admitted, AllAcked;
      SuffixUids(candidates, offset);
      SomePending(pending, validity, candidates, offset);
      taken := 0;
      var uids := NextBatch(candidates[offset..], batch.size);
      if offset == 0 && Fits(candidates, batch.size) { WholeBatch(candidates, uids, batch.size); }
      if round >= |talk.batches| {
        return Some(Exhausted), 0;
      }
      var x := talk.batches[round];
      round := round + 1;
      e := ErrorOf(x.check);
      if e.Some? {
        return;
      }
      var remainingMs := x.remainingMs;
      ghost var pace := Pace(batch.lastMs, batch.lastCount, started);
      if action != Flag && remainingMs < STALL_MS {
        assert TooLate(action, x, |uids|, pace, minStart);
        return Some(Exhausted), 0;
      }
      var estimate := Reserve(batch.lastMs, batch.lastCount, |uids|);
      var reserveMs := if estimate > minStart then estimate else minStart;
      var probe := false;
      if remainingMs <= reserveMs {
        if started > 0 || remainingMs < (if minStart > MIN_START_MS then minStart else MIN_START_MS) {
          assert TooLate(action, x, |uids|, pace, minStart);
          return Some(Exhausted), 0;
        }
        probe, uids := true, if |uids| > MIN_SIZE then uids[..MIN_SIZE] else uids;
      }
      e := this.OneBatch(candidates, offset, uids, validity, x, reserveMs, probe);
      if e.Some? {
        return;
      }
      batch.Update(|uids|, if x.elapsedMs > 0.0 then x.elapsedMs else 0.0);
      taken := |uids|;
    }

    /** The run stops for want of time, with no command in doubt. */
    ghost predicate Late(e: Option<Error>)
      reads this
    {
      e == Some(Exhausted) && !sent && !mutated
    }

    /** Send one admitted batch and report it once it is acknowledged. */
    method OneBatch(ghost candidates: seq<nat>, ghost offset: nat, uids: seq<nat>, validity: nat, x: Exchange, reserveMs: real, probe: bool)
      returns (e: Option<Error>)
      requires Valid() && !sent && !mutated && !finished && started >= |log| && offset <= |candidates|
      requires Uniform(refs, validity) && Uids(candidates) && Facing(validity, candidates[offset..])
      requires uids != [] && uids <= candidates[offset..]
      requires action != Flag ==> x.remainingMs >= STALL_MS
      requires x.remainingMs >= MIN_START_MS && (x.remainingMs > reserveMs || (probe && |uids| <= MIN_SIZE && log == []))
      modifies this
      ensures round == old(round) && e == AnswerOf(action, x) && pending <= old(pending)
      ensures Gained(old(outcomes), outcomes, Processed, "", old(pending))
      ensures Valid() && !finished && e != Some(StaleScope) && started >= |log| && old(started) <= started
      ensures e.None? ==> !sent && !mutated && Facing(validity, candidates[offset + |uids|..]) && outcomes != []
      ensures if x.late then e == Some(Exhausted) && !sent && !mutated && outcomes == old(outcomes) && started == old(started) else e.Some? ==> sent || mutated
      ensures e.Some? ==> pending == old(pending)
    {
      hide Sound, Confirmed, Touched, Uids, AllAcked, Effected;
      InPending(refs, action, ownTarget, pending, outcomes, log, flight, validity, uids, candidates[offset..]);
      e := SendBatch(uids, x, reserveMs, probe);
      if e.Some? {
        return;
      }
      var tokens := set u | u in uids :: Ref(u, validity);
      assert forall r {:trigger r in tokens} :: r in tokens ==> r.uid in uids && Confirmed(log, r.uid) && Effected(action, log, r.uid);
      assert Ref(uids[0], validity) in tokens;
      Settle(Processed, "", tokens);
      SplitCandidates(candidates, offset, uids);
      Landed(refs, action, ownTarget, pending, outcomes, log, flight);
      mutated, flight := false, [];
    }

    /** Why there was no time for another batch. */
    ghost predicate Pressed(most: nat)
      reads this`round, this`started, batch
    {
      round >= |talk.batches| || (round > 0 && var x := talk.batches[round - 1];
        x.check.Some? || x.late || NoTimeFor(action, x, most, Pace(batch.lastMs, batch.lastCount, started), minStart))
    }

    /** The error is the one the exchanges so far give, after this way. */
    ghost predicate Follows(way: Way, e: Option<Error>)
      reads this`round, this`sent, this`mutated
    {
      round <= |talk.batches| && Caused(way, action, talk.batches[..round], e, sent || mutated)
    }

    /** The run has come this way with this error; `before` says whether a message had its result before the batches. */
    ghost predicate Arrived(way: Way, e: Option<Error>, before: bool, pace: Pace, whole: bool)
      reads this, batch
    {
      && Follows(way, e)
      && match way
         case Halts(x) => x.Some? ==> (outcomes != [] <==> before)
         case Sends => (Late(e) ==> Pressed(|refs|)) && (whole ==> Ends(e, BatchesEnd(action, talk.batches[..round], |refs|, pace, minStart, before)))
    }

    /** It ends before the batches. */
    lemma Halted(x: Option<Error>, before: bool, pace: Pace, whole: bool)
      requires !sent && !mutated && round <= |talk.batches| && (x.Some? ==> (outcomes != [] <==> before))
      ensures Arrived(Halts(x), x, before, pace, whole)
    {}

    lemma PressedMore(fewer: nat, most: nat)
      requires Pressed(fewer) && fewer <= most
      ensures Pressed(most)
    {
      hide TooLate;
    }

    /** The end the caller sees once the run has dealt with the error `e`. */
    ghost predicate Ends(e: Option<Error>, end: End)
      reads this
    {
      Closed(e, sent || mutated, outcomes != []) == end
    }

    /** What runs on the opened mailbox, whose UIDVALIDITY is `validity`. */
    method Body() returns (e: Option<Error>)
      requires Valid() && !sent && !mutated && !finished && started >= |log| && log == [] && outcomes == [] && round == 0 && pending == refs
      requires Numbered(refs) && MIN_SIZE <= batch.size <= batch.max && minStart >= 0.0
      modifies this, batch
      ensures Valid() && !finished && old(started) <= started && MIN_SIZE <= batch.size <= batch.max
      ensures e == Some(StaleScope) ==> log == [] && !sent && !mutated
      ensures e.None? ==> !sent && !mutated && pending == {}
      ensures old(started) == 0 && Smooth(action, talk, refs, minStart) ==> e.None? && AllProcessed(outcomes)
      ensures refs != {} ==> (e.Some? ==> pending != {}) && (e.None? ==> outcomes != [])
      ensures Arrived(WayOf(action, talk, refs), e, Searched(talk, refs) && Missed(talk.found, refs),
                      old(Pace(batch.lastMs, batch.lastCount, started)), OneBatchful(refs, old(batch.size)))
      ensures Sifted(WayOf(action, talk, refs), Searched(talk, refs), talk.found, pending, outcomes)
    {
      hide Sound, Uids, AllAcked, Reported, Numbered, OneBatchful, Quick, UidsOf, Answered, NoneFound, Missed, AllProcessed, WayAllowed, Sifted, Admits, Text, Fits, Arrived;
      var validity := talk.validity;
      ghost var pace, whole, way := Pace(batch.lastMs, batch.lastCount, started), OneBatchful(refs, batch.size), WayOf(action, talk, refs);
      SiftedFirst(way, talk.found, pending);
      e := ErrorOf(talk.selected);   // opening the mailbox, and the budget
      if e.Some? {
        Halted(e, false, pace, whole);
        return;
      }
      if !(forall r :: r in refs ==> r.validity == validity) {
        Halted(Some(StaleScope), false, pace, whole);
        return Some(StaleScope);
      }
      if talk.shared {
        Halted(Some(App(READONLY)), false, pace, whole);
        return Some(App(READONLY));
      }
      e := Enter();
    }

    /** The rights in the folder, and whether it is in the scope. */
    method Enter() returns (e: Option<Error>)
      requires Valid() && !sent && !mutated && !finished && started >= |log| && log == [] && outcomes == [] && round == 0 && pending == refs
      requires Numbered(refs) && Uniform(refs, talk.validity) && MIN_SIZE <= batch.size <= batch.max && minStart >= 0.0
      modifies this, batch
      ensures Valid() && !finished && old(started) <= started && MIN_SIZE <= batch.size <= batch.max
      ensures e != Some(StaleScope) && (e.None? ==> !sent && !mutated && pending == {})
      ensures old(started) == 0 && Smooth(action, talk, refs, minStart) ==> e.None? && AllProcessed(outcomes)
      ensures refs != {} ==> (e.Some? ==> pending != {}) && (e.None? ==> outcomes != [])
      ensures Arrived(WayAllowed(action, talk, refs), e, Admits(talk) && Missed(talk.found, refs),
                      old(Pace(batch.lastMs, batch.lastCount, started)), OneBatchful(refs, old(batch.size)))
      ensures Sifted(WayAllowed(action, talk, refs), Admits(talk), talk.found, pending, outcomes)
    {
      hide Sound, Touched, Confirmed, Effected, Uids, AllAcked, Reported, Numbered, OneBatchful, Quick, UidsOf, Uniform, NoneFound, Missed, AllProcessed, WayFound, Sifted, Gained, Text, Fits, Arrived;
      ghost var pace, whole, way := Pace(batch.lastMs, batch.lastCount, started), OneBatchful(refs, batch.size), WayAllowed(action, talk, refs);
      SiftedFirst(way, talk.found, pending);
      e := ErrorOf(talk.rights);
      if e.Some? {
        Halted(e, false, pace, whole);
        return;
      }
      if !talk.allowed {
        Halted(Some(App(READONLY)), false, pace, whole);
        return Some(App(READONLY));
      }
      if !talk.inScope {
        Quiet(refs, action, ownTarget, pending, outcomes, log, flight);
        Settle(Skipped, "", pending);
        SiftedOut(talk.found, refs, outcomes);
        Halted(None, false, pace, whole);
        return None;
      }
      e := Sift();
    }

    /** The search for what still matches, and what follows it. */
    method Sift() returns (e: Option<Error>)
      requires Valid() && !sent && !mutated && !finished && started >= |log| && log == [] && outcomes == [] && round == 0 && pending == refs
      requires Numbered(refs) && Uniform(refs, talk.validity) && MIN_SIZE <= batch.size <= batch.max && minStart >= 0.0
      modifies this, batch
      ensures Valid() && !finished && old(started) <= started && MIN_SIZE <= batch.size <= batch.max
      ensures e != Some(StaleScope) && (e.None? ==> !sent && !mutated && pending == {})
      ensures old(started) == 0 && Smooth(action, talk, refs, minStart) ==> e.None? && AllProcessed(outcomes)
      ensures refs != {} ==> (e.Some? ==> pending != {}) && (e.None? ==> outcomes != [])
      ensures Arrived(WayFound(action, talk, refs), e, talk.searched.None? && Missed(talk.found, refs),
                      old(Pace(batch.lastMs, batch.lastCount, started)), OneBatchful(refs, old(batch.size)))
      ensures Sifted(WayFound(action, talk, refs), talk.searched.None?, talk.found, pending, outcomes)
    {
      hide Sound, Touched, Confirmed, Effected, Uids, AllAcked, Reported, Numbered, OneBatchful, Quick, UidsOf, Uniform, NoneFound, Missed, AllProcessed, WayMoved, Sifted, Gained, Text, Fits, Arrived, Smooth;
      ghost var pace, whole, way := Pace(batch.lastMs, batch.lastCount, started), OneBatchful(refs, batch.size), WayFound(action, talk, refs);
      SiftedFirst(way, talk.found, pending);
      e := ErrorOf(talk.searched);
      if e.Some? {
        Halted(e, false, pace, whole);
        if Smooth(action, talk, refs, minStart) { SmoothFinds(action, talk, refs, minStart); }
        return;
      }
      Quiet(refs, action, ownTarget, pending, outcomes, log, flight);
      if Smooth(action, talk, refs, minStart) { SmoothFinds(action, talk, refs, minStart); }
      var missing := set r | r in pending && r.uid !in talk.found;
      MissingNone(talk, refs, missing);
      if Smooth(action, talk, refs, minStart) { assert missing == {}; }
      Settle(Skipped, "", missing);
      ghost var skipped, left := outcomes, pending;
      GainedNone(outcomes, pending);
      if pending == {} {
        Halted(None, Missed(talk.found, refs), pace, whole);
        SiftedOn(way, talk.found, missing, left, skipped, outcomes, pending);
        return None;
      }
      e := Proceed();
      SiftedOn(way, talk.found, missing, left, skipped, outcomes, pending);
    }

    /** The target folder, and the batches. */
    method Proceed() returns (e: Option<Error>)
      requires Valid() && !sent && !mutated && !finished && started >= |log| && round == 0
      requires Numbered(refs) && Uniform(refs, talk.validity) && MIN_SIZE <= batch.size <= batch.max && minStart >= 0.0
      requires pending != {} && (outcomes == [] ==> pending == refs)
      modifies this, batch
      ensures Valid() && !finished && old(started) <= started && MIN_SIZE <= batch.size <= batch.max
      ensures e != Some(StaleScope) && (e.None? ==> !sent && !mutated && pending == {})
      ensures (e.Some? ==> pending != {}) && (e.None? ==> outcomes != [])
      ensures old(started) == 0 && old(pending) == refs && old(outcomes) == [] && Smooth(action, talk, refs, minStart) ==> e.None? && AllProcessed(outcomes)
      ensures Gained(old(outcomes), outcomes, Processed, "", old(pending)) && pending <= old(pending)
      ensures WayMoved(action, talk) != Sends && WayMoved(action, talk) != Halts(None) ==> outcomes == old(outcomes)
      ensures Arrived(WayMoved(action, talk), e, old(outcomes) != [], old(Pace(batch.lastMs, batch.lastCount, started)), OneBatchful(refs, old(batch.size)))
    {
      hide Sound, Touched, Confirmed, Effected, Uids, AllAcked, Reported, Numbered, OneBatchful, Quick, UidsOf, Uniform, AllProcessed, Gained, Text, Fits, Arrived;
      ghost var pace, whole, before := Pace(batch.lastMs, batch.lastCount, started), OneBatchful(refs, batch.size), outcomes != [];
      GainedNone(outcomes, pending);
      if action == Move {
        e := Refused();
        if e.Some? {
          Halted(e, before, pace, whole);
          return;
        }
        if ownTarget {
          Quiet(refs, action, ownTarget, pending, outcomes, log, flight);
          Settle(Processed, "", pending);
          if !before { Processing(outcomes, "", old(pending)); }
          Halted(None, before, pace, whole);
          return None;
        }
      }
      e := Carry();
    }

    /** What forbids moving to the target folder. */
    function Refused(): (e: Option<Error>)
      ensures action == Move ==> WayMoved(action, talk) == if e.Some? then Halts(e) else if talk.ownTarget then Halts(None) else Sends
      ensures e.None? <==> talk.listed.None? && talk.capable && talk.present && talk.insertable
      ensures e != Some(StaleScope)
    {
      if talk.listed.Some? then ErrorOf(talk.listed)
      else if !talk.capable then Some(App("MOVE_UNSUPPORTED"))
      else if !talk.present then Some(App("FOLDER_NOT_ALLOWED"))
      else if !talk.insertable then Some(App(READONLY))
      else None
    }

    /** The batches, over everything that is still pending. */
    method Carry() returns (e: Option<Error>)
      requires Valid() && !sent && !mutated && !finished && started >= |log| && round == 0
      requires Numbered(refs) && Uniform(refs, talk.validity) && MIN_SIZE <= batch.size <= batch.max && minStart >= 0.0
      requires pending != {} && (outcomes == [] ==> pending == refs)
      modifies this, batch
      ensures Valid() && !finished && old(started) <= started && MIN_SIZE <= batch.size <= batch.max
      ensures e != Some(StaleScope) && (e.None? ==> !sent && !mutated && pending == {})
      ensures (e.Some? ==> pending != {}) && (e.None? ==> outcomes != [])
      ensures old(started) == 0 && old(pending) == refs && old(outcomes) == [] && |refs| == 1 && Quick(talk, minStart) ==> e.None? && AllProcessed(outcomes)
      ensures Gained(old(outcomes), outcomes, Processed, "", old(pending)) && pending <= old(pending)
      ensures Arrived(Sends, e, old(outcomes) != [], old(Pace(batch.lastMs, batch.lastCount, started)), OneBatchful(refs, old(batch.size)))
    {
      hide Sound, Uids, Numbered, OneBatchful, BatchesEnd, Fits, Quick, Closed, Caused, Gained, Pressed, AllProcessed;
      var validity := talk.validity;
      assert pending <= refs by { PendingInRefs(refs, action, ownTarget, pending, outcomes, log, flight, false); }
      assert Numbered(pending) by { NumberedSubset(refs, pending); }
      var candidates := SortedUids(pending);
      FacingAll(pending, validity, candidates);
      AllCounted(pending, validity, candidates);
      assert candidates != [];
      SmallerSet(pending, refs);
      if outcomes == [] && OneBatchful(refs, batch.size) { OneBatch1(refs, batch.size, candidates); }
      ghost var pace := Pace(batch.lastMs, batch.lastCount, started);
      ghost var settled := outcomes != [];
      e := Mutate(candidates, validity);
      if !settled { Processing(outcomes, "", old(pending)); }
      if Late(e) { PressedMore(|candidates|, |refs|); }
      if settled { CountFree(action, talk.batches[..round], |candidates|, |refs|, pace, minStart); }
    }

    /** runScopedGroup.  `size` is the length of the group's own sequence set: a group that does not
        fit is refused before anything happens.  `e` is what ended the work on the mailbox; by the replies it is
        what it must be, and so are the results. */
    method Run() returns (thrown: Option<Error>, remaining: set<Ref>, exhausted: bool, ghost e: Option<Error>)
      requires Valid() && !sent && !mutated && !finished && started >= |log| && log == [] && outcomes == [] && pending == refs && round == 0
      requires Numbered(refs) && MIN_SIZE <= batch.size <= batch.max && minStart >= 0.0
      modifies this, batch
      ensures finished && Valid() && old(started) <= started && MIN_SIZE <= batch.size <= batch.max
      ensures thrown.None? ==> Parted(refs, outcomes, remaining)
      ensures remaining == pending && forall r {:trigger r in pending} :: r in pending ==> !Touched(log, r.uid)
      ensures thrown == Some(Invalid) ==> log == [] && outcomes == [] && forall uids {:trigger Text(RunsOf(uids))} ::
        Uids(uids) && (forall u :: u in uids <==> u in UidsOf(refs)) ==> |Text(RunsOf(uids))| > SET_LIMIT
      ensures thrown != Some(Invalid) ==> Follows(WayOf(action, talk, refs), e)
      ensures thrown != Some(Invalid) ==> thrown == (if !sent && !mutated && (e == Some(StaleScope) || e == Some(NoSession)) then e else None)
      ensures exhausted <==> thrown != Some(Invalid) && e == Some(Exhausted)
      ensures exhausted && remaining != {} && WayOf(action, talk, refs) == Sends ==> Pressed(|refs|)
      ensures thrown != Some(Invalid) ==> Fated(WayOf(action, talk, refs), Searched(talk, refs), talk.found, remaining, outcomes, e, sent || mutated)
      ensures thrown != Some(Invalid) && refs != {} && (sent || mutated) ==> AnyUnknown(outcomes)
      ensures thrown == Some(StaleScope) ==> log == []
      ensures thrown == Some(NoSession) ==> AllAcked(log)
      ensures thrown != Some(Invalid) && Smooth(action, talk, refs, minStart) && old(started) == 0 ==> e.None? && AllProcessed(outcomes)
      ensures thrown != Some(Invalid) && refs != {} && OneBatchful(refs, old(batch.size)) ==>
        EndOf(action, Heard(talk, round), refs, old(Pace(batch.lastMs, batch.lastCount, started)), minStart)
        == if thrown == Some(NoSession) then Severs(outcomes != []) else Over(outcomes != [])
    {
      hide Sound, Confirmed, Touched, Uids, AllAcked, Reported, Numbered, Text, RunsOf, EndOf, OneBatchful, Smooth, OfStatus, Once, UidsOf, Quick, Missed, Heard, AllProcessed, Parted, Fits, WayOf, Searched, Sifted, Fated, Pressed, Caused, Closed, BatchesEnd;
      e := None;
      Quiet(refs, action, ownTarget, pending, outcomes, log, flight);
      var uids := SortedUids(refs);
      var text := UidSet(uids);
      if |text| > SET_LIMIT {
        finished := true;
        OnlySorted(refs, uids);
        return Some(Invalid), pending, false, None;
      }
      ghost var pace := Pace(batch.lastMs, batch.lastCount, started);
      var error := Body();
      e := error;
      if refs != {} && OneBatchful(refs, old(batch.size)) { Ending(e, pace); }
      ghost var left, before := pending, outcomes;
      thrown, remaining, exhausted := Close(error);
      FatedAs(WayOf(action, talk, refs), Searched(talk, refs), talk.found, e, sent || mutated, left, before, pending, outcomes);
    }

    /** The end by the replies is the one the error makes. */
    lemma Ending(e: Option<Error>, pace: Pace)
      requires Arrived(WayOf(action, talk, refs), e, Searched(talk, refs) && Missed(talk.found, refs), pace, true)
      ensures Ends(e, EndOf(action, Heard(talk, round), refs, pace, minStart))
    {
      hide BatchesEnd, Missed, Pressed, Blamed;
      assert WayOf(action, Heard(talk, round), refs) == WayOf(action, talk, refs);
    }

    /** What the run makes of the error that ended its work on the mailbox. */
    method Close(e: Option<Error>) returns (thrown: Option<Error>, remaining: set<Ref>, exhausted: bool)
      requires Valid() && !finished && (e.None? ==> !sent && !mutated && pending == {}) && (e == Some(StaleScope) ==> !sent && !mutated)
      modifies this`pending, this`outcomes, this`finished
      ensures Valid() && finished && remaining == pending && (exhausted <==> e == Some(Exhausted))
      ensures forall r {:trigger r in pending} :: r in pending ==> !Touched(log, r.uid)
      ensures Dealt(e, sent || mutated, old(pending), old(outcomes), pending, outcomes)
      ensures thrown == if !sent && !mutated && (e == Some(StaleScope) || e == Some(NoSession)) then e else None
      ensures thrown.None? ==> Parted(refs, outcomes, remaining)
      ensures thrown == Some(NoSession) ==> AllAcked(log)
      ensures (e.Some? ==> old(pending) != {}) && (e.None? ==> old(outcomes) != []) ==>
        Closed(e, sent || mutated, old(outcomes) != []) == if thrown == Some(NoSession) then Severs(outcomes != []) else Over(outcomes != [])
    {
      hide Sound, Confirmed, Touched, AllAcked, Reported, OfStatus, Once, Parted, Gained, Effected;
      exhausted := e == Some(Exhausted);
      if e.Some? && (sent || mutated) {
        Settle(Unknown, UNCONFIRMED, pending);
      } else {
        Quiet(refs, action, ownTarget, pending, outcomes, log, flight);
        if e == Some(StaleScope) || e == Some(NoSession) {
          finished := true;
          return e, pending, exhausted;
        }
        if e.Some? && !exhausted {
          Settle(Failed, if e.value.App? then e.value.code else UNAVAILABLE, pending);
        }
      }
      SoundParted(refs, action, ownTarget, pending, outcomes, log, flight, sent || mutated);
      finished := true;
      thrown, remaining := None, pending;
    }
  }

  /** Every reference is in exactly one of the five result lists. */
  ghost predicate Parted(refs: set<Ref>, outcomes: seq<Outcome>, remaining: set<Ref>) {
    var p, s, f, u := OfStatus(outcomes, Processed), OfStatus(outcomes, Skipped), OfStatus(outcomes, Failed), OfStatus(outcomes, Unknown);
    refs == p + s + f + u + remaining && Once(outcomes)
    && p !! s && p !! f && p !! u && s !! f && s !! u && f !! u && (p + s + f + u) !! remaining
  }

  lemma SoundParted(refs: set<Ref>, action: Action, own: bool, pending: set<Ref>, outcomes: seq<Outcome>, log: seq<Command>, flight: seq<nat>, doubt: bool)
    requires Sound(refs, action, own, pending, outcomes, log, flight, doubt)
    ensures Parted(refs, outcomes, pending)
  {
    hide Honest, AllAdmitted, Touched, OfStatus, Reported;
    StatusesDisjoint(outcomes, Processed, Skipped);
    StatusesDisjoint(outcomes, Processed, Failed);
    StatusesDisjoint(outcomes, Processed, Unknown);
    StatusesDisjoint(outcomes, Skipped, Failed);
    StatusesDisjoint(outcomes, Skipped, Unknown);
    StatusesDisjoint(outcomes, Failed, Unknown);
  }

  /** Ascending lists of the same numbers are equal. */
  lemma {:induction false} SameSorted(a: seq<nat>, b: seq<nat>)
    requires Uids(a) && Uids(b) && forall u {:trigger u in a} {:trigger u in b} :: u in a <==> u in b
    ensures a == b
    decreases a
  {
    hide Uids;
    assert forall i :: 0 <= i < |a| ==> a[i] in a && a[i] in b;
    assert forall i :: 0 <= i < |b| ==> b[i] in b && b[i] in a;
    if a != [] && b != [] {
      TailUids(a);
      TailUids(b);
      var x, y, s, t := a[0], b[0], a[1..], b[1..];
      assert a == [x] + s && b == [y] + t;
      assert x in a && y in b;
      assert x == y;
      forall u ensures u in s <==> u in t {
        assert u in s ==> u in a && u != x;
        assert u in t ==> u in b && u != y;
      }
      SameSorted(s, t);
    }
  }

  lemma OneBatch1(refs: set<Ref>, size: nat, uids: seq<nat>)
    requires OneBatchful(refs, size) && Uids(uids) && forall u :: u in uids <==> u in UidsOf(refs)
    ensures Fits(uids, size)
  {}

  lemma SmoothFinds(action: Action, talk: Talk, refs: set<Ref>, minStart: real)
    requires Smooth(action, talk, refs, minStart)
    ensures talk.searched.None? && refs != {} && forall r {:trigger r in refs} :: r in refs ==> r.uid in talk.found
  {}

  lemma MissingNone(talk: Talk, refs: set<Ref>, missing: set<Ref>)
    requires missing == set r | r in refs && r.uid !in talk.found
    ensures missing != {} <==> Missed(talk.found, refs)
    ensures refs - missing == {} <==> NoneFound(talk.found, refs)
  {
    if Missed(talk.found, refs) { var r :| r in refs && r.uid !in talk.found; assert r in missing; }
    if exists r :: r in refs && r.uid in talk.found { var r :| r in refs && r.uid in talk.found; assert r in refs - missing; }
  }

  /** As many numbers as references to one mailbox. */
  lemma {:induction false} AllCounted(refs: set<Ref>, validity: nat, uids: seq<nat>)
    requires Uids(uids) && forall r {:trigger r in refs} :: r in refs <==> r.validity == validity && r.uid in uids
    ensures |refs| == |uids|
    decreases uids
  {
    hide Uids;
    if uids == [] {
      assert refs == {};
    } else {
      TailUids(uids);
      var r, rest := Ref(uids[0], validity), uids[1..];
      assert uids == [uids[0]] + rest;
      assert r in refs;
      AllCounted(refs - {r}, validity, rest);
      assert |refs| == |refs - {r}| + 1;
    }
  }

  lemma OnlySorted(refs: set<Ref>, uids: seq<nat>)
    requires Uids(uids) && (forall u :: u in uids <==> u in UidsOf(refs)) && |Text(RunsOf(uids))| > SET_LIMIT
    ensures forall other {:trigger Text(RunsOf(other))} ::
      Uids(other) && (forall u :: u in other <==> u in UidsOf(refs)) ==> |Text(RunsOf(other))| > SET_LIMIT
  {
    hide Uids, Text, RunsOf;
    forall other | Uids(other) && (forall u :: u in other <==> u in UidsOf(refs)) ensures |Text(RunsOf(other))| > SET_LIMIT {
      SameSorted(uids, other);
    }
  }

  lemma Quiet(refs: set<Ref>, action: Action, own: bool, pending: set<Ref>, outcomes: seq<Outcome>, log: seq<Command>, flight: seq<nat>)
    requires Sound(refs, action, own, pending, outcomes, log, flight, false)
    ensures forall r {:trigger r in pending} :: r in pending ==> !Touched(log, r.uid) && Confirmed(log, r.uid)
  {
    hide Touched, Confirmed;
    forall r | r in pending ensures !Touched(log, r.uid) && Confirmed(log, r.uid) {
      assert !Touched(log, r.uid);
      NeverSent(log, r.uid);
    }
  }

  lemma PendingInRefs(refs: set<Ref>, action: Action, own: bool, pending: set<Ref>, outcomes: seq<Outcome>, log: seq<Command>, flight: seq<nat>, doubt: bool)
    requires Sound(refs, action, own, pending, outcomes, log, flight, doubt)
    ensures pending <= refs
  {}

  lemma NumberedSubset(refs: set<Ref>, pending: set<Ref>)
    requires Numbered(refs) && pending <= refs
    ensures Numbered(pending)
  {}

  lemma FacingAll(pending: set<Ref>, validity: nat, candidates: seq<nat>)
    requires Uniform(pending, validity) && forall u :: u in candidates <==> u in UidsOf(pending)
    ensures forall r {:trigger r in pending} :: r in pending <==> r.validity == validity && r.uid in candidates
  {
    forall r ensures r in pending <==> r.validity == validity && r.uid in candidates {
      if r in pending { assert r.uid in UidsOf(pending); }
      if r.uid in candidates { var q :| q in pending && q.uid == r.uid; }
    }
  }

  lemma SuffixUids(uids: seq<nat>, offset: nat)
    requires Uids(uids) && offset < |uids|
    ensures Uids(uids[offset..])
  {
    Prefixes(uids, offset);
    assert forall j :: 0 <= j < |uids[offset..]| ==> uids[offset..][j] == uids[offset + j];
  }

  /** What is in flight is not among what is left. */
  lemma SplitCandidates(candidates: seq<nat>, offset: nat, uids: seq<nat>)
    requires Uids(candidates) && offset <= |candidates| && uids <= candidates[offset..]
    ensures forall u {:trigger u in uids} :: u in candidates[offset..] ==> (u in uids <==> u !in candidates[offset + |uids|..])
  {
    var rest, left := candidates[offset..], candidates[offset + |uids|..];
    assert rest == uids + left;
    assert forall i :: 0 <= i < |uids| ==> uids[i] == candidates[offset + i];
    assert forall i :: 0 <= i < |left| ==> left[i] == candidates[offset + |uids| + i];
  }

  lemma InPending(refs: set<Ref>, action: Action, own: bool, pending: set<Ref>, outcomes: seq<Outcome>, log: seq<Command>, flight: seq<nat>,
                  validity: nat, uids: seq<nat>, left: seq<nat>)
    requires Sound(refs, action, own, pending, outcomes, log, flight, false) && Uniform(refs, validity) && uids <= left
    requires forall r {:trigger r in pending} :: r in pending <==> r.validity == validity && r.uid in left
    ensures Apart(uids, outcomes) && Within(uids, refs)
    ensures forall u {:trigger u in uids} :: u in uids ==> Ref(u, validity) in pending && Confirmed(log, u)
  {
    forall u | u in uids ensures Ref(u, validity) in pending && Confirmed(log, u) && u in UidsOf(refs) {
      assert u in left && Ref(u, validity) in pending && Ref(u, validity) in refs && Ref(u, validity).uid in UidsOf(refs);
      NeverSent(log, u);
    }
    ApartFromPending(refs, pending, outcomes, validity, uids);
  }
}
