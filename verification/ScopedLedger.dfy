/** The ledger of a select-all action: one outcome per message, totals, failures and receipts. */
module ScopedLedger {
  import opened Options
  import opened UidSets
  import opened ScopedGroup

  /** The messages of one folder in a selection, by UID. */
  datatype Group = Group(path: string, validity: nat, uids: seq<nat>)

  type Row = seq<Option<Status>>

  datatype Totals = Totals(processed: nat, skipped: nat, failed: nat)

  /** The message is the one at `index` of the selection's group `g`. */
  datatype Failure = Failure(g: nat, index: nat, code: string, retryable: bool)

  function CountIn(row: Row, m: Option<Status>): nat {
    if row == [] then 0 else (if row[0] == m then 1 else 0) + CountIn(row[1..], m)
  }

  function Count(rows: seq<Row>, m: Option<Status>): nat {
    if rows == [] then 0 else CountIn(rows[0], m) + Count(rows[1..], m)
  }

  function Size(rows: seq<Row>): nat { if rows == [] then 0 else |rows[0]| + Size(rows[1..]) }

  function Tally(rows: seq<Row>): Totals {
    Totals(Count(rows, Some(Processed)), Count(rows, Some(Skipped)), Count(rows, Some(Failed)) + Count(rows, Some(Unknown)))
  }

  function One(yes: bool): nat { if yes then 1 else 0 }

  lemma {:induction false} CountInSet(row: Row, i: nat, x: Option<Status>, m: Option<Status>)
    requires i < |row|
    ensures CountIn(row[i := x], m) + One(row[i] == m) == CountIn(row, m) + One(x == m)
  {
    var row' := row[i := x];
    if i == 0 {
      assert row'[1..] == row[1..];
    } else {
      assert row'[1..] == row[1..][i - 1 := x];
      CountInSet(row[1..], i - 1, x, m);
    }
  }

  lemma {:induction false} CountSet(rows: seq<Row>, g: nat, i: nat, x: Option<Status>, m: Option<Status>)
    requires g < |rows| && i < |rows[g]|
    ensures Count(rows[g := rows[g][i := x]], m) + One(rows[g][i] == m) == Count(rows, m) + One(x == m)
  {
    var rows' := rows[g := rows[g][i := x]];
    if g == 0 {
      assert rows'[1..] == rows[1..];
      CountInSet(rows[0], i, x, m);
    } else {
      assert rows'[1..] == rows[1..][g - 1 := rows[1..][g - 1][i := x]];
      CountSet(rows[1..], g - 1, i, x, m);
    }
  }

  lemma {:induction false} RowSize(row: Row)
    ensures |row| == CountIn(row, None) + CountIn(row, Some(Processed)) + CountIn(row, Some(Skipped)) + CountIn(row, Some(Failed)) + CountIn(row, Some(Unknown))
  {
    if row != [] {
      RowSize(row[1..]);
      match row[0] {
        case None =>
        case Some(status) => match status { case Processed => case Skipped => case Failed => case Unknown => }
      }
    }
  }

  /** What is left is what has no outcome yet. */
  lemma {:induction false} LeftIsUnset(rows: seq<Row>)
    ensures Size(rows) == Count(rows, None) + Tally(rows).processed + Tally(rows).skipped + Tally(rows).failed
  {
    if rows != [] {
      RowSize(rows[0]);
      LeftIsUnset(rows[1..]);
    }
  }

  lemma {:induction false} SizeSet(rows: seq<Row>, g: nat, i: nat, x: Option<Status>)
    requires g < |rows| && i < |rows[g]|
    ensures Size(rows[g := rows[g][i := x]]) == Size(rows)
  {
    var rows' := rows[g := rows[g][i := x]];
    if g == 0 {
      assert rows'[1..] == rows[1..];
    } else {
      assert rows'[1..] == rows[1..][g - 1 := rows[1..][g - 1][i := x]];
      SizeSet(rows[1..], g - 1, i, x);
    }
  }

  lemma {:induction false} UnsetInRow(row: Row)
    ensures CountIn(row, None) == 0 <==> forall i {:trigger row[i]} :: 0 <= i < |row| ==> row[i] != None
  {
    if row != [] {
      UnsetInRow(row[1..]);
      assert forall i :: 0 <= i < |row| - 1 ==> row[1..][i] == row[i + 1];
      assert row == [row[0]] + row[1..];
    }
  }

  predicate NoneUnset(rows: seq<Row>, g: nat)
    requires g <= |rows|
  {
    forall h, i {:trigger rows[h][i]} :: 0 <= h < g && 0 <= i < |rows[h]| ==> rows[h][i] != None
  }

  lemma {:induction false} AllSet(rows: seq<Row>)
    requires NoneUnset(rows, |rows|)
    ensures Count(rows, None) == 0
  {
    if rows != [] {
      assert forall i :: 0 <= i < |rows[0]| ==> rows[0][i] != None;
      UnsetInRow(rows[0]);
      assert forall h, i {:trigger rows[1..][h][i]} :: 0 <= h < |rows| - 1 && 0 <= i < |rows[1..][h]| ==> rows[1..][h][i] == rows[h + 1][i];
      AllSet(rows[1..]);
    }
  }

  // ---------- failures ----------

  function CountCode(failures: seq<Failure>, code: string): nat {
    if failures == [] then 0
    else CountCode(failures[..|failures| - 1], code) + One(failures[|failures| - 1].code == code)
  }

  function Under(counts: map<string, nat>, code: string): nat { if code in counts then counts[code] else 0 }

  predicate Counted(failures: seq<Failure>, counts: map<string, nat>, code: string) { Under(counts, code) == CountCode(failures, code) }

  /** Every entry of the failure list stands for a message with that outcome. */
  predicate Listed(rows: seq<Row>, f: Failure) {
    f.g < |rows| && f.index < |rows[f.g]| && (rows[f.g][f.index] == Some(Failed) || (rows[f.g][f.index] == Some(Unknown) && !f.retryable))
  }

  /** The counters agree with the outcomes. */
  ghost predicate Ledger(rows: seq<Row>, totals: Totals, failures: seq<Failure>, counts: map<string, nat>) {
    && totals == Tally(rows) && |failures| == totals.failed
    && (forall code {:trigger Counted(failures, counts, code)} :: Counted(failures, counts, code))
    && (forall k {:trigger failures[k]} :: 0 <= k < |failures| ==> Listed(rows, failures[k]))
  }

  function TotalsAfter(t: Totals, status: Status): Totals {
    match status
    case Processed => t.(processed := t.processed + 1)
    case Skipped => t.(skipped := t.skipped + 1)
    case Failed => t.(failed := t.failed + 1)
    case Unknown => t.(failed := t.failed + 1)
  }

  lemma TallySet(rows: seq<Row>, g: nat, i: nat, status: Status)
    requires g < |rows| && i < |rows[g]| && rows[g][i] == None
    ensures Tally(rows[g := rows[g][i := Some(status)]]) == TotalsAfter(Tally(rows), status)
  {
    hide Count;
    CountSet(rows, g, i, Some(status), Some(Processed));
    CountSet(rows, g, i, Some(status), Some(Skipped));
    CountSet(rows, g, i, Some(status), Some(Failed));
    CountSet(rows, g, i, Some(status), Some(Unknown));
  }

  lemma ListedStill(rows: seq<Row>, g: nat, i: nat, x: Option<Status>, f: Failure)
    requires g < |rows| && i < |rows[g]| && rows[g][i] == None && Listed(rows, f)
    ensures Listed(rows[g := rows[g][i := x]], f)
  {}

  lemma CountedMore(failures: seq<Failure>, counts: map<string, nat>, f: Failure, code: string)
    requires Counted(failures, counts, code)
    ensures Counted(failures + [f], counts[f.code := Under(counts, f.code) + 1], code) || (code == f.code && !Counted(failures, counts, f.code))
  {
    assert (failures + [f])[..|failures|] == failures;
  }

  /** Recording an outcome for a message without one keeps the books. */
  lemma LedgerSettle(rows: seq<Row>, totals: Totals, failures: seq<Failure>, counts: map<string, nat>, g: nat, i: nat, status: Status, f: Failure)
    requires Ledger(rows, totals, failures, counts) && g < |rows| && i < |rows[g]| && rows[g][i] == None
    requires f.g == g && f.index == i && (status == Unknown ==> !f.retryable)
    ensures var rows' := rows[g := rows[g][i := Some(status)]];
      if status == Processed || status == Skipped then Ledger(rows', TotalsAfter(totals, status), failures, counts)
      else Ledger(rows', TotalsAfter(totals, status), failures + [f], counts[f.code := Under(counts, f.code) + 1])
  {
    hide Tally, Counted, Listed, Under;
    var rows' := rows[g := rows[g][i := Some(status)]];
    TallySet(rows, g, i, status);
    forall k | 0 <= k < |failures| ensures Listed(rows', failures[k]) { ListedStill(rows, g, i, Some(status), failures[k]); }
    if status == Failed || status == Unknown {
      var more := failures + [f];
      assert Listed(rows', f) by { NewlyListed(rows', f, status); }
      forall k | 0 <= k < |more| ensures Listed(rows', more[k]) { assert k < |failures| ==> more[k] == failures[k]; }
      assert Counted(failures, counts, f.code);
      var counts' := counts[f.code := Under(counts, f.code) + 1];
      forall code ensures Counted(more, counts', code) {
        assert Counted(failures, counts, code);
        CountedMore(failures, counts, f, code);
      }
    }
  }

  lemma NewlyListed(rows: seq<Row>, f: Failure, status: Status)
    requires f.g < |rows| && f.index < |rows[f.g]| && rows[f.g][f.index] == Some(status)
    requires status == Failed || (status == Unknown && !f.retryable)
    ensures Listed(rows, f)
  {}
}
