/** Build statuses of a commit and their aggregation (`src/bitbucket/status.go`). */
module BitbucketStatus {

  const StatusSuccess := "SUCCESSFUL"
  const StatusFailed := "FAILED"
  const StatusInProgress := "INPROGRESS"
  const StatusUnknown := "UNKNOWN"

  /** One build status reported on a commit. */
  datatype Status = Status(
    state: string,
    key: string,
    name: string,
    url: string,
    description: string,
    dateAdded: int)

  /** One page of build statuses. */
  datatype StatusList = StatusList(
    size: int,
    limit: int,
    isLastPage: bool,
    start: int,
    values: seq<Status>)

  /** Some entry of `values` is in state `st`. */
  predicate Reports(values: seq<Status>, st: string)
  {
    exists i :: 0 <= i < |values| && values[i].state == st
  }

  /** The overall state of a list of statuses: FAILED if any entry failed, else INPROGRESS if any
      is running, else SUCCESSFUL if any succeeded, else UNKNOWN (also for an empty list and for
      entries in states the code does not recognise). */
  function Aggregate(values: seq<Status>): (r: string)
    ensures r in {StatusFailed, StatusInProgress, StatusSuccess, StatusUnknown}
    ensures r == StatusUnknown <==>
      !Reports(values, StatusFailed) && !Reports(values, StatusInProgress) && !Reports(values, StatusSuccess)
  {
    if Reports(values, StatusFailed) then StatusFailed
    else if Reports(values, StatusInProgress) then StatusInProgress
    else if Reports(values, StatusSuccess) then StatusSuccess
    else StatusUnknown
  }

  /** `StatusList.State`: one pass over the entries setting a flag per recognised state, then the
      flags are read in the order failed, running, successful. */
  method State(s: StatusList) returns (r: string)
    ensures r == Aggregate(s.values)
  {
    var isRunning, isSuccess, isFailed := false, false, false;
    for i := 0 to |s.values|
      invariant isRunning == Reports(s.values[..i], StatusInProgress)
      invariant isSuccess == Reports(s.values[..i], StatusSuccess)
      invariant isFailed == Reports(s.values[..i], StatusFailed)
    {
      var status := s.values[i];
      ReportsSnoc(s.values, i);
      if status.state == StatusInProgress {
        isRunning := true;
      } else if status.state == StatusSuccess {
        isSuccess := true;
      } else if status.state == StatusFailed {
        isFailed := true;
      }
    }
    assert s.values[..|s.values|] == s.values;
    if isFailed {
      r := StatusFailed;
    } else if isRunning {
      r := StatusInProgress;
    } else if isSuccess {
      r := StatusSuccess;
    } else {
      r := StatusUnknown;
    }
  }

  /** Reading one more entry adds exactly that entry's state to what has been seen. */
  lemma ReportsSnoc(values: seq<Status>, i: nat)
    requires i < |values|
    ensures forall st :: Reports(values[..i + 1], st) <==> Reports(values[..i], st) || values[i].state == st
  {
    forall st ensures Reports(values[..i + 1], st) <==> Reports(values[..i], st) || values[i].state == st {
      if Reports(values[..i + 1], st) {
        var j :| 0 <= j < i + 1 && values[..i + 1][j].state == st;
        if j < i {
          assert values[..i][j] == values[j];
        }
      }
      if Reports(values[..i], st) {
        var j :| 0 <= j < i && values[..i][j].state == st;
        assert values[..i + 1][j] == values[j];
      }
      assert values[..i + 1][i] == values[i];
    }
  }

  /** The aggregate does not depend on the order of the entries. */
  lemma AggregatePermutation(a: seq<Status>, b: seq<Status>)
    requires multiset(a) == multiset(b)
    ensures Aggregate(a) == Aggregate(b)
  {
    forall st ensures Reports(a, st) <==> Reports(b, st) {
      ReportsSubmultiset(a, b, st);
      ReportsSubmultiset(b, a, st);
    }
  }

  lemma ReportsSubmultiset(a: seq<Status>, b: seq<Status>, st: string)
    requires multiset(a) <= multiset(b)
    ensures Reports(a, st) ==> Reports(b, st)
  {
    if Reports(a, st) {
      var i :| 0 <= i < |a| && a[i].state == st;
      assert a[i] in multiset(a);
      assert a[i] in multiset(b);
      var j :| 0 <= j < |b| && b[j] == a[i];
    }
  }

  /** How much a state weighs in the aggregate: unrecognised states weigh nothing. */
  function Rank(st: string): nat
  {
    if st == StatusFailed then 3
    else if st == StatusInProgress then 2
    else if st == StatusSuccess then 1
    else 0
  }

  /** The weightier of two aggregate states. */
  function Worse(x: string, y: string): string
  {
    if Rank(x) >= Rank(y) then x else y
  }

  /** The aggregate is the weightiest state among the entries: every entry weighs at most as much,
      and unless it is UNKNOWN some entry is in that state. */
  lemma AggregateIsMaximum(values: seq<Status>)
    ensures Aggregate(values) == StatusUnknown || Reports(values, Aggregate(values))
    ensures forall i :: 0 <= i < |values| ==> Rank(values[i].state) <= Rank(Aggregate(values))
  {
    forall i | 0 <= i < |values| ensures Rank(values[i].state) <= Rank(Aggregate(values)) {
      var st := values[i].state;
      if st == StatusFailed || st == StatusInProgress || st == StatusSuccess {
        assert Reports(values, st);
      }
    }
  }

  /** Aggregating a concatenation is taking the worse of the two aggregates: the priority
      FAILED > INPROGRESS > SUCCESSFUL > UNKNOWN decides, wherever the entries stand. */
  lemma AggregateConcat(a: seq<Status>, b: seq<Status>)
    ensures Aggregate(a + b) == Worse(Aggregate(a), Aggregate(b))
  {
    ReportsConcat(a, b, StatusFailed);
    ReportsConcat(a, b, StatusInProgress);
    ReportsConcat(a, b, StatusSuccess);
  }

  /** A state is reported by a concatenation when one of its parts reports it. */
  lemma ReportsConcat(a: seq<Status>, b: seq<Status>, st: string)
    ensures Reports(a + b, st) <==> Reports(a, st) || Reports(b, st)
  {
    if Reports(a + b, st) {
      var i :| 0 <= i < |a + b| && (a + b)[i].state == st;
      if i >= |a| {
        assert b[i - |a|] == (a + b)[i];
      }
    }
    if Reports(a, st) {
      var i :| 0 <= i < |a| && a[i].state == st;
      assert (a + b)[i] == a[i];
    }
    if Reports(b, st) {
      var i :| 0 <= i < |b| && b[i].state == st;
      assert (a + b)[|a| + i] == b[i];
    }
  }

  /** The three cases of `status_test.go`. */
  lemma StateExamples()
    ensures Aggregate([Entry(StatusSuccess), Entry(StatusInProgress), Entry(StatusFailed)]) == StatusFailed
    ensures Aggregate([Entry(StatusSuccess), Entry(StatusInProgress), Entry(StatusSuccess)]) == StatusInProgress
    ensures Aggregate([Entry(StatusSuccess), Entry(StatusSuccess), Entry(StatusSuccess)]) == StatusSuccess
  {
    var failing := [Entry(StatusSuccess), Entry(StatusInProgress), Entry(StatusFailed)];
    assert failing[2].state == StatusFailed;
    var running := [Entry(StatusSuccess), Entry(StatusInProgress), Entry(StatusSuccess)];
    assert running[1].state == StatusInProgress;
    var passing := [Entry(StatusSuccess), Entry(StatusSuccess), Entry(StatusSuccess)];
    assert passing[0].state == StatusSuccess;
  }

  /** A status with only its state set, as the tests build them. */
  function Entry(st: string): Status
  {
    Status(st, "", "", "", "", 0)
  }
}
