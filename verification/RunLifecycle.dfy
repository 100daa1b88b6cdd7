/**
  * The life of audit runs (code_auditor/db.py:1874-1970, 2162-2307): each statement is one atomic step on
  * the table of runs, with the time it happens at.
  */
module RunLifecycle {
  import opened Wrappers

  datatype Kind = Audit | Maintenance | UnknownKind
  datatype Status = Running | Done | Failed | Cancelled | Superseded | Imported

  /** A row of the table. Backfill runs are recognised by their output directory. */
  datatype Row = Row(
    kind: Kind, isBackfill: bool, status: Status, error: string, startedAt: Option<real>,
    active: Option<real>, duration: real, endedAt: Option<real>)

  type Table = map<nat, Row>

  datatype Store = Store(rows: Table, nextId: nat)

  const EMPTY := Store(map[], 1)

  datatype Op =
    | Create(kind: Kind, isBackfill: bool, status: Status, startedAt: Option<real>)
    | Finish(id: nat, status: Status, error: string, at: real)
    | CancelOne(id: nat, error: string, at: real)
    | CancelAll(error: string, at: real)
    | Resume(id: nat, at: real)

  function Max0(r: real): real {
    if r < 0.0 then 0.0 else r
  }

  /** The session that a row has open ends now. */
  function Closed(row: Row, status: Status, error: string, at: real): Row {
    row.(status := status, error := error, endedAt := Some(at), active := None,
         duration := Max0(row.duration) + if row.active.Some? then Max0(at - row.active.value) else 0.0)
  }

  predicate IsOrphan(row: Row) {
    row.status == Running && row.kind == Audit && !row.isBackfill
  }

  predicate IsResumable(row: Row) {
    && row.kind == Audit && !row.isBackfill
    && (row.status == Cancelled || row.status == Failed || (row.status == Done && row.error != ""))
  }

  function NewRow(kind: Kind, isBackfill: bool, status: Status, startedAt: Option<real>): Row {
    Row(kind, isBackfill, status, "", startedAt, if status == Running then startedAt else None, 0.0, None)
  }

  function Opened(row: Row, at: real): Row {
    row.(status := Running, error := "", endedAt := None, active := Some(at))
  }

  /** What one operation makes of one existing row. */
  function RowAfter(row: Row, id: nat, op: Op): Row {
    match op
    case Create(_, _, _, _) => row
    case Finish(i, status, error, at) => if i == id then Closed(row, status, error, at) else row
    case CancelOne(i, error, at) => if i == id && IsOrphan(row) then Closed(row, Cancelled, error, at) else row
    case CancelAll(error, at) => if IsOrphan(row) then Closed(row, Cancelled, error, at) else row
    case Resume(i, at) => if i == id && IsResumable(row) then Opened(row, at) else row
  }

  function Next(s: Store, op: Op): Store {
    var rows := map id | id in s.rows :: RowAfter(s.rows[id], id, op);
    if op.Create? && op.kind != UnknownKind then
      Store(rows[s.nextId := NewRow(op.kind, op.isBackfill, op.status, op.startedAt)], s.nextId + 1)
    else s.(rows := rows)
  }

  function Run(ops: seq<Op>): Store {
    if ops == [] then EMPTY else Next(Run(ops[..|ops| - 1]), ops[|ops| - 1])
  }

  // ----- what becomes of one run ----------------------------------------------------------------

  predicate HasSameOrigin(before: Row, after: Row) {
    after.kind == before.kind && after.isBackfill == before.isBackfill && after.startedAt == before.startedAt
  }

  /** The run is over, and the time of its open session counts if it is not negative. */
  predicate HasEnded(before: Row, after: Row, status: Status, error: string, at: real) {
    && HasSameOrigin(before, after)
    && after.status == status && after.error == error && after.endedAt == Some(at) && after.active == None
    && (before.active.Some? && at >= before.active.value ==>
          after.duration == before.duration + at - before.active.value)
    && (before.active.None? || at < before.active.value ==> after.duration == before.duration)
  }

  /** The run goes on with a session that starts now; what it has taken so far is kept. */
  predicate HasReopened(before: Row, after: Row, at: real) {
    && HasSameOrigin(before, after)
    && after.status == Running && after.error == "" && after.endedAt == None && after.active == Some(at)
    && after.duration == before.duration
  }

  predicate IsRunningAudit(row: Row) {
    row.status.Running? && row.kind.Audit? && !row.isBackfill
  }

  /** An audit that stopped, or went through with an error. */
  predicate HasUnfinishedAudit(row: Row) {
    && row.kind.Audit? && !row.isBackfill
    && row.status in {Cancelled, Failed, Done} && (row.status.Done? ==> row.error != "")
  }

  predicate KeepOthers(before: Table, after: Table, id: nat) {
    after.Keys == before.Keys && forall i :: i in before && i != id ==> after[i] == before[i]
  }

  // ----- the store ----------------------------------------------------------------------------

  class RunStore {
    var rows: Table
    var nextId: nat

    constructor ()
      ensures State() == EMPTY
    {
      rows, nextId := map[], 1;
    }

    function State(): Store
      reads this
    {
      Store(rows, nextId)
    }

    /** None stands for the ValueError of an unsupported kind. */
    method CreateRun(kind: Kind, isBackfill: bool, status: Status, startedAt: Option<real>) returns (id: Option<nat>)
      modifies this
      ensures State() == Next(old(State()), Create(kind, isBackfill, status, startedAt))
      ensures id == if kind == UnknownKind then None else Some(old(nextId))
      ensures kind.UnknownKind? ==> rows == old(rows)
      ensures id.Some? ==>
                && rows.Keys == old(rows).Keys + {id.value}
                && forall i :: i in rows && i != id.value ==> rows[i] == old(rows)[i]
    {
      Untouched(rows, Create(kind, isBackfill, status, startedAt));
      if kind == UnknownKind {
        return None;
      }
      id := Some(nextId);
      rows := rows[nextId := NewRow(kind, isBackfill, status, startedAt)];
      nextId := nextId + 1;
    }

    method FinishRun(id: nat, status: Status, error: string, at: real)
      modifies this`rows
      ensures State() == Next(old(State()), Finish(id, status, error, at))
      ensures KeepOthers(old(rows), rows, id)
      ensures id in rows && old(rows)[id].duration >= 0.0 ==> HasEnded(old(rows)[id], rows[id], status, error, at)
    {
      ghost var before := rows;
      if id in rows {
        rows := rows[id := Closed(rows[id], status, error, at)];
      }
      OneRow(before, rows, id, Finish(id, status, error, at));
    }

    method CancelRunningRun(id: nat, error: string, at: real) returns (changed: bool)
      modifies this`rows
      ensures State() == Next(old(State()), CancelOne(id, error, at))
      ensures changed <==> id in old(rows) && IsRunningAudit(old(rows)[id])
      ensures KeepOthers(old(rows), rows, id) && (!changed ==> rows == old(rows))
      ensures changed && old(rows)[id].duration >= 0.0 ==>
                HasEnded(old(rows)[id], rows[id], Cancelled, error, at)
    {
      ghost var before := rows;
      changed := id in rows && IsOrphan(rows[id]);
      if changed {
        rows := rows[id := Closed(rows[id], Cancelled, error, at)];
      }
      OneRow(before, rows, id, CancelOne(id, error, at));
    }

    method CancelRunningRuns(error: string, at: real) returns (ids: seq<nat>)
      modifies this`rows
      ensures State() == Next(old(State()), CancelAll(error, at))
      ensures forall id :: id in ids <==> id in old(rows) && id < nextId && IsRunningAudit(old(rows)[id])
      ensures forall i, j :: 0 <= i < j < |ids| ==> ids[i] < ids[j]
      ensures rows.Keys == old(rows).Keys
      ensures forall id :: id in rows && !IsRunningAudit(old(rows)[id]) ==> rows[id] == old(rows)[id]
      ensures forall id :: id in rows && IsRunningAudit(old(rows)[id]) && old(rows)[id].duration >= 0.0 ==>
                             HasEnded(old(rows)[id], rows[id], Cancelled, error, at)
    {
      ids := [];
      for id := 0 to nextId
        invariant forall i :: i in ids <==> i in rows && i < id && IsOrphan(rows[i])
        invariant forall i, j :: 0 <= i < j < |ids| ==> ids[i] < ids[j]
      {
        if id in rows && IsOrphan(rows[id]) {
          assert forall i :: 0 <= i < |ids| ==> ids[i] in ids;
          ids := ids + [id];
        }
      }
      rows := map id | id in rows :: RowAfter(rows[id], id, CancelAll(error, at));
    }

    method ResumeCancelledRun(id: nat, at: real) returns (changed: bool)
      modifies this`rows
      ensures State() == Next(old(State()), Resume(id, at))
      ensures changed <==> id in old(rows) && HasUnfinishedAudit(old(rows)[id])
      ensures KeepOthers(old(rows), rows, id) && (!changed ==> rows == old(rows))
      ensures changed ==> HasReopened(old(rows)[id], rows[id], at)
    {
      ghost var before := rows;
      changed := id in rows && IsResumable(rows[id]);
      if changed {
        rows := rows[id := Opened(rows[id], at)];
      }
      OneRow(before, rows, id, Resume(id, at));
    }
  }

  lemma {:induction false} Untouched(rows: Table, op: Op)
    requires op.Create?
    ensures (map id | id in rows :: RowAfter(rows[id], id, op)) == rows
  {
  }

  lemma {:induction false} OneRow(before: Table, after: Table, id: nat, op: Op)
    requires (op.Finish? || op.CancelOne? || op.Resume?) && op.id == id
    requires after == if id in before then before[id := RowAfter(before[id], id, op)] else before
    ensures after == map i | i in before :: RowAfter(before[i], i, op)
  {
  }

  // ----- sessions -----------------------------------------------------------------------------

  datatype Session = Session(start: real, end: real)

  function TimeOf(op: Op): real {
    match op
    case Create(_, _, _, startedAt) => if startedAt.Some? then startedAt.value else 0.0
    case Finish(_, _, _, at) => at
    case CancelOne(_, _, at) => at
    case CancelAll(_, at) => at
    case Resume(_, at) => at
  }

  /** The sessions of a run that have ended: it had one open before an operation, and none after. */
  function Sessions(ops: seq<Op>, id: nat): seq<Session> {
    if ops == [] then [] else
      var most := ops[..|ops| - 1];
      var before, after := Run(most).rows, Run(ops).rows;
      if id in before && before[id].active.Some? && id in after && after[id].active.None? then
        Sessions(most, id) + [Session(before[id].active.value, TimeOf(ops[|ops| - 1]))]
      else Sessions(most, id)
  }

  function Total(sessions: seq<Session>): (t: real)
    ensures t >= 0.0
  {
    if sessions == [] then 0.0 else
      var last := sessions[|sessions| - 1];
      Total(sessions[..|sessions| - 1]) + Max0(last.end - last.start)
  }

  predicate IsSoundRow(s: Store, id: nat) {
    && (id in s.rows ==> id < s.nextId && s.rows[id].duration >= 0.0
                         && (s.rows[id].active.Some? ==> s.rows[id].status == Running)
                         && s.rows[id].kind != UnknownKind)
  }

  ghost predicate IsSound(s: Store) {
    forall id :: IsSoundRow(s, id)
  }

  lemma {:induction false} NextIsSound(s: Store, op: Op)
    requires IsSound(s)
    ensures IsSound(Next(s, op))
  {
    var s' := Next(s, op);
    forall id: nat
      ensures IsSoundRow(s', id)
    {
      assert IsSoundRow(s, id);
    }
  }

  /** Only running runs have an open session, whatever happens in whatever order. */
  lemma {:induction false} RunsAreSound(ops: seq<Op>)
    ensures IsSound(Run(ops))
    decreases |ops|
  {
    if ops != [] {
      RunsAreSound(ops[..|ops| - 1]);
      NextIsSound(Run(ops[..|ops| - 1]), ops[|ops| - 1]);
    }
  }

  /** Rows are never lost, and only the next free id is ever filled. */
  lemma {:induction false} RowsStay(s: Store, op: Op, id: nat)
    requires IsSound(s)
    ensures id in s.rows ==> id in Next(s, op).rows && Next(s, op).rows[id] == RowAfter(s.rows[id], id, op)
    ensures id !in s.rows && id in Next(s, op).rows ==>
              op.Create? && Next(s, op).rows[id] == NewRow(op.kind, op.isBackfill, op.status, op.startedAt)
  {
    assert IsSoundRow(s, id);
  }

  /** How one operation changes the account of a run: only by closing its open session. */
  lemma {:induction false} RowAccount(row: Row, id: nat, op: Op)
    requires row.duration >= 0.0 && (row.active.Some? ==> row.status == Running)
    ensures var after := RowAfter(row, id, op);
            after.duration == row.duration +
                              if row.active.Some? && after.active.None?
                              then Max0(TimeOf(op) - row.active.value) else 0.0
    ensures row.active.Some? && RowAfter(row, id, op).active.Some? ==> RowAfter(row, id, op).active == row.active
  {
  }

  lemma {:induction false} OneMoreSession(sessions: seq<Session>, last: Session)
    ensures Total(sessions + [last]) == Total(sessions) + Max0(last.end - last.start)
  {
    assert (sessions + [last])[..|sessions|] == sessions;
  }

  /** The duration of a run is the time of its closed sessions; the gaps between them do not count. */
  lemma {:induction false} DurationIsSessions(ops: seq<Op>, id: nat)
    ensures id in Run(ops).rows ==> Run(ops).rows[id].duration == Total(Sessions(ops, id))
    ensures id !in Run(ops).rows ==> Sessions(ops, id) == []
    decreases |ops|
  {
    if ops != [] {
      var most, op := ops[..|ops| - 1], ops[|ops| - 1];
      var before := Run(most);
      DurationIsSessions(most, id);
      RunsAreSound(most);
      RowsStay(before, op, id);
      if id in before.rows {
        assert IsSoundRow(before, id);
        RowAccount(before.rows[id], id, op);
        if before.rows[id].active.Some? {
          OneMoreSession(Sessions(most, id), Session(before.rows[id].active.value, TimeOf(op)));
        }
      }
    }
  }

  /** A session is never opened over an open one: what is open stays open until it is closed. */
  lemma {:induction false} OpenSessionsStay(ops: seq<Op>, op: Op, id: nat)
    requires id in Run(ops).rows && Run(ops).rows[id].active.Some?
    ensures id in Next(Run(ops), op).rows
    ensures var after := Next(Run(ops), op).rows[id]; after.active.Some? ==> after.active == Run(ops).rows[id].active
  {
    RunsAreSound(ops);
    RowsStay(Run(ops), op, id);
    assert IsSoundRow(Run(ops), id);
    RowAccount(Run(ops).rows[id], id, op);
  }

  lemma {:induction false} RunMore(ops: seq<Op>, op: Op)
    ensures Run(ops + [op]) == Next(Run(ops), op)
  {
    assert (ops + [op])[..|ops|] == ops;
  }

  /** Finishing a finished run changes no accounting. */
  lemma {:induction false} FinishingAgain(ops: seq<Op>, id: nat, first: Op, again: Op)
    requires id in Run(ops).rows && first.Finish? && again.Finish? && first.id == again.id == id
    ensures id in Run(ops + [first]).rows && id in Run(ops + [first] + [again]).rows
    ensures Run(ops + [first] + [again]).rows[id].duration == Run(ops + [first]).rows[id].duration
  {
    RunMore(ops, first);
    RunMore(ops + [first], again);
    RunsAreSound(ops);
    RunsAreSound(ops + [first]);
    RowsStay(Run(ops), first, id);
    RowsStay(Run(ops + [first]), again, id);
    assert IsSoundRow(Run(ops + [first]), id);
  }

  /** A new run is open from its start exactly when it is created as running. */
  lemma {:induction false} CreatedRun(ops: seq<Op>, op: Op)
    requires op.Create? && !op.kind.UnknownKind?
    ensures var id, rows := Run(ops).nextId, Run(ops + [op]).rows;
            && id !in Run(ops).rows && id in rows && Run(ops + [op]).nextId == id + 1
            && rows[id].kind == op.kind && rows[id].isBackfill == op.isBackfill && rows[id].status == op.status
            && rows[id].error == "" && rows[id].startedAt == op.startedAt && rows[id].endedAt == None
            && rows[id].duration == 0.0
            && (op.status.Running? ==> rows[id].active == op.startedAt)
            && (!op.status.Running? ==> rows[id].active == None)
  {
    RunMore(ops, op);
    RunsAreSound(ops);
    assert IsSoundRow(Run(ops), Run(ops).nextId);
  }

  predicate Cancels(op: Op, id: nat) {
    op.CancelAll? || (op.CancelOne? && op.id == id)
  }

  /**
    * A running audit that is cancelled and then resumed is over in between and runs again with a session
    * from the second moment. The time before the cancellation counts, and the gap does not.
    */
  lemma {:induction false} CancelledThenResumed(ops: seq<Op>, id: nat, cancel: Op, resume: Op)
    requires id in Run(ops).rows && IsRunningAudit(Run(ops).rows[id])
    requires Cancels(cancel, id) && resume.Resume? && resume.id == id
    ensures var rows, ended, again := Run(ops).rows, Run(ops + [cancel]).rows, Run(ops + [cancel] + [resume]).rows;
            && id in ended && HasEnded(rows[id], ended[id], Cancelled, cancel.error, cancel.at)
            && id in again && HasReopened(ended[id], again[id], resume.at)
            && KeepOthers(ended, again, id)
  {
    RunsAreSound(ops);
    assert IsSoundRow(Run(ops), id);
    RunMore(ops, cancel);
    RunMore(ops + [cancel], resume);
  }

  /** Resuming does nothing to a run that is not an unfinished audit. */
  lemma {:induction false} OnlyUnfinishedResume(ops: seq<Op>, id: nat, resume: Op)
    requires id in Run(ops).rows && resume.Resume? && resume.id == id
    ensures Run(ops + [resume]) == Run(ops) <==> !HasUnfinishedAudit(Run(ops).rows[id])
  {
    RunMore(ops, resume);
    var row := Run(ops).rows[id];
    if !IsResumable(row) {
      assert Run(ops + [resume]).rows == Run(ops).rows;
    } else {
      assert Run(ops + [resume]).rows[id] == Opened(row, resume.at);
    }
  }

  // ----- what never changes -------------------------------------------------------------------

  /** A run keeps its beginning and its kind for good. */
  lemma {:induction false} OriginsStay(ops: seq<Op>, more: seq<Op>, id: nat)
    requires id in Run(ops).rows
    ensures id in Run(ops + more).rows
    ensures var row, later := Run(ops).rows[id], Run(ops + more).rows[id];
            later.startedAt == row.startedAt && later.kind == row.kind && later.isBackfill == row.isBackfill
    decreases |more|
  {
    if more == [] {
      assert ops + more == ops;
    } else {
      var most, op := more[..|more| - 1], more[|more| - 1];
      OriginsStay(ops, most, id);
      assert ops + more == ops + most + [op];
      RunMore(ops + most, op);
      RunsAreSound(ops + most);
      RowsStay(Run(ops + most), op, id);
    }
  }

  function OpenOnes(row: Row): nat {
    if row.active.Some? then 1 else 0
  }

  /** Maintenance and backfill runs never resume: they have one session at most. */
  lemma {:induction false} MaintenanceRunsOnce(ops: seq<Op>, id: nat)
    requires id in Run(ops).rows && (Run(ops).rows[id].kind != Audit || Run(ops).rows[id].isBackfill)
    ensures |Sessions(ops, id)| + OpenOnes(Run(ops).rows[id]) <= 1
    decreases |ops|
  {
    var most, op := ops[..|ops| - 1], ops[|ops| - 1];
    RunsAreSound(most);
    RowsStay(Run(most), op, id);
    if id in Run(most).rows {
      MaintenanceRunsOnce(most, id);
    } else {
      DurationIsSessions(most, id);
    }
  }

  /** Imported and superseded runs, and clean successes, stay closed until someone finishes them again. */
  lemma {:induction false} SettledRunsStay(ops: seq<Op>, more: seq<Op>, id: nat)
    requires id in Run(ops).rows
    requires var row := Run(ops).rows[id];
             row.status == Imported || row.status == Superseded || (row.status == Done && row.error == "")
    requires forall i :: 0 <= i < |more| ==> (more[i].Finish? ==> more[i].id != id)
    ensures id in Run(ops + more).rows && Run(ops + more).rows[id] == Run(ops).rows[id]
    decreases |more|
  {
    if more == [] {
      assert ops + more == ops;
    } else {
      var most, op := more[..|more| - 1], more[|more| - 1];
      SettledRunsStay(ops, most, id);
      assert ops + more == ops + most + [op];
      RunMore(ops + most, op);
      RunsAreSound(ops + most);
      RowsStay(Run(ops + most), op, id);
    }
  }
}
