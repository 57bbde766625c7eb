/** The messages table of pkg/queue/dao/messgae.go: each statement as one guarded update of
    the rows. */
module MessageTable {
  import opened Collections

  datatype Status = Pending | Processing | Completed | Failed

  datatype Attr = Attr(kind: string, error: string, host: string, image: string, progress: int, size: int, deep: bool)

  /** `deleted` is the delete_at column, `beat` last_heartbeat. */
  datatype Row = Row(
    content: string, lease: string, priority: int, status: Status, data: Attr, beat: nat, deleted: Option<nat>)

  type Rows = map<nat, Row>

  predicate Final(status: Status) { status.Completed? || status.Failed? }

  predicate Live(rows: Rows, id: nat) { id in rows && rows[id].deleted.None? }

  /** The WHERE clause of the heartbeat, complete, failed and cancel statements. */
  predicate HeldBy(rows: Rows, id: nat, lease: string) {
    Live(rows, id) && rows[id].lease == lease && rows[id].status.Processing?
  }

  ghost predicate Listed(rows: Rows, content: string) {
    exists id :: Live(rows, id) && rows[id].content == content
  }

  /** At most one live message per content. */
  ghost predicate UniqueContent(rows: Rows) {
    forall i, j | Live(rows, i) && Live(rows, j) && rows[i].content == rows[j].content :: i == j
  }

  predicate Free(rows: Rows, id: nat) { Live(rows, id) && rows[id].status.Pending? && rows[id].lease == "" }

  function Consume(rows: Rows, id: nat, lease: string): Rows {
    if Free(rows, id) then rows[id := rows[id].(status := Processing, lease := lease)] else rows
  }

  function Heartbeat(rows: Rows, id: nat, data: Attr, lease: string, now: nat): Rows {
    if HeldBy(rows, id, lease) then rows[id := rows[id].(beat := now, data := data)] else rows
  }

  function Complete(rows: Rows, id: nat, lease: string): Rows {
    if HeldBy(rows, id, lease) then rows[id := rows[id].(status := Completed, lease := "")] else rows
  }

  function Fail(rows: Rows, id: nat, lease: string, data: Attr): Rows {
    if HeldBy(rows, id, lease) then rows[id := rows[id].(status := Failed, lease := "", data := data)] else rows
  }

  function Cancel(rows: Rows, id: nat, lease: string): Rows {
    if HeldBy(rows, id, lease) then rows[id := rows[id].(status := Pending, lease := "")] else rows
  }

  /** Guarded by the status alone: not by the lease, nor by the age of the last heartbeat. */
  function ResetToPending(rows: Rows, id: nat): Rows {
    if Live(rows, id) && rows[id].status.Processing? then rows[id := rows[id].(status := Pending, lease := "")]
    else rows
  }

  /** Not guarded by the status. */
  function UpdatePriority(rows: Rows, id: nat, priority: int): Rows {
    if Live(rows, id) && rows[id].priority < priority then rows[id := rows[id].(priority := priority)] else rows
  }

  /** Not guarded by the status. */
  function Delete(rows: Rows, id: nat, now: nat): Rows {
    if Live(rows, id) then rows[id := rows[id].(deleted := Some(now))] else rows
  }

  /** Removes the rows deleted before `horizon`, eight hours ago in the program. */
  function CleanUp(rows: Rows, horizon: nat): Rows {
    map id | id in rows && !(rows[id].deleted.Some? && rows[id].deleted.value < horizon) :: rows[id]
  }

  function Insert(rows: Rows, id: nat, content: string, priority: int, data: Attr, now: nat): Rows {
    rows[id := Row(content, "", priority, Pending, data, now, None)]
  }

  /** What the driver reports: the number of rows an update changed, not the number it matched. */
  function Changed(before: Rows, after: Rows): nat { if before == after then 0 else 1 }
}
