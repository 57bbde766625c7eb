/** The message table as an object and the handlers and scheduler that update it in place.
    LeaseProtocol interleaves the same statements; here each handler runs alone. */
module MessageStore {
  import opened Collections
  import opened Table = MessageTable
  import LeaseProtocol

  /** No row appears or disappears, and all but one stay as they are. */
  ghost predicate OnlyTouched(before: Rows, after: Rows, id: nat) {
    before.Keys == after.Keys && forall other | other in before && other != id :: after[other] == before[other]
  }

  class Messages {
    var rows: Rows
    var next: nat

    /** Every id handed out so far lies below the next one. */
    ghost predicate Numbered()
      reads this
    {
      forall id | id in rows :: id < next
    }

    constructor ()
      ensures rows == map[] && next == 10000
      ensures Numbered() && UniqueContent(rows)
    {
      rows, next := map[], 10000;
    }

    method Create(content: string, priority: int, data: Attr, now: nat) returns (id: nat)
      modifies this
      ensures id == old(next) && next == old(next) + 1
      ensures rows == Table.Insert(old(rows), id, content, priority, data, now)
      ensures old(Numbered()) ==> Numbered() && id !in old(rows) && rows - {id} == old(rows)
      ensures Free(rows, id) && rows[id].content == content && rows[id].data == data
      ensures rows[id].priority == priority && rows[id].status == Pending
      ensures rows[id].lease == "" && rows[id].beat == now
    {
      id := next;
      next := next + 1;
      rows := rows[id := Row(content, "", priority, Pending, data, now, None)];
    }

    method GetByID(id: nat) returns (row: Option<Row>)
      ensures row.Some? <==> Live(rows, id)
      ensures row.Some? ==> row.value == rows[id]
    {
      if id in rows && rows[id].deleted == None { return Some(rows[id]); }
      return None;
    }

    method Consume(id: nat, lease: string) returns (affected: nat)
      modifies this`rows
      ensures rows == Table.Consume(old(rows), id, lease) && affected == Changed(old(rows), rows)
      ensures affected == 1 <==> Free(old(rows), id)
      ensures affected == 1 <==>
        && id in old(rows) && old(rows)[id].deleted == None
        && old(rows)[id].status == Pending && old(rows)[id].lease == ""
      ensures affected == 1 ==> rows == old(rows)[id := old(rows)[id].(status := Processing, lease := lease)]
      ensures affected != 1 ==> rows == old(rows)
    {
      affected := 0;
      if Live(rows, id) && rows[id].status == Pending && rows[id].lease == "" {
        rows := rows[id := rows[id].(status := Processing, lease := lease)];
        affected := 1;
        assert rows[id].status != old(rows)[id].status;
      }
    }

    method Heartbeat(id: nat, data: Attr, lease: string, now: nat) returns (affected: nat)
      modifies this`rows
      ensures rows == Table.Heartbeat(old(rows), id, data, lease, now) && affected == Changed(old(rows), rows)
      ensures affected == 1 ==> HeldBy(old(rows), id, lease)
      ensures affected == 1 <==>
        && id in old(rows) && old(rows)[id].deleted == None
        && old(rows)[id].status == Processing && old(rows)[id].lease == lease
        && (old(rows)[id].beat != now || old(rows)[id].data != data)
      ensures affected == 1 ==> rows == old(rows)[id := old(rows)[id].(beat := now, data := data)]
      ensures affected != 1 ==> rows == old(rows)
    {
      affected := 0;
      if Live(rows, id) && rows[id].lease == lease && rows[id].status == Processing {
        var row := rows[id].(beat := now, data := data);
        if row != rows[id] { affected := 1; }
        rows := rows[id := row];
        assert rows[id] == row;
      }
    }

    method Complete(id: nat, lease: string) returns (affected: nat)
      modifies this`rows
      ensures rows == Table.Complete(old(rows), id, lease) && affected == Changed(old(rows), rows)
      ensures affected == 1 <==> HeldBy(old(rows), id, lease)
      ensures affected == 1 <==>
        && id in old(rows) && old(rows)[id].deleted == None
        && old(rows)[id].status == Processing && old(rows)[id].lease == lease
      ensures affected == 1 ==> rows == old(rows)[id := old(rows)[id].(status := Completed, lease := "")]
      ensures affected != 1 ==> rows == old(rows)
    {
      affected := 0;
      if Live(rows, id) && rows[id].lease == lease && rows[id].status == Processing {
        rows := rows[id := rows[id].(status := Completed, lease := "")];
        affected := 1;
        assert rows[id].status != old(rows)[id].status;
      }
    }

    method Failed(id: nat, lease: string, data: Attr) returns (affected: nat)
      modifies this`rows
      ensures rows == Table.Fail(old(rows), id, lease, data) && affected == Changed(old(rows), rows)
      ensures affected == 1 <==> HeldBy(old(rows), id, lease)
      ensures affected == 1 <==>
        && id in old(rows) && old(rows)[id].deleted == None
        && old(rows)[id].status == Processing && old(rows)[id].lease == lease
      ensures affected == 1 ==>
        rows == old(rows)[id := old(rows)[id].(status := Status.Failed, lease := "", data := data)]
      ensures affected != 1 ==> rows == old(rows)
    {
      affected := 0;
      if Live(rows, id) && rows[id].lease == lease && rows[id].status == Processing {
        rows := rows[id := rows[id].(status := Status.Failed, lease := "", data := data)];
        affected := 1;
        assert rows[id].status != old(rows)[id].status;
      }
    }

    method Cancel(id: nat, lease: string) returns (affected: nat)
      modifies this`rows
      ensures rows == Table.Cancel(old(rows), id, lease) && affected == Changed(old(rows), rows)
      ensures affected == 1 <==> HeldBy(old(rows), id, lease)
      ensures affected == 1 <==>
        && id in old(rows) && old(rows)[id].deleted == None
        && old(rows)[id].status == Processing && old(rows)[id].lease == lease
      ensures affected == 1 ==> rows == old(rows)[id := old(rows)[id].(status := Pending, lease := "")]
      ensures affected != 1 ==> rows == old(rows)
    {
      affected := 0;
      if Live(rows, id) && rows[id].lease == lease && rows[id].status == Processing {
        rows := rows[id := rows[id].(status := Pending, lease := "")];
        affected := 1;
        assert rows[id].status != old(rows)[id].status;
      }
    }

    method ResetToPending(id: nat) returns (affected: nat)
      modifies this`rows
      ensures rows == Table.ResetToPending(old(rows), id) && affected == Changed(old(rows), rows)
      ensures affected == 1 <==> Live(old(rows), id) && old(rows)[id].status.Processing?
      ensures affected == 1 ==> Free(rows, id) && !HeldBy(rows, id, old(rows)[id].lease)
      ensures affected == 1 ==> rows[id] == old(rows)[id].(status := Pending, lease := "")
      ensures affected != 1 ==> rows == old(rows)
      ensures OnlyTouched(old(rows), rows, id)
    {
      affected := 0;
      if Live(rows, id) && rows[id].status == Processing {
        rows := rows[id := rows[id].(status := Pending, lease := "")];
        affected := 1;
        assert rows[id].status != old(rows)[id].status;
      }
    }

    method UpdatePriority(id: nat, priority: int)
      modifies this`rows
      ensures rows == Table.UpdatePriority(old(rows), id, priority)
      ensures OnlyTouched(old(rows), rows, id)
      ensures id in rows ==> rows[id] == old(rows)[id].(priority := rows[id].priority)
      ensures id in rows ==> rows[id].priority >= old(rows)[id].priority
      ensures Live(rows, id) ==>
        rows[id].priority >= priority && (rows[id].priority == old(rows)[id].priority || rows[id].priority == priority)
    {
      if Live(rows, id) && rows[id].priority < priority {
        rows := rows[id := rows[id].(priority := priority)];
      }
    }

    method Delete(id: nat, now: nat)
      modifies this`rows
      ensures rows == Table.Delete(old(rows), id, now)
      ensures OnlyTouched(old(rows), rows, id) && !Live(rows, id)
      ensures id in rows ==> rows[id] == old(rows)[id].(deleted := rows[id].deleted)
      ensures !Live(old(rows), id) ==> rows == old(rows)
      ensures Live(old(rows), id) ==> rows[id].deleted == Some(now)
    {
      if Live(rows, id) {
        rows := rows[id := rows[id].(deleted := Some(now))];
      }
    }

    method CleanUp(horizon: nat)
      modifies this`rows
      ensures rows == Table.CleanUp(old(rows), horizon)
      ensures forall id :: Live(rows, id) <==> Live(old(rows), id)
      ensures forall id | id in rows :: id in old(rows) && rows[id] == old(rows)[id]
      ensures forall id | id in old(rows) && id !in rows ::
        old(rows)[id].deleted.Some? && old(rows)[id].deleted.value < horizon
      ensures forall id | id in rows && rows[id].deleted.Some? :: rows[id].deleted.value >= horizon
    {
      rows := map id | id in rows && !(rows[id].deleted.Some? && rows[id].deleted.value < horizon) :: rows[id];
    }
  }

  /** A row after the scheduler went over it, `listed` telling whether its query returned it. */
  function AfterReset(r: Row, listed: bool): Row {
    if listed && r.deleted.None? && r.status.Processing? then r.(status := Pending, lease := "") else r
  }

  function AfterDelete(r: Row, listed: bool, now: nat): Row {
    if listed && r.deleted.None? then r.(deleted := Some(now)) else r
  }

  datatype Reply = Ok(row: Row) | NoContent | BadRequest | NotFound | NotAcceptable

  class MessageController {
    const store: Messages

    constructor (store: Messages)
      ensures this.store == store
    {
      this.store := store;
    }

    method Consume(id: nat, lease: string) returns (reply: Reply)
      modifies store`rows
      ensures lease == "" ==> reply == BadRequest && store.rows == old(store.rows)
      ensures lease != "" ==> store.rows == Table.Consume(old(store.rows), id, lease)
      ensures reply.Ok? <==> lease != "" && Free(old(store.rows), id)
      ensures reply.Ok? ==> reply.row == store.rows[id] && HeldBy(store.rows, id, lease)
      ensures reply.Ok? ==> reply.row == old(store.rows)[id].(status := Processing, lease := lease)
      ensures !reply.Ok? ==> reply == (if lease == "" then BadRequest else NotAcceptable)
      ensures !reply.Ok? ==> store.rows == old(store.rows)
    {
      if lease == "" { return BadRequest; }
      var affected := store.Consume(id, lease);
      if affected == 0 { return NotAcceptable; }
      var curr := store.GetByID(id);
      if curr.None? { return NotFound; }
      reply := Ok(curr.value);
    }

    /** Reads the attributes, changes progress and size, and writes all of them back. */
    method Heartbeat(id: nat, lease: string, progress: int, size: int, now: nat) returns (reply: Reply)
      modifies store`rows
      ensures lease == "" || !Live(old(store.rows), id) ==> store.rows == old(store.rows)
      ensures lease != "" && Live(old(store.rows), id) ==>
        var data := LeaseProtocol.Merge(old(store.rows)[id].data, progress, size);
        store.rows == Table.Heartbeat(old(store.rows), id, data, lease, now)
      ensures lease != "" && HeldBy(old(store.rows), id, lease) ==>
        var before, after := old(store.rows)[id], store.rows[id];
        && after == before.(beat := now, data := after.data)
        && after.data == before.data.(progress := after.data.progress, size := after.data.size)
        && after.data.progress == (if progress != 0 then progress else before.data.progress)
        && after.data.size == (if size > 0 then size else before.data.size)
        && OnlyTouched(old(store.rows), store.rows, id)
      ensures lease == "" || !HeldBy(old(store.rows), id, lease) ==> store.rows == old(store.rows)
      ensures reply.NoContent? ==> HeldBy(old(store.rows), id, lease)
      ensures reply ==
        if lease == "" then BadRequest
        else if !Live(old(store.rows), id) then NotFound
        else if store.rows == old(store.rows) then NotAcceptable
        else NoContent
    {
      if lease == "" { return BadRequest; }
      var curr := store.GetByID(id);
      if curr.None? { return NotFound; }
      var data := curr.value.data;
      if progress != 0 { data := data.(progress := progress); }
      if size > 0 { data := data.(size := size); }
      var affected := store.Heartbeat(id, data, lease, now);
      reply := if affected == 0 then NotAcceptable else NoContent;
    }

    method Complete(id: nat, lease: string) returns (reply: Reply)
      modifies store`rows
      ensures store.rows == if lease == "" then old(store.rows) else Table.Complete(old(store.rows), id, lease)
      ensures reply.NoContent? <==> lease != "" && HeldBy(old(store.rows), id, lease)
      ensures reply.NoContent? ==> Live(store.rows, id) && store.rows[id].status.Completed?
      ensures !reply.NoContent? ==> reply == (if lease == "" then BadRequest else NotAcceptable)
    {
      if lease == "" { return BadRequest; }
      var affected := store.Complete(id, lease);
      if affected == 0 { return NotAcceptable; }
      var curr := store.GetByID(id);
      reply := if curr.None? then NotFound else NoContent;
    }

    /** A cancelled message is free for the next consumer. */
    method Cancel(id: nat, lease: string) returns (reply: Reply)
      modifies store`rows
      ensures store.rows == if lease == "" then old(store.rows) else Table.Cancel(old(store.rows), id, lease)
      ensures reply.NoContent? <==> lease != "" && HeldBy(old(store.rows), id, lease)
      ensures reply.NoContent? ==> Free(store.rows, id)
      ensures !reply.NoContent? ==> reply == (if lease == "" then BadRequest else NotAcceptable)
    {
      if lease == "" { return BadRequest; }
      var affected := store.Cancel(id, lease);
      if affected == 0 { return NotAcceptable; }
      var curr := store.GetByID(id);
      reply := if curr.None? then NotFound else NoContent;
    }

    method Failed(id: nat, lease: string, error: string) returns (reply: Reply)
      modifies store`rows
      ensures lease == "" || !Live(old(store.rows), id) ==> store.rows == old(store.rows)
      ensures lease != "" && Live(old(store.rows), id) ==>
        store.rows == Table.Fail(old(store.rows), id, lease, old(store.rows)[id].data.(error := error))
      ensures reply.NoContent? <==> lease != "" && HeldBy(old(store.rows), id, lease)
      ensures reply.NoContent? ==>
        var before := old(store.rows)[id];
        && OnlyTouched(old(store.rows), store.rows, id)
        && store.rows[id] == before.(status := Status.Failed, lease := "", data := before.data.(error := error))
      ensures !reply.NoContent? ==> store.rows == old(store.rows)
      ensures !reply.NoContent? ==>
        reply == if lease == "" then BadRequest else if !Live(old(store.rows), id) then NotFound else NotAcceptable
    {
      if lease == "" { return BadRequest; }
      var curr := store.GetByID(id);
      if curr.None? { return NotFound; }
      var affected := store.Failed(id, lease, curr.value.data.(error := error));
      if affected == 0 { return NotAcceptable; }
      curr := store.GetByID(id);
      reply := if curr.None? then NotFound else NoContent;
    }

    /** Either an existing live message of the same content, its priority perhaps raised while
        it is pending, or a new pending one. `found` is what the content query returned. Alone
        it keeps one live message per content. */
    method Create(content: string, priority: int, data: Attr, now: nat, found: Option<nat>) returns (id: nat)
      requires found.Some? ==> Live(store.rows, found.value) && store.rows[found.value].content == content
      requires found.None? ==> !Listed(store.rows, content)
      modifies store
      ensures UniqueContent(old(store.rows)) ==> UniqueContent(store.rows)
      ensures found.Some? ==> id == found.value && store.next == old(store.next)
      ensures found.Some? && old(store.rows)[found.value].status.Pending? ==>
        store.rows == Table.UpdatePriority(old(store.rows), id, priority)
      ensures found.Some? && !old(store.rows)[found.value].status.Pending? ==> store.rows == old(store.rows)
      ensures found.None? ==> id == old(store.next) && store.next == id + 1
      ensures found.None? ==> id in store.rows && store.rows[id] == Row(content, "", priority, Pending, data, now, None)
      ensures found.Some? ==>
        && OnlyTouched(old(store.rows), store.rows, id)
        && store.rows[id] == old(store.rows)[id].(priority := store.rows[id].priority)
        && store.rows[id].priority ==
             if old(store.rows)[id].status.Pending? && priority > old(store.rows)[id].priority then priority
             else old(store.rows)[id].priority
      ensures found.None? ==> store.rows == Table.Insert(old(store.rows), id, content, priority, data, now)
    {
      if found.Some? {
        id := found.value;
        if store.rows[id].status == Pending && priority > store.rows[id].priority {
          store.UpdatePriority(id, priority);
        }
        return;
      }
      id := store.Create(content, priority, data, now);
    }

    /** One tick of Schedule: put every stale message back, delete every old finished one, and
        remove for good what was deleted before `horizon`. */
    method Schedule(stale: seq<nat>, finished: seq<nat>, now: nat, horizon: nat)
      modifies store`rows
      ensures store.rows.Keys <= old(store.rows).Keys
      ensures forall id | id in old(store.rows) ::
        var r := AfterDelete(AfterReset(old(store.rows)[id], id in stale), id in finished, now);
        if r.deleted.Some? && r.deleted.value < horizon then id !in store.rows
        else id in store.rows && store.rows[id] == r
    {
      for i := 0 to |stale|
        invariant store.rows.Keys == old(store.rows).Keys
        invariant forall id | id in store.rows :: store.rows[id] == AfterReset(old(store.rows)[id], id in stale[..i])
      {
        var _ := store.ResetToPending(stale[i]);
        assert stale[..i + 1] == stale[..i] + [stale[i]];
      }
      assert stale[..|stale|] == stale;
      ghost var reset := store.rows;
      for i := 0 to |finished|
        invariant store.rows.Keys == reset.Keys
        invariant forall id | id in store.rows :: store.rows[id] == AfterDelete(reset[id], id in finished[..i], now)
      {
        store.Delete(finished[i], now);
        assert finished[..i + 1] == finished[..i] + [finished[i]];
      }
      assert finished[..|finished|] == finished;
      store.CleanUp(horizon);
    }
  }
}
