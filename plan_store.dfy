/** The plan store (cli/src/state/plan-store.ts): the plan items shown while
    a reply streams, replaced wholesale or cleared. */
module PlanStore {
  import opened Common

  datatype PlanItemStatus = Pending | InProgress | Completed

  datatype PlanItem = PlanItem(id: string, content: string, status: PlanItemStatus)

  /** The status as it is written in JSON. */
  function StatusName(s: PlanItemStatus): (r: string)
  {
    match s
    case Pending => "pending"
    case InProgress => "in_progress"
    case Completed => "completed"
  }

  /** The enum check `z.enum(['pending', 'in_progress', 'completed'])`,
      which is also what `.includes(item.status)` accepts. */
  function ParseStatus(s: string): (r: Option<PlanItemStatus>)
    ensures r.Some? ==> StatusName(r.value) == s
    ensures (s == "pending" || s == "in_progress" || s == "completed") <==> r.Some?
  {
    if s == "pending" then Some(Pending)
    else if s == "in_progress" then Some(InProgress)
    else if s == "completed" then Some(Completed)
    else None
  }

  /** Every status survives being written out and read back. */
  lemma ParseStatusName(s: PlanItemStatus)
    ensures ParseStatus(StatusName(s)) == Some(s)
  {
  }

  /** `items.filter(i => i.status === 'completed').length` */
  function CountCompleted(items: seq<PlanItem>): (r: nat)
    ensures r <= |items|
  {
    if items == [] then 0
    else (if items[0].status == Completed then 1 else 0) + CountCompleted(items[1..])
  }

  /** Some item is not completed yet. */
  predicate HasUnfinished(items: seq<PlanItem>)
  {
    exists i :: 0 <= i < |items| && items[i].status != Completed
  }

  /** The count of completed items reaches the length exactly when no item is
      unfinished. */
  lemma {:induction false} AllCompletedIff(items: seq<PlanItem>)
    ensures CountCompleted(items) == |items| <==> !HasUnfinished(items)
  {
    if items != [] {
      AllCompletedIff(items[1..]);
      if HasUnfinished(items[1..]) {
        var i :| 0 <= i < |items[1..]| && items[1..][i].status != Completed;
        assert items[i + 1].status != Completed;
      }
      if items[0].status == Completed && !HasUnfinished(items[1..]) {
        forall i | 0 <= i < |items| ensures items[i].status == Completed {
          if i > 0 {
            assert items[i] == items[1..][i - 1];
          }
        }
      }
    }
  }

  class PlanStore {
    var items: seq<PlanItem>

    /** The initial state: no plan. */
    constructor ()
      ensures items == []
    {
      items := [];
    }

    /** `setItems`: the plan becomes exactly the given list. */
    method SetItems(newItems: seq<PlanItem>)
      modifies this
      ensures items == newItems
    {
      items := newItems;
    }

    /** `clear`: the plan is empty afterwards, whatever it held (so clearing
        twice, or after `setItems`, leaves it empty too). */
    method Clear()
      modifies this
      ensures items == []
    {
      items := [];
    }
  }
}
