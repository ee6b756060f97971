/**
 * The checklist store (src/hooks/useChecklists.ts): the collection of
 * checklists and the five operations that replace it. The per-record work
 * is given as functions; `ChecklistStore` holds the collection and its
 * methods replace it by those functions' results.
 */
module Store {
  import opened Wrappers
  import opened Types
  import Seqs

  /** The identity recorded as `completedBy`; the source writes a fixed placeholder. */
  const CurrentUser := "Aktueller Benutzer"

  /** `items.filter(item => item.completed).length` */
  function CountCompleted(items: seq<ChecklistItem>): (n: nat)
    ensures n <= |items|
    ensures n == |items| <==> forall i :: 0 <= i < |items| ==> items[i].completed
    ensures n == 0 <==> forall i :: 0 <= i < |items| ==> !items[i].completed
  {
    if items == [] then 0
    else (if items[0].completed then 1 else 0) + CountCompleted(items[1..])
  }

  /**
   * The status derived from item completion (the same rule at both places in
   * the source). With no items the completed count equals the item count, so
   * an empty checklist derives `Completed`.
   */
  function DeriveStatus(items: seq<ChecklistItem>): (s: Status)
    ensures s != Archived
    ensures s == Completed <==> forall i :: 0 <= i < |items| ==> items[i].completed
    ensures s == InProgress <==>
      (exists i :: 0 <= i < |items| && items[i].completed) &&
      (exists i :: 0 <= i < |items| && !items[i].completed)
    ensures s == Open <==> |items| > 0 && forall i :: 0 <= i < |items| ==> !items[i].completed
  {
    var done := CountCompleted(items);
    if done == |items| then Completed
    else if done > 0 then InProgress
    else Open
  }

  /** A checklist with no items derives `Completed`, never `Open`. */
  lemma EmptyChecklistDerivesCompleted()
    ensures DeriveStatus([]) == Completed
  {
  }

  /** The derived status depends only on the items' completion flags. */
  lemma DeriveStatusOnlyFlags(a: seq<ChecklistItem>, b: seq<ChecklistItem>)
    requires |a| == |b|
    requires forall i :: 0 <= i < |a| ==> a[i].completed == b[i].completed
    ensures DeriveStatus(a) == DeriveStatus(b)
  {
    if DeriveStatus(a) == InProgress {
      var i :| 0 <= i < |a| && a[i].completed;
      var j :| 0 <= j < |a| && !a[j].completed;
      assert b[i].completed && !b[j].completed;
    }
    if DeriveStatus(b) == InProgress {
      var i :| 0 <= i < |b| && b[i].completed;
      var j :| 0 <= j < |b| && !b[j].completed;
      assert a[i].completed && !a[j].completed;
    }
  }

  /** `completedAt` and `completedBy` are present exactly when the item is completed. */
  predicate AttributionConsistent(item: ChecklistItem) {
    item.completedAt.Some? == item.completed && item.completedBy.Some? == item.completed
  }

  /** Flips one item: completing records time and user, un-completing clears both. */
  function ToggleItem(item: ChecklistItem, now: Timestamp): (r: ChecklistItem)
    ensures r.completed == !item.completed
    ensures AttributionConsistent(r)
    ensures r.completed ==> r.completedAt == Some(now) && r.completedBy == Some(CurrentUser)
    ensures r.(completed := item.completed, completedAt := item.completedAt,
               completedBy := item.completedBy) == item
  {
    var isCompleting := !item.completed;
    item.(completed := isCompleting,
          completedAt := if isCompleting then Some(now) else None,
          completedBy := if isCompleting then Some(CurrentUser) else None)
  }

  /** Toggling twice restores the flag; an item that was open with no attribution is restored exactly. */
  lemma ToggleItemTwice(item: ChecklistItem, t1: Timestamp, t2: Timestamp)
    ensures ToggleItem(ToggleItem(item, t1), t2).completed == item.completed
    ensures !item.completed && AttributionConsistent(item) ==>
      ToggleItem(ToggleItem(item, t1), t2) == item
  {
  }

  /** `checklist.items.map(...)`: the items with the id are toggled, the others stay. */
  function ToggleItems(items: seq<ChecklistItem>, itemId: Id, now: Timestamp): (r: seq<ChecklistItem>)
    ensures |r| == |items|
    ensures forall i :: 0 <= i < |items| && items[i].id == itemId ==> r[i] == ToggleItem(items[i], now)
    ensures forall i :: 0 <= i < |items| && items[i].id != itemId ==> r[i] == items[i]
  {
    Seqs.MapWhere(items, (it: ChecklistItem) => it.id == itemId, (it: ChecklistItem) => ToggleItem(it, now))
  }

  /** Toggling the same item twice gives back every completion flag and every id. */
  lemma ToggleItemsTwice(items: seq<ChecklistItem>, itemId: Id, t1: Timestamp, t2: Timestamp)
    ensures var r := ToggleItems(ToggleItems(items, itemId, t1), itemId, t2);
      && |r| == |items|
      && forall i :: 0 <= i < |items| ==> r[i].id == items[i].id && r[i].completed == items[i].completed
  {
    var r1 := ToggleItems(items, itemId, t1);
    forall i | 0 <= i < |items|
      ensures r1[i].id == items[i].id
    {
    }
  }

  /** The checklist-level effect of toggling item `itemId`. */
  function ToggleInChecklist(c: Checklist, itemId: Id, now: Timestamp): (r: Checklist)
    ensures r.items == ToggleItems(c.items, itemId, now)
    ensures r.status == DeriveStatus(r.items)
    ensures r.updatedAt == now && r.version == c.version
    ensures r.completedAt.Some? <==> r.status == Completed
    ensures r.completedBy.Some? <==> r.status == Completed
    ensures r.status == Completed ==> r.completedAt == Some(now) && r.completedBy == Some(CurrentUser)
    ensures r.(items := c.items, status := c.status, updatedAt := c.updatedAt,
               completedAt := c.completedAt, completedBy := c.completedBy) == c
  {
    var items := ToggleItems(c.items, itemId, now);
    var status := DeriveStatus(items);
    c.(items := items, status := status, updatedAt := now,
       completedAt := if status == Completed then Some(now) else None,
       completedBy := if status == Completed then Some(CurrentUser) else None)
  }

  /** `{ ...c, ...updates, updatedAt, version: c.version + 1 }` */
  function UpdateRecord(c: Checklist, updates: ChecklistPatch, now: Timestamp): (r: Checklist)
    ensures r.version == c.version + 1
    ensures r.updatedAt == now
    ensures r.status == updates.status.Or(c.status)
    ensures r.items == updates.items.Or(c.items)
    ensures r.id == updates.id.Or(c.id) && r.title == updates.title.Or(c.title)
    ensures r.description == updates.description.Or(c.description)
    ensures r.tags == updates.tags.Or(c.tags)
    ensures r.responsible == updates.responsible.Or(c.responsible)
    ensures r.deputy == updates.deputy.Or(c.deputy)
    ensures r.category == updates.category.Or(c.category)
    ensures r.subcategory == updates.subcategory.Or(c.subcategory)
    ensures r.isTemplate == updates.isTemplate.Or(c.isTemplate)
    ensures r.recurringPattern == updates.recurringPattern.Or(c.recurringPattern)
    ensures r.createdAt == updates.createdAt.Or(c.createdAt)
    ensures r.completedAt == updates.completedAt.Or(c.completedAt)
    ensures r.completedBy == updates.completedBy.Or(c.completedBy)
    ensures r.previousVersions == updates.previousVersions.Or(c.previousVersions)
  {
    updates.ApplyTo(c).(updatedAt := now, version := c.version + 1)
  }

  /** `createChecklist`: the defaults, overridden by every field the caller supplies. */
  function NewChecklist(data: ChecklistPatch, newId: Id, now: Timestamp): (r: Checklist)
    ensures r.id == data.id.Or(newId)
    ensures r.status == data.status.Or(Open)
    ensures r.version == data.version.Or(1)
    ensures r.items == data.items.Or([]) && r.tags == data.tags.Or([])
    ensures r.title == data.title.Or("") && r.isTemplate == data.isTemplate.Or(false)
    ensures r.createdAt == data.createdAt.Or(now) && r.updatedAt == data.updatedAt.Or(now)
    ensures r.category == data.category.Or(None)
    ensures r.description == data.description.Or(None)
    ensures r.responsible == data.responsible.Or(None)
    ensures r.deputy == data.deputy.Or(None)
    ensures r.subcategory == data.subcategory.Or(None)
    ensures r.recurringPattern == data.recurringPattern.Or(None)
    ensures r.completedAt == data.completedAt.Or(None)
    ensures r.completedBy == data.completedBy.Or(None)
    ensures r.previousVersions == data.previousVersions.Or(None)
  {
    // the record built before the caller's fields are spread over it
    var defaults := Checklist(
      newId, "", None, [], Open, now, now, None, None, None, None, [],
      None, None, false, None, 1, None);
    data.ApplyTo(defaults)
  }

  /** Without caller fields a new checklist is open, at version 1, empty, not a template, created when last updated. */
  lemma NewChecklistDefaults(newId: Id, now: Timestamp, title: string)
    ensures var r := NewChecklist(EmptyPatch, newId, now);
      && r.status == Open && r.version == 1 && r.items == [] && r.tags == []
      && !r.isTemplate && r.title == "" && r.createdAt == r.updatedAt && r.id == newId
    ensures var r := NewChecklist(EmptyPatch.(title := Set(title)), newId, now);
      && r.title == title && r.status == Open && r.version == 1 && r.items == []
      && r.tags == [] && !r.isTemplate && r.createdAt == r.updatedAt
  {
  }

  /** `{ ...c, status: 'archived', updatedAt }` */
  function ArchiveRecord(c: Checklist, now: Timestamp): (r: Checklist)
    ensures r.status == Archived && r.updatedAt == now
    ensures r.(status := c.status, updatedAt := c.updatedAt) == c
  {
    c.(status := Archived, updatedAt := now)
  }

  /** `{ ...c, status: <derived from items>, updatedAt }` */
  function RestoreRecord(c: Checklist, now: Timestamp): (r: Checklist)
    ensures r.status == DeriveStatus(c.items) && r.status != Archived
    ensures r.updatedAt == now
    ensures r.(status := c.status, updatedAt := c.updatedAt) == c
  {
    c.(status := DeriveStatus(c.items), updatedAt := now)
  }

  /** Archiving is not sticky: toggling an item of an archived checklist re-derives its status. */
  lemma ArchiveNotSticky(c: Checklist, itemId: Id, t1: Timestamp, t2: Timestamp)
    ensures ToggleInChecklist(ArchiveRecord(c, t1), itemId, t2).status != Archived
  {
  }

  /** Restoring forgets the archive entirely: the status is derived from the items, not remembered. */
  lemma RestoreAfterArchive(c: Checklist, t1: Timestamp, t2: Timestamp)
    ensures RestoreRecord(ArchiveRecord(c, t1), t2) == RestoreRecord(c, t2)
    ensures RestoreRecord(ArchiveRecord(c, t1), t2).version == c.version
  {
  }

  /** Toggling the same item twice restores every completion flag and the derived status. */
  lemma ToggleTwiceRestoresFlags(c: Checklist, itemId: Id, t1: Timestamp, t2: Timestamp)
    ensures var r := ToggleInChecklist(ToggleInChecklist(c, itemId, t1), itemId, t2);
      && |r.items| == |c.items|
      && (forall i :: 0 <= i < |c.items| ==> r.items[i].completed == c.items[i].completed)
      && r.status == DeriveStatus(c.items)
      && r.version == c.version
  {
    var r := ToggleInChecklist(ToggleInChecklist(c, itemId, t1), itemId, t2);
    ToggleItemsTwice(c.items, itemId, t1, t2);
    DeriveStatusOnlyFlags(r.items, c.items);
  }

  /** The items of `c` are, in order, the items with ids "a", "b" and "c". */
  predicate ItemsABC(c: Checklist) {
    |c.items| == 3 && c.items[0].id == "a" && c.items[1].id == "b" && c.items[2].id == "c"
  }

  /** Toggling the k-th of three distinctly named items flips that flag alone. */
  lemma ToggleOneOfThree(c: Checklist, k: nat, t: Timestamp)
    requires ItemsABC(c) && k < 3
    ensures var r := ToggleInChecklist(c, c.items[k].id, t);
      && ItemsABC(r)
      && forall i :: 0 <= i < 3 ==>
           r.items[i].completed == (if i == k then !c.items[i].completed else c.items[i].completed)
  {
    assert c.items[0].id != c.items[1].id by { assert c.items[0].id[0] == 'a' && c.items[1].id[0] == 'b'; }
    assert c.items[0].id != c.items[2].id by { assert c.items[0].id[0] == 'a' && c.items[2].id[0] == 'c'; }
    assert c.items[1].id != c.items[2].id by { assert c.items[1].id[0] == 'b' && c.items[2].id[0] == 'c'; }
    var items := ToggleItems(c.items, c.items[k].id, t);
    forall i | 0 <= i < 3
      ensures items[i].id == c.items[i].id
      ensures items[i].completed == (if i == k then !c.items[i].completed else c.items[i].completed)
    {
      if i != k {
        assert i == 0 || i == 1 || i == 2;
      }
    }
  }

  /** The completion flags of the three items of `c`. */
  predicate FlagsABC(c: Checklist, a: bool, b: bool, d: bool)
    requires ItemsABC(c)
  {
    c.items[0].completed == a && c.items[1].completed == b && c.items[2].completed == d
  }

  /** First step of the scenario below: one of three open items done gives in-progress. */
  lemma ScenarioFirstDone(c: Checklist, t: Timestamp)
    requires ItemsABC(c) && FlagsABC(c, false, false, false)
    ensures var r := ToggleInChecklist(c, "a", t);
      ItemsABC(r) && FlagsABC(r, true, false, false) && r.status == InProgress
  {
    ToggleOneOfThree(c, 0, t);
    var r := ToggleInChecklist(c, "a", t);
    assert r.items[0].completed && !r.items[1].completed;
  }

  /** Second step: the other two done gives completed, with checklist attribution. */
  lemma ScenarioAllDone(c: Checklist, t: Timestamp)
    requires ItemsABC(c) && FlagsABC(c, true, false, false)
    ensures var r := ToggleInChecklist(ToggleInChecklist(c, "b", t), "c", t);
      && ItemsABC(r) && FlagsABC(r, true, true, true) && r.status == Completed
      && r.completedAt == Some(t) && r.completedBy == Some(CurrentUser)
  {
    ToggleOneOfThree(c, 1, t);
    var r1 := ToggleInChecklist(c, "b", t);
    ToggleOneOfThree(r1, 2, t);
  }

  /** Third step: undoing the first item gives in-progress and clears the attribution. */
  lemma ScenarioUndo(c: Checklist, t: Timestamp)
    requires ItemsABC(c) && FlagsABC(c, true, true, true)
    ensures var r := ToggleInChecklist(c, "a", t);
      r.status == InProgress && r.completedAt == None && r.completedBy == None
  {
    ToggleOneOfThree(c, 0, t);
    var r := ToggleInChecklist(c, "a", t);
    assert !r.items[0].completed && r.items[1].completed;
  }

  /**
   * Three open items toggled one after another: one done gives in-progress,
   * all done gives completed with checklist attribution, undoing one gives
   * in-progress again and clears it.
   */
  lemma ThreeItemScenario(c: Checklist, t: Timestamp)
    requires ItemsABC(c) && FlagsABC(c, false, false, false)
    ensures var s1 := ToggleInChecklist(c, "a", t);
      var s3 := ToggleInChecklist(ToggleInChecklist(s1, "b", t), "c", t);
      var s4 := ToggleInChecklist(s3, "a", t);
      && s1.status == InProgress
      && s3.status == Completed && s3.completedAt == Some(t) && s3.completedBy == Some(CurrentUser)
      && s4.status == InProgress && s4.completedAt == None && s4.completedBy == None
  {
    ScenarioFirstDone(c, t);
    var s1 := ToggleInChecklist(c, "a", t);
    ScenarioAllDone(s1, t);
    ScenarioUndo(ToggleInChecklist(ToggleInChecklist(s1, "b", t), "c", t), t);
  }

  /** `prev.map(c => c.id === id ? f(c) : c)`: the shape shared by every store operation but create. */
  function UpdateWhereId(cs: seq<Checklist>, checklistId: Id, f: Checklist -> Checklist): (r: seq<Checklist>)
    ensures |r| == |cs|
    ensures forall j :: 0 <= j < |cs| && cs[j].id == checklistId ==> r[j] == f(cs[j])
    ensures forall j :: 0 <= j < |cs| && cs[j].id != checklistId ==> r[j] == cs[j]
    ensures (forall j :: 0 <= j < |cs| ==> cs[j].id != checklistId) ==> r == cs
  {
    Seqs.MapWhere(cs, (c: Checklist) => c.id == checklistId, f)
  }

  /**
   * The collection a checklist store holds. Each method replaces it as the
   * corresponding `setChecklists` call does; an id that matches no checklist
   * leaves it unchanged.
   */
  class ChecklistStore {
    var checklists: seq<Checklist>

    constructor ()
      ensures checklists == []
    {
      checklists := [];
    }

    method ToggleItemComplete(checklistId: Id, itemId: Id, now: Timestamp)
      modifies this
      ensures checklists ==
        UpdateWhereId(old(checklists), checklistId, c => ToggleInChecklist(c, itemId, now))
      ensures |checklists| == |old(checklists)|
    {
      checklists := UpdateWhereId(checklists, checklistId, c => ToggleInChecklist(c, itemId, now));
    }

    method UpdateChecklist(checklistId: Id, updates: ChecklistPatch, now: Timestamp)
      modifies this
      ensures checklists ==
        UpdateWhereId(old(checklists), checklistId, c => UpdateRecord(c, updates, now))
      ensures |checklists| == |old(checklists)|
    {
      checklists := UpdateWhereId(checklists, checklistId, c => UpdateRecord(c, updates, now));
    }

    method CreateChecklist(data: ChecklistPatch, newId: Id, now: Timestamp) returns (created: Checklist)
      modifies this
      ensures created == NewChecklist(data, newId, now)
      ensures checklists == old(checklists) + [created]
    {
      created := NewChecklist(data, newId, now);
      checklists := checklists + [created];
    }

    method ArchiveChecklist(checklistId: Id, now: Timestamp)
      modifies this
      ensures checklists == UpdateWhereId(old(checklists), checklistId, c => ArchiveRecord(c, now))
      ensures |checklists| == |old(checklists)|
    {
      checklists := UpdateWhereId(checklists, checklistId, c => ArchiveRecord(c, now));
    }

    method RestoreChecklist(checklistId: Id, now: Timestamp)
      modifies this
      ensures checklists == UpdateWhereId(old(checklists), checklistId, c => RestoreRecord(c, now))
      ensures |checklists| == |old(checklists)|
    {
      checklists := UpdateWhereId(checklists, checklistId, c => RestoreRecord(c, now));
    }
  }
}
