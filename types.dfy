/**
 * The records of the checklist domain (src/types/checklist.ts) and the
 * `Partial<...>` patches the store and the editor spread over them.
 * Dates are millisecond timestamps handed in by the caller.
 */
module Types {
  import opened Wrappers

  type Id = string
  type Timestamp = int

  /** `'open' | 'in-progress' | 'completed' | 'archived'` */
  datatype Status = Open | InProgress | Completed | Archived

  /** The string literal each status is stored as. */
  function StatusName(s: Status): string {
    match s
    case Open => "open"
    case InProgress => "in-progress"
    case Completed => "completed"
    case Archived => "archived"
  }

  /** The status a string literal denotes, if any. */
  function ParseStatus(name: string): (r: Option<Status>)
    ensures r.Some? ==> StatusName(r.value) == name
  {
    if name == "open" then Some(Open)
    else if name == "in-progress" then Some(InProgress)
    else if name == "completed" then Some(Completed)
    else if name == "archived" then Some(Archived)
    else None
  }

  /** Every status has exactly one literal, and reading it back gives the status. */
  lemma StatusNameRoundTrip(s: Status, t: Status)
    ensures ParseStatus(StatusName(s)) == Some(s)
    ensures StatusName(s) == StatusName(t) ==> s == t
  {
  }

  /** `'internal' | 'external'` */
  datatype LinkType = Internal | External

  function LinkTypeName(k: LinkType): string {
    match k
    case Internal => "internal"
    case External => "external"
  }

  /** The two link kinds have distinct literals. */
  lemma LinkTypeNameInjective(k: LinkType, l: LinkType)
    ensures LinkTypeName(k) == LinkTypeName(l) <==> k == l
  {
  }

  /** An item link; `kind` is the source's `type` property. */
  datatype Link = Link(id: Id, title: string, url: string, kind: LinkType)

  /** An attached image; the upload flow and the viewer use the same shape. */
  datatype Image = Image(id: Id, url: string, alt: string, name: string)

  /** An org-chart position: a rose tree of named roles. */
  datatype OrgNode = OrgNode(id: Id, name: string, role: string, children: seq<OrgNode>)

  datatype ChecklistItem = ChecklistItem(
    id: Id,
    title: string,
    description: Option<string>,
    completed: bool,
    createdAt: Timestamp,
    completedAt: Option<Timestamp>,
    completedBy: Option<string>,
    order: int,
    links: Option<seq<Link>>,
    images: Option<seq<Image>>,
    orgChart: Option<seq<OrgNode>>)

  /** `'daily' | 'weekly' | 'monthly'` */
  datatype RecurrenceType = Daily | Weekly | Monthly

  datatype RecurringPattern = RecurringPattern(kind: RecurrenceType, interval: int)

  /**
   * A checklist. `category` is declared mandatory in the source's interface
   * but `createChecklist` never supplies a default for it, so a record can
   * lack it; it is optional here.
   */
  datatype Checklist = Checklist(
    id: Id,
    title: string,
    description: Option<string>,
    items: seq<ChecklistItem>,
    status: Status,
    createdAt: Timestamp,
    updatedAt: Timestamp,
    completedAt: Option<Timestamp>,
    completedBy: Option<string>,
    responsible: Option<string>,
    deputy: Option<string>,
    tags: seq<string>,
    category: Option<string>,
    subcategory: Option<string>,
    isTemplate: bool,
    recurringPattern: Option<RecurringPattern>,
    version: int,
    previousVersions: Option<seq<string>>)

  datatype UserRole = Admin | Editor | Reader

  datatype User = User(id: Id, name: string, email: string, role: UserRole)

  datatype Comment = Comment(
    id: Id,
    checklistId: Id,
    itemId: Option<Id>,
    userId: Id,
    content: string,
    createdAt: Timestamp)

  /** A `Partial<ChecklistItem>`: one `Field` per property. */
  datatype ItemPatch = ItemPatch(
    id: Field<Id>,
    title: Field<string>,
    description: Field<Option<string>>,
    completed: Field<bool>,
    createdAt: Field<Timestamp>,
    completedAt: Field<Option<Timestamp>>,
    completedBy: Field<Option<string>>,
    order: Field<int>,
    links: Field<Option<seq<Link>>>,
    images: Field<Option<seq<Image>>>,
    orgChart: Field<Option<seq<OrgNode>>>)
  {
    /** `{ ...item, ...this }` */
    function ApplyTo(item: ChecklistItem): ChecklistItem {
      ChecklistItem(
        id.Or(item.id), title.Or(item.title), description.Or(item.description),
        completed.Or(item.completed), createdAt.Or(item.createdAt),
        completedAt.Or(item.completedAt), completedBy.Or(item.completedBy),
        order.Or(item.order), links.Or(item.links), images.Or(item.images),
        orgChart.Or(item.orgChart))
    }
  }

  const EmptyItemPatch := ItemPatch(Keep, Keep, Keep, Keep, Keep, Keep, Keep, Keep, Keep, Keep, Keep)

  /** A `Partial<Checklist>`: one `Field` per property. */
  datatype ChecklistPatch = ChecklistPatch(
    id: Field<Id>,
    title: Field<string>,
    description: Field<Option<string>>,
    items: Field<seq<ChecklistItem>>,
    status: Field<Status>,
    createdAt: Field<Timestamp>,
    updatedAt: Field<Timestamp>,
    completedAt: Field<Option<Timestamp>>,
    completedBy: Field<Option<string>>,
    responsible: Field<Option<string>>,
    deputy: Field<Option<string>>,
    tags: Field<seq<string>>,
    category: Field<Option<string>>,
    subcategory: Field<Option<string>>,
    isTemplate: Field<bool>,
    recurringPattern: Field<Option<RecurringPattern>>,
    version: Field<int>,
    previousVersions: Field<Option<seq<string>>>)
  {
    /** `{ ...c, ...this }` */
    function ApplyTo(c: Checklist): Checklist {
      Checklist(
        id.Or(c.id), title.Or(c.title), description.Or(c.description),
        items.Or(c.items), status.Or(c.status), createdAt.Or(c.createdAt),
        updatedAt.Or(c.updatedAt), completedAt.Or(c.completedAt),
        completedBy.Or(c.completedBy), responsible.Or(c.responsible),
        deputy.Or(c.deputy), tags.Or(c.tags), category.Or(c.category),
        subcategory.Or(c.subcategory), isTemplate.Or(c.isTemplate),
        recurringPattern.Or(c.recurringPattern), version.Or(c.version),
        previousVersions.Or(c.previousVersions))
    }
  }

  const EmptyPatch := ChecklistPatch(
    Keep, Keep, Keep, Keep, Keep, Keep, Keep, Keep, Keep,
    Keep, Keep, Keep, Keep, Keep, Keep, Keep, Keep, Keep)

  /** Spreading an empty patch copies the record; spreading the same patch twice equals spreading it once. */
  lemma ApplyPatchLaws(p: ChecklistPatch, c: Checklist)
    ensures EmptyPatch.ApplyTo(c) == c
    ensures p.ApplyTo(p.ApplyTo(c)) == p.ApplyTo(c)
  {
  }
}
