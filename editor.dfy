/**
 * The checklist editor's draft (src/components/ChecklistEditor.tsx): the
 * items, tags and tag input it edits, the payload it saves, and the link
 * edits of its per-item editor.
 */
module Editor {
  import opened Wrappers
  import opened Types
  import Seqs
  import Text
  import Store

  // ---------------------------------------------------------------- items

  /** `addItem`: appends an open item whose `order` is the previous item count. */
  function AppendItem(items: seq<ChecklistItem>, newId: Id, now: Timestamp): (r: seq<ChecklistItem>)
    ensures |r| == |items| + 1 && r[..|items|] == items
    ensures var it := r[|items|];
      && it.id == newId && it.title == "" && it.description == Some("")
      && !it.completed && it.createdAt == now && it.order == |items|
      && it.completedAt.None? && it.completedBy.None?
      && it.links.None? && it.images.None? && it.orgChart.None?
  {
    items + [ChecklistItem(newId, "", Some(""), false, now, None, None, |items|, None, None, None)]
  }

  /** Every item's `order` is its position. */
  predicate OrderedByPosition(items: seq<ChecklistItem>) {
    forall i :: 0 <= i < |items| ==> items[i].order == i
  }

  /** Appending keeps the orders equal to the positions. */
  lemma AppendItemKeepsOrder(items: seq<ChecklistItem>, newId: Id, now: Timestamp)
    requires OrderedByPosition(items)
    ensures OrderedByPosition(AppendItem(items, newId, now))
  {
    var r := AppendItem(items, newId, now);
    forall i | 0 <= i < |r| ensures r[i].order == i {
      if i < |items| {
        assert r[i] == r[..|items|][i];
      }
    }
  }

  /** `updateItem`: spreads the updates over every item with the id. */
  function UpdateItemIn(items: seq<ChecklistItem>, itemId: Id, updates: ItemPatch): (r: seq<ChecklistItem>)
    ensures |r| == |items|
    ensures forall i :: 0 <= i < |items| && items[i].id == itemId ==> r[i] == updates.ApplyTo(items[i])
    ensures forall i :: 0 <= i < |items| && items[i].id != itemId ==> r[i] == items[i]
    ensures updates.id.Keep? ==> forall i :: 0 <= i < |items| ==> r[i].id == items[i].id
  {
    Seqs.MapWhere(items, (it: ChecklistItem) => it.id == itemId,
                  (it: ChecklistItem) => updates.ApplyTo(it))
  }

  /** `removeItem`: drops every item with the id, the rest keeping their order. */
  function RemoveItemFrom(items: seq<ChecklistItem>, itemId: Id): (r: seq<ChecklistItem>)
    ensures forall it :: it in r ==> it.id != itemId && it in items
    ensures forall it :: it in items && it.id != itemId ==> it in r
    ensures Seqs.IsSubsequence(r, items)
    ensures (forall it :: it in items ==> it.id != itemId) ==> r == items
    ensures forall it :: multiset(r)[it] == if it.id != itemId then multiset(items)[it] else 0
  {
    var keep := (it: ChecklistItem) => it.id != itemId;
    Seqs.FilterCount(items, keep);
    Seqs.FilterMembers(items, keep);
    Seqs.FilterSubsequence(items, keep);
    Seqs.FilterKeepsAll(items, keep);
    Seqs.Filter(items, keep)
  }

  // ----------------------------------------------------------------- tags

  /** The tag list and the text of the tag input. */
  datatype TagInput = TagInput(tags: seq<string>, text: string)

  /**
   * `addTag`: the trimmed input is appended and the input cleared, unless it
   * is empty or already a tag, in which case nothing changes.
   */
  function AddTag(st: TagInput): (r: TagInput)
    ensures var t := Text.Trim(st.text);
      r.tags != st.tags <==> t != "" && t !in st.tags
    ensures r.tags != st.tags ==> r == TagInput(st.tags + [Text.Trim(st.text)], "")
    ensures r.tags == st.tags ==> r == st
  {
    var t := Text.Trim(st.text);
    if t != "" && t !in st.tags then TagInput(st.tags + [t], "") else st
  }

  /** Adding keeps the tags duplicate-free, and adds nothing but the trimmed input. */
  lemma AddTagKeepsDistinct(st: TagInput)
    requires Seqs.Distinct(st.tags)
    ensures Seqs.Distinct(AddTag(st).tags)
    ensures forall t :: t in AddTag(st).tags ==> t in st.tags || t == Text.Trim(st.text)
  {
    var t := Text.Trim(st.text);
    if t != "" && t !in st.tags {
      Seqs.AppendFreshDistinct(st.tags, t);
    }
  }

  /** Whitespace-only input adds nothing. */
  lemma AddBlankTagIgnored(st: TagInput)
    requires Text.AllWhitespace(st.text)
    ensures AddTag(st) == st
  {
    Text.TrimEmptyIff(st.text);
  }

  /** Adding the same text twice gives the same tags as adding it once. */
  lemma AddTagTwice(tags: seq<string>, text: string)
    ensures AddTag(TagInput(AddTag(TagInput(tags, text)).tags, text)).tags
         == AddTag(TagInput(tags, text)).tags
  {
  }

  /** `removeTag`: drops every occurrence of the tag. */
  function RemoveTagFrom(tags: seq<string>, tag: string): (r: seq<string>)
    ensures tag !in r
    ensures forall t :: t in tags && t != tag ==> t in r
    ensures Seqs.IsSubsequence(r, tags)
    ensures tag !in tags ==> r == tags
    ensures forall t :: multiset(r)[t] == if t != tag then multiset(tags)[t] else 0
    ensures Seqs.Distinct(tags) ==> Seqs.Distinct(r)
  {
    var keep := (t: string) => t != tag;
    Seqs.FilterDistinct(tags, keep);
    Seqs.FilterCount(tags, keep);
    Seqs.FilterMembers(tags, keep);
    Seqs.FilterSubsequence(tags, keep);
    Seqs.FilterKeepsAll(tags, keep);
    Seqs.Filter(tags, keep)
  }

  /** Removing a tag that was just added restores the original tags. */
  lemma {:induction false} RemoveAfterAdd(tags: seq<string>, text: string)
    requires Text.Trim(text) != "" && Text.Trim(text) !in tags
    ensures RemoveTagFrom(AddTag(TagInput(tags, text)).tags, Text.Trim(text)) == tags
  {
    var t := Text.Trim(text);
    var keep := (x: string) => x != t;
    Seqs.FilterConcat(tags, [t], keep);
    Seqs.FilterKeepsAll(tags, keep);
    assert Seqs.Filter([t], keep) == [];
  }

  // ----------------------------------------------------------------- save

  /** The values of the editor's draft fields at save time. */
  datatype Draft = Draft(
    title: string,
    description: string,
    responsible: string,
    deputy: string,
    tags: seq<string>,
    items: seq<ChecklistItem>,
    isTemplate: bool,
    recurringPattern: Option<RecurringPattern>)

  /**
   * `handleSave`: the draft fields and `updatedAt`; when no existing
   * checklist is being edited, also a fresh id, `createdAt`, status open and
   * version 1.
   */
  function SavePayload(d: Draft, isNew: bool, newId: Id, now: Timestamp): (p: ChecklistPatch)
    ensures p.title == Set(d.title) && p.items == Set(d.items) && p.tags == Set(d.tags)
    ensures p.description == Set(Some(d.description))
    ensures p.responsible == Set(Some(d.responsible)) && p.deputy == Set(Some(d.deputy))
    ensures p.isTemplate == Set(d.isTemplate) && p.recurringPattern == Set(d.recurringPattern)
    ensures p.updatedAt == Set(now)
    ensures p.id.Set? <==> isNew
    ensures p.createdAt.Set? <==> isNew
    ensures p.status.Set? <==> isNew
    ensures p.version.Set? <==> isNew
    ensures isNew ==> p.id == Set(newId) && p.createdAt == Set(now)
                      && p.status == Set(Open) && p.version == Set(1)
    ensures p.completedAt.Keep? && p.completedBy.Keep? && p.category.Keep?
    ensures p.subcategory.Keep? && p.previousVersions.Keep?
  {
    var base := EmptyPatch.(
      title := Set(d.title), description := Set(Some(d.description)),
      responsible := Set(Some(d.responsible)), deputy := Set(Some(d.deputy)),
      tags := Set(d.tags), items := Set(d.items), isTemplate := Set(d.isTemplate),
      recurringPattern := Set(d.recurringPattern), updatedAt := Set(now));
    if isNew then
      base.(id := Set(newId), createdAt := Set(now), status := Set(Open), version := Set(1))
    else base
  }

  /**
   * A hypothetical composition: the editor's `onSave` payload is not passed
   * to `createChecklist` anywhere in the application, but if a new draft were
   * handed to the store's create, the editor's id and time would win over the
   * store's, the checklist would be open at version 1, and it would carry the
   * draft's title and items.
   */
  lemma SaveNewThenCreate(d: Draft, editorId: Id, t1: Timestamp, storeId: Id, t2: Timestamp)
    ensures var c := Store.NewChecklist(SavePayload(d, true, editorId, t1), storeId, t2);
      && c.id == editorId && c.createdAt == t1 && c.updatedAt == t1
      && c.status == Open && c.version == 1
      && c.title == d.title && c.items == d.items && c.tags == d.tags
  {
  }

  /**
   * An edited draft handed to the store's update: the id and status of the
   * checklist stay, the version goes up by one, and the items are the
   * draft's, whatever their completion (status is not re-derived); the
   * attribution, category, subcategory and previous versions stay as they were.
   */
  lemma SaveEditThenUpdate(c: Checklist, d: Draft, editorId: Id, t1: Timestamp, t2: Timestamp)
    ensures var r := Store.UpdateRecord(c, SavePayload(d, false, editorId, t1), t2);
      && r.id == c.id && r.status == c.status && r.version == c.version + 1
      && r.updatedAt == t2 && r.items == d.items && r.createdAt == c.createdAt
      && r.completedAt == c.completedAt && r.completedBy == c.completedBy
      && r.category == c.category && r.subcategory == c.subcategory
      && r.previousVersions == c.previousVersions
  {
  }

  // ---------------------------------------------------------------- links

  const NewLinkTitle := "Neuer Link"
  const NewLinkUrl := "https://"

  /** `addLink`: the item's links (none counts as empty) with one new external link at the end. */
  function AddLink(links: Option<seq<Link>>, newId: Id): (r: seq<Link>)
    ensures |r| == |links.GetOr([])| + 1 && r[..|r| - 1] == links.GetOr([])
    ensures r[|r| - 1] == Link(newId, NewLinkTitle, NewLinkUrl, External)
  {
    links.GetOr([]) + [Link(newId, NewLinkTitle, NewLinkUrl, External)]
  }

  /** A `Partial` of a link. */
  datatype LinkPatch = LinkPatch(id: Field<Id>, title: Field<string>, url: Field<string>, kind: Field<LinkType>) {
    function ApplyTo(l: Link): Link {
      Link(id.Or(l.id), title.Or(l.title), url.Or(l.url), kind.Or(l.kind))
    }
  }

  /** `updateLink`: `links?.map(...)`; absent links stay absent. */
  function UpdateLink(links: Option<seq<Link>>, linkId: Id, updates: LinkPatch): (r: Option<seq<Link>>)
    ensures r.None? <==> links.None?
    ensures links.Some? ==> |r.value| == |links.value|
    ensures links.Some? ==> forall i :: 0 <= i < |links.value| ==>
      r.value[i] == if links.value[i].id == linkId then updates.ApplyTo(links.value[i]) else links.value[i]
  {
    match links
    case None => None
    case Some(ls) =>
      Some(Seqs.MapWhere(ls, (l: Link) => l.id == linkId, (l: Link) => updates.ApplyTo(l)))
  }

  /** `removeLink`: `links?.filter(...)`; absent links stay absent. */
  function RemoveLink(links: Option<seq<Link>>, linkId: Id): (r: Option<seq<Link>>)
    ensures r.None? <==> links.None?
    ensures links.Some? ==> forall l :: l in r.value ==> l.id != linkId && l in links.value
    ensures links.Some? ==> forall l :: l in links.value && l.id != linkId ==> l in r.value
    ensures links.Some? ==> Seqs.IsSubsequence(r.value, links.value)
    ensures links.Some? ==> forall l ::
      multiset(r.value)[l] == if l.id != linkId then multiset(links.value)[l] else 0
    ensures links.Some? && (forall l :: l in links.value ==> l.id != linkId) ==> r == links
  {
    match links
    case None => None
    case Some(ls) =>
      var keep := (l: Link) => l.id != linkId;
      Seqs.FilterCount(ls, keep);
      Seqs.FilterMembers(ls, keep);
      Seqs.FilterSubsequence(ls, keep);
      Seqs.FilterKeepsAll(ls, keep);
      Some(Seqs.Filter(ls, keep))
  }

  /** The `onUpdate({ links })` call of the item editor: a patch that sets only `links`. */
  function LinksPatch(links: Option<seq<Link>>): ItemPatch {
    EmptyItemPatch.(links := Set(links))
  }

  /** Adding a link to an item through the editor changes that item's links and nothing else. */
  lemma AddLinkThroughEditor(items: seq<ChecklistItem>, k: nat, newId: Id)
    requires k < |items|
    ensures var r := UpdateItemIn(items, items[k].id, LinksPatch(Some(AddLink(items[k].links, newId))));
      && r[k] == items[k].(links := Some(AddLink(items[k].links, newId)))
      && |r| == |items|
  {
  }

  // ---------------------------------------------------------------- state

  /** The editor's draft state; each method replaces the fields its handler sets. */
  class ChecklistDraft {
    var title: string
    var description: string
    var responsible: string
    var deputy: string
    var tags: seq<string>
    var newTag: string
    var items: seq<ChecklistItem>
    var isTemplate: bool
    var recurringPattern: Option<RecurringPattern>
    /** Whether no existing checklist was given, so saving creates one. */
    const isNew: bool

    /** The `useState` initialisers: the edited checklist's values, or empty ones. */
    constructor (checklist: Option<Checklist>)
      ensures isNew == checklist.None?
      ensures checklist.None? ==>
        && title == "" && description == "" && responsible == "" && deputy == ""
        && tags == [] && items == [] && !isTemplate && recurringPattern.None?
      ensures checklist.Some? ==>
        && title == checklist.value.title
        && description == checklist.value.description.GetOr("")
        && responsible == checklist.value.responsible.GetOr("")
        && deputy == checklist.value.deputy.GetOr("")
        && tags == checklist.value.tags && items == checklist.value.items
        && isTemplate == checklist.value.isTemplate
        && recurringPattern == checklist.value.recurringPattern
      ensures newTag == ""
    {
      isNew := checklist.None?;
      newTag := "";
      match checklist {
        case None =>
          title, description, responsible, deputy := "", "", "", "";
          tags, items, isTemplate, recurringPattern := [], [], false, None;
        case Some(c) =>
          title, description := c.title, c.description.GetOr("");
          responsible, deputy := c.responsible.GetOr(""), c.deputy.GetOr("");
          tags, items, isTemplate, recurringPattern := c.tags, c.items, c.isTemplate, c.recurringPattern;
      }
    }

    /** The draft as a value. */
    function Snapshot(): Draft
      reads this
    {
      Draft(title, description, responsible, deputy, tags, items, isTemplate, recurringPattern)
    }

    method AddItem(newId: Id, now: Timestamp)
      modifies this`items
      ensures items == AppendItem(old(items), newId, now)
    {
      items := AppendItem(items, newId, now);
    }

    method UpdateItem(itemId: Id, updates: ItemPatch)
      modifies this`items
      ensures items == UpdateItemIn(old(items), itemId, updates)
    {
      items := UpdateItemIn(items, itemId, updates);
    }

    method RemoveItem(itemId: Id)
      modifies this`items
      ensures items == RemoveItemFrom(old(items), itemId)
    {
      items := RemoveItemFrom(items, itemId);
    }

    /** The tag input's `onChange`. */
    method EditNewTag(text: string)
      modifies this`newTag
      ensures newTag == text
    {
      newTag := text;
    }

    method AddTagFromInput()
      modifies this`tags, this`newTag
      ensures TagInput(tags, newTag) == AddTag(TagInput(old(tags), old(newTag)))
    {
      var st := AddTag(TagInput(tags, newTag));
      tags, newTag := st.tags, st.text;
    }

    method RemoveTag(tag: string)
      modifies this`tags
      ensures tags == RemoveTagFrom(old(tags), tag)
    {
      tags := RemoveTagFrom(tags, tag);
    }

    /** `handleSave`: the payload handed to `onSave`; the draft is unchanged. */
    method HandleSave(newId: Id, now: Timestamp) returns (payload: ChecklistPatch)
      ensures payload == SavePayload(Snapshot(), isNew, newId, now)
    {
      payload := SavePayload(Snapshot(), isNew, newId, now);
    }
  }
}
