/**
 * The dashboard's selections (src/pages/Dashboard.tsx): the checklists a
 * search term and a status filter let through, and the "recent" list drawn
 * from them.
 */
module Dashboard {
  import opened Wrappers
  import opened Types
  import Seqs
  import Text

  /** The search term occurs, ignoring case, in the title, the description or one of the tags. */
  predicate MatchesSearch(c: Checklist, term: string)
    ensures term == "" ==> MatchesSearch(c, term)
  {
    Text.IncludesEmpty(Text.Lower(c.title));
    var t := Text.Lower(term);
    || Text.Includes(Text.Lower(c.title), t)
    || (c.description.Some? && Text.Includes(Text.Lower(c.description.value), t))
    || exists i :: 0 <= i < |c.tags| && Text.Includes(Text.Lower(c.tags[i]), t)
  }

  /** The status filter is `'all'` or the literal of the checklist's status. */
  predicate MatchesStatus(c: Checklist, statusFilter: string)
    ensures MatchesStatus(c, statusFilter) <==>
      statusFilter == "all" || ParseStatus(statusFilter) == Some(c.status)
  {
    StatusNameRoundTrip(c.status, c.status);
    statusFilter == "all" || StatusName(c.status) == statusFilter
  }

  /** `filteredChecklists`: the checklists matching both, in their original order. */
  function FilteredChecklists(cs: seq<Checklist>, term: string, statusFilter: string): (r: seq<Checklist>)
    ensures Seqs.IsSubsequence(r, cs)
    ensures forall c :: c in r ==> c in cs && MatchesSearch(c, term) && MatchesStatus(c, statusFilter)
    ensures forall c :: c in cs && MatchesSearch(c, term) && MatchesStatus(c, statusFilter) ==> c in r
    ensures (forall c :: c in cs ==> MatchesSearch(c, term) && MatchesStatus(c, statusFilter)) ==> r == cs
    ensures forall c ::
      multiset(r)[c] == if MatchesSearch(c, term) && MatchesStatus(c, statusFilter) then multiset(cs)[c] else 0
  {
    var keep := (c: Checklist) => MatchesSearch(c, term) && MatchesStatus(c, statusFilter);
    Seqs.FilterCount(cs, keep);
    Seqs.FilterMembers(cs, keep);
    Seqs.FilterSubsequence(cs, keep);
    Seqs.FilterKeepsAll(cs, keep);
    Seqs.Filter(cs, keep)
  }

  /** A checklist matches the search exactly when the lowered term occurs in a lowered field. */
  lemma MatchesSearchIff(c: Checklist, term: string)
    ensures MatchesSearch(c, term) <==>
      var t := Text.Lower(term);
      || Text.Contains(Text.Lower(c.title), t)
      || (c.description.Some? && Text.Contains(Text.Lower(c.description.value), t))
      || exists i :: 0 <= i < |c.tags| && Text.Contains(Text.Lower(c.tags[i]), t)
  {
    var t := Text.Lower(term);
    Text.IncludesIff(Text.Lower(c.title), t);
    if c.description.Some? {
      Text.IncludesIff(Text.Lower(c.description.value), t);
    }
    forall i | 0 <= i < |c.tags|
      ensures Text.Includes(Text.Lower(c.tags[i]), t) <==> Text.Contains(Text.Lower(c.tags[i]), t)
    {
      Text.IncludesIff(Text.Lower(c.tags[i]), t);
    }
  }

  /** With an empty term and the filter `'all'` every checklist is listed. */
  lemma EmptySearchListsAll(cs: seq<Checklist>)
    ensures FilteredChecklists(cs, "", "all") == cs
  {
    forall c | c in cs ensures MatchesSearch(c, "") {
      Text.IncludesEmpty(Text.Lower(c.title));
    }
  }

  /**
   * Any filter but `'all'` lets through only checklists whose status has
   * exactly that literal; a filter naming no status lets through none.
   */
  lemma StatusFilterExact(cs: seq<Checklist>, term: string, statusFilter: string)
    requires statusFilter != "all"
    ensures forall c :: c in FilteredChecklists(cs, term, statusFilter) ==>
      ParseStatus(statusFilter) == Some(c.status)
    ensures ParseStatus(statusFilter).None? ==> FilteredChecklists(cs, term, statusFilter) == []
  {
    forall c | c in FilteredChecklists(cs, term, statusFilter)
      ensures ParseStatus(statusFilter) == Some(c.status)
    {
      StatusNameRoundTrip(c.status, c.status);
    }
  }

  /** Most recently updated first. */
  predicate NewestFirst(s: seq<Checklist>) {
    forall i, j :: 0 <= i < j < |s| ==> s[i].updatedAt >= s[j].updatedAt
  }

  /** Puts `x` before the first element updated no later than it. */
  function InsertNewestFirst(x: Checklist, s: seq<Checklist>): (r: seq<Checklist>)
    requires NewestFirst(s)
    ensures NewestFirst(r)
    ensures multiset(r) == multiset(s) + multiset{x}
    ensures |r| == |s| + 1 && (r[0] == x || (s != [] && r[0] == s[0]))
  {
    if s == [] || s[0].updatedAt <= x.updatedAt then
      [x] + s
    else
      var rest := InsertNewestFirst(x, s[1..]);
      assert s == [s[0]] + s[1..];
      [s[0]] + rest
  }

  /**
   * `.sort((a, b) => b.updatedAt - a.updatedAt)`: the same checklists, most
   * recently updated first.
   */
  function SortNewestFirst(s: seq<Checklist>): (r: seq<Checklist>)
    ensures NewestFirst(r)
    ensures multiset(r) == multiset(s)
  {
    if s == [] then []
    else
      assert s == [s[0]] + s[1..];
      InsertNewestFirst(s[0], SortNewestFirst(s[1..]))
  }

  /** Sorting neither adds nor drops a checklist. */
  lemma SortKeepsMembers(s: seq<Checklist>)
    ensures |SortNewestFirst(s)| == |s|
    ensures forall c :: c in SortNewestFirst(s) <==> c in s
  {
    var r := SortNewestFirst(s);
    assert |r| == |multiset(r)| == |s|;
    forall c ensures c in r <==> c in s {
      assert c in r <==> c in multiset(r);
      assert c in s <==> c in multiset(s);
    }
  }

  const RecentLimit := 6

  /** `c.status !== 'archived'` */
  predicate NotArchived(c: Checklist) {
    c.status != Archived
  }

  /** The checklists that are not archived. */
  function Live(filtered: seq<Checklist>): (r: seq<Checklist>)
    ensures forall c :: c in r <==> c in filtered && c.status != Archived
  {
    Seqs.FilterMembers(filtered, NotArchived);
    Seqs.Filter(filtered, NotArchived)
  }

  /**
   * `Live` is the filter itself: an order-preserving subsequence holding every
   * non-archived checklist as often as it occurs, so its length is the number
   * of non-archived checklists.
   */
  lemma LiveIsFilter(filtered: seq<Checklist>)
    ensures Seqs.IsSubsequence(Live(filtered), filtered)
    ensures forall c ::
      multiset(Live(filtered))[c] == if c.status != Archived then multiset(filtered)[c] else 0
  {
    Seqs.FilterSubsequence(filtered, NotArchived);
    Seqs.FilterCount(filtered, NotArchived);
  }

  /** `recentChecklists`: the non-archived ones, newest first, at most six. */
  function RecentChecklists(filtered: seq<Checklist>): (r: seq<Checklist>)
    ensures |r| <= RecentLimit
    ensures forall c :: c in r ==> c in filtered && c.status != Archived
    ensures NewestFirst(r)
    ensures |r| == if |Live(filtered)| < RecentLimit then |Live(filtered)| else RecentLimit
    ensures forall c, d :: c in r && d in Live(filtered) && d !in r ==> d.updatedAt <= c.updatedAt
  {
    var sorted := SortNewestFirst(Live(filtered));
    SortKeepsMembers(Live(filtered));
    if |sorted| < RecentLimit then sorted
    else
      NewestPrefix(sorted, RecentLimit);
      sorted[..RecentLimit]
  }

  /**
   * The recent list is the front of the sorted live list: six distinct
   * positions of it (fewer if there are fewer), so no checklist appears more
   * often than among the live ones.
   */
  lemma RecentIsSortedPrefix(filtered: seq<Checklist>)
    ensures var r := RecentChecklists(filtered);
      && r == SortNewestFirst(Live(filtered))[..|r|]
      && multiset(r) <= multiset(Live(filtered))
  {
    var sorted := SortNewestFirst(Live(filtered));
    var r := RecentChecklists(filtered);
    assert sorted == r + sorted[|r|..];
    assert multiset(sorted) == multiset(r) + multiset(sorted[|r|..]);
  }

  /** A prefix of a newest-first list holds its newest members: nothing left out is newer than anything kept. */
  lemma NewestPrefix(s: seq<Checklist>, m: nat)
    requires NewestFirst(s) && m <= |s|
    ensures forall c :: c in s[..m] ==> c in s
    ensures forall c, d :: c in s[..m] && d in s && d !in s[..m] ==> d.updatedAt <= c.updatedAt
  {
    var top := s[..m];
    forall c | c in top ensures c in s {
      var k :| 0 <= k < m && top[k] == c;
      assert s[k] == c;
    }
    forall c, d | c in top && d in s && d !in top ensures d.updatedAt <= c.updatedAt {
      var i :| 0 <= i < m && top[i] == c;
      var k :| 0 <= k < |s| && s[k] == d;
      assert s[i] == c;
    }
  }
}
