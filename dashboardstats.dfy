/** The dashboard's counters (src/components/DashboardStats.tsx). */
module DashboardStats {
  import opened Types
  import Seqs

  /**
   * `checklists.filter(c => c.status === status).length`: at most the number
   * of checklists, and zero exactly when none has the status.
   */
  function CountStatus(cs: seq<Checklist>, status: Status): (r: nat)
    ensures r <= |cs|
    ensures r == 0 <==> forall c :: c in cs ==> c.status != status
  {
    var keep := (c: Checklist) => c.status == status;
    Seqs.FilterMembers(cs, keep);
    var kept := Seqs.Filter(cs, keep);
    if kept == [] then 0 else assert kept[0] in kept; |kept|
  }

  /** The four statuses split the checklists: their counts add up to the total. */
  lemma {:induction false} CountsPartition(cs: seq<Checklist>)
    ensures CountStatus(cs, Open) + CountStatus(cs, InProgress)
          + CountStatus(cs, Completed) + CountStatus(cs, Archived) == |cs|
  {
    if cs != [] {
      CountsPartition(cs[1..]);
    }
  }

  datatype Stats = Stats(total: nat, completed: nat, inProgress: nat, archived: nat)

  /** `stats`: the total and the count of each non-open status; the open ones make up the rest. */
  function ComputeStats(cs: seq<Checklist>): (s: Stats)
    ensures s.total == |cs|
    ensures s.completed == CountStatus(cs, Completed)
    ensures s.inProgress == CountStatus(cs, InProgress)
    ensures s.archived == CountStatus(cs, Archived)
    ensures s.completed + s.inProgress + s.archived + CountStatus(cs, Open) == s.total
  {
    CountsPartition(cs);
    Stats(|cs|, CountStatus(cs, Completed), CountStatus(cs, InProgress), CountStatus(cs, Archived))
  }

  /** One card: its German title and the number it shows. */
  datatype StatCard = StatCard(title: string, value: nat)

  /** `statCards`: total, in progress, completed, archived, in that order. */
  function StatCards(s: Stats): (r: seq<StatCard>)
    ensures |r| == 4
    ensures r[0] == StatCard("Gesamt", s.total)
    ensures r[1] == StatCard("In Bearbeitung", s.inProgress)
    ensures r[2] == StatCard("Abgeschlossen", s.completed)
    ensures r[3] == StatCard("Archiviert", s.archived)
  {
    [StatCard("Gesamt", s.total), StatCard("In Bearbeitung", s.inProgress),
     StatCard("Abgeschlossen", s.completed), StatCard("Archiviert", s.archived)]
  }
}
