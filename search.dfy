/**
  The search phase of a deploy: walk the projects in listing order, read
  each project's workload collection, and record the first workload whose
  name is the service name. `Search` is the reference definition the
  class method `DeployToRancher.DeployRancher.Deploy` is proved against; the
  lemmas below characterise its result by positions in the project list.
 */
module WorkloadSearch {
  import opened RancherApi

  /** The three fields the search fills in, all '' at construction. */
  datatype Record = Record(workloadUrlApi: string, deploymentPath: string, namespace: string)

  const INITIAL := Record("", "", "")

  /** The URL of a project's workload collection. */
  function WorkloadsUrl(base: string, projectId: string): string {
    base + "/projects/" + projectId + "/workloads"
  }

  /** A workload that has a name, and not the one searched for. */
  predicate OtherName(w: Workload, name: string) {
    w.name.Some? && w.name.value != name
  }

  /** Result of scanning one workload collection in order: a workload without
      a name raises, otherwise the first one named `name` is the match. */
  datatype ScanResult = ScanCrash | NoMatch | Match(index: nat)

  function Scan(ws: seq<Workload>, name: string): (r: ScanResult)
    ensures r.Match? ==> r.index < |ws| && ws[r.index].name == Some(name)
    ensures r.Match? ==> forall j :: 0 <= j < r.index ==> OtherName(ws[j], name)
    ensures r.NoMatch? ==> forall j :: 0 <= j < |ws| ==> OtherName(ws[j], name)
    ensures r.ScanCrash? ==>
      exists j :: 0 <= j < |ws| && ws[j].name.None? && forall j' :: 0 <= j' < j ==> OtherName(ws[j'], name)
  {
    if ws == [] then NoMatch
    else if ws[0].name.None? then ScanCrash
    else if ws[0].name.value == name then Match(0)
    else
      match Scan(ws[1..], name)
      case Match(k) =>
        assert forall j :: 1 <= j < k + 1 ==> ws[j] == ws[1..][j - 1];
        Match(k + 1)
      case NoMatch =>
        assert forall j :: 1 <= j < |ws| ==> ws[j] == ws[1..][j - 1];
        NoMatch
      case ScanCrash =>
        var j :| 0 <= j < |ws[1..]| && ws[1..][j].name.None?
                 && forall j' :: 0 <= j' < j ==> OtherName(ws[1..][j'], name);
        assert ws[j + 1] == ws[1..][j];
        assert forall j' :: 1 <= j' < j + 1 ==> ws[j'] == ws[1..][j' - 1];
        ScanCrash
  }

  /** The inner `for w in ...` loop: scan a workload collection in order and
      stop at the first workload named `name`. */
  method FirstNamed(ws: seq<Workload>, name: string) returns (r: ScanResult)
    ensures r == Scan(ws, name)
  {
    for k := 0 to |ws|
      invariant forall j :: 0 <= j < k ==> OtherName(ws[j], name)
    {
      if ws[k].name.None? {
        return ScanCrash;
      }
      if ws[k].name.value == name {
        return Match(k);
      }
    }
    return NoMatch;
  }

  /** What one project does to the search. `Skipped` is a `continue` before
      the collection was scanned (non-200 status, no `data`); `Scanned` is a
      collection that was scanned, after which the outer loop stops if the
      deployment path is no longer ''. `Aborted` is an exception. */
  datatype Visit = Aborted | Skipped | Scanned(rec: Record)

  function VisitProject(p: Project, base: string, name: string, rec: Record): Visit {
    match p.id
    case None => Aborted
    case Some(id) =>
      if p.workloads.status != 200 then Skipped
      else
        match p.workloads.body
        case Unparsable => Aborted
        case NoData => Skipped
        case Data(ws) =>
          match Scan(ws, name)
          case ScanCrash => Aborted
          case NoMatch => Scanned(rec)
          case Match(k) =>
            if ws[k].selfLink.None? || ws[k].namespaceId.None? then Aborted
            else Scanned(Record(WorkloadsUrl(base, id), ws[k].selfLink.value, ws[k].namespaceId.value))
  }

  /** Result of the whole search: aborted by an exception, or the record the
      three fields hold when the outer loop ends. */
  datatype Progress = Crashed | Reached(rec: Record)

  function Search(ps: seq<Project>, base: string, name: string, rec: Record): Progress
    decreases |ps|
  {
    if ps == [] then Reached(rec)
    else
      match VisitProject(ps[0], base, name, rec)
      case Aborted => Crashed
      case Skipped => Search(ps[1..], base, name, rec)
      case Scanned(next) =>
        if next.deploymentPath != "" then Reached(next)
        else Search(ps[1..], base, name, next)
  }

  // ---------------------------------------------------------------------
  // Classification of a single project, independent of Search.

  /** A project with an id whose workloads GET is not 200 (its body is never
      read) or is 200 without `data`: the loop continues. */
  predicate Unreadable(p: Project) {
    p.id.Some? && (p.workloads.status != 200 || p.workloads.body.NoData?)
  }

  /** A project with an id and a 200 listing with `data` in which every
      workload up to the first one named `name` has a name, and that first
      match has a non-empty self link and a namespace: the search records it
      and stops. */
  predicate Hit(p: Project, name: string) {
    && p.id.Some?
    && p.workloads.status == 200
    && p.workloads.body.Data?
    && var ws := p.workloads.body.items;
       && Scan(ws, name).Match?
       && ws[Scan(ws, name).index].selfLink.Some?
       && ws[Scan(ws, name).index].selfLink.value != ""
       && ws[Scan(ws, name).index].namespaceId.Some?
  }

  /** The record a hit project leaves in the three fields. */
  function HitRecord(p: Project, base: string, name: string): Record
    requires Hit(p, name)
  {
    var w := p.workloads.body.items[Scan(p.workloads.body.items, name).index];
    Record(WorkloadsUrl(base, p.id.value), w.selfLink.value, w.namespaceId.value)
  }

  /** A project after which the search goes on without a recorded path:
      unreadable; or with an id and a 200 listing with `data` whose
      workloads all have a name other than `name`; or whose workloads up to
      the first match all have a name, and that match has self link '' and a
      namespace (the inner loop breaks, the outer loop does not). */
  predicate PassesOver(p: Project, name: string) {
    || Unreadable(p)
    || (&& p.id.Some?
        && p.workloads.status == 200
        && p.workloads.body.Data?
        && var ws := p.workloads.body.items;
           || Scan(ws, name).NoMatch?
           || (&& Scan(ws, name).Match?
               && ws[Scan(ws, name).index].selfLink == Some("")
               && ws[Scan(ws, name).index].namespaceId.Some?))
  }

  lemma VisitOfHit(p: Project, base: string, name: string, rec: Record)
    requires Hit(p, name)
    ensures VisitProject(p, base, name, rec) == Scanned(HitRecord(p, base, name))
  {
  }

  lemma VisitOfPassesOver(p: Project, base: string, name: string, rec: Record)
    requires PassesOver(p, name) && rec.deploymentPath == ""
    ensures VisitProject(p, base, name, rec).Skipped?
         || (VisitProject(p, base, name, rec).Scanned? && VisitProject(p, base, name, rec).rec.deploymentPath == "")
  {
  }

  lemma VisitOfOthers(p: Project, base: string, name: string, rec: Record)
    requires !PassesOver(p, name) && !Hit(p, name)
    ensures VisitProject(p, base, name, rec) == Aborted
  {
  }

  // ---------------------------------------------------------------------
  // Properties of the search.

  /** A project whose listing is not 200 or has no `data` contributes
      nothing: removing it from the list does not change the search. */
  lemma {:induction false} UnreadableProjectIsSkipped(ps: seq<Project>, i: nat, base: string, name: string, rec: Record)
    requires i < |ps| && Unreadable(ps[i])
    ensures Search(ps[..i] + ps[i + 1..], base, name, rec) == Search(ps, base, name, rec)
  {
    var without := ps[..i] + ps[i + 1..];
    if i == 0 {
      assert without == ps[1..];
    } else {
      assert without[0] == ps[0];
      assert without[1..] == ps[1..][..i - 1] + ps[1..][i..];
      match VisitProject(ps[0], base, name, rec)
      case Aborted =>
      case Skipped =>
        UnreadableProjectIsSkipped(ps[1..], i - 1, base, name, rec);
      case Scanned(next) =>
        if next.deploymentPath == "" {
          UnreadableProjectIsSkipped(ps[1..], i - 1, base, name, next);
        }
    }
  }

  /** First match wins: when every project before position i passes over
      and project i is a hit, the search ends with the record of project i,
      whatever the projects after i hold. */
  lemma {:induction false} FirstHitIsRecorded(ps: seq<Project>, i: nat, base: string, name: string, rec: Record)
    requires rec.deploymentPath == ""
    requires i < |ps| && Hit(ps[i], name)
    requires forall j :: 0 <= j < i ==> PassesOver(ps[j], name)
    ensures Search(ps, base, name, rec) == Reached(HitRecord(ps[i], base, name))
  {
    if i == 0 {
      VisitOfHit(ps[0], base, name, rec);
    } else {
      VisitOfPassesOver(ps[0], base, name, rec);
      var next := if VisitProject(ps[0], base, name, rec).Skipped? then rec
                  else VisitProject(ps[0], base, name, rec).rec;
      assert forall j :: 0 <= j < i - 1 ==> ps[1..][j] == ps[j + 1];
      FirstHitIsRecorded(ps[1..], i - 1, base, name, next);
    }
  }

  /** Conversely, a search that ends with a non-empty deployment path
      recorded the first hit, and every project before it passed over. */
  lemma {:induction false} RecordedIsFirstHit(ps: seq<Project>, base: string, name: string, rec: Record)
    requires rec.deploymentPath == ""
    requires Search(ps, base, name, rec).Reached? && Search(ps, base, name, rec).rec.deploymentPath != ""
    ensures exists i :: && 0 <= i < |ps| && Hit(ps[i], name)
                        && Search(ps, base, name, rec) == Reached(HitRecord(ps[i], base, name))
                        && forall j :: 0 <= j < i ==> PassesOver(ps[j], name)
  {
    assert ps != [];
    if Hit(ps[0], name) {
      VisitOfHit(ps[0], base, name, rec);
      assert 0 < |ps| && Hit(ps[0], name);
    } else if PassesOver(ps[0], name) {
      VisitOfPassesOver(ps[0], base, name, rec);
      var next := if VisitProject(ps[0], base, name, rec).Skipped? then rec
                  else VisitProject(ps[0], base, name, rec).rec;
      assert Search(ps, base, name, rec) == Search(ps[1..], base, name, next);
      RecordedIsFirstHit(ps[1..], base, name, next);
      var i :| && 0 <= i < |ps[1..]| && Hit(ps[1..][i], name)
               && Search(ps[1..], base, name, next) == Reached(HitRecord(ps[1..][i], base, name))
               && forall j :: 0 <= j < i ==> PassesOver(ps[1..][j], name);
      assert ps[i + 1] == ps[1..][i];
      assert forall j :: 1 <= j < i + 1 ==> ps[j] == ps[1..][j - 1];
      assert 0 <= i + 1 < |ps| && Hit(ps[i + 1], name);
    } else {
      VisitOfOthers(ps[0], base, name, rec);
    }
  }

  /** The search ends without a recorded deployment path exactly when every
      project passes over. */
  lemma {:induction false} NotFoundIffAllPassOver(ps: seq<Project>, base: string, name: string, rec: Record)
    requires rec.deploymentPath == ""
    ensures (Search(ps, base, name, rec).Reached? && Search(ps, base, name, rec).rec.deploymentPath == "")
        <==> forall j :: 0 <= j < |ps| ==> PassesOver(ps[j], name)
  {
    if ps != [] {
      if Hit(ps[0], name) {
        VisitOfHit(ps[0], base, name, rec);
      } else if PassesOver(ps[0], name) {
        VisitOfPassesOver(ps[0], base, name, rec);
        var next := if VisitProject(ps[0], base, name, rec).Skipped? then rec
                    else VisitProject(ps[0], base, name, rec).rec;
        assert Search(ps, base, name, rec) == Search(ps[1..], base, name, next);
        NotFoundIffAllPassOver(ps[1..], base, name, next);
        assert forall j :: 1 <= j < |ps| ==> ps[j] == ps[1..][j - 1];
      } else {
        VisitOfOthers(ps[0], base, name, rec);
      }
    }
  }
}
