/** Revisioned delegated-job reports: a conditional UPSERT per report, delivered at least once,
    in any order, possibly repeated. */
module Reports {

  type WorkerId = nat
  type JobId = string
  type SessionId = string

  datatype Report = Report(id: JobId, origin: SessionId, revision: nat, content: string)

  /** The report-owned part of a job row; `delegated` is kind='delegated'. */
  datatype Row = Row(worker: WorkerId, origin: SessionId, delegated: bool, revision: nat, content: string)

  datatype Error = UnknownOrigin | ForeignOrigin | ForeignJob
  datatype Answer = Stored(row: Row, changed: bool) | Refused(error: Error)

  /** Which worker each origin session belongs to. */
  type Origins = map<SessionId, WorkerId>
  type Rows = map<JobId, Row>

  datatype Delivery = Delivery(worker: WorkerId, report: Report)

  predicate Authorized(origins: Origins, d: Delivery) {
    d.report.origin in origins && origins[d.report.origin] == d.worker
  }

  function Fresh(d: Delivery): Row {
    Row(d.worker, d.report.origin, true, d.report.revision, d.report.content)
  }

  /** The WHERE of the ON CONFLICT update. */
  predicate Supersedes(d: Delivery, row: Row) {
    row.worker == d.worker && row.origin == d.report.origin && row.delegated && row.revision < d.report.revision
  }

  function Upsert(origins: Origins, rows: Rows, d: Delivery): (Rows, Answer) {
    if d.report.origin !in origins then (rows, Refused(UnknownOrigin))
    else if origins[d.report.origin] != d.worker then (rows, Refused(ForeignOrigin))
    else if d.report.id !in rows then (rows[d.report.id := Fresh(d)], Stored(Fresh(d), true))
    else
      var row := rows[d.report.id];
      if Supersedes(d, row) then
        var next := row.(revision := d.report.revision, content := d.report.content);
        (rows[d.report.id := next], Stored(next, true))
      else if row.worker != d.worker || row.origin != d.report.origin then (rows, Refused(ForeignJob))
      else (rows, Stored(row, false))
  }

  function DeliverAll(origins: Origins, rows: Rows, ds: seq<Delivery>): Rows {
    if ds == [] then rows
    else Upsert(origins, DeliverAll(origins, rows, ds[..|ds| - 1]), ds[|ds| - 1]).0
  }

  class ReportStore {
    const origins: Origins
    var rows: Rows

    constructor (origins: Origins)
      ensures this.origins == origins && rows == map[]
    {
      this.origins := origins;
      rows := map[];
    }

    method UpsertReported(worker: WorkerId, report: Report) returns (answer: Answer)
      modifies this
      ensures (rows, answer) == Upsert(origins, old(rows), Delivery(worker, report))
      // who is refused
      ensures answer == Refused(UnknownOrigin) <==> report.origin !in origins
      ensures answer == Refused(ForeignOrigin) <==> report.origin in origins && origins[report.origin] != worker
      ensures answer == Refused(ForeignJob) <==>
              && report.origin in origins && origins[report.origin] == worker && report.id in old(rows)
              && (old(rows)[report.id].worker != worker || old(rows)[report.id].origin != report.origin)
      ensures answer.Refused? ==> rows == old(rows)
      // what is stored otherwise: a first report, a newer one of a delegated job, or nothing
      ensures answer.Stored? ==> rows == old(rows)[report.id := answer.row]
      ensures answer.Stored? && report.id !in old(rows) ==>
                answer == Stored(Row(worker, report.origin, true, report.revision, report.content), true)
      ensures answer.Stored? && report.id in old(rows) ==>
                var row := old(rows)[report.id];
                answer == if row.delegated && row.revision < report.revision
                          then Stored(row.(revision := report.revision, content := report.content), true)
                          else Stored(row, false)
    {
      if report.origin !in origins { return Refused(UnknownOrigin); }
      if origins[report.origin] != worker { return Refused(ForeignOrigin); }
      var changed := false;
      if report.id !in rows {
        rows := rows[report.id := Fresh(Delivery(worker, report))];
        changed := true;
      } else if Supersedes(Delivery(worker, report), rows[report.id]) {
        rows := rows[report.id := rows[report.id].(revision := report.revision, content := report.content)];
        changed := true;
      }
      var row := rows[report.id];
      if row.worker != worker || row.origin != report.origin {
        return Refused(ForeignJob);
      }
      return Stored(row, changed);
    }

    /** One posted batch: the first refusal ends it, and what was stored before stays. */
    method Batch(worker: WorkerId, reports: seq<Report>) returns (applied: nat, refused: bool)
      modifies this
      ensures var n := FirstRefusal(origins, old(rows), FromWorker(worker, reports));
              && refused == (n < |reports|)
              && rows == DeliverAll(origins, old(rows), FromWorker(worker, reports)[..n])
              && applied == Changes(origins, old(rows), FromWorker(worker, reports)[..n])
    {
      hide Upsert, Supersedes, DeliverAll, Changes;
      ghost var ds := FromWorker(worker, reports);
      applied := 0;
      var k := 0;
      NothingDelivered(origins, rows);
      assert ds[..0] == [];
      while k < |reports|
        invariant 0 <= k <= |reports|
        invariant rows == DeliverAll(origins, old(rows), ds[..k])
        invariant applied == Changes(origins, old(rows), ds[..k])
        invariant forall i :: 0 <= i < k ==> AnswerAt(origins, old(rows), ds, i).Stored?
      {
        DeliverOne(origins, old(rows), ds, k);
        UnchangedKeeps(origins, rows, ds[k]);
        var answer := UpsertReported(worker, reports[k]);
        if answer.Refused? {
          FirstRefusalIs(origins, old(rows), ds, k);
          return applied, true;
        }
        if answer.changed { applied := applied + 1; }
        k := k + 1;
      }
      FirstRefusalIs(origins, old(rows), ds, k);
      return applied, false;
    }
  }

  /** What report `k` of a series is answered. */
  function AnswerAt(origins: Origins, rows: Rows, ds: seq<Delivery>, k: nat): Answer
    requires k < |ds|
  {
    Upsert(origins, DeliverAll(origins, rows, ds[..k]), ds[k]).1
  }

  /** The index of the first refused report; the length of the series if there is none. */
  function FirstRefusal(origins: Origins, rows: Rows, ds: seq<Delivery>): (n: nat)
    ensures n <= |ds|
    ensures n < |ds| ==> AnswerAt(origins, rows, ds, n).Refused?
    ensures forall i :: 0 <= i < n ==> AnswerAt(origins, rows, ds, i).Stored?
  {
    if ds == [] then 0
    else
      var init := ds[..|ds| - 1];
      assert forall i :: 0 <= i < |init| ==> init[..i] == ds[..i] && init[i] == ds[i];
      var n := FirstRefusal(origins, rows, init);
      assert forall i :: 0 <= i < |init| ==> AnswerAt(origins, rows, init, i) == AnswerAt(origins, rows, ds, i);
      if n < |init| then n else if AnswerAt(origins, rows, ds, |init|).Refused? then |init| else |ds|
  }

  /** How many reports of a series were newer than what was stored. */
  function Changes(origins: Origins, rows: Rows, ds: seq<Delivery>): nat {
    if ds == [] then 0
    else
      var last := AnswerAt(origins, rows, ds, |ds| - 1);
      Changes(origins, rows, ds[..|ds| - 1]) + (if last.Stored? && last.changed then 1 else 0)
  }

  lemma FirstRefusalIs(origins: Origins, rows: Rows, ds: seq<Delivery>, k: nat)
    requires k <= |ds| && (k < |ds| ==> AnswerAt(origins, rows, ds, k).Refused?)
    requires forall i :: 0 <= i < k ==> AnswerAt(origins, rows, ds, i).Stored?
    ensures FirstRefusal(origins, rows, ds) == k
  {
    hide AnswerAt;
  }

  lemma NothingDelivered(origins: Origins, rows: Rows)
    ensures DeliverAll(origins, rows, []) == rows && Changes(origins, rows, []) == 0
  {
  }

  lemma DeliverOne(origins: Origins, rows: Rows, ds: seq<Delivery>, k: nat)
    requires k < |ds|
    ensures (DeliverAll(origins, rows, ds[..k + 1]), AnswerAt(origins, rows, ds, k))
            == Upsert(origins, DeliverAll(origins, rows, ds[..k]), ds[k])
    ensures Changes(origins, rows, ds[..k + 1])
            == Changes(origins, rows, ds[..k])
               + (if AnswerAt(origins, rows, ds, k).Stored? && AnswerAt(origins, rows, ds, k).changed then 1 else 0)
  {
    hide Upsert;
    assert ds[..k + 1][..k] == ds[..k] && ds[..k + 1][k] == ds[k];
  }

  function FromWorker(worker: WorkerId, reports: seq<Report>): seq<Delivery> {
    seq(|reports|, k requires 0 <= k < |reports| => Delivery(worker, reports[k]))
  }

  lemma UnchangedKeeps(origins: Origins, rows: Rows, d: Delivery)
    ensures var (next, answer) := Upsert(origins, rows, d);
            answer.Refused? || !answer.changed ==> next == rows
  {
  }

  // ---------------------------------------------------------------- what one report does

  /** The revision a reader sees; 0 before the first report. */
  function Revision(rows: Rows, id: JobId): nat {
    if id in rows && rows[id].delegated then rows[id].revision else 0
  }

  /** `changed` is true exactly when the stored revision strictly increased, a stored answer is never
      older than the report, no other row moves, and no row's identity ever changes. */
  lemma ChangedIffNewer(origins: Origins, rows: Rows, d: Delivery)
    requires d.report.revision >= 1
    ensures var (next, answer) := Upsert(origins, rows, d);
            && (answer.Stored? && answer.changed <==> Revision(next, d.report.id) > Revision(rows, d.report.id))
            && Revision(next, d.report.id) >= Revision(rows, d.report.id)
            && (answer.Stored? && answer.row.delegated ==> answer.row.revision >= d.report.revision)
            && (forall j :: j != d.report.id ==> (j in next <==> j in rows) && (j in rows ==> next[j] == rows[j]))
            && (forall j :: j in rows ==> j in next && next[j].worker == rows[j].worker
                                          && next[j].origin == rows[j].origin && next[j].delegated == rows[j].delegated)
  {
  }

  // ---------------------------------------------------------------- any sequence of reports

  /** The deliveries that speak for this job: authorized, and from its worker and origin session. */
  function Mine(origins: Origins, ds: seq<Delivery>, id: JobId, worker: WorkerId, origin: SessionId): seq<Report> {
    if ds == [] then []
    else
      var rest := Mine(origins, ds[..|ds| - 1], id, worker, origin);
      var d := ds[|ds| - 1];
      if Authorized(origins, d) && d.report.id == id && d.worker == worker && d.report.origin == origin
      then rest + [d.report] else rest
  }

  /** The first report that carries the greatest revision. */
  ghost predicate IsLatest(rs: seq<Report>, revision: nat, content: string) {
    exists k :: 0 <= k < |rs| && rs[k].revision == revision && rs[k].content == content
                && (forall i :: 0 <= i < |rs| ==> rs[i].revision <= revision)
                && (forall i :: 0 <= i < k ==> rs[i].revision < revision)
  }

  predicate Reported(origins: Origins, ds: seq<Delivery>, id: JobId) {
    exists k :: 0 <= k < |ds| && Authorized(origins, ds[k]) && ds[k].report.id == id
  }

  /** After any deliveries, from any workers and for any jobs, a job that was not in the table exists
      exactly if an authorized report named it, and its row holds the greatest revision delivered by
      its worker and origin session with the content of that revision's first delivery. */
  lemma {:induction false} HoldsLatest(origins: Origins, rows: Rows, ds: seq<Delivery>, id: JobId)
    requires id !in rows
    ensures var now := DeliverAll(origins, rows, ds);
            && (id in now <==> Reported(origins, ds, id))
            && (id in now ==> now[id].delegated
                              && IsLatest(Mine(origins, ds, id, now[id].worker, now[id].origin),
                                          now[id].revision, now[id].content))
  {
    hide IsLatest;
    if ds != [] {
      var init := ds[..|ds| - 1];
      var d := ds[|ds| - 1];
      HoldsLatest(origins, rows, init, id);
      var before := DeliverAll(origins, rows, init);
      ReportedSnoc(origins, ds, id);
      if id !in before && Authorized(origins, d) && d.report.id == id {
        NoneMine(origins, init, id, d.worker, d.report.origin);
        LatestFirst(d.report);
        assert [] + [d.report] == [d.report];
      } else if id in before && Authorized(origins, d) && d.report.id == id
                && before[id].worker == d.worker && before[id].origin == d.report.origin {
        LatestSnoc(Mine(origins, init, id, d.worker, d.report.origin),
                   before[id].revision, before[id].content, d.report);
      }
    }
  }

  lemma ReportedSnoc(origins: Origins, ds: seq<Delivery>, id: JobId)
    requires ds != []
    ensures Reported(origins, ds, id) <==>
            Reported(origins, ds[..|ds| - 1], id) || (Authorized(origins, ds[|ds| - 1]) && ds[|ds| - 1].report.id == id)
  {
    var init := ds[..|ds| - 1];
    if Reported(origins, init, id) {
      var k :| 0 <= k < |init| && Authorized(origins, init[k]) && init[k].report.id == id;
      assert ds[k] == init[k];
    }
    if Reported(origins, ds, id) {
      var k :| 0 <= k < |ds| && Authorized(origins, ds[k]) && ds[k].report.id == id;
      assert k < |init| ==> init[k] == ds[k];
    }
  }

  lemma {:induction false} NoneMine(origins: Origins, ds: seq<Delivery>, id: JobId, worker: WorkerId, origin: SessionId)
    requires !Reported(origins, ds, id)
    ensures Mine(origins, ds, id, worker, origin) == []
  {
    if ds != [] {
      ReportedSnoc(origins, ds, id);
      NoneMine(origins, ds[..|ds| - 1], id, worker, origin);
    }
  }

  lemma LatestFirst(r: Report)
    ensures IsLatest([r], r.revision, r.content)
  {
    assert [r][0] == r;
  }

  lemma LatestSnoc(rs: seq<Report>, revision: nat, content: string, r: Report)
    requires IsLatest(rs, revision, content)
    ensures if r.revision > revision then IsLatest(rs + [r], r.revision, r.content)
            else IsLatest(rs + [r], revision, content)
  {
    var k :| 0 <= k < |rs| && rs[k].revision == revision && rs[k].content == content
             && (forall i :: 0 <= i < |rs| ==> rs[i].revision <= revision)
             && (forall i :: 0 <= i < k ==> rs[i].revision < revision);
    assert (rs + [r])[k] == rs[k] && (rs + [r])[|rs|] == r;
  }

  // ---------------------------------------------------------------- convergence

  /** A worker never sends two different contents under one revision of a job. */
  ghost predicate ContentByRevision(rs: seq<Report>, qs: seq<Report>) {
    forall i, j :: 0 <= i < |rs| && 0 <= j < |qs| && rs[i].revision == qs[j].revision ==> rs[i].content == qs[j].content
  }

  ghost predicate SameReports(rs: seq<Report>, qs: seq<Report>) {
    forall r :: r in rs <==> r in qs
  }

  lemma LatestUnique(rs: seq<Report>, qs: seq<Report>, m: nat, a: string, n: nat, b: string)
    requires IsLatest(rs, m, a) && IsLatest(qs, n, b)
    requires SameReports(rs, qs) && ContentByRevision(rs, qs)
    ensures m == n && a == b
  {
    var k :| 0 <= k < |rs| && rs[k].revision == m && rs[k].content == a
             && (forall i :: 0 <= i < |rs| ==> rs[i].revision <= m);
    var l :| 0 <= l < |qs| && qs[l].revision == n && qs[l].content == b
             && (forall i :: 0 <= i < |qs| ==> qs[i].revision <= n);
    assert rs[k] in qs && qs[l] in rs;
  }

  /** Two servers that got the same reports of one job, in any order, with any repetitions and any
      other traffic in between, store the same row. */
  lemma Converge(origins: Origins, rows: Rows, rows': Rows, ds: seq<Delivery>, ds': seq<Delivery>, id: JobId)
    requires id !in rows && id !in rows'
    requires var now, now' := DeliverAll(origins, rows, ds), DeliverAll(origins, rows', ds');
             id in now && id in now' ==> now[id].worker == now'[id].worker && now[id].origin == now'[id].origin
    requires forall w, o :: SameReports(Mine(origins, ds, id, w, o), Mine(origins, ds', id, w, o))
                            && ContentByRevision(Mine(origins, ds, id, w, o), Mine(origins, ds', id, w, o))
    ensures var now, now' := DeliverAll(origins, rows, ds), DeliverAll(origins, rows', ds');
            (id in now <==> id in now') && (id in now ==> now[id] == now'[id])
  {
    hide IsLatest, DeliverAll;
    var now, now' := DeliverAll(origins, rows, ds), DeliverAll(origins, rows', ds');
    HoldsLatest(origins, rows, ds, id);
    HoldsLatest(origins, rows', ds', id);
    Mirrors(origins, ds, ds', id);
    Mirrors(origins, ds', ds, id);
    if id in now {
      var w, o := now[id].worker, now[id].origin;
      LatestUnique(Mine(origins, ds, id, w, o), Mine(origins, ds', id, w, o),
                   now[id].revision, now[id].content, now'[id].revision, now'[id].content);
    }
  }

  lemma Mirrors(origins: Origins, ds: seq<Delivery>, ds': seq<Delivery>, id: JobId)
    requires forall w, o :: SameReports(Mine(origins, ds, id, w, o), Mine(origins, ds', id, w, o))
    ensures Reported(origins, ds, id) ==> Reported(origins, ds', id)
  {
    if Reported(origins, ds, id) {
      var k :| 0 <= k < |ds| && Authorized(origins, ds[k]) && ds[k].report.id == id;
      var w, o := ds[k].worker, ds[k].report.origin;
      MineHas(origins, ds, k);
      assert ds[k].report in Mine(origins, ds', id, w, o);
      if !Reported(origins, ds', id) { NoneMine(origins, ds', id, w, o); }
    }
  }

  lemma {:induction false} MineHas(origins: Origins, ds: seq<Delivery>, k: nat)
    requires k < |ds| && Authorized(origins, ds[k])
    ensures ds[k].report in Mine(origins, ds, ds[k].report.id, ds[k].worker, ds[k].report.origin)
    decreases |ds|
  {
    var init := ds[..|ds| - 1];
    if k < |init| {
      assert init[k] == ds[k];
      MineHas(origins, init, k);
    }
  }
}
