/**
 The statements behind three events of `QuotaLifecycle`: an account edit, the admin usage call and the
 monitor's tick. Each runs several updates in a row and is proved to be its one event.
 */
module AccountStore {
  import opened Wrappers
  import opened Sequences
  import opened Text
  import opened Accounts
  import opened QuotaLifecycle

  datatype EditError = NotFound | Conflict
  datatype RefreshError = NoCookie | NoWorkspace | QueryFailed

  /** The rows of a table with one of them replaced by its refreshed self. */
  function RefreshedIn(id: string, u: AccountUsage, now: int): KeyRow -> KeyRow {
    (r: KeyRow) => if r.id == id then Refreshed(r, u, now) else r
  }

  /** A tick after the accounts in `done` have been queried. */
  function PartialTick(reports: string -> Option<AccountUsage>, now: int, done: seq<KeyRow>): KeyRow -> KeyRow {
    (r: KeyRow) => if r in done then RefreshIfReported(r, reports(r.id), now) else r
  }

  const IS_MONITORED: KeyRow -> bool := (r: KeyRow) => Monitored(r)

  lemma {:induction false} AdminRefreshIsUpdate(rows: seq<KeyRow>, id: string, report: Option<AccountUsage>, now: int)
    requires UniqueIds(rows)
    ensures Apply(rows, AdminRefresh(id, report, now))
         == match Find(rows, id)
            case Some(row) =>
              if Queryable(row) && report.Some? then Map(rows, RefreshedIn(id, report.value, now)) else rows
            case None => rows
  {
    var e := AdminRefresh(id, report, now);
    FindHas(rows, id);
    forall r | r in rows && r.id == id ensures Find(rows, id) == Some(r) {
      UniqueFind(rows, r);
    }
    assert Find(rows, id).None? ==> forall r :: r in rows ==> Touching(e)(r) == r;
  }

  lemma TickOneMore(rows: seq<KeyRow>, reports: string -> Option<AccountUsage>, now: int,
                    todo: seq<KeyRow>, i: nat)
    requires UniqueIds(rows) && UniqueIds(todo) && i < |todo|
    requires forall r :: r in todo ==> r in rows && Queryable(r)
    ensures var before := Map(rows, PartialTick(reports, now, todo[..i]));
            var after := Map(rows, PartialTick(reports, now, todo[..i + 1]));
            var report := reports(todo[i].id);
            after == if report.Some? then Map(before, RefreshedIn(todo[i].id, report.value, now)) else before
  {
    var f, f' := PartialTick(reports, now, todo[..i]), PartialTick(reports, now, todo[..i + 1]);
    var row, report := todo[i], reports(todo[i].id);
    assert todo[..i + 1] == todo[..i] + [row];
    assert row !in todo[..i];
    forall r | r in rows
      ensures f'(r) == if report.Some? then RefreshedIn(row.id, report.value, now)(f(r)) else f(r)
    {
      assert r.id == row.id ==> r == row by {
        if r.id == row.id {
          UniqueFind(rows, r);
          UniqueFind(rows, row);
        }
      }
      assert f(r).id == r.id;
    }
  }

  lemma TickDone(rows: seq<KeyRow>, reports: string -> Option<AccountUsage>, now: int, todo: seq<KeyRow>)
    requires forall r :: r in todo <==> r in rows && Monitored(r)
    ensures Map(rows, PartialTick(reports, now, todo)) == Apply(rows, MonitorTick(reports, now))
  {
    var e := MonitorTick(reports, now);
    forall r | r in rows ensures PartialTick(reports, now, todo)(r) == Touching(e)(r) {
    }
  }

  /** The row after an edit, column by column. A key that is given replaces the old one and clears the mark. */
  function EditedRow(r: KeyRow, d: KeyData, apiKey: Option<string>, now: int): KeyRow {
    var replaced := apiKey.Some? && Trim(apiKey.value) != "";
    KeyRow(id := r.id,
           name := if Trim(d.name) == "" then r.name else Trim(d.name),
           apiKeyEnc := if replaced then d.apiKeyEnc else r.apiKeyEnc,
           tags := d.tags, notes := d.notes, modelCache := r.modelCache, isEnabled := r.isEnabled,
           accountType := d.accountType, createdAt := r.createdAt, updatedAt := now, proxyId := d.proxyId,
           cookieEnc := r.cookieEnc, workspaceId := r.workspaceId, usageCache := r.usageCache,
           quotaExhaustedAt := if replaced then None else r.quotaExhaustedAt)
  }

  class Store {
    var rows: seq<KeyRow>

    constructor (rows: seq<KeyRow>)
      ensures this.rows == rows
    {
      this.rows := rows;
    }

    method SetUsageCache(id: string, u: AccountUsage)
      modifies this
      ensures rows == UpdateWhere(old(rows), id, (r: KeyRow) => r.(usageCache := Some(u)))
    {
      rows := UpdateWhere(rows, id, (r: KeyRow) => r.(usageCache := Some(u)));
    }

    method SetQuota(id: string, exhausted: bool, now: int)
      modifies this
      ensures rows == SetQuotaExhausted(old(rows), id, exhausted, now)
    {
      rows := SetQuotaExhausted(rows, id, exhausted, now);
    }

    method SetAccountType(id: string, accountType: AccountType, now: int)
      modifies this
      ensures rows == UpdateWhere(old(rows), id, (r: KeyRow) => r.(accountType := accountType, updatedAt := now))
    {
      rows := UpdateWhere(rows, id, (r: KeyRow) => r.(accountType := accountType, updatedAt := now));
    }

    /** `refresh_account_usage`: `report` is what the usage query returns, `None` for any failure on the way. */
    method RefreshAccountUsage(row: KeyRow, report: Option<AccountUsage>, now: int)
      returns (result: Result<AccountUsage, RefreshError>)
      modifies this
      ensures rows == if Queryable(row) && report.Some? then Map(old(rows), RefreshedIn(row.id, report.value, now))
                      else old(rows)
      ensures result == if row.cookieEnc.None? then Failure(NoCookie)
                        else if row.workspaceId.None? then Failure(NoWorkspace)
                        else if report.None? then Failure(QueryFailed)
                        else Success(report.value)
    {
      if row.cookieEnc.None? {
        return Failure(NoCookie);
      }
      if row.workspaceId.None? {
        return Failure(NoWorkspace);
      }
      if report.None? {
        return Failure(QueryFailed);
      }
      var usage := report.value;
      SetUsageCache(row.id, usage);
      if usage.QuotaAvailable().Some? {
        SetQuota(row.id, !usage.QuotaAvailable().value, now);
      }
      SetAccountType(row.id, PlanType(usage.planName), now);
      return Success(usage);
    }

    /** The admin `usage` call. */
    method Usage(id: string, report: Option<AccountUsage>, now: int) returns (found: bool)
      requires UniqueIds(rows)
      modifies this
      ensures rows == Apply(old(rows), AdminRefresh(id, report, now))
      ensures found <==> HasId(old(rows), id)
    {
      AdminRefreshIsUpdate(rows, id, report, now);
      FindHas(rows, id);
      var row := Find(rows, id);
      found := row.Some?;
      if row.Some? {
        var _ := RefreshAccountUsage(row.value, report, now);
      }
    }

    /** `refresh_exhausted_accounts`: one failing query does not stop the others. */
    method RefreshExhaustedAccounts(reports: string -> Option<AccountUsage>, now: int)
      requires UniqueIds(rows)
      modifies this
      ensures rows == Apply(old(rows), MonitorTick(reports, now))
    {
      var todo := Filter(ListKeys(rows), IS_MONITORED);
      SortMembers(rows, CREATED_AT);
      UniqueSort(rows, CREATED_AT);
      UniqueFilter(ListKeys(rows), IS_MONITORED);
      assert Map(rows, PartialTick(reports, now, [])) == rows;
      for i := 0 to |todo|
        invariant rows == Map(old(rows), PartialTick(reports, now, todo[..i]))
      {
        TickOneMore(old(rows), reports, now, todo, i);
        var _ := RefreshAccountUsage(todo[i], reports(todo[i].id), now);
      }
      assert todo[..|todo|] == todo;
      TickDone(old(rows), reports, now, todo);
    }

    /** `keys::update`. A replaced key also clears the mark, in a statement of its own. */
    method Update(id: string, data: KeyData, apiKey: Option<string>, now: int) returns (error: Option<EditError>)
      modifies this
      ensures rows == Apply(old(rows), Event.Update(id, data, apiKey, now))
      ensures error == if !HasId(old(rows), id) then Some(NotFound)
                       else if NameTaken(old(rows), TargetName(old(rows), id, data.name), Some(id)) then Some(Conflict)
                       else None
      ensures |rows| == |old(rows)| && forall i :: 0 <= i < |rows| ==>
                rows[i] == if error.None? && old(rows)[i].id == id then EditedRow(old(rows)[i], data, apiKey, now)
                           else old(rows)[i]
    {
      if !HasId(rows, id) {
        return Some(NotFound);
      }
      if NameTaken(rows, TargetName(rows, id, data.name), Some(id)) {
        return Some(Conflict);
      }
      var edit := (r: KeyRow) => Edited(r, data, apiKey, now);
      rows := UpdateWhere(rows, id, edit);
      if Replaces(apiKey) {
        SetQuota(id, false, now);
      }
      return None;
    }
  }
}
