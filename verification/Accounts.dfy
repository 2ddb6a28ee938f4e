/**
 The `api_keys` table (src/db.rs) and the account usage report (src/models.rs).

 A table is a sequence of rows in rowid order. SQL's `UPDATE ... WHERE id = ?` keeps every row's
 place, so an update is a map over the sequence.
 */
module Accounts {
  import opened Wrappers
  import opened Sequences
  import opened Text

  datatype AccountType = Normal | Go

  datatype AccountUsage = AccountUsage(
    planName: string,
    balanceMicrocents: Option<int>,
    monthlyLimitMicrocents: Option<int>,
    monthlyUsageMicrocents: Option<int>,
    rolling: Option<real>,
    weekly: Option<real>,
    monthly: Option<real>)
  {
    /** The remaining percentages of the windows that were reported. */
    function Remaining(): seq<real> {
      (if rolling.Some? then [rolling.value] else [])
      + (if weekly.Some? then [weekly.value] else [])
      + (if monthly.Some? then [monthly.value] else [])
    }

    function QuotaAvailable(): Option<bool> {
      if Remaining() != [] then
        Some(forall w :: w in Remaining() ==> w > 0.0)
      else if monthlyLimitMicrocents.Some? && monthlyUsageMicrocents.Some?
              && monthlyLimitMicrocents.value > 0 then
        Some(monthlyUsageMicrocents.value < monthlyLimitMicrocents.value)
      else if balanceMicrocents.Some? then
        Some(balanceMicrocents.value > 0)
      else
        None
    }

    /** `rolling`, `weekly` and `monthly`, looked at one by one. */
    predicate WindowExhausted() {
      || (rolling.Some? && rolling.value <= 0.0)
      || (weekly.Some? && weekly.value <= 0.0)
      || (monthly.Some? && monthly.value <= 0.0)
    }
  }

  /** Windows outrank billing: one empty window blocks, and billing is read only when none is reported. */
  lemma WindowsOutrankBilling(u: AccountUsage, v: AccountUsage)
    ensures u.WindowExhausted() <==> u.Remaining() != [] && u.QuotaAvailable() == Some(false)
    ensures u.rolling == v.rolling && u.weekly == v.weekly && u.monthly == v.monthly
            && (u.rolling.Some? || u.weekly.Some? || u.monthly.Some?)
            ==> u.QuotaAvailable() == v.QuotaAvailable()
  {
    var r := u.Remaining();
    assert u.rolling.Some? ==> u.rolling.value in r;
    assert u.weekly.Some? ==> u.weekly.value in r;
    assert u.monthly.Some? ==> u.monthly.value in r;
    forall w | w in r ensures Some(w) in {u.rolling, u.weekly, u.monthly} {
    }
    if u.QuotaAvailable() == Some(false) && r != [] {
      var w :| w in r && w <= 0.0;
      assert Some(w) in {u.rolling, u.weekly, u.monthly};
    }
  }

  datatype KeyRow = KeyRow(
    id: string,
    name: string,
    apiKeyEnc: string,
    tags: seq<string>,
    notes: string,
    modelCache: seq<string>,
    isEnabled: bool,
    accountType: AccountType,
    createdAt: int,
    updatedAt: int,
    proxyId: Option<string>,
    cookieEnc: Option<string>,
    workspaceId: Option<string>,
    usageCache: Option<AccountUsage>,
    quotaExhaustedAt: Option<int>)

  /** A row of the `proxies` table. */
  datatype ProxyRow = ProxyRow(id: string, name: string, urlEnc: string, createdAt: int, updatedAt: int)

  ghost predicate UniqueIds(rows: seq<KeyRow>) {
    forall i, j :: 0 <= i < j < |rows| ==> rows[i].id != rows[j].id
  }

  /** COLLATE NOCASE. */
  predicate SameName(a: string, b: string) {
    Lower(a) == Lower(b)
  }

  function OtherThan(id: string): KeyRow -> bool {
    (r: KeyRow) => r.id != id
  }

  predicate HasId(rows: seq<KeyRow>, id: string) {
    exists r :: r in rows && r.id == id
  }

  /** `UPDATE api_keys SET ... WHERE id = ?`. */
  function UpdateWhere(rows: seq<KeyRow>, id: string, f: KeyRow -> KeyRow): seq<KeyRow> {
    Map(rows, (r: KeyRow) => if r.id == id then f(r) else r)
  }

  function MarkRow(r: KeyRow, now: int): KeyRow {
    r.(quotaExhaustedAt := Coalesce(r.quotaExhaustedAt, Some(now)), updatedAt := now)
  }

  function ClearRow(r: KeyRow, now: int): KeyRow {
    r.(quotaExhaustedAt := None, updatedAt := now)
  }

  function SetQuotaExhausted(rows: seq<KeyRow>, id: string, exhausted: bool, now: int): seq<KeyRow> {
    UpdateWhere(rows, id, (r: KeyRow) => if exhausted then MarkRow(r, now) else ClearRow(r, now))
  }

  const CREATED_AT: KeyRow -> int := (r: KeyRow) => r.createdAt

  /** `SELECT ... ORDER BY created_at DESC`, ties in rowid order. */
  function ListKeys(rows: seq<KeyRow>): seq<KeyRow> {
    StableSort(rows, CREATED_AT)
  }

  // ---- identifiers stay unique ------------------------------------------------------------------

  const ID_OF: KeyRow -> string := (r: KeyRow) => r.id

  lemma UniqueIsDistinct(s: seq<KeyRow>)
    ensures UniqueIds(s) <==> DistinctBy(s, ID_OF)
  {
  }

  lemma UniqueFilter(s: seq<KeyRow>, p: KeyRow -> bool)
    requires UniqueIds(s)
    ensures UniqueIds(Filter(s, p))
  {
    UniqueIsDistinct(s);
    DistinctFilter(s, ID_OF, p);
    UniqueIsDistinct(Filter(s, p));
  }

  lemma UniqueSort(s: seq<KeyRow>, key: KeyRow -> int)
    requires UniqueIds(s)
    ensures UniqueIds(StableSort(s, key))
  {
    UniqueIsDistinct(s);
    DistinctSort(s, ID_OF, key);
    UniqueIsDistinct(StableSort(s, key));
  }

  lemma SetQuotaKeepsIds(rows: seq<KeyRow>, id: string, exhausted: bool, now: int)
    requires UniqueIds(rows)
    ensures UniqueIds(SetQuotaExhausted(rows, id, exhausted, now))
  {
  }

  lemma UniqueMap(s: seq<KeyRow>, f: KeyRow -> KeyRow)
    requires UniqueIds(s)
    requires forall r :: r in s ==> f(r).id == r.id
    ensures UniqueIds(Map(s, f))
  {
  }
}
