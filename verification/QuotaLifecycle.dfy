/**
 The life of an account's quota mark (src/db.rs, src/account_monitor.rs, src/routes/keys.rs).

 Every handler that writes the account table is one event. The main result says what the mark is
 after any run of events: the time of the first mark since the last clear.
 */
module QuotaLifecycle {
  import opened Wrappers
  import opened Sequences
  import opened Text
  import opened Accounts

  /** The fields a create or an edit writes. */
  datatype KeyData = KeyData(
    name: string, apiKeyEnc: string, tags: seq<string>, notes: string, accountType: AccountType,
    proxyId: Option<string>)

  datatype Event =
    | Create(id: string, data: KeyData, enabled: bool, now: int)
    | ImportCookie(id: string, data: KeyData, cookieEnc: string, workspaceId: string, now: int)
    | Update(id: string, data: KeyData, apiKey: Option<string>, now: int)
    | ImportOver(data: KeyData, enabled: bool, now: int)
    | Toggle(id: string, enabled: bool, now: int)
    | Delete(id: string)
    | QuotaFailure(id: string, now: int)
    | AdminRefresh(id: string, report: Option<AccountUsage>, now: int)
    | MonitorTick(reports: string -> Option<AccountUsage>, now: int)
    | CacheModels(id: string, models: seq<string>, now: int)
    | DetachProxy(proxyId: string)

  // ---- one event ----------------------------------------------------------------------------------

  /** The unique index on `name COLLATE NOCASE`, leaving aside the row being edited. */
  predicate NameTaken(rows: seq<KeyRow>, name: string, except: Option<string>) {
    exists r :: r in rows && SameName(r.name, name) && Some(r.id) != except
  }

  function NewRow(id: string, d: KeyData, enabled: bool, cookie: Option<string>, workspace: Option<string>,
                  now: int): KeyRow
  {
    KeyRow(id, d.name, d.apiKeyEnc, d.tags, d.notes, [], enabled, d.accountType, now, now, d.proxyId,
           cookie, workspace, None, None)
  }

  function InsertKey(rows: seq<KeyRow>, row: KeyRow): seq<KeyRow> {
    if HasId(rows, row.id) || NameTaken(rows, row.name, None) then rows else rows + [row]
  }

  predicate Blank(s: string) {
    Trim(s) == ""
  }

  predicate Replaces(apiKey: Option<string>) {
    apiKey.Some? && !Blank(apiKey.value)
  }

  /** A blank name or key keeps the stored one; the enabled flag is always kept. */
  function Edited(r: KeyRow, d: KeyData, apiKey: Option<string>, now: int): KeyRow {
    r.(name := if Blank(d.name) then r.name else Trim(d.name),
       apiKeyEnc := if Replaces(apiKey) then d.apiKeyEnc else r.apiKeyEnc,
       tags := d.tags, notes := d.notes, accountType := d.accountType, proxyId := d.proxyId,
       updatedAt := now)
  }

  function EditedOver(r: KeyRow, d: KeyData, enabled: bool, now: int): KeyRow {
    r.(apiKeyEnc := d.apiKeyEnc, tags := d.tags, notes := d.notes, isEnabled := enabled,
       accountType := d.accountType, proxyId := d.proxyId, updatedAt := now)
  }

  predicate Queryable(r: KeyRow) {
    r.cookieEnc.Some? && r.workspaceId.Some?
  }

  predicate Monitored(r: KeyRow) {
    r.isEnabled && r.quotaExhaustedAt.Some? && Queryable(r)
  }

  function PlanType(planName: string): AccountType {
    if Lower(planName) == Lower("OpenCode Go") then Go else Normal
  }

  /** What one successful usage query writes: the report, perhaps the mark, and the account type. */
  function Refreshed(r: KeyRow, u: AccountUsage, now: int): KeyRow {
    var marked := match u.QuotaAvailable()
                  case Some(available) => if available then ClearRow(r, now) else MarkRow(r, now)
                  case None => r;
    marked.(usageCache := Some(u), accountType := PlanType(u.planName), updatedAt := now)
  }

  function RefreshIfReported(r: KeyRow, report: Option<AccountUsage>, now: int): KeyRow {
    if Queryable(r) && report.Some? then Refreshed(r, report.value, now) else r
  }

  function Find(rows: seq<KeyRow>, id: string): Option<KeyRow> {
    if rows == [] then None
    else if rows[0].id == id then Some(rows[0])
    else Find(rows[1..], id)
  }

  /** The name an update asks for: the input's, trimmed, or the stored one when that is blank. */
  function TargetName(rows: seq<KeyRow>, id: string, name: string): string {
    if Blank(name) && Find(rows, id).Some? then Find(rows, id).value.name else Trim(name)
  }

  predicate UpdateAccepted(rows: seq<KeyRow>, id: string, name: string) {
    HasId(rows, id) && !NameTaken(rows, TargetName(rows, id, name), Some(id))
  }

  predicate Accepted(rows: seq<KeyRow>, e: Event) {
    e.Update? ==> UpdateAccepted(rows, e.id, e.data.name)
  }

  /** What an accepted event writes to a row: `UPDATE api_keys SET ... WHERE ...`. */
  function Touch(e: Event, r: KeyRow): KeyRow {
    match e
    case Update(id, d, apiKey, now) =>
      if r.id != id then r
      else if Replaces(apiKey) then ClearRow(Edited(r, d, apiKey, now), now)
      else Edited(r, d, apiKey, now)
    case ImportOver(d, enabled, now) => if SameName(r.name, d.name) then EditedOver(r, d, enabled, now) else r
    case Toggle(id, enabled, now) => if r.id == id then r.(isEnabled := enabled, updatedAt := now) else r
    case QuotaFailure(id, now) => if r.id == id then MarkRow(r, now) else r
    case AdminRefresh(id, report, now) => if r.id == id then RefreshIfReported(r, report, now) else r
    case MonitorTick(reports, now) =>
      if Monitored(r) then RefreshIfReported(r, reports(r.id), now) else r
    case CacheModels(id, models, now) => if r.id == id then r.(modelCache := models, updatedAt := now) else r
    case DetachProxy(proxyId) => if r.proxyId == Some(proxyId) then r.(proxyId := None) else r
    case _ => r
  }

  function Touching(e: Event): KeyRow -> KeyRow {
    (r: KeyRow) => Touch(e, r)
  }

  function Apply(rows: seq<KeyRow>, e: Event): seq<KeyRow> {
    match e
    case Create(id, d, enabled, now) => InsertKey(rows, NewRow(id, d, enabled, None, None, now))
    case ImportCookie(id, d, cookie, workspace, now) =>
      InsertKey(rows, NewRow(id, d, true, Some(cookie), Some(workspace), now))
    case Delete(id) => Filter(rows, OtherThan(id))
    case _ => if Accepted(rows, e) then Map(rows, Touching(e)) else rows
  }

  // ---- what counts as a mark and as a clear -------------------------------------------------------

  function Verdict(r: KeyRow, e: Event): Option<bool> {
    match e
    case AdminRefresh(id, report, _) =>
      if r.id == id && Queryable(r) && report.Some? then report.value.QuotaAvailable() else None
    case MonitorTick(reports, _) =>
      if Monitored(r) && reports(r.id).Some? then reports(r.id).value.QuotaAvailable() else None
    case _ => None
  }

  /** The time at which event `e` reports account `x` exhausted, if it does. */
  function MarkTime(rows: seq<KeyRow>, e: Event, x: string): Option<int> {
    match Find(rows, x)
    case None => None
    case Some(r) =>
      if e.QuotaFailure? && e.id == x then Some(e.now)
      else if Verdict(r, e) == Some(false) then
        match e case AdminRefresh(_, _, now) => Some(now) case MonitorTick(_, now) => Some(now) case _ => None
      else None
  }

  /** A confirmed recovery, a replaced API key, or the account's own creation. */
  predicate Clears(rows: seq<KeyRow>, e: Event, x: string) {
    match Find(rows, x)
    case None => Find(Apply(rows, e), x).Some?
    case Some(r) =>
      || Verdict(r, e) == Some(true)
      || (e.Update? && e.id == x && Replaces(e.apiKey) && UpdateAccepted(rows, x, e.data.name))
  }

  // ---- runs ---------------------------------------------------------------------------------------

  /** The table before event `i` of a run that starts with no account. */
  function State(events: seq<Event>, i: nat): seq<KeyRow>
    requires i <= |events|
  {
    if i == 0 then [] else Apply(State(events, i - 1), events[i - 1])
  }

  /** For account `x`: which events clear its mark. */
  function ClearHistory(events: seq<Event>, x: string): nat -> bool {
    (i: nat) => i < |events| && Clears(State(events, i), events[i], x)
  }

  /** For account `x`: at what time, if any, each event marks it. */
  function MarkHistory(events: seq<Event>, x: string): nat -> Option<int> {
    (i: nat) => if i < |events| then MarkTime(State(events, i), events[i], x) else None
  }

  /** The position just after the last clear before `n`, or 0. */
  function AfterLast(n: nat, clears: nat -> bool): (p: nat)
    ensures p <= n
    ensures p == 0 || clears(p - 1)
    ensures forall j: nat :: p <= j < n ==> !clears(j)
  {
    if n == 0 then 0 else if clears(n - 1) then n else AfterLast(n - 1, clears)
  }

  /** The first mark in positions `p` to `n`. */
  function FirstFrom(p: nat, n: nat, marks: nat -> Option<int>): (t: Option<int>)
    requires p <= n
    ensures t.None? ==> forall j: nat :: p <= j < n ==> marks(j).None?
    ensures t.Some? ==> exists i: nat :: p <= i < n && marks(i) == t
                                         && forall j: nat :: p <= j < i ==> marks(j).None?
    decreases n - p
  {
    if p == n then None
    else if marks(p).Some? then marks(p)
    else FirstFrom(p + 1, n, marks)
  }

  lemma {:induction false} FirstFromExtends(p: nat, n: nat, marks: nat -> Option<int>)
    requires p <= n
    ensures FirstFrom(p, n + 1, marks) == Coalesce(FirstFrom(p, n, marks), marks(n))
    decreases n - p
  {
    if p < n {
      FirstFromExtends(p + 1, n, marks);
    }
  }

  // ---- finding rows after an event ----------------------------------------------------------------

  lemma {:induction false} FindMap(rows: seq<KeyRow>, f: KeyRow -> KeyRow, x: string)
    requires forall r :: r in rows ==> f(r).id == r.id
    ensures Find(Map(rows, f), x) == match Find(rows, x) case Some(r) => Some(f(r)) case None => None
  {
    if rows != [] {
      FindMap(rows[1..], f, x);
      assert Map(rows, f)[1..] == Map(rows[1..], f);
      assert Map(rows, f)[0] == f(rows[0]);
    }
  }

  lemma {:induction false} FindFilter(rows: seq<KeyRow>, p: KeyRow -> bool, x: string)
    requires forall r :: r in rows && r.id == x ==> p(r)
    ensures Find(Filter(rows, p), x) == Find(rows, x)
  {
    if rows != [] {
      FindFilter(rows[1..], p, x);
      assert p(rows[0]) ==> Filter(rows, p)[1..] == Filter(rows[1..], p);
    }
  }

  lemma {:induction false} FindAppend(rows: seq<KeyRow>, r: KeyRow, x: string)
    ensures Find(rows + [r], x)
         == if Find(rows, x).Some? then Find(rows, x) else if r.id == x then Some(r) else None
  {
    if rows != [] {
      assert (rows + [r])[1..] == rows[1..] + [r];
      FindAppend(rows[1..], r, x);
    } else {
      assert (rows + [r])[1..] == [];
    }
  }

  lemma {:induction false} FindHas(rows: seq<KeyRow>, x: string)
    ensures Find(rows, x).Some? <==> HasId(rows, x)
    ensures Find(rows, x).Some? ==> Find(rows, x).value in rows && Find(rows, x).value.id == x
  {
    if rows != [] {
      FindHas(rows[1..], x);
      if rows[0].id != x {
        assert HasId(rows, x) <==> HasId(rows[1..], x);
      } else {
        assert rows[0] in rows;
      }
    }
  }

  lemma {:induction false} UniqueFind(rows: seq<KeyRow>, r: KeyRow)
    requires UniqueIds(rows) && r in rows
    ensures Find(rows, r.id) == Some(r)
  {
    FindHas(rows, r.id);
    assert HasId(rows, r.id);
  }

  /** An event that finds account `x` leaves its row touched, untouched or deleted. */
  lemma {:induction false} EventOnPresentRow(rows: seq<KeyRow>, e: Event, x: string)
    requires Find(rows, x).Some?
    ensures var r := Find(rows, x).value;
            Find(Apply(rows, e), x)
            == if e == Delete(x) then None else if Accepted(rows, e) then Some(Touch(e, r)) else Some(r)
  {
    FindHas(rows, x);
    if e.Create? {
      FindAppend(rows, NewRow(e.id, e.data, e.enabled, None, None, e.now), x);
    } else if e.ImportCookie? {
      FindAppend(rows, NewRow(e.id, e.data, true, Some(e.cookieEnc), Some(e.workspaceId), e.now), x);
    } else if e.Delete? {
      FindHas(Apply(rows, e), x);
      if e.id != x {
        FindFilter(rows, OtherThan(e.id), x);
      }
    } else if Accepted(rows, e) {
      TouchKeepsIdentity(e);
      FindMap(rows, Touching(e), x);
    }
  }

  /** No event changes an account's identity, creation time, cookie or workspace. */
  lemma TouchKeepsIdentity(e: Event)
    ensures forall r :: var r' := Touching(e)(r);
                        && r'.id == r.id && r'.createdAt == r.createdAt
                        && r'.cookieEnc == r.cookieEnc && r'.workspaceId == r.workspaceId
  {
  }

  /** Only a creation brings in an account, and it comes in unmarked. */
  lemma EventOnAbsentRow(rows: seq<KeyRow>, e: Event, x: string)
    requires Find(rows, x).None?
    ensures match Find(Apply(rows, e), x)
            case None => true
            case Some(r) => (e.Create? || e.ImportCookie?) && e.id == x && r.quotaExhaustedAt.None?
                            && (e.Create? ==> r.cookieEnc.None?)
  {
    if e.Create? {
      FindAppend(rows, NewRow(e.id, e.data, e.enabled, None, None, e.now), x);
    } else if e.ImportCookie? {
      FindAppend(rows, NewRow(e.id, e.data, true, Some(e.cookieEnc), Some(e.workspaceId), e.now), x);
    } else if e.Delete? {
      FindHas(rows, x);
      FindHas(Apply(rows, e), x);
    } else if Accepted(rows, e) {
      TouchKeepsIdentity(e);
      FindMap(rows, Touching(e), x);
    }
  }

  /** A touch clears, marks or keeps, as `Verdict` and the kind of event say. */
  lemma TouchedQuota(e: Event, r: KeyRow)
    ensures Touch(e, r).quotaExhaustedAt
         == if Verdict(r, e) == Some(true) || (e.Update? && e.id == r.id && Replaces(e.apiKey)) then None
            else if e.QuotaFailure? && e.id == r.id then Coalesce(r.quotaExhaustedAt, Some(e.now))
            else if Verdict(r, e) == Some(false) then
              Coalesce(r.quotaExhaustedAt,
                       match e case AdminRefresh(_, _, now) => Some(now) case MonitorTick(_, now) => Some(now)
                             case _ => None)
            else r.quotaExhaustedAt
  {
  }

  // ---- what a usage report decides -------------------------------------------------------------------

  /** The report shows no capacity: a window is empty, or billing is over its limit, or the balance is gone. */
  predicate ShowsExhausted(u: AccountUsage) {
    if u.rolling.Some? || u.weekly.Some? || u.monthly.Some? then
      || (u.rolling.Some? && u.rolling.value <= 0.0)
      || (u.weekly.Some? && u.weekly.value <= 0.0)
      || (u.monthly.Some? && u.monthly.value <= 0.0)
    else if BillingKnown(u) then u.monthlyUsageMicrocents.value >= u.monthlyLimitMicrocents.value
    else u.balanceMicrocents.Some? && u.balanceMicrocents.value <= 0
  }

  /** A positive limit and the usage against it. */
  predicate BillingKnown(u: AccountUsage) {
    u.monthlyLimitMicrocents.Some? && u.monthlyUsageMicrocents.Some? && u.monthlyLimitMicrocents.value > 0
  }

  predicate ShowsNothing(u: AccountUsage) {
    && u.rolling.None? && u.weekly.None? && u.monthly.None?
    && !BillingKnown(u) && u.balanceMicrocents.None?
  }

  /**
   The row after a usage query: the report is stored, the account type follows the plan's name, the mark is set
   by a report without capacity, kept by a report that says nothing, and cleared by any other.
   */
  lemma RefreshedColumns(r: KeyRow, u: AccountUsage, now: int)
    ensures var left := Refreshed(r, u, now);
            && left.quotaExhaustedAt == (if ShowsNothing(u) then r.quotaExhaustedAt
                                         else if !ShowsExhausted(u) then None
                                         else if r.quotaExhaustedAt.Some? then r.quotaExhaustedAt else Some(now))
            && left.usageCache == Some(u)
            && (left.accountType == Go <==> SameName(u.planName, "OpenCode Go"))
            && left == r.(quotaExhaustedAt := left.quotaExhaustedAt, usageCache := Some(u),
                          accountType := left.accountType, updatedAt := now)
  {
    WindowsOutrankBilling(u, u);
    var windows := u.Remaining();
    assert windows == [] <==> u.rolling.None? && u.weekly.None? && u.monthly.None?;
  }

  /**
   The monitor looks at enabled, marked accounts with a cookie and a workspace, and at no other: it brings an
   account back exactly when such a one is reported to have capacity.
   */
  lemma MonitorRestoresIff(r: KeyRow, reports: string -> Option<AccountUsage>, now: int)
    ensures var left := Touch(MonitorTick(reports, now), r);
            && (left != r ==> r.isEnabled && r.quotaExhaustedAt.Some? && r.cookieEnc.Some? && r.workspaceId.Some?)
            && (r.quotaExhaustedAt.Some? && left.quotaExhaustedAt.None? <==>
                  && r.isEnabled && r.quotaExhaustedAt.Some? && r.cookieEnc.Some? && r.workspaceId.Some?
                  && reports(r.id).Some? && !ShowsNothing(reports(r.id).value) && !ShowsExhausted(reports(r.id).value))
  {
    if reports(r.id).Some? {
      RefreshedColumns(r, reports(r.id).value, now);
    }
  }

  /** One step: a clear empties the mark, a mark fills it if empty, anything else keeps it. */
  lemma QuotaStep(rows: seq<KeyRow>, e: Event, x: string)
    requires Find(Apply(rows, e), x).Some?
    ensures Find(Apply(rows, e), x).value.quotaExhaustedAt
         == if Clears(rows, e, x) then None
            else Coalesce(Find(rows, x).value.quotaExhaustedAt, MarkTime(rows, e, x))
    ensures !Clears(rows, e, x) ==> Find(rows, x).Some?
  {
    if Find(rows, x).None? {
      EventOnAbsentRow(rows, e, x);
    } else {
      EventOnPresentRow(rows, e, x);
      FindHas(rows, x);
      TouchedQuota(e, Find(rows, x).value);
    }
  }

  /** Account `x`'s mark before event `i`, absent accounts counting as unmarked. */
  function QuotaHistory(events: seq<Event>, x: string): nat -> Option<int> {
    (i: nat) => if i <= |events| && Find(State(events, i), x).Some?
                then Find(State(events, i), x).value.quotaExhaustedAt else None
  }

  function PresenceHistory(events: seq<Event>, x: string): nat -> bool {
    (i: nat) => i <= |events| && Find(State(events, i), x).Some?
  }

  /** Account `x`'s cookie and workspace before event `i`. */
  function CookieHistory(events: seq<Event>, x: string): nat -> (Option<string>, Option<string>) {
    (i: nat) => if i <= |events| && Find(State(events, i), x).Some?
                then (Find(State(events, i), x).value.cookieEnc, Find(State(events, i), x).value.workspaceId)
                else (None, None)
  }

  lemma QuotaStepAt(events: seq<Event>, i: nat, x: string)
    requires i < |events| && PresenceHistory(events, x)(i + 1)
    ensures QuotaHistory(events, x)(i + 1)
         == if ClearHistory(events, x)(i) then None
            else Coalesce(QuotaHistory(events, x)(i), MarkHistory(events, x)(i))
    ensures !ClearHistory(events, x)(i) ==> PresenceHistory(events, x)(i)
  {
    QuotaStep(State(events, i), events[i], x);
  }

  lemma CookieStepAt(events: seq<Event>, i: nat, x: string)
    requires i < |events| && PresenceHistory(events, x)(i) && PresenceHistory(events, x)(i + 1)
    ensures CookieHistory(events, x)(i + 1) == CookieHistory(events, x)(i)
  {
    EventOnPresentRow(State(events, i), events[i], x);
    TouchKeepsIdentity(events[i]);
  }

  /**
   After any run of events from an empty table, an account's `quota_exhausted_at` is the time of the
   first mark since its last clear, and empty if there was none.
   */
  lemma MarkIsFirstSinceLastClear(events: seq<Event>, n: nat, x: string)
    requires n <= |events| && PresenceHistory(events, x)(n)
    ensures QuotaHistory(events, x)(n)
         == FirstFrom(AfterLast(n, ClearHistory(events, x)), n, MarkHistory(events, x))
  {
    assert State(events, 0) == [];
    forall i: nat | i < n && PresenceHistory(events, x)(i + 1)
      ensures Steps(QuotaHistory(events, x), ClearHistory(events, x), MarkHistory(events, x),
                    PresenceHistory(events, x), i)
    {
      QuotaStepAt(events, i, x);
    }
    FirstSinceLast(QuotaHistory(events, x), ClearHistory(events, x), MarkHistory(events, x),
                   PresenceHistory(events, x), n);
  }

  ghost predicate Steps(quota: nat -> Option<int>, clears: nat -> bool, marks: nat -> Option<int>,
                        present: nat -> bool, i: nat)
  {
    && quota(i + 1) == (if clears(i) then None else Coalesce(quota(i), marks(i)))
    && (!clears(i) ==> present(i))
  }

  lemma FirstSinceStep(quota: nat -> Option<int>, clears: nat -> bool, marks: nat -> Option<int>,
                       present: nat -> bool, n: nat)
    requires Steps(quota, clears, marks, present, n)
    requires !clears(n) ==> quota(n) == FirstFrom(AfterLast(n, clears), n, marks)
    ensures quota(n + 1) == FirstFrom(AfterLast(n + 1, clears), n + 1, marks)
  {
    if !clears(n) {
      FirstFromExtends(AfterLast(n, clears), n, marks);
    }
  }

  lemma {:induction false} FirstSinceLast(quota: nat -> Option<int>, clears: nat -> bool,
                                          marks: nat -> Option<int>, present: nat -> bool, n: nat)
    requires present(n) && !present(0)
    requires forall i: nat :: i < n && present(i + 1) ==> Steps(quota, clears, marks, present, i)
    ensures quota(n) == FirstFrom(AfterLast(n, clears), n, marks)
  {
    var m := n - 1;
    assert Steps(quota, clears, marks, present, m);
    if !clears(m) {
      FirstSinceLast(quota, clears, marks, present, m);
    }
    FirstSinceStep(quota, clears, marks, present, m);
  }

  /** A cookie, or its absence, lasts as long as the account. */
  lemma CookieLasts(events: seq<Event>, i: nat, n: nat, x: string)
    requires i <= n <= |events|
    requires forall j :: i <= j <= n ==> PresenceHistory(events, x)(j)
    ensures CookieHistory(events, x)(n) == CookieHistory(events, x)(i)
  {
    forall j | i <= j < n ensures CookieHistory(events, x)(j + 1) == CookieHistory(events, x)(j) {
      CookieStepAt(events, j, x);
    }
    Constant(CookieHistory(events, x), i, n);
  }

  lemma {:induction false} Constant<T>(f: nat -> T, i: nat, n: nat)
    requires i <= n && forall j :: i <= j < n ==> f(j + 1) == f(j)
    ensures f(n) == f(i)
    decreases n - i
  {
    if i < n {
      assert f(n - 1 + 1) == f(n - 1);
      Constant(f, i, n - 1);
    }
  }

  lemma {:induction false} SomewhereEmptied(f: nat -> Option<int>, i: nat, n: nat) returns (j: nat)
    requires i <= n && f(i).Some? && f(n).None?
    ensures i <= j < n && f(j).Some? && f(j + 1).None?
    decreases n - i
  {
    if f(n - 1).Some? {
      j := n - 1;
    } else {
      j := SomewhereEmptied(f, i, n - 1);
    }
  }

  predicate ReplacesKeyOf(e: Event, x: string) {
    e.Update? && e.id == x && Replaces(e.apiKey)
  }

  lemma CookielessClearIsKeyUpdate(events: seq<Event>, i: nat, x: string)
    requires i < |events| && PresenceHistory(events, x)(i)
    requires CookieHistory(events, x)(i).0.None? && ClearHistory(events, x)(i)
    ensures ReplacesKeyOf(events[i], x)
  {
  }

  /**
   An account created without a cookie cannot be queried, so once marked only a replaced API key
   brings it back to routing.
   */
  lemma OnlyKeyUpdateRestores(events: seq<Event>, i: nat, n: nat, x: string)
    requires i <= n <= |events|
    requires forall j :: i <= j <= n ==> PresenceHistory(events, x)(j)
    requires CookieHistory(events, x)(i).0.None?
    requires QuotaHistory(events, x)(i).Some? && QuotaHistory(events, x)(n).None?
    ensures exists j :: i <= j < n && ReplacesKeyOf(events[j], x)
  {
    var j := SomewhereEmptied(QuotaHistory(events, x), i, n);
    CookieLasts(events, i, j, x);
    QuotaStepAt(events, j, x);
    CookielessClearIsKeyUpdate(events, j, x);
  }

  lemma EventKeepsIds(rows: seq<KeyRow>, e: Event)
    requires UniqueIds(rows)
    ensures UniqueIds(Apply(rows, e))
  {
    TouchKeepsIdentity(e);
    UniqueMap(rows, Touching(e));
    if e.Delete? {
      UniqueFilter(rows, OtherThan(e.id));
    }
    assert forall r :: r in rows ==> HasId(rows, r.id);
  }

  /** Routing can rely on unique ids in every reachable table. */
  lemma {:induction false} ReachableIdsAreUnique(events: seq<Event>, n: nat)
    requires n <= |events|
    ensures UniqueIds(State(events, n))
  {
    if n > 0 {
      ReachableIdsAreUnique(events, n - 1);
      EventKeepsIds(State(events, n - 1), events[n - 1]);
    }
  }
}
