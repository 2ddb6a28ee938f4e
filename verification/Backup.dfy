/**
 Export and import of accounts and proxies (src/routes/import_export.rs).

 `seal` and `open` are `encrypt_secret` and `decrypt_secret` under the master key at hand; `ids` are the
 UUIDs handed out, `clock` the times, each indexed by how many rows were written before.
 */
module Backup {
  import opened Wrappers
  import opened Sequences
  import opened Text
  import opened Accounts
  import opened QuotaLifecycle

  datatype ProxyExport = ProxyExport(name: string, url: string)

  datatype ExportItem = ExportItem(
    name: string, apiKey: string, tags: seq<string>, notes: string, isEnabled: bool,
    accountType: AccountType, proxy: Option<string>)

  datatype Payload = Payload(proxies: seq<ProxyExport>, items: seq<ExportItem>)

  datatype Env = Env(seal: (nat, string) -> string, open: string -> Option<string>,
                     ids: nat -> string, clock: nat -> int)

  datatype Tables = Tables(keys: seq<KeyRow>, proxies: seq<ProxyRow>)

  /** Sealed secrets open, and no identifier is handed out twice. */
  ghost predicate Reliable(env: Env) {
    && (forall n, p :: env.open(env.seal(n, p)) == Some(p))
    && (forall m, n :: m != n ==> env.ids(m) != env.ids(n))
  }

  // ---- looking up proxies -----------------------------------------------------------------------------

  /** `get_proxy_by_name`: the first row of that name, letter case aside. */
  function ProxyNamed(proxies: seq<ProxyRow>, name: string): (k: Option<nat>)
    ensures k.Some? ==> k.value < |proxies| && SameName(proxies[k.value].name, name)
    ensures k.Some? ==> forall i :: 0 <= i < k.value ==> !SameName(proxies[i].name, name)
    ensures k.None? ==> forall i :: 0 <= i < |proxies| ==> !SameName(proxies[i].name, name)
  {
    if proxies == [] then None
    else if SameName(proxies[0].name, name) then Some(0)
    else
      var k := ProxyNamed(proxies[1..], name);
      if k.None? then None else Some(k.value + 1)
  }

  /** LEFT JOIN proxies p ON p.id = api_keys.proxy_id, the name column. */
  function JoinedName(proxies: seq<ProxyRow>, id: Option<string>): (name: Option<string>)
    ensures name.None? ==> id.None? || forall i :: 0 <= i < |proxies| ==> proxies[i].id != id.value
    ensures name.Some? ==> id.Some? && exists i :: 0 <= i < |proxies| && proxies[i].id == id.value
                                                   && proxies[i].name == name.value
  {
    if id.None? || proxies == [] then None
    else if proxies[0].id == id.value then Some(proxies[0].name)
    else JoinedName(proxies[1..], id)
  }

  predicate HasProxy(proxies: seq<ProxyRow>, id: string) {
    exists p :: p in proxies && p.id == id
  }

  /** `INSERT INTO proxies`: the id is the primary key and names are unique, letter case aside. */
  function InsertProxy(proxies: seq<ProxyRow>, row: ProxyRow): seq<ProxyRow> {
    if HasProxy(proxies, row.id) || ProxyNamed(proxies, row.name).Some? then proxies else proxies + [row]
  }

  // ---- export -----------------------------------------------------------------------------------------

  const PROXY_CREATED_AT: ProxyRow -> int := (p: ProxyRow) => p.createdAt

  function ListProxies(proxies: seq<ProxyRow>): seq<ProxyRow> {
    StableSort(proxies, PROXY_CREATED_AT)
  }

  function ProxyView(env: Env): ProxyRow -> ProxyExport {
    (p: ProxyRow) => ProxyExport(p.name, env.open(p.urlEnc).GetOr(""))
  }

  function KeyView(env: Env, proxies: seq<ProxyRow>): KeyRow -> ExportItem {
    (r: KeyRow) => ExportItem(r.name, env.open(r.apiKeyEnc).GetOr(""), r.tags, r.notes, r.isEnabled,
                              r.accountType, JoinedName(proxies, r.proxyId))
  }

  /** What a backup is about: everything but ids, times, caches, cookies and marks. */
  function ProxyViews(t: Tables, env: Env): seq<ProxyExport> {
    Map(t.proxies, ProxyView(env))
  }

  function KeyViews(t: Tables, env: Env): seq<ExportItem> {
    Map(t.keys, KeyView(env, t.proxies))
  }

  predicate AllOpen(t: Tables, env: Env) {
    && (forall r :: r in t.keys ==> env.open(r.apiKeyEnc).Some?)
    && (forall p :: p in t.proxies ==> env.open(p.urlEnc).Some?)
  }

  function Exported(t: Tables, env: Env): Payload {
    Payload(Map(ListProxies(t.proxies), ProxyView(env)), Map(ListKeys(t.keys), KeyView(env, t.proxies)))
  }

  // ---- import -----------------------------------------------------------------------------------------

  /** One proxy of a payload: rename and re-seal the row of that name, or add one. `n` rows were written before. */
  function PutProxy(proxies: seq<ProxyRow>, p: ProxyExport, n: nat, env: Env): seq<ProxyRow> {
    var name, url := Trim(p.name), Trim(p.url);
    if name == "" || url == "" then proxies
    else match ProxyNamed(proxies, name)
      case Some(k) =>
        proxies[k := proxies[k].(name := name, urlEnc := env.seal(n, url), updatedAt := env.clock(n))]
      case None => InsertProxy(proxies, ProxyRow(env.ids(n), name, env.seal(n, url), env.clock(n), env.clock(n)))
  }

  function ProxyStep(list: seq<ProxyExport>, env: Env): (seq<ProxyRow>, nat) -> seq<ProxyRow> {
    (proxies: seq<ProxyRow>, i: nat) => if i < |list| then PutProxy(proxies, list[i], i, env) else proxies
  }

  /** All proxies of a payload. */
  function PutProxies(proxies: seq<ProxyRow>, list: seq<ProxyExport>, env: Env): seq<ProxyRow> {
    Fold(proxies, ProxyStep(list, env), |list|)
  }

  function LinkedProxy(proxies: seq<ProxyRow>, name: Option<string>): Option<string> {
    if name.None? || Trim(name.value) == "" then None
    else match ProxyNamed(proxies, Trim(name.value))
      case Some(k) => Some(proxies[k].id)
      case None => None
  }

  function ItemData(proxies: seq<ProxyRow>, item: ExportItem, n: nat, env: Env): KeyData {
    KeyData(Trim(item.name), env.seal(n, item.apiKey), item.tags, item.notes, item.accountType,
            LinkedProxy(proxies, item.proxy))
  }

  datatype Progress = Progress(keys: seq<KeyRow>, imported: nat, updated: nat)

  /** One item: the events of `QuotaLifecycle` that an import amounts to. */
  function ItemEvent(keys: seq<KeyRow>, proxies: seq<ProxyRow>, item: ExportItem, n: nat, env: Env): Event {
    var data := ItemData(proxies, item, n, env);
    if NameTaken(keys, data.name, None) then ImportOver(data, item.isEnabled, env.clock(n))
    else Event.Create(env.ids(n), data, item.isEnabled, env.clock(n))
  }

  function PutItem(s: Progress, proxies: seq<ProxyRow>, item: ExportItem, n: nat, env: Env): Progress {
    if Trim(item.name) == "" then s
    else
      var e := ItemEvent(s.keys, proxies, item, n, env);
      Progress(Apply(s.keys, e), s.imported + if e.Create? then 1 else 0, s.updated + if e.Create? then 0 else 1)
  }

  function ItemStep(proxies: seq<ProxyRow>, items: seq<ExportItem>, base: nat, env: Env): (Progress, nat) -> Progress {
    (s: Progress, i: nat) => if i < |items| then PutItem(s, proxies, items[i], base + i, env) else s
  }

  /** All items of a payload; `base` rows were written before them. */
  function PutItems(keys: seq<KeyRow>, proxies: seq<ProxyRow>, items: seq<ExportItem>, base: nat, env: Env): Progress {
    Fold(Progress(keys, 0, 0), ItemStep(proxies, items, base, env), |items|)
  }

  /** A whole import, after which the next row written is number `base + |proxies| + |items|`. */
  function Import(t: Tables, payload: Payload, base: nat, env: Env): (Tables, nat, nat) {
    var shifted := Shift(env, base);
    var proxies := PutProxies(t.proxies, payload.proxies, shifted);
    var s := PutItems(t.keys, proxies, payload.items, |payload.proxies|, shifted);
    (Tables(s.keys, proxies), s.imported, s.updated)
  }

  /** The same environment after `base` rows were written. */
  function Shift(env: Env, base: nat): Env {
    Env((n: nat, p: string) => env.seal(base + n, p), env.open, (n: nat) => env.ids(base + n),
        (n: nat) => env.clock(base + n))
  }

  function NonBlank(items: seq<ExportItem>, n: nat): nat
    requires n <= |items|
  {
    if n == 0 then 0 else NonBlank(items, n - 1) + if Trim(items[n - 1].name) == "" then 0 else 1
  }

  lemma ItemIsCounted(s: Progress, proxies: seq<ProxyRow>, items: seq<ExportItem>, i: nat, base: nat, env: Env)
    requires i < |items| && s.imported + s.updated == NonBlank(items, i)
    ensures var r := ItemStep(proxies, items, base, env)(s, i);
            r.imported + r.updated == NonBlank(items, i + 1)
  {
  }

  predicate Counted(s: Progress, items: seq<ExportItem>, i: nat) {
    i <= |items| && s.imported + s.updated == NonBlank(items, i)
  }

  /** Every item with a name is counted once, as imported or as updated. */
  lemma EveryNamedItemIsCounted(keys: seq<KeyRow>, proxies: seq<ProxyRow>, items: seq<ExportItem>, base: nat, env: Env)
    ensures Counted(PutItems(keys, proxies, items, base, env), items, |items|)
  {
    var step := ItemStep(proxies, items, base, env);
    forall s, i: nat | i < |items| && Counted(s, items, i) ensures Counted(step(s, i), items, i + 1) {
      ItemIsCounted(s, proxies, items, i, base, env);
    }
    FoldKeeps(Progress(keys, 0, 0), step, (s: Progress, i: nat) => Counted(s, items, i), |items|);
  }

  // ---- clean payloads ---------------------------------------------------------------------------------

  ghost predicate CleanProxies(list: seq<ProxyExport>) {
    && (forall i :: 0 <= i < |list| ==> Trimmed(list[i].name) && Trimmed(list[i].url))
    && (forall i, j :: 0 <= i < j < |list| ==> !SameName(list[i].name, list[j].name))
  }

  ghost predicate CleanItems(items: seq<ExportItem>, list: seq<ProxyExport>) {
    && (forall i :: 0 <= i < |items| ==> Trimmed(items[i].name))
    && (forall i, j :: 0 <= i < j < |items| ==> !SameName(items[i].name, items[j].name))
    && (forall i :: 0 <= i < |items| && items[i].proxy.Some? ==>
          exists j :: 0 <= j < |list| && list[j].name == items[i].proxy.value)
  }

  ghost predicate DistinctProxyIds(proxies: seq<ProxyRow>) {
    forall i, j :: 0 <= i < j < |proxies| ==> proxies[i].id != proxies[j].id
  }

  /** The first `n` rows show the first `n` proxies of a list. */
  ghost predicate ShowsProxies(proxies: seq<ProxyRow>, list: seq<ProxyExport>, n: nat, env: Env)
    requires n <= |list|
  {
    && |proxies| == n
    && forall i :: 0 <= i < n ==> proxies[i].name == list[i].name && env.open(proxies[i].urlEnc) == Some(list[i].url)
  }

  // ---- proxies, first and second import ---------------------------------------------------------------

  lemma AddsProxy(proxies: seq<ProxyRow>, list: seq<ProxyExport>, n: nat, env: Env)
    requires Reliable(env) && n < |list| && ShowsProxies(proxies, list, n, env)
    requires Trimmed(list[n].name) && Trimmed(list[n].url)
    requires forall i :: 0 <= i < n ==> !SameName(list[i].name, list[n].name) && proxies[i].id != env.ids(n)
    ensures var r := PutProxy(proxies, list[n], n, env);
            ShowsProxies(r, list, n + 1, env) && r[..n] == proxies && r[n].id == env.ids(n)
  {
    assert forall i :: 0 <= i < n ==> !SameName(proxies[i].name, list[n].name);
    assert ProxyNamed(proxies, list[n].name).None?;
  }

  /** After `n` proxies of a list went into an empty table. */
  ghost predicate ProxiesAdded(proxies: seq<ProxyRow>, list: seq<ProxyExport>, n: nat, env: Env) {
    && n <= |list| && ShowsProxies(proxies, list, n, env)
    && forall i :: 0 <= i < n ==> proxies[i].id == env.ids(i)
  }

  lemma OneMoreProxy(proxies: seq<ProxyRow>, list: seq<ProxyExport>, n: nat, env: Env)
    requires Reliable(env) && CleanProxies(list) && n < |list| && ProxiesAdded(proxies, list, n, env)
    ensures ProxiesAdded(ProxyStep(list, env)(proxies, n), list, n + 1, env)
  {
    AddsProxy(proxies, list, n, env);
    var r := PutProxy(proxies, list[n], n, env);
    assert forall i :: 0 <= i < n ==> r[i] == r[..n][i];
  }

  lemma FreshProxies(list: seq<ProxyExport>, env: Env)
    requires Reliable(env) && CleanProxies(list)
    ensures ProxiesAdded(PutProxies([], list, env), list, |list|, env)
  {
    var step := ProxyStep(list, env);
    forall t, n: nat | n < |list| && ProxiesAdded(t, list, n, env) ensures ProxiesAdded(step(t, n), list, n + 1, env) {
      OneMoreProxy(t, list, n, env);
    }
    FoldKeeps([], step, (t: seq<ProxyRow>, n: nat) => ProxiesAdded(t, list, n, env), |list|);
  }

  lemma ProxyNamedUnique(proxies: seq<ProxyRow>, name: string, j: nat)
    requires j < |proxies| && SameName(proxies[j].name, name)
    requires forall i :: 0 <= i < j ==> !SameName(proxies[i].name, name)
    ensures ProxyNamed(proxies, name) == Some(j)
  {
  }

  lemma ProxyNamedIs(proxies: seq<ProxyRow>, list: seq<ProxyExport>, j: nat, env: Env)
    requires CleanProxies(list) && ShowsProxies(proxies, list, |list|, env) && j < |list|
    ensures ProxyNamed(proxies, list[j].name) == Some(j)
  {
    forall i | 0 <= i < j ensures !SameName(proxies[i].name, list[j].name) {
      assert !SameName(list[i].name, list[j].name);
    }
    ProxyNamedUnique(proxies, list[j].name, j);
  }

  lemma RewritesProxy(proxies: seq<ProxyRow>, list: seq<ProxyExport>, k: nat, n: nat, env: Env)
    requires Reliable(env) && k < |list| && ShowsProxies(proxies, list, |list|, env)
    requires Trimmed(list[k].name) && Trimmed(list[k].url)
    requires ProxyNamed(proxies, list[k].name) == Some(k)
    ensures var r := PutProxy(proxies, list[k], n, env);
            && ShowsProxies(r, list, |list|, env)
            && forall i :: 0 <= i < |list| ==> r[i].id == proxies[i].id
  {
  }

  lemma SameProxiesAgain(proxies: seq<ProxyRow>, list: seq<ProxyExport>, env: Env)
    requires Reliable(env) && CleanProxies(list) && ShowsProxies(proxies, list, |list|, env)
    ensures var r := PutProxies(proxies, list, env);
            ShowsProxies(r, list, |list|, env) && forall i :: 0 <= i < |list| ==> r[i].id == proxies[i].id
  {
    var step := ProxyStep(list, env);
    var inv := (t: seq<ProxyRow>, n: nat) =>
      ShowsProxies(t, list, |list|, env) && forall i :: 0 <= i < |list| ==> t[i].id == proxies[i].id;
    forall t, n: nat | n < |list| && inv(t, n) ensures inv(step(t, n), n + 1) {
      ProxyNamedIs(t, list, n, env);
      RewritesProxy(t, list, n, n, env);
    }
    FoldKeeps(proxies, step, inv, |list|);
  }

  // ---- items, first and second import -----------------------------------------------------------------

  /** A row shows an item, its proxy resolved through the proxy table. */
  ghost predicate ShowsItem(r: KeyRow, item: ExportItem, proxies: seq<ProxyRow>, env: Env) {
    && r.name == item.name && env.open(r.apiKeyEnc) == Some(item.apiKey)
    && r.tags == item.tags && r.notes == item.notes && r.isEnabled == item.isEnabled
    && r.accountType == item.accountType && JoinedName(proxies, r.proxyId) == item.proxy
  }

  ghost predicate ShowsItems(keys: seq<KeyRow>, items: seq<ExportItem>, n: nat, proxies: seq<ProxyRow>, env: Env)
    requires n <= |items|
  {
    |keys| == n && forall i :: 0 <= i < n ==> ShowsItem(keys[i], items[i], proxies, env)
  }

  lemma JoinedNameIs(proxies: seq<ProxyRow>, j: nat)
    requires DistinctProxyIds(proxies) && j < |proxies|
    ensures JoinedName(proxies, Some(proxies[j].id)) == Some(proxies[j].name)
  {
  }

  /** Linking an item to its proxy by name and joining back by id names the same proxy. */
  lemma LinkJoinsBack(proxies: seq<ProxyRow>, list: seq<ProxyExport>, name: Option<string>, env: Env)
    requires CleanProxies(list) && ShowsProxies(proxies, list, |list|, env) && DistinctProxyIds(proxies)
    requires name.Some? ==> exists j :: 0 <= j < |list| && list[j].name == name.value
    ensures JoinedName(proxies, LinkedProxy(proxies, name)) == name
  {
    if name.Some? {
      var j: nat :| 0 <= j < |list| && list[j].name == name.value;
      ProxyNamedIs(proxies, list, j, env);
      JoinedNameIs(proxies, j);
    }
  }

  lemma DataShowsItem(r: KeyRow, proxies: seq<ProxyRow>, list: seq<ProxyExport>, items: seq<ExportItem>, i: nat,
                      n: nat, env: Env)
    requires Reliable(env) && CleanProxies(list) && CleanItems(items, list) && i < |items|
    requires ShowsProxies(proxies, list, |list|, env) && DistinctProxyIds(proxies)
    ensures var d := ItemData(proxies, items[i], n, env);
            && ShowsItem(NewRow(env.ids(n), d, items[i].isEnabled, None, None, env.clock(n)), items[i], proxies, env)
            && (r.name == items[i].name ==>
                  ShowsItem(EditedOver(r, d, items[i].isEnabled, env.clock(n)), items[i], proxies, env))
  {
    LinkJoinsBack(proxies, list, items[i].proxy, env);
  }

  /** The tables an import of clean proxies leaves behind. */
  ghost predicate Settled(proxies: seq<ProxyRow>, list: seq<ProxyExport>, items: seq<ExportItem>, env: Env) {
    && Reliable(env) && CleanProxies(list) && CleanItems(items, list)
    && ShowsProxies(proxies, list, |list|, env) && DistinctProxyIds(proxies)
  }

  function RowFor(proxies: seq<ProxyRow>, item: ExportItem, n: nat, env: Env): KeyRow {
    NewRow(env.ids(n), ItemData(proxies, item, n, env), item.isEnabled, None, None, env.clock(n))
  }

  lemma AddsItem(s: Progress, proxies: seq<ProxyRow>, list: seq<ProxyExport>, items: seq<ExportItem>, i: nat,
                 n: nat, env: Env)
    requires Settled(proxies, list, items, env) && i < |items|
    requires ShowsItems(s.keys, items, i, proxies, env)
    requires forall j :: 0 <= j < i ==> s.keys[j].id != env.ids(n)
    ensures PutItem(s, proxies, items[i], n, env)
         == Progress(s.keys + [RowFor(proxies, items[i], n, env)], s.imported + 1, s.updated)
    ensures ShowsItem(RowFor(proxies, items[i], n, env), items[i], proxies, env)
  {
    var row := RowFor(proxies, items[i], n, env);
    DataShowsItem(row, proxies, list, items, i, n, env);
    AppendsNewRow(s.keys, items, i, row, proxies, env);
  }

  /** After `n` items of a list went into an empty table. */
  ghost predicate ItemsAdded(s: Progress, proxies: seq<ProxyRow>, items: seq<ExportItem>, n: nat, base: nat, env: Env) {
    && n <= |items| && s.imported == n && s.updated == 0 && ShowsItems(s.keys, items, n, proxies, env)
    && forall i :: 0 <= i < n ==> s.keys[i].id == env.ids(base + i)
  }

  lemma OneMoreRow(s: Progress, row: KeyRow, proxies: seq<ProxyRow>, items: seq<ExportItem>, n: nat,
                   base: nat, env: Env)
    requires n < |items| && ItemsAdded(s, proxies, items, n, base, env)
    requires ShowsItem(row, items[n], proxies, env) && row.id == env.ids(base + n)
    ensures ItemsAdded(Progress(s.keys + [row], s.imported + 1, s.updated), proxies, items, n + 1, base, env)
  {
  }

  lemma OneMoreItem(s: Progress, proxies: seq<ProxyRow>, list: seq<ProxyExport>, items: seq<ExportItem>, n: nat,
                    base: nat, env: Env)
    requires Settled(proxies, list, items, env) && n < |items| && ItemsAdded(s, proxies, items, n, base, env)
    ensures ItemsAdded(ItemStep(proxies, items, base, env)(s, n), proxies, items, n + 1, base, env)
  {
    IdsStayFresh(s, proxies, items, n, base, env);
    AddsItem(s, proxies, list, items, n, base + n, env);
    OneMoreRow(s, RowFor(proxies, items[n], base + n, env), proxies, items, n, base, env);
  }

  lemma IdsStayFresh(s: Progress, proxies: seq<ProxyRow>, items: seq<ExportItem>, n: nat, base: nat, env: Env)
    requires Reliable(env) && ItemsAdded(s, proxies, items, n, base, env)
    ensures forall j :: 0 <= j < n ==> s.keys[j].id != env.ids(base + n)
  {
  }

  lemma FreshItems(proxies: seq<ProxyRow>, list: seq<ProxyExport>, items: seq<ExportItem>, base: nat, env: Env)
    requires Settled(proxies, list, items, env)
    ensures ItemsAdded(PutItems([], proxies, items, base, env), proxies, items, |items|, base, env)
  {
    var step := ItemStep(proxies, items, base, env);
    forall s, n: nat | n < |items| && ItemsAdded(s, proxies, items, n, base, env)
      ensures ItemsAdded(step(s, n), proxies, items, n + 1, base, env)
    {
      OneMoreItem(s, proxies, list, items, n, base, env);
    }
    FoldKeeps(Progress([], 0, 0), step, (s: Progress, n: nat) => ItemsAdded(s, proxies, items, n, base, env), |items|);
  }

  lemma AppendsNewRow(keys: seq<KeyRow>, items: seq<ExportItem>, n: nat, row: KeyRow, proxies: seq<ProxyRow>, env: Env)
    requires n < |items| && ShowsItems(keys, items, n, proxies, env)
    requires row.name == items[n].name
    requires forall i :: 0 <= i < n ==> !SameName(items[i].name, items[n].name) && keys[i].id != row.id
    ensures !NameTaken(keys, row.name, None) && InsertKey(keys, row) == keys + [row]
  {
  }

  lemma UpdatesItem(s: Progress, proxies: seq<ProxyRow>, list: seq<ProxyExport>, items: seq<ExportItem>, i: nat,
                    n: nat, env: Env)
    requires Settled(proxies, list, items, env) && i < |items|
    requires ShowsItems(s.keys, items, |items|, proxies, env)
    ensures var r := PutItem(s, proxies, items[i], n, env);
            && r.imported == s.imported && r.updated == s.updated + 1
            && ShowsItems(r.keys, items, |items|, proxies, env)
  {
    DataShowsItem(s.keys[i], proxies, list, items, i, n, env);
    OverwritesOneRow(s.keys, items, i, ItemData(proxies, items[i], n, env), env.clock(n), proxies, env);
  }

  /** After `n` items of a list went into a table that shows them all. */
  ghost predicate ItemsKept(s: Progress, proxies: seq<ProxyRow>, items: seq<ExportItem>, n: nat, env: Env) {
    s.imported == 0 && s.updated == n && ShowsItems(s.keys, items, |items|, proxies, env)
  }

  lemma OneItemKept(s: Progress, proxies: seq<ProxyRow>, list: seq<ProxyExport>, items: seq<ExportItem>, n: nat,
                    base: nat, env: Env)
    requires Settled(proxies, list, items, env) && n < |items| && ItemsKept(s, proxies, items, n, env)
    ensures ItemsKept(ItemStep(proxies, items, base, env)(s, n), proxies, items, n + 1, env)
  {
    UpdatesItem(s, proxies, list, items, n, base + n, env);
  }

  lemma SameItemsAgain(keys: seq<KeyRow>, proxies: seq<ProxyRow>, list: seq<ProxyExport>,
                       items: seq<ExportItem>, base: nat, env: Env)
    requires Settled(proxies, list, items, env)
    requires ShowsItems(keys, items, |items|, proxies, env)
    ensures ItemsKept(PutItems(keys, proxies, items, base, env), proxies, items, |items|, env)
  {
    var step := ItemStep(proxies, items, base, env);
    forall s, n: nat | n < |items| && ItemsKept(s, proxies, items, n, env)
      ensures ItemsKept(step(s, n), proxies, items, n + 1, env)
    {
      OneItemKept(s, proxies, list, items, n, base, env);
    }
    FoldKeeps(Progress(keys, 0, 0), step, (s: Progress, n: nat) => ItemsKept(s, proxies, items, n, env), |items|);
  }

  lemma OverwritesOneRow(keys: seq<KeyRow>, items: seq<ExportItem>, n: nat, d: KeyData, now: int,
                         proxies: seq<ProxyRow>, env: Env)
    requires n < |items| && ShowsItems(keys, items, |items|, proxies, env)
    requires d.name == items[n].name
    requires forall i, j :: 0 <= i < j < |items| ==> !SameName(items[i].name, items[j].name)
    requires ShowsItem(EditedOver(keys[n], d, items[n].isEnabled, now), items[n], proxies, env)
    ensures NameTaken(keys, d.name, None)
    ensures ShowsItems(Apply(keys, ImportOver(d, items[n].isEnabled, now)), items, |items|, proxies, env)
  {
    assert keys[n] in keys && SameName(keys[n].name, d.name);
    var e := ImportOver(d, items[n].isEnabled, now);
    forall i | 0 <= i < |items|
      ensures Apply(keys, e)[i] == if i == n then EditedOver(keys[n], d, items[n].isEnabled, now) else keys[i]
    {
      assert i < n ==> !SameName(items[i].name, items[n].name);
      assert n < i ==> !SameName(items[n].name, items[i].name);
    }
  }

  // ---- restorable tables export clean payloads -------------------------------------------------------------

  const KEY_TAG: KeyRow -> string := (r: KeyRow) => Lower(r.name)
  const PROXY_TAG: ProxyRow -> string := (p: ProxyRow) => Lower(p.name)

  /**
   What a backup needs of the tables: every secret opens, names are trimmed and differ in more than letter
   case, and so are the proxies' URLs.
   */
  ghost predicate Restorable(t: Tables, env: Env) {
    && AllOpen(t, env) && DistinctBy(t.keys, KEY_TAG) && DistinctBy(t.proxies, PROXY_TAG)
    && (forall r :: r in t.keys ==> Trimmed(r.name))
    && (forall p :: p in t.proxies ==> Trimmed(p.name) && Trimmed(env.open(p.urlEnc).value))
  }

  lemma ExportedProxiesAreClean(t: Tables, env: Env)
    requires Restorable(t, env)
    ensures CleanProxies(Exported(t, env).proxies)
  {
    var rows := ListProxies(t.proxies);
    DistinctSort(t.proxies, PROXY_TAG, PROXY_CREATED_AT);
    SortMembers(t.proxies, PROXY_CREATED_AT);
    forall i | 0 <= i < |rows| ensures Trimmed(rows[i].name) && Trimmed(env.open(rows[i].urlEnc).GetOr("")) {
      assert rows[i] in t.proxies;
    }
    forall i, j | 0 <= i < j < |rows| ensures !SameName(rows[i].name, rows[j].name) {
      assert PROXY_TAG(rows[i]) != PROXY_TAG(rows[j]);
    }
  }

  lemma ExportedItemsAreClean(t: Tables, env: Env)
    requires Restorable(t, env)
    ensures CleanItems(Exported(t, env).items, Exported(t, env).proxies)
  {
    var rows, list := ListKeys(t.keys), Exported(t, env).proxies;
    DistinctSort(t.keys, KEY_TAG, CREATED_AT);
    SortMembers(t.keys, CREATED_AT);
    forall i | 0 <= i < |rows| ensures Trimmed(rows[i].name) {
      assert rows[i] in t.keys;
    }
    forall i, j | 0 <= i < j < |rows| ensures !SameName(rows[i].name, rows[j].name) {
      assert KEY_TAG(rows[i]) != KEY_TAG(rows[j]);
    }
    forall i | 0 <= i < |rows| && JoinedName(t.proxies, rows[i].proxyId).Some?
      ensures exists j :: 0 <= j < |list| && list[j].name == JoinedName(t.proxies, rows[i].proxyId).value
    {
      JoinedNameIsExported(t, rows[i].proxyId, env);
    }
  }

  lemma JoinedNameIsExported(t: Tables, id: Option<string>, env: Env)
    requires JoinedName(t.proxies, id).Some?
    ensures var list := Exported(t, env).proxies;
            exists j :: 0 <= j < |list| && list[j].name == JoinedName(t.proxies, id).value
  {
    var i :| 0 <= i < |t.proxies| && t.proxies[i].name == JoinedName(t.proxies, id).value;
    var rows := ListProxies(t.proxies);
    SortMembers(t.proxies, PROXY_CREATED_AT);
    assert t.proxies[i] in rows;
    var j :| 0 <= j < |rows| && rows[j] == t.proxies[i];
    assert Exported(t, env).proxies[j].name == rows[j].name;
  }

  // ---- the round trip ---------------------------------------------------------------------------------

  lemma ShiftIsReliable(env: Env, base: nat)
    requires Reliable(env)
    ensures Reliable(Shift(env, base))
  {
  }

  lemma ShownProxiesAreViews(proxies: seq<ProxyRow>, list: seq<ProxyExport>, env: Env)
    requires ShowsProxies(proxies, list, |list|, env)
    ensures Map(proxies, ProxyView(env)) == list
  {
  }

  lemma ShownItemsAreViews(keys: seq<KeyRow>, items: seq<ExportItem>, proxies: seq<ProxyRow>, env: Env)
    requires ShowsItems(keys, items, |items|, proxies, env)
    ensures Map(keys, KeyView(env, proxies)) == items
  {
  }

  /** The tables show a payload, row by row. */
  ghost predicate Shows(t: Tables, payload: Payload, env: Env) {
    && ShowsProxies(t.proxies, payload.proxies, |payload.proxies|, env) && DistinctProxyIds(t.proxies)
    && ShowsItems(t.keys, payload.items, |payload.items|, t.proxies, env)
  }

  ghost predicate CleanPayload(payload: Payload) {
    CleanProxies(payload.proxies) && CleanItems(payload.items, payload.proxies)
  }

  /** Importing a clean payload into an empty database makes its tables show the payload. */
  lemma ImportShows(payload: Payload, base: nat, env: Env)
    requires Reliable(env) && CleanPayload(payload)
    ensures var (r, imported, updated) := Import(Tables([], []), payload, base, env);
            Shows(r, payload, env) && imported == |payload.items| && updated == 0
  {
    var later := Shift(env, base);
    var list, items := payload.proxies, payload.items;
    ShiftIsReliable(env, base);
    FreshProxies(list, later);
    var proxies := PutProxies([], list, later);
    FreshItems(proxies, list, items, |list|, later);
    SameOpen(PutItems([], proxies, items, |list|, later).keys, items, proxies, env, later);
  }

  /** What rows show depends on the environment only through `open`. */
  lemma SameOpen(keys: seq<KeyRow>, items: seq<ExportItem>, proxies: seq<ProxyRow>, env: Env, later: Env)
    requires env.open == later.open
    ensures ShowsItems(keys, items, |items|, proxies, env) <==> ShowsItems(keys, items, |items|, proxies, later)
  {
  }

  lemma {:induction false} SameNamesJoinAlike(a: seq<ProxyRow>, b: seq<ProxyRow>, id: Option<string>)
    requires |a| == |b| && forall i :: 0 <= i < |a| ==> a[i].id == b[i].id && a[i].name == b[i].name
    ensures JoinedName(a, id) == JoinedName(b, id)
  {
    if a != [] {
      SameNamesJoinAlike(a[1..], b[1..], id);
    }
  }

  lemma ItemsStayShown(keys: seq<KeyRow>, items: seq<ExportItem>, a: seq<ProxyRow>, b: seq<ProxyRow>, env: Env)
    requires |a| == |b| && forall i :: 0 <= i < |a| ==> a[i].id == b[i].id && a[i].name == b[i].name
    requires ShowsItems(keys, items, |items|, a, env)
    ensures ShowsItems(keys, items, |items|, b, env)
  {
    forall i | 0 <= i < |items| ensures ShowsItem(keys[i], items[i], b, env) {
      SameNamesJoinAlike(a, b, keys[i].proxyId);
    }
  }

  /** Importing what the tables already show updates every account and changes nothing shown. */
  lemma ReimportShows(t: Tables, payload: Payload, base: nat, env: Env)
    requires Reliable(env) && CleanPayload(payload) && Shows(t, payload, env)
    ensures var (r, imported, updated) := Import(t, payload, base, env);
            Shows(r, payload, env) && imported == 0 && updated == |payload.items|
  {
    var later := Shift(env, base);
    var list, items := payload.proxies, payload.items;
    ShiftIsReliable(env, base);
    SameProxiesAgain(t.proxies, list, later);
    var proxies := PutProxies(t.proxies, list, later);
    ItemsStayShown(t.keys, items, t.proxies, proxies, env);
    SameOpen(t.keys, items, proxies, env, later);
    SameItemsAgain(t.keys, proxies, list, items, |list|, later);
    SameOpen(PutItems(t.keys, proxies, items, |list|, later).keys, items, proxies, env, later);
  }

  lemma {:induction false} MapInsertPermutes<T, U>(x: T, s: seq<T>, key: T -> int, f: T -> U)
    ensures multiset(Map(Insert(x, s, key), f)) == multiset{f(x)} + multiset(Map(s, f))
  {
    if s == [] || key(x) >= key(s[0]) {
      MapCons(x, s, f);
    } else {
      MapInsertPermutes(x, s[1..], key, f);
      MapCons(s[0], Insert(x, s[1..], key), f);
      MapCons(s[0], s[1..], f);
      assert s == [s[0]] + s[1..];
    }
  }

  lemma {:induction false} MapSortPermutes<T, U>(s: seq<T>, key: T -> int, f: T -> U)
    ensures multiset(Map(StableSort(s, key), f)) == multiset(Map(s, f))
  {
    if s != [] {
      MapSortPermutes(s[1..], key, f);
      MapInsertPermutes(s[0], StableSort(s[1..], key), key, f);
      MapCons(s[0], s[1..], f);
      assert s == [s[0]] + s[1..];
    }
  }

  /** An export lists every account and every proxy once. */
  lemma ExportIsComplete(t: Tables, env: Env)
    ensures multiset(Exported(t, env).proxies) == multiset(ProxyViews(t, env))
    ensures multiset(Exported(t, env).items) == multiset(KeyViews(t, env))
    ensures |Exported(t, env).items| == |t.keys|
  {
    MapSortPermutes(t.proxies, PROXY_CREATED_AT, ProxyView(env));
    MapSortPermutes(t.keys, CREATED_AT, KeyView(env, t.proxies));
    SortMembers(t.keys, CREATED_AT);
  }

  /**
   Exported from restorable tables and imported into an empty installation, whose vault may have another key, a
   backup restores every account and proxy; imported again, it changes neither.
   */
  lemma BackupRestores(t: Tables, env: Env, base: nat, other: Env)
    requires Restorable(t, env) && Reliable(other)
    ensures var payload := Exported(t, env);
            var (once, imported, updated) := Import(Tables([], []), payload, 0, other);
            var (twice, again, rewritten) := Import(once, payload, base, other);
            && multiset(ProxyViews(once, other)) == multiset(ProxyViews(t, env))
            && multiset(KeyViews(once, other)) == multiset(KeyViews(t, env))
            && (imported, updated) == (|t.keys|, 0)
            && ProxyViews(twice, other) == ProxyViews(once, other)
            && KeyViews(twice, other) == KeyViews(once, other)
            && (again, rewritten) == (0, |t.keys|)
  {
    var payload := Exported(t, env);
    ExportedProxiesAreClean(t, env);
    ExportedItemsAreClean(t, env);
    ExportIsComplete(t, env);
    ImportShows(payload, 0, other);
    var once := Import(Tables([], []), payload, 0, other).0;
    ReimportShows(once, payload, base, other);
    ShowsViews(once, payload, other);
    ShowsViews(Import(once, payload, base, other).0, payload, other);
  }

  lemma ShowsViews(t: Tables, payload: Payload, env: Env)
    requires Shows(t, payload, env)
    ensures ProxyViews(t, env) == payload.proxies && KeyViews(t, env) == payload.items
  {
    ShownProxiesAreViews(t.proxies, payload.proxies, env);
    ShownItemsAreViews(t.keys, payload.items, t.proxies, env);
  }
}
