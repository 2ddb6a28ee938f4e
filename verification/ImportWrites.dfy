/**
 What an import (src/routes/import_export.rs) does to tables that already hold rows: everything the payload names
 is as the payload says, and every other row is as it was.
 */
module ImportWrites {
  import opened Wrappers
  import opened Sequences
  import opened Text
  import opened Accounts
  import opened QuotaLifecycle
  import opened Backup
  import opened Administration

  // ---- proxies ----------------------------------------------------------------------------------------

  /** A row shows a proxy of the payload: its very name, and its URL once opened. */
  ghost predicate ShowsProxy(row: ProxyRow, p: ProxyExport, env: Env) {
    row.name == p.name && env.open(row.urlEnc) == Some(p.url)
  }

  /** One proxy was written: into the rows of its name or into a new one, and nowhere else. */
  ghost predicate OneProxyWritten(rows: seq<ProxyRow>, r: seq<ProxyRow>, p: ProxyExport, id: string, env: Env) {
    && |rows| <= |r| <= |rows| + 1
    && (forall i :: 0 <= i < |rows| ==> r[i].id == rows[i].id && SameName(r[i].name, rows[i].name))
    && (forall i :: 0 <= i < |rows| && !SameName(rows[i].name, p.name) ==> r[i] == rows[i])
    && (|r| > |rows| ==> r[|rows|].id == id && r[|rows|].name == p.name)
    && ShownIn(r, p, env)
  }

  lemma PutProxyWrites(rows: seq<ProxyRow>, p: ProxyExport, n: nat, env: Env)
    requires Reliable(env) && Trimmed(p.name) && Trimmed(p.url) && !HasProxy(rows, env.ids(n))
    ensures OneProxyWritten(rows, PutProxy(rows, p, n, env), p, env.ids(n), env)
  {
    var r := PutProxy(rows, p, n, env);
    match ProxyNamed(rows, p.name)
    case Some(k) => assert ShowsProxy(r[k], p, env);
    case None => assert ShowsProxy(r[|rows|], p, env);
  }

  ghost predicate ShownIn(rows: seq<ProxyRow>, p: ProxyExport, env: Env) {
    exists i :: 0 <= i < |rows| && ShowsProxy(rows[i], p, env)
  }

  /** None of the first `n` proxies of a list has this name. */
  predicate ProxyUnnamed(name: string, list: seq<ProxyExport>, n: nat)
    requires n <= |list|
  {
    forall j :: 0 <= j < n ==> !SameName(name, list[j].name)
  }

  /** A row added for one of the first `n` proxies of a list. */
  ghost predicate ProxyAdded(row: ProxyRow, list: seq<ProxyExport>, n: nat, env: Env)
    requires n <= |list|
  {
    exists j: nat :: j < n && row.id == env.ids(j) && SameName(row.name, list[j].name)
  }

  /** After `n` proxies of a list went into the table `was`. */
  ghost predicate ProxiesWritten(was: seq<ProxyRow>, rows: seq<ProxyRow>, list: seq<ProxyExport>, n: nat, env: Env) {
    && n <= |list| && |was| <= |rows|
    && (forall i :: 0 <= i < |was| ==> rows[i].id == was[i].id)
    && (forall i :: 0 <= i < |was| && ProxyUnnamed(was[i].name, list, n) ==> rows[i] == was[i])
    && (forall i :: |was| <= i < |rows| ==> ProxyAdded(rows[i], list, n, env))
    && (forall j :: 0 <= j < n ==> ShownIn(rows, list[j], env))
  }

  ghost predicate FreshProxyIds(was: seq<ProxyRow>, env: Env) {
    forall n :: !HasProxy(was, env.ids(n))
  }

  lemma StillFreshProxy(was: seq<ProxyRow>, rows: seq<ProxyRow>, list: seq<ProxyExport>, n: nat, env: Env)
    requires Reliable(env) && FreshProxyIds(was, env) && ProxiesWritten(was, rows, list, n, env)
    ensures !HasProxy(rows, env.ids(n))
  {
    forall i | 0 <= i < |rows| ensures rows[i].id != env.ids(n) {
      if i < |was| {
        assert was[i] in was && !HasProxy(was, env.ids(n));
      } else {
        assert ProxyAdded(rows[i], list, n, env);
      }
    }
  }

  lemma ProxyStaysShown(rows: seq<ProxyRow>, r: seq<ProxyRow>, p: ProxyExport, q: ProxyExport, id: string, env: Env)
    requires OneProxyWritten(rows, r, q, id, env) && !SameName(p.name, q.name) && ShownIn(rows, p, env)
    ensures ShownIn(r, p, env)
  {
    var i :| 0 <= i < |rows| && ShowsProxy(rows[i], p, env);
    assert ShowsProxy(r[i], p, env);
  }

  lemma ProxyStaysAdded(row: ProxyRow, r: ProxyRow, list: seq<ProxyExport>, n: nat, env: Env)
    requires n < |list| && r.id == row.id && SameName(r.name, row.name) && ProxyAdded(row, list, n, env)
    ensures ProxyAdded(r, list, n + 1, env)
  {
    var j: nat :| j < n && row.id == env.ids(j) && SameName(row.name, list[j].name);
    assert SameName(r.name, list[j].name);
  }

  lemma OneMoreProxyAdded(was: seq<ProxyRow>, rows: seq<ProxyRow>, r: seq<ProxyRow>, list: seq<ProxyExport>, n: nat,
                          env: Env)
    requires CleanProxies(list) && n < |list| && ProxiesWritten(was, rows, list, n, env)
    requires OneProxyWritten(rows, r, list[n], env.ids(n), env)
    ensures ProxiesWritten(was, r, list, n + 1, env)
  {
    forall i | |was| <= i < |r| ensures ProxyAdded(r[i], list, n + 1, env) {
      if i < |rows| {
        ProxyStaysAdded(rows[i], r[i], list, n, env);
      } else {
        assert r[i].id == env.ids(n) && SameName(r[i].name, list[n].name);
      }
    }
    forall j | 0 <= j < n + 1 ensures ShownIn(r, list[j], env) {
      if j < n {
        ProxyStaysShown(rows, r, list[j], list[n], env.ids(n), env);
      }
    }
    forall i | 0 <= i < |was| && ProxyUnnamed(was[i].name, list, n + 1) ensures r[i] == was[i] {
      assert ProxyUnnamed(was[i].name, list, n);
    }
  }

  lemma OneMoreProxyWritten(was: seq<ProxyRow>, rows: seq<ProxyRow>, list: seq<ProxyExport>, n: nat, env: Env)
    requires Reliable(env) && CleanProxies(list) && n < |list| && FreshProxyIds(was, env)
    requires ProxiesWritten(was, rows, list, n, env)
    ensures ProxiesWritten(was, ProxyStep(list, env)(rows, n), list, n + 1, env)
  {
    StillFreshProxy(was, rows, list, n, env);
    PutProxyWrites(rows, list[n], n, env);
    OneMoreProxyAdded(was, rows, PutProxy(rows, list[n], n, env), list, n, env);
  }

  lemma AllProxiesWritten(was: seq<ProxyRow>, list: seq<ProxyExport>, env: Env)
    requires Reliable(env) && CleanProxies(list) && FreshProxyIds(was, env)
    ensures ProxiesWritten(was, PutProxies(was, list, env), list, |list|, env)
  {
    var step := ProxyStep(list, env);
    forall rows, n: nat | n < |list| && ProxiesWritten(was, rows, list, n, env)
      ensures ProxiesWritten(was, step(rows, n), list, n + 1, env)
    {
      OneMoreProxyWritten(was, rows, list, n, env);
    }
    FoldKeeps(was, step, (rows: seq<ProxyRow>, n: nat) => ProxiesWritten(was, rows, list, n, env), |list|);
  }

  // ---- accounts ---------------------------------------------------------------------------------------

  /** A row carries an item: its name up to letter case, and everything else exactly. */
  ghost predicate Carries(r: KeyRow, item: ExportItem, proxies: seq<ProxyRow>, env: Env) {
    && SameName(r.name, item.name) && env.open(r.apiKeyEnc) == Some(item.apiKey)
    && r.tags == item.tags && r.notes == item.notes && r.isEnabled == item.isEnabled
    && r.accountType == item.accountType && JoinedName(proxies, r.proxyId) == item.proxy
  }

  /** Linking the item by name and joining back by id gives the name. */
  predicate Links(item: ExportItem, proxies: seq<ProxyRow>) {
    JoinedName(proxies, LinkedProxy(proxies, item.proxy)) == item.proxy
  }

  lemma DataCarriesItem(r: KeyRow, proxies: seq<ProxyRow>, item: ExportItem, m: nat, env: Env)
    requires Reliable(env) && Links(item, proxies) && Trimmed(item.name)
    ensures Carries(RowFor(proxies, item, m, env), item, proxies, env)
    ensures SameName(r.name, item.name) ==>
              Carries(EditedOver(r, ItemData(proxies, item, m, env), item.isEnabled, env.clock(m)), item, proxies, env)
  {
  }

  ghost predicate CarriedIn(keys: seq<KeyRow>, item: ExportItem, proxies: seq<ProxyRow>, env: Env) {
    exists i :: 0 <= i < |keys| && Carries(keys[i], item, proxies, env)
  }

  /** One item was written: into the rows of its name or into a new one, and nowhere else. */
  ghost predicate OneItemWritten(s: Progress, r: Progress, proxies: seq<ProxyRow>, item: ExportItem, id: string,
                                 env: Env)
  {
    && |s.keys| <= |r.keys| <= |s.keys| + 1
    && (forall i :: 0 <= i < |s.keys| ==> r.keys[i].id == s.keys[i].id && r.keys[i].name == s.keys[i].name)
    && (forall i :: 0 <= i < |s.keys| && !SameName(s.keys[i].name, item.name) ==> r.keys[i] == s.keys[i])
    && (|r.keys| > |s.keys| ==> r.keys[|s.keys|].id == id && r.keys[|s.keys|].name == item.name)
    && CarriedIn(r.keys, item, proxies, env)
    && r.imported - s.imported == |r.keys| - |s.keys|
  }

  lemma PutItemWrites(s: Progress, proxies: seq<ProxyRow>, item: ExportItem, m: nat, env: Env)
    requires Reliable(env) && Trimmed(item.name) && Links(item, proxies) && !HasId(s.keys, env.ids(m))
    ensures OneItemWritten(s, PutItem(s, proxies, item, m, env), proxies, item, env.ids(m), env)
  {
    var r := PutItem(s, proxies, item, m, env);
    var d := ItemData(proxies, item, m, env);
    if NameTaken(s.keys, item.name, None) {
      var k :| 0 <= k < |s.keys| && SameName(s.keys[k].name, item.name);
      DataCarriesItem(s.keys[k], proxies, item, m, env);
      assert r.keys == Map(s.keys, Touching(ImportOver(d, item.isEnabled, env.clock(m))));
      assert Carries(r.keys[k], item, proxies, env);
    } else {
      var row := RowFor(proxies, item, m, env);
      DataCarriesItem(row, proxies, item, m, env);
      assert r.keys == s.keys + [row];
      assert Carries(r.keys[|s.keys|], item, proxies, env);
    }
  }

  /** None of the first `n` items of a list has this name. */
  predicate ItemUnnamed(name: string, items: seq<ExportItem>, n: nat)
    requires n <= |items|
  {
    forall j :: 0 <= j < n ==> !SameName(name, items[j].name)
  }

  /** A row added for one of the first `n` items of a list. */
  ghost predicate ItemAdded(row: KeyRow, items: seq<ExportItem>, n: nat, base: nat, env: Env)
    requires n <= |items|
  {
    exists j: nat :: j < n && row.id == env.ids(base + j) && row.name == items[j].name
  }

  /** After `n` items of a list went into the table `was`. */
  ghost predicate ItemsWritten(was: seq<KeyRow>, s: Progress, proxies: seq<ProxyRow>, items: seq<ExportItem>, n: nat,
                               base: nat, env: Env)
  {
    && n <= |items| && |was| <= |s.keys| && s.imported == |s.keys| - |was|
    && (forall i :: 0 <= i < |was| ==> s.keys[i].id == was[i].id && s.keys[i].name == was[i].name)
    && (forall i :: 0 <= i < |was| && ItemUnnamed(was[i].name, items, n) ==> s.keys[i] == was[i])
    && (forall i :: |was| <= i < |s.keys| ==> ItemAdded(s.keys[i], items, n, base, env))
    && (forall j :: 0 <= j < n ==> CarriedIn(s.keys, items[j], proxies, env))
  }

  ghost predicate FreshKeyIds(was: seq<KeyRow>, env: Env) {
    forall n :: !HasId(was, env.ids(n))
  }

  lemma StillFreshKey(was: seq<KeyRow>, s: Progress, proxies: seq<ProxyRow>, items: seq<ExportItem>, n: nat, base: nat,
                      env: Env)
    requires Reliable(env) && FreshKeyIds(was, env) && ItemsWritten(was, s, proxies, items, n, base, env)
    ensures !HasId(s.keys, env.ids(base + n))
  {
    forall i | 0 <= i < |s.keys| ensures s.keys[i].id != env.ids(base + n) {
      if i < |was| {
        assert was[i] in was && !HasId(was, env.ids(base + n));
      } else {
        assert ItemAdded(s.keys[i], items, n, base, env);
      }
    }
  }

  lemma ItemStaysCarried(s: Progress, r: Progress, proxies: seq<ProxyRow>, x: ExportItem, y: ExportItem, id: string,
                         env: Env)
    requires OneItemWritten(s, r, proxies, y, id, env) && !SameName(x.name, y.name) && CarriedIn(s.keys, x, proxies, env)
    ensures CarriedIn(r.keys, x, proxies, env)
  {
    var i :| 0 <= i < |s.keys| && Carries(s.keys[i], x, proxies, env);
    assert Carries(r.keys[i], x, proxies, env);
  }

  lemma ItemStaysAdded(row: KeyRow, r: KeyRow, items: seq<ExportItem>, n: nat, base: nat, env: Env)
    requires n < |items| && r.id == row.id && r.name == row.name && ItemAdded(row, items, n, base, env)
    ensures ItemAdded(r, items, n + 1, base, env)
  {
  }

  lemma OneMoreWritten(was: seq<KeyRow>, s: Progress, r: Progress, proxies: seq<ProxyRow>, items: seq<ExportItem>,
                       n: nat, base: nat, env: Env)
    requires n < |items| && ItemsWritten(was, s, proxies, items, n, base, env)
    requires forall i, j :: 0 <= i < j < |items| ==> !SameName(items[i].name, items[j].name)
    requires OneItemWritten(s, r, proxies, items[n], env.ids(base + n), env)
    ensures ItemsWritten(was, r, proxies, items, n + 1, base, env)
  {
    forall i | |was| <= i < |r.keys| ensures ItemAdded(r.keys[i], items, n + 1, base, env) {
      if i < |s.keys| {
        ItemStaysAdded(s.keys[i], r.keys[i], items, n, base, env);
      } else {
        assert r.keys[i].id == env.ids(base + n) && r.keys[i].name == items[n].name;
      }
    }
    forall j | 0 <= j < n + 1 ensures CarriedIn(r.keys, items[j], proxies, env) {
      if j < n {
        ItemStaysCarried(s, r, proxies, items[j], items[n], env.ids(base + n), env);
      }
    }
    forall i | 0 <= i < |was| && ItemUnnamed(was[i].name, items, n + 1) ensures r.keys[i] == was[i] {
      assert ItemUnnamed(was[i].name, items, n);
    }
  }

  lemma ItemStepWrites(s: Progress, proxies: seq<ProxyRow>, items: seq<ExportItem>, n: nat, base: nat, env: Env)
    requires Reliable(env) && n < |items| && Trimmed(items[n].name) && Links(items[n], proxies)
    requires !HasId(s.keys, env.ids(base + n))
    ensures OneItemWritten(s, ItemStep(proxies, items, base, env)(s, n), proxies, items[n], env.ids(base + n), env)
  {
    PutItemWrites(s, proxies, items[n], base + n, env);
  }

  lemma OneMoreItemWritten(was: seq<KeyRow>, s: Progress, proxies: seq<ProxyRow>, items: seq<ExportItem>, n: nat,
                           base: nat, env: Env)
    requires Reliable(env) && n < |items| && FreshKeyIds(was, env)
    requires forall i, j :: 0 <= i < j < |items| ==> !SameName(items[i].name, items[j].name)
    requires Trimmed(items[n].name) && Links(items[n], proxies)
    requires ItemsWritten(was, s, proxies, items, n, base, env)
    ensures ItemsWritten(was, ItemStep(proxies, items, base, env)(s, n), proxies, items, n + 1, base, env)
  {
    StillFreshKey(was, s, proxies, items, n, base, env);
    ItemStepWrites(s, proxies, items, n, base, env);
    OneMoreWritten(was, s, ItemStep(proxies, items, base, env)(s, n), proxies, items, n, base, env);
  }

  lemma AllItemsWritten(was: seq<KeyRow>, proxies: seq<ProxyRow>, items: seq<ExportItem>, base: nat, env: Env)
    requires Reliable(env) && FreshKeyIds(was, env)
    requires forall i, j :: 0 <= i < j < |items| ==> !SameName(items[i].name, items[j].name)
    requires forall i :: 0 <= i < |items| ==> Trimmed(items[i].name) && Links(items[i], proxies)
    ensures ItemsWritten(was, PutItems(was, proxies, items, base, env), proxies, items, |items|, base, env)
  {
    var step := ItemStep(proxies, items, base, env);
    forall s, n: nat | n < |items| && ItemsWritten(was, s, proxies, items, n, base, env)
      ensures ItemsWritten(was, step(s, n), proxies, items, n + 1, base, env)
    {
      OneMoreItemWritten(was, s, proxies, items, n, base, env);
    }
    FoldKeeps(Progress(was, 0, 0), step,
              (s: Progress, n: nat) => ItemsWritten(was, s, proxies, items, n, base, env), |items|);
  }

  // ---- the whole import -------------------------------------------------------------------------------

  lemma LinksHold(item: ExportItem, list: seq<ProxyExport>, rows: seq<ProxyRow>, env: Env)
    requires CleanProxyRows(rows, env) && CleanProxies(list)
    requires forall j :: 0 <= j < |list| ==> ShownIn(rows, list[j], env)
    requires item.proxy.Some? ==> exists j :: 0 <= j < |list| && list[j].name == item.proxy.value
    ensures Links(item, rows)
  {
    if item.proxy.Some? {
      var j :| 0 <= j < |list| && list[j].name == item.proxy.value;
      var i: nat :| 0 <= i < |rows| && ShowsProxy(rows[i], list[j], env);
      forall k | 0 <= k < i ensures !SameName(rows[k].name, rows[i].name) {
        assert PROXY_TAG(rows[k]) != PROXY_TAG(rows[i]);
      }
      ProxyNamedUnique(rows, item.proxy.value, i);
      JoinedNameIs(rows, i);
    }
  }

  /**
   Into clean tables, whatever they hold: after the import every proxy of the payload has a row of its name whose
   secret opens to its URL, every item has a row with all its fields, proxy included, the rows the payload does not
   name are as they were, no row is lost, and as many accounts were imported as there are new rows.
   */
  lemma ImportWritesPayload(t: Tables, payload: Payload, base: nat, env: Env)
    requires Reliable(env) && CleanTables(t, env) && CleanPayload(payload)
    requires forall n :: n >= base ==> !HasProxy(t.proxies, env.ids(n)) && !HasId(t.keys, env.ids(n))
    ensures var (r, imported, updated) := Import(t, payload, base, env);
            && |t.proxies| <= |r.proxies| && |t.keys| <= |r.keys|
            && (forall j :: 0 <= j < |payload.proxies| ==> ShownIn(r.proxies, payload.proxies[j], env))
            && (forall j :: 0 <= j < |payload.items| ==> CarriedIn(r.keys, payload.items[j], r.proxies, env))
            && (forall i :: 0 <= i < |t.proxies|
                            && ProxyUnnamed(t.proxies[i].name, payload.proxies, |payload.proxies|) ==>
                  r.proxies[i] == t.proxies[i])
            && (forall i :: 0 <= i < |t.keys| && ItemUnnamed(t.keys[i].name, payload.items, |payload.items|) ==>
                  r.keys[i] == t.keys[i])
            && imported == |r.keys| - |t.keys|
  {
    var later := Shift(env, base);
    var list, items := payload.proxies, payload.items;
    ShiftIsReliable(env, base);
    forall n ensures !HasProxy(t.proxies, later.ids(n)) && !HasId(t.keys, later.ids(n)) {
      assert later.ids(n) == env.ids(base + n);
    }
    AllProxiesWritten(t.proxies, list, later);
    var proxies := PutProxies(t.proxies, list, later);
    SameOpenSameClean(t, env, later);
    ProxiesKeepClean(t.proxies, list, later);
    forall i | 0 <= i < |items| ensures Links(items[i], proxies) {
      LinksHold(items[i], list, proxies, later);
    }
    AllItemsWritten(t.keys, proxies, items, |list|, later);
    SameOpenShows(proxies, PutItems(t.keys, proxies, items, |list|, later).keys, payload, later, env);
  }

  /** What rows show depends on the environment only through `open`. */
  lemma SameOpenShows(proxies: seq<ProxyRow>, keys: seq<KeyRow>, payload: Payload, later: Env, env: Env)
    requires later.open == env.open
    ensures forall p :: ShownIn(proxies, p, later) ==> ShownIn(proxies, p, env)
    ensures forall x :: CarriedIn(keys, x, proxies, later) ==> CarriedIn(keys, x, proxies, env)
  {
    forall p | ShownIn(proxies, p, later) ensures ShownIn(proxies, p, env) {
      var i :| 0 <= i < |proxies| && ShowsProxy(proxies[i], p, later);
      assert ShowsProxy(proxies[i], p, env);
    }
    forall x | CarriedIn(keys, x, proxies, later) ensures CarriedIn(keys, x, proxies, env) {
      var i :| 0 <= i < |keys| && Carries(keys[i], x, proxies, later);
      assert Carries(keys[i], x, proxies, env);
    }
  }
}
