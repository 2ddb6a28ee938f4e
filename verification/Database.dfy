/**
 The handlers of `Administration` statement by statement, over tables held in memory
 (src/routes/import_export.rs, src/routes/proxies.rs, src/routes/keys.rs, src/db.rs). Each is proved to
 take its one step, and to say why when it refuses.
 */
module Database {
  import opened Wrappers
  import opened Sequences
  import opened Text
  import opened Accounts
  import opened QuotaLifecycle
  import opened Backup
  import opened Administration

  datatype Error = NameRequired | UrlRequired | KeyRequired | Conflict | UnusableUrl | UnknownProxy | NotFound
                 | CannotDecrypt

  /** The body of an import call: today's object, or the bare list of older exports. */
  datatype Body = Current(proxies: seq<ProxyExport>, items: seq<ExportItem>) | Legacy(items: seq<ExportItem>)

  function PayloadOf(body: Body): Payload {
    match body
    case Current(proxies, items) => Payload(proxies, items)
    case Legacy(items) => Payload([], items)
  }

  class Database {
    const env: Env
    var keys: seq<KeyRow>
    var proxies: seq<ProxyRow>
    /** How many rows were written so far. */
    var written: nat

    function Contents(): Tables
      reads this
    {
      Tables(keys, proxies)
    }

    constructor (env: Env)
      ensures Contents() == Tables([], []) && this.env == env && written == 0
    {
      this.env, keys, proxies, written := env, [], [], 0;
    }

    method ExportProxies() returns (list: seq<ProxyExport>, ok: bool)
      ensures ok <==> forall p :: p in proxies ==> env.open(p.urlEnc).Some?
      ensures ok ==> list == Exported(Contents(), env).proxies
    {
      var rows := ListProxies(proxies);
      SortMembers(proxies, PROXY_CREATED_AT);
      list := [];
      for i := 0 to |rows|
        invariant list == Map(rows[..i], ProxyView(env))
        invariant forall p :: p in rows[..i] ==> env.open(p.urlEnc).Some?
      {
        var url := env.open(rows[i].urlEnc);
        assert rows[i] in rows;
        if url.None? {
          return list, false;
        }
        list := list + [ProxyExport(rows[i].name, url.value)];
        assert rows[..i + 1] == rows[..i] + [rows[i]];
      }
      assert rows[..|rows|] == rows;
      return list, true;
    }

    method ExportItems() returns (items: seq<ExportItem>, ok: bool)
      ensures ok <==> forall r :: r in keys ==> env.open(r.apiKeyEnc).Some?
      ensures ok ==> items == Exported(Contents(), env).items
    {
      var rows := ListKeys(keys);
      SortMembers(keys, CREATED_AT);
      items := [];
      for i := 0 to |rows|
        invariant items == Map(rows[..i], KeyView(env, proxies))
        invariant forall r :: r in rows[..i] ==> env.open(r.apiKeyEnc).Some?
      {
        var row := rows[i];
        var key := env.open(row.apiKeyEnc);
        assert row in rows;
        if key.None? {
          return items, false;
        }
        items := items + [ExportItem(row.name, key.value, row.tags, row.notes, row.isEnabled, row.accountType,
                                     JoinedName(proxies, row.proxyId))];
        assert rows[..i + 1] == rows[..i] + [row];
      }
      assert rows[..|rows|] == rows;
      return items, true;
    }

    /** `export`: everything, or nothing when one secret does not open. */
    method Export() returns (r: Result<Payload, Error>)
      ensures r == if AllOpen(Contents(), env) then Success(Exported(Contents(), env)) else Failure(CannotDecrypt)
    {
      var list, listed := ExportProxies();
      if !listed {
        return Failure(CannotDecrypt);
      }
      var items, itemised := ExportItems();
      if !itemised {
        return Failure(CannotDecrypt);
      }
      return Success(Payload(list, items));
    }

    /** Upsert one proxy by name. */
    method ImportProxy(list: seq<ProxyExport>, i: nat)
      requires i < |list|
      modifies this`proxies
      ensures proxies == ProxyStep(list, Shift(env, written))(old(proxies), i)
    {
      ShiftedProxy(proxies, list[i], i, written, env);
      var name, url, n := Trim(list[i].name), Trim(list[i].url), written + i;
      if name == "" || url == "" {
        return;
      }
      var urlEnc := env.seal(n, url);
      var existing := ProxyNamed(proxies, name);
      if existing.Some? {
        var k := existing.value;
        proxies := proxies[k := proxies[k].(name := name, urlEnc := urlEnc, updatedAt := env.clock(n))];
      } else {
        proxies := InsertProxy(proxies, ProxyRow(env.ids(n), name, urlEnc, env.clock(n), env.clock(n)));
      }
    }

    method ImportProxies(list: seq<ProxyExport>)
      modifies this`proxies
      ensures proxies == PutProxies(old(proxies), list, Shift(env, written))
    {
      ghost var step := ProxyStep(list, Shift(env, written));
      for i := 0 to |list|
        invariant proxies == Fold(old(proxies), step, i)
      {
        ImportProxy(list, i);
      }
    }

    /** Upsert one account by name; `base` rows were written since the import began. */
    method ImportItem(items: seq<ExportItem>, i: nat, base: nat, imported: nat, updated: nat)
      returns (imported': nat, updated': nat)
      requires i < |items|
      modifies this`keys
      ensures Progress(keys, imported', updated')
           == ItemStep(proxies, items, base, Shift(env, written))(Progress(old(keys), imported, updated), i)
    {
      ShiftedItem(Progress(keys, imported, updated), proxies, items[i], base + i, written, env);
      var item, n := items[i], written + (base + i);
      if Trim(item.name) == "" {
        return imported, updated;
      }
      var proxyId := LinkedProxy(proxies, item.proxy);
      var enc := env.seal(n, item.apiKey);
      var data := KeyData(Trim(item.name), enc, item.tags, item.notes, item.accountType, proxyId);
      if NameTaken(keys, data.name, None) {
        keys := Apply(keys, ImportOver(data, item.isEnabled, env.clock(n)));
        return imported, updated + 1;
      }
      keys := InsertKey(keys, NewRow(env.ids(n), data, item.isEnabled, None, None, env.clock(n)));
      return imported + 1, updated;
    }

    method ImportItems(items: seq<ExportItem>, base: nat) returns (imported: nat, updated: nat)
      modifies this`keys
      ensures Progress(keys, imported, updated) == PutItems(old(keys), proxies, items, base, Shift(env, written))
    {
      ghost var step := ItemStep(proxies, items, base, Shift(env, written));
      imported, updated := 0, 0;
      for i := 0 to |items|
        invariant Progress(keys, imported, updated) == Fold(Progress(old(keys), 0, 0), step, i)
      {
        imported, updated := ImportItem(items, i, base, imported, updated);
      }
    }

    /** `import`: the proxies first, so that items can link to them. */
    method Import(body: Body) returns (imported: nat, updated: nat)
      modifies this
      ensures (Contents(), imported, updated) == Backup.Import(old(Contents()), PayloadOf(body), old(written), env)
      ensures written == old(written) + |PayloadOf(body).proxies| + |PayloadOf(body).items|
    {
      var payload := PayloadOf(body);
      ImportProxies(payload.proxies);
      imported, updated := ImportItems(payload.items, |payload.proxies|);
      written := written + |payload.proxies| + |payload.items|;
    }

    /** `delete_proxy`: no account is left linked to it, and nothing else changes. */
    method DeleteProxy(id: string) returns (found: bool)
      modifies this`keys, this`proxies
      ensures Contents() == Handle(old(Contents()), Change.DeleteProxy(id), written, env)
      ensures found <==> HasProxy(old(proxies), id)
      ensures !HasProxy(proxies, id) && forall r :: r in keys ==> r.proxyId != Some(id)
      ensures |keys| == |old(keys)| && forall i :: 0 <= i < |keys| ==>
                keys[i] == if old(keys)[i].proxyId == Some(id) then old(keys)[i].(proxyId := None) else old(keys)[i]
      ensures forall p :: p in proxies <==> p in old(proxies) && p.id != id
      ensures CleanTables(old(Contents()), env) ==> CleanTables(Contents(), env)
    {
      if CleanTables(Contents(), env) {
        DeleteProxyKeepsClean(Contents(), id, env);
      }
      keys := Apply(keys, DetachProxy(id));
      found := HasProxy(proxies, id);
      proxies := Filter(proxies, OtherProxy(id));
    }

    /** `proxies::create`. The last refusal is that of the primary key. */
    method CreateProxy(name: string, url: string, usable: bool) returns (error: Option<Error>)
      modifies this`proxies, this`written
      ensures Contents() == Handle(old(Contents()), Change.CreateProxy(name, url, usable), old(written), env)
      ensures error == if Blank(name) then Some(NameRequired) else if Blank(url) then Some(UrlRequired)
                       else if ProxyNamed(old(proxies), Trim(name)).Some? then Some(Conflict)
                       else if !usable then Some(UnusableUrl)
                       else if HasProxy(old(proxies), env.ids(old(written))) then Some(Conflict) else None
      ensures error.Some? ==> proxies == old(proxies)
      ensures error.None? ==> |proxies| == |old(proxies)| + 1 && proxies[..|old(proxies)|] == old(proxies)
      ensures error.None? && Reliable(env) ==>
                var row := proxies[|old(proxies)|];
                row.name == Trim(name) && env.open(row.urlEnc) == Some(Trim(url)) && row.createdAt == row.updatedAt
    {
      if Trim(name) == "" {
        return Some(NameRequired);
      }
      if Trim(url) == "" {
        return Some(UrlRequired);
      }
      if ProxyNamed(proxies, Trim(name)).Some? {
        return Some(Conflict);
      }
      if !usable {
        return Some(UnusableUrl);
      }
      var id, now := env.ids(written), env.clock(written);
      var urlEnc := env.seal(written, Trim(url));
      if HasProxy(proxies, id) {
        return Some(Conflict);
      }
      proxies := proxies + [ProxyRow(id, Trim(name), urlEnc, now, now)];
      written := written + 1;
      return None;
    }

    /** `proxies::update`. The id and the other rows keep their places. */
    method UpdateProxy(id: string, name: string, url: string, usable: bool) returns (error: Option<Error>)
      modifies this`proxies, this`written
      ensures Contents() == Handle(old(Contents()), Change.UpdateProxy(id, name, url, usable), old(written), env)
      ensures error == if !HasProxy(old(proxies), id) then Some(NotFound)
                       else if Blank(name) then Some(NameRequired) else if Blank(url) then Some(UrlRequired)
                       else if !ProxyNameFree(old(proxies), id, Trim(name)) then Some(Conflict)
                       else if !usable then Some(UnusableUrl) else None
      ensures error.Some? ==> proxies == old(proxies)
      ensures |proxies| == |old(proxies)| && forall i :: 0 <= i < |proxies| ==>
                && proxies[i].id == old(proxies)[i].id && proxies[i].createdAt == old(proxies)[i].createdAt
                && (error.None? && proxies[i].id == id && Reliable(env) ==>
                      proxies[i].name == Trim(name) && env.open(proxies[i].urlEnc) == Some(Trim(url)))
                && (proxies[i].id != id ==> proxies[i] == old(proxies)[i])
    {
      if !HasProxy(proxies, id) {
        assert RenameProxy(proxies, id, Trim(name), env.seal(written, Trim(url)), env.clock(written)) == proxies;
        return Some(NotFound);
      }
      if Trim(name) == "" {
        return Some(NameRequired);
      }
      if Trim(url) == "" {
        return Some(UrlRequired);
      }
      if !ProxyNameFree(proxies, id, Trim(name)) {
        return Some(Conflict);
      }
      if !usable {
        return Some(UnusableUrl);
      }
      proxies := RenameProxy(proxies, id, Trim(name), env.seal(written, Trim(url)), env.clock(written));
      written := written + 1;
      return None;
    }

    /**
     `keys::create`. A taken name gets a suffix; when that is taken too the unique index refuses it, as the primary
     key does a taken id.
     */
    method CreateKey(input: KeyInput, hex: string) returns (error: Option<Error>)
      modifies this`keys, this`written
      ensures Contents() == Handle(old(Contents()), Change.CreateKey(input, hex), old(written), env)
      ensures error == if !Replaces(input.apiKey) then Some(KeyRequired)
                       else if ResolveProxy(proxies, input.proxyId.GetOr(None)).None? then Some(UnknownProxy)
                       else if NameTaken(old(keys), CreatedName(old(keys), input, hex), None)
                               || HasId(old(keys), env.ids(old(written))) then Some(Conflict)
                       else None
      ensures error.Some? ==> keys == old(keys)
      ensures error.None? ==> |keys| == |old(keys)| + 1 && keys[..|old(keys)|] == old(keys)
                              && keys[|old(keys)|].name == CreatedName(old(keys), input, hex)
      ensures error.None? && Reliable(env) ==>
                var row := keys[|old(keys)|];
                && env.open(row.apiKeyEnc) == Some(Trim(input.apiKey.value))
                && row.tags == input.tags && row.notes == input.notes
                && row.accountType == (if input.accountType.Some? then input.accountType.value else Normal)
                && AsksFor(proxies, if input.proxyId.Some? then input.proxyId.value else None, row.proxyId)
                && row.isEnabled && row.quotaExhaustedAt.None? && row.cookieEnc.None?
    {
      if input.apiKey.None? || Trim(input.apiKey.value) == "" {
        return Some(KeyRequired);
      }
      var key := Trim(input.apiKey.value);
      var name := CreateName(input.name, key);
      if NameTaken(keys, name, None) {
        name := name + " " + hex;
      }
      var proxyId := ResolveProxy(proxies, input.proxyId.GetOr(None));
      if proxyId.None? {
        return Some(UnknownProxy);
      }
      var data := KeyData(name, env.seal(written, key), input.tags, input.notes, input.accountType.GetOr(Normal),
                          proxyId.value);
      var row := NewRow(env.ids(written), data, true, None, None, env.clock(written));
      if HasId(keys, row.id) || NameTaken(keys, name, None) {
        return Some(Conflict);
      }
      keys := keys + [row];
      written := written + 1;
      return None;
    }
  }

  /** The name a creation asks the table to take. */
  function CreatedName(keys: seq<KeyRow>, input: KeyInput, hex: string): string
    requires input.apiKey.Some?
  {
    FreeName(keys, CreateName(input.name, Trim(input.apiKey.value)), hex)
  }

  lemma ShiftedProxy(proxies: seq<ProxyRow>, p: ProxyExport, n: nat, base: nat, env: Env)
    ensures PutProxy(proxies, p, n, Shift(env, base)) == PutProxy(proxies, p, base + n, env)
  {
  }

  lemma ShiftedItem(s: Progress, proxies: seq<ProxyRow>, item: ExportItem, n: nat, base: nat, env: Env)
    ensures PutItem(s, proxies, item, n, Shift(env, base)) == PutItem(s, proxies, item, base + n, env)
  {
  }
}
