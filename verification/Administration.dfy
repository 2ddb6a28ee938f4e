/**
 The handlers that write accounts and proxies (src/routes/keys.rs, src/routes/proxies.rs,
 src/routes/import_export.rs), each as one step, and what every run of them keeps: the tables stay such
 that a backup restores them.
 */
module Administration {
  import opened Wrappers
  import opened Sequences
  import opened Text
  import opened Accounts
  import opened QuotaLifecycle
  import opened Backup
  import Vault

  /** The body of a create or update call. An absent `proxyId` keeps the account's proxy. */
  datatype KeyInput = KeyInput(
    name: string, apiKey: Option<string>, tags: seq<string>, notes: string, accountType: Option<AccountType>,
    proxyId: Option<Option<string>>)

  /**
   `usable` says whether a client can be built for the URL; `hex` is the start of a fresh UUID; `email`,
   `workspaceId` and `apiKey` are what the account pages show for a cookie; `seal` and `open` work under the
   key of a new password.
   */
  datatype Change =
    | CreateProxy(name: string, url: string, usable: bool)
    | UpdateProxy(id: string, name: string, url: string, usable: bool)
    | DeleteProxy(id: string)
    | CreateKey(input: KeyInput, hex: string)
    | UpdateKey(id: string, input: KeyInput)
    | AddCookie(wanted: Option<string>, email: Option<string>, workspaceId: string, apiKey: string, cookieEnc: string,
                proxyId: Option<string>, accountType: AccountType, hex: string)
    | ImportBackup(payload: Payload)
    | ChangePassword(seal: (nat, string) -> string, open: string -> Option<string>)
    | OnKeys(e: Event)

  /** What is known of the parts of a change that no administrator types in. */
  ghost predicate WellFormed(c: Change) {
    match c
    case ChangePassword(seal, open) => forall n, p :: open(seal(n, p)) == Some(p)
    case CreateKey(_, hex) => Tight(hex)
    case AddCookie(_, email, workspaceId, _, _, _, _, hex) =>
      Tight(hex) && Tight(workspaceId) && (email.Some? ==> Tight(email.value))
    case OnKeys(e) =>
      e.Toggle? || e.Delete? || e.QuotaFailure? || e.AdminRefresh? || e.MonitorTick? || e.CacheModels?
    case _ => true
  }

  // ---- the handlers -----------------------------------------------------------------------------------

  /** `resolve_proxy`: the id of a proxy that exists, or no proxy, or a refusal. */
  function ResolveProxy(proxies: seq<ProxyRow>, id: Option<string>): (r: Option<Option<string>>)
    ensures r.Some? && r.value.Some? ==> r.value == id && HasProxy(proxies, r.value.value)
    ensures r.Some? && r.value.None? ==> id.None? || Blank(id.value)
    ensures r.None? <==> id.Some? && !Blank(id.value) && !HasProxy(proxies, id.value)
  {
    if id.None? || Blank(id.value) then Some(None)
    else if HasProxy(proxies, id.value) then Some(id)
    else None
  }

  function LastFour(s: string): (last: string)
    ensures |last| == if |s| < 4 then |s| else 4
    ensures last == s[|s| - |last|..]
  {
    if |s| <= 4 then s else s[|s| - 4..]
  }

  /** A name that is taken gets four hex digits appended. */
  function FreeName(keys: seq<KeyRow>, name: string, hex: string): string {
    if NameTaken(keys, name, None) then name + " " + hex else name
  }

  function CreateName(name: string, key: string): string {
    if Blank(name) then "OpenCode " + LastFour(key) else Trim(name)
  }

  function CookieName(name: Option<string>, email: Option<string>, workspaceId: string): string {
    if name.Some? && !Blank(name.value) then Trim(name.value)
    else if email.Some? then email.value
    else "OpenCode " + workspaceId
  }

  /** A row with another name and URL; ids and the other names keep their places. */
  function RenameProxy(proxies: seq<ProxyRow>, id: string, name: string, urlEnc: string, now: int): seq<ProxyRow> {
    Map(proxies, (p: ProxyRow) => if p.id == id then p.(name := name, urlEnc := urlEnc, updatedAt := now) else p)
  }

  predicate ProxyNameFree(proxies: seq<ProxyRow>, id: string, name: string) {
    forall p :: p in proxies && SameName(p.name, name) ==> p.id == id
  }

  function OtherProxy(id: string): ProxyRow -> bool {
    (p: ProxyRow) => p.id != id
  }

  /** The event an account handler amounts to, unless it refuses. `n` rows were written before. */
  function KeyEvent(t: Tables, c: Change, n: nat, env: Env): Option<Event> {
    match c
    case CreateKey(input, hex) =>
      var proxy := ResolveProxy(t.proxies, input.proxyId.GetOr(None));
      if !Replaces(input.apiKey) || proxy.None? then None
      else
        var key := Trim(input.apiKey.value);
        var name := FreeName(t.keys, CreateName(input.name, key), hex);
        Some(Event.Create(env.ids(n),
                          KeyData(name, env.seal(n, key), input.tags, input.notes, input.accountType.GetOr(Normal),
                                  proxy.value), true, env.clock(n)))
    case UpdateKey(id, input) =>
      if Find(t.keys, id).None? then None
      else
        var row := Find(t.keys, id).value;
        var proxy := if input.proxyId.Some? then ResolveProxy(t.proxies, input.proxyId.value) else Some(row.proxyId);
        if proxy.None? then None
        else Some(Event.Update(id,
                               KeyData(input.name, env.seal(n, input.apiKey.GetOr("")), input.tags, input.notes,
                                       input.accountType.GetOr(row.accountType), proxy.value),
                               input.apiKey, env.clock(n)))
    case AddCookie(wanted, email, workspaceId, apiKey, cookieEnc, proxyId, accountType, hex) =>
      var proxy := ResolveProxy(t.proxies, proxyId);
      if proxy.None? then None
      else
        var free := FreeName(t.keys, CookieName(wanted, email, workspaceId), hex);
        Some(Event.ImportCookie(env.ids(n),
                                KeyData(free, env.seal(n, apiKey), [], "Cookie 导入", accountType, proxy.value),
                                cookieEnc, workspaceId, env.clock(n)))
    case OnKeys(e) => Some(e)
    case _ => None
  }

  function Handle(t: Tables, c: Change, n: nat, env: Env): Tables {
    match c
    case CreateProxy(name, url, usable) =>
      if Blank(name) || Blank(url) || !usable then t
      else
        var row := ProxyRow(env.ids(n), Trim(name), env.seal(n, Trim(url)), env.clock(n), env.clock(n));
        t.(proxies := InsertProxy(t.proxies, row))
    case UpdateProxy(id, name, url, usable) =>
      if Blank(name) || Blank(url) || !usable || !ProxyNameFree(t.proxies, id, Trim(name)) then t
      else t.(proxies := RenameProxy(t.proxies, id, Trim(name), env.seal(n, Trim(url)), env.clock(n)))
    case DeleteProxy(id) => Tables(Apply(t.keys, DetachProxy(id)), Filter(t.proxies, OtherProxy(id)))
    case ImportBackup(payload) => Import(t, payload, n, env).0
    case ChangePassword(seal, open) => if AllOpen(t, env) then Resealed(t, n, env, seal) else t
    case _ =>
      var e := KeyEvent(t, c, n, env);
      if e.Some? then t.(keys := Apply(t.keys, e.value)) else t
  }

  /** `reencrypt_all`: every secret opened with the old key and sealed with the new one, cookies left alone. */
  function Resealed(t: Tables, n: nat, env: Env, seal: (nat, string) -> string): Tables {
    Tables(seq(|t.keys|, i requires 0 <= i < |t.keys| =>
             t.keys[i].(apiKeyEnc := seal(n + i, env.open(t.keys[i].apiKeyEnc).GetOr("")))),
           seq(|t.proxies|, i requires 0 <= i < |t.proxies| =>
             t.proxies[i].(urlEnc := seal(n + |t.keys| + i, env.open(t.proxies[i].urlEnc).GetOr("")))))
  }

  /** The environment after a change: a password change that went through leaves another key. */
  function NextEnv(t: Tables, c: Change, env: Env): Env {
    if c.ChangePassword? && AllOpen(t, env) then env.(seal := c.seal, open := c.open) else env
  }

  datatype World = World(t: Tables, env: Env)

  function HandlerStep(changes: seq<Change>, written: nat -> nat): (World, nat) -> World {
    (w: World, i: nat) =>
      if i < |changes| then World(Handle(w.t, changes[i], written(i), w.env), NextEnv(w.t, changes[i], w.env)) else w
  }

  /** Tables and key before change `i` of a run on a new installation; `written(i)` rows were written before it. */
  function WorldAt(changes: seq<Change>, written: nat -> nat, i: nat, env: Env): World {
    Fold(World(Tables([], []), env), HandlerStep(changes, written), i)
  }

  // ---- what an account holds after a call ------------------------------------------------------------

  /** The proxy a call asks for: none, or one that exists. */
  predicate AsksFor(proxies: seq<ProxyRow>, asked: Option<string>, given: Option<string>) {
    if asked.None? || Trim(asked.value) == "" then given.None? else given == asked && HasProxy(proxies, asked.value)
  }

  /** The row after an edit, column by column, in terms of what was typed in. */
  predicate EditedAs(r: KeyRow, left: KeyRow, input: KeyInput, proxies: seq<ProxyRow>, env: Env) {
    && left.name == (if Trim(input.name) == "" then r.name else Trim(input.name))
    && (if input.apiKey.Some? && Trim(input.apiKey.value) != ""
        then env.open(left.apiKeyEnc) == input.apiKey && left.quotaExhaustedAt.None?
        else left.apiKeyEnc == r.apiKeyEnc && left.quotaExhaustedAt == r.quotaExhaustedAt)
    && left.tags == input.tags && left.notes == input.notes
    && left.accountType == (if input.accountType.Some? then input.accountType.value else r.accountType)
    && (if input.proxyId.None? then left.proxyId == r.proxyId
        else AsksFor(proxies, input.proxyId.value, left.proxyId))
    && left.isEnabled == r.isEnabled && left.cookieEnc == r.cookieEnc && left.workspaceId == r.workspaceId
  }

  lemma EditedTouch(t: Tables, id: string, input: KeyInput, n: nat, env: Env, r: KeyRow)
    requires Reliable(env) && Find(t.keys, id) == Some(r) && r.id == id
    requires input.proxyId.Some? ==> ResolveProxy(t.proxies, input.proxyId.value).Some?
    ensures var e := KeyEvent(t, UpdateKey(id, input), n, env);
            && e.Some? && e.value.Update? && e.value.id == id && e.value.data.name == input.name
            && EditedAs(r, Touch(e.value, r), input, t.proxies, env)
  {
  }

  /** An edit that is accepted leaves the account as it was typed in. */
  lemma EditedAccount(t: Tables, id: string, input: KeyInput, n: nat, env: Env, r: KeyRow)
    requires Reliable(env) && Find(t.keys, id) == Some(r) && UpdateAccepted(t.keys, id, input.name)
    requires input.proxyId.Some? ==> ResolveProxy(t.proxies, input.proxyId.value).Some?
    ensures var after := Find(Handle(t, UpdateKey(id, input), n, env).keys, id);
            after.Some? && EditedAs(r, after.value, input, t.proxies, env)
  {
    FindHas(t.keys, id);
    EditedTouch(t, id, input, n, env, r);
    EventOnPresentRow(t.keys, KeyEvent(t, UpdateKey(id, input), n, env).value, id);
  }

  /** An account imported from a cookie, when its free name and its id are not taken. */
  lemma CookieAccount(t: Tables, c: Change, n: nat, env: Env)
    requires Reliable(env) && c.AddCookie? && ResolveProxy(t.proxies, c.proxyId).Some?
    requires !HasId(t.keys, env.ids(n))
    requires !NameTaken(t.keys, FreeName(t.keys, CookieName(c.wanted, c.email, c.workspaceId), c.hex), None)
    ensures var keys := Handle(t, c, n, env).keys;
            && |keys| == |t.keys| + 1 && keys[..|t.keys|] == t.keys
            && var row := keys[|t.keys|];
               && env.open(row.apiKeyEnc) == Some(c.apiKey) && row.cookieEnc == Some(c.cookieEnc)
               && row.workspaceId == Some(c.workspaceId) && row.isEnabled && row.quotaExhaustedAt.None?
               && row.accountType == c.accountType && AsksFor(t.proxies, c.proxyId, row.proxyId)
               && (c.wanted.Some? && Trim(c.wanted.value) != "" && !NameTaken(t.keys, Trim(c.wanted.value), None) ==>
                     row.name == Trim(c.wanted.value))
               && (((c.wanted.None? || Trim(c.wanted.value) == "") && c.email.Some?
                    && !NameTaken(t.keys, c.email.value, None)) ==> row.name == c.email.value)
  {
  }

  // ---- clean tables -----------------------------------------------------------------------------------

  /** A trimmed name, a key that opens, and no link to a proxy that is not there. */
  predicate CleanKey(r: KeyRow, proxies: seq<ProxyRow>, env: Env) {
    Trimmed(r.name) && env.open(r.apiKeyEnc).Some? && LinkHolds(r.proxyId, proxies)
  }

  predicate LinkHolds(id: Option<string>, proxies: seq<ProxyRow>) {
    id.Some? ==> HasProxy(proxies, id.value)
  }

  predicate CleanProxy(p: ProxyRow, env: Env) {
    Trimmed(p.name) && env.open(p.urlEnc).Some? && Trimmed(env.open(p.urlEnc).value)
  }

  ghost predicate CleanKeyRows(keys: seq<KeyRow>, proxies: seq<ProxyRow>, env: Env) {
    UniqueIds(keys) && DistinctBy(keys, KEY_TAG) && forall r :: r in keys ==> CleanKey(r, proxies, env)
  }

  ghost predicate CleanProxyRows(proxies: seq<ProxyRow>, env: Env) {
    DistinctProxyIds(proxies) && DistinctBy(proxies, PROXY_TAG) && forall p :: p in proxies ==> CleanProxy(p, env)
  }

  ghost predicate CleanTables(t: Tables, env: Env) {
    CleanKeyRows(t.keys, t.proxies, env) && CleanProxyRows(t.proxies, env)
  }

  lemma CleanIsRestorable(t: Tables, env: Env)
    requires CleanTables(t, env)
    ensures Restorable(t, env)
  {
    assert forall r :: r in t.keys ==> CleanKey(r, t.proxies, env);
    assert forall p :: p in t.proxies ==> CleanProxy(p, env);
  }

  // ---- accounts stay clean ----------------------------------------------------------------------------

  lemma EventKeepsTags(rows: seq<KeyRow>, e: Event)
    requires UniqueIds(rows) && DistinctBy(rows, KEY_TAG)
    ensures DistinctBy(Apply(rows, e), KEY_TAG)
  {
    if e.Delete? {
      DistinctFilter(rows, KEY_TAG, OtherThan(e.id));
    } else if e.Update? {
      if Accepted(rows, e) {
        RenameKeepsTags(rows, e);
      }
    } else if e.Create? {
      InsertKeepsTags(rows, NewRow(e.id, e.data, e.enabled, None, None, e.now));
    } else if e.ImportCookie? {
      InsertKeepsTags(rows, NewRow(e.id, e.data, true, Some(e.cookieEnc), Some(e.workspaceId), e.now));
    } else {
      assert forall i :: 0 <= i < |rows| ==> Touch(e, rows[i]).name == rows[i].name;
    }
  }

  lemma InsertKeepsTags(rows: seq<KeyRow>, row: KeyRow)
    requires DistinctBy(rows, KEY_TAG)
    ensures DistinctBy(InsertKey(rows, row), KEY_TAG)
  {
  }

  lemma RenameKeepsTags(rows: seq<KeyRow>, e: Event)
    requires UniqueIds(rows) && DistinctBy(rows, KEY_TAG) && e.Update? && Accepted(rows, e)
    ensures DistinctBy(Map(rows, Touching(e)), KEY_TAG)
  {
    var target := TargetName(rows, e.id, e.data.name);
    forall r | r in rows
      ensures Touch(e, r).name == if r.id == e.id then target else r.name
    {
      FindHas(rows, r.id);
      if r.id == e.id {
        UniqueFind(rows, r);
      }
    }
    forall i, j | 0 <= i < j < |rows|
      ensures KEY_TAG(Touch(e, rows[i])) != KEY_TAG(Touch(e, rows[j]))
    {
      assert rows[i] in rows && rows[j] in rows;
      assert KEY_TAG(rows[i]) != KEY_TAG(rows[j]);
    }
  }

  /** What a handler writes: a trimmed name (an update trims it itself), a sealed key, a link that holds. */
  predicate GoodEvent(e: Event, proxies: seq<ProxyRow>, env: Env) {
    match e
    case Create(_, d, _, _) => Trimmed(d.name) && env.open(d.apiKeyEnc).Some? && LinkHolds(d.proxyId, proxies)
    case ImportCookie(_, d, _, _, _) => Trimmed(d.name) && env.open(d.apiKeyEnc).Some? && LinkHolds(d.proxyId, proxies)
    case ImportOver(d, _, _) => env.open(d.apiKeyEnc).Some? && LinkHolds(d.proxyId, proxies)
    case Update(_, d, _, _) => env.open(d.apiKeyEnc).Some? && LinkHolds(d.proxyId, proxies)
    case _ => true
  }

  lemma TouchedKeyIsClean(e: Event, r: KeyRow, proxies: seq<ProxyRow>, env: Env)
    requires GoodEvent(e, proxies, env) && CleanKey(r, proxies, env)
    ensures CleanKey(Touch(e, r), proxies, env)
  {
    if e.Update? {
      TrimmedIffTight(e.data.name);
    }
  }

  lemma EventKeepsKeysClean(keys: seq<KeyRow>, e: Event, proxies: seq<ProxyRow>, env: Env)
    requires CleanKeyRows(keys, proxies, env) && GoodEvent(e, proxies, env)
    ensures CleanKeyRows(Apply(keys, e), proxies, env)
  {
    EventKeepsIds(keys, e);
    EventKeepsTags(keys, e);
    forall r | r in Apply(keys, e) ensures CleanKey(r, proxies, env) {
      if !e.Create? && !e.ImportCookie? && !e.Delete? && Accepted(keys, e) {
        var i :| 0 <= i < |keys| && Touching(e)(keys[i]) == r;
        TouchedKeyIsClean(e, keys[i], proxies, env);
      }
    }
  }

  /** Links survive when every proxy's id does. */
  lemma SameLinks(keys: seq<KeyRow>, a: seq<ProxyRow>, b: seq<ProxyRow>, env: Env)
    requires CleanKeyRows(keys, a, env) && forall p :: p in a ==> HasProxy(b, p.id)
    ensures CleanKeyRows(keys, b, env)
  {
  }

  // ---- proxies stay clean -----------------------------------------------------------------------------

  /** No proxy disappears. */
  ghost predicate KeepsProxies(a: seq<ProxyRow>, b: seq<ProxyRow>) {
    forall p :: p in a ==> HasProxy(b, p.id)
  }

  lemma InsertedProxyIsClean(proxies: seq<ProxyRow>, row: ProxyRow, env: Env)
    requires CleanProxyRows(proxies, env) && CleanProxy(row, env)
    ensures CleanProxyRows(InsertProxy(proxies, row), env) && KeepsProxies(proxies, InsertProxy(proxies, row))
  {
    var r := InsertProxy(proxies, row);
    forall i | 0 <= i < |proxies| ensures HasProxy(r, proxies[i].id) {
      assert r[i] in r;
    }
    if r != proxies {
      forall i | 0 <= i < |proxies| ensures proxies[i].id != row.id && PROXY_TAG(proxies[i]) != PROXY_TAG(row) {
        assert proxies[i] in proxies;
      }
    }
  }

  lemma RewrittenProxyIsClean(proxies: seq<ProxyRow>, k: nat, row: ProxyRow, env: Env)
    requires CleanProxyRows(proxies, env) && CleanProxy(row, env)
    requires k < |proxies| && row.id == proxies[k].id && SameName(row.name, proxies[k].name)
    ensures CleanProxyRows(proxies[k := row], env) && KeepsProxies(proxies, proxies[k := row])
  {
    var r := proxies[k := row];
    forall i, j | 0 <= i < j < |r| ensures PROXY_TAG(r[i]) != PROXY_TAG(r[j]) {
      assert PROXY_TAG(proxies[i]) != PROXY_TAG(proxies[j]);
    }
    forall p | p in proxies ensures HasProxy(r, p.id) {
      var i :| 0 <= i < |proxies| && proxies[i] == p;
      assert r[i] in r;
    }
  }

  lemma SealedProxyIsClean(id: string, name: string, url: string, n: nat, created: int, env: Env)
    requires Reliable(env) && !Blank(name) && !Blank(url)
    ensures CleanProxy(ProxyRow(id, Trim(name), env.seal(n, Trim(url)), created, env.clock(n)), env)
  {
    TrimmedIffTight(name);
    TrimmedIffTight(url);
  }

  lemma PutProxyKeepsClean(proxies: seq<ProxyRow>, p: ProxyExport, n: nat, env: Env)
    requires Reliable(env) && CleanProxyRows(proxies, env)
    ensures CleanProxyRows(PutProxy(proxies, p, n, env), env) && KeepsProxies(proxies, PutProxy(proxies, p, n, env))
  {
    if Blank(p.name) || Blank(p.url) {
      assert KeepsProxies(proxies, proxies);
    } else {
      match ProxyNamed(proxies, Trim(p.name))
      case Some(k) =>
        SealedProxyIsClean(proxies[k].id, p.name, p.url, n, proxies[k].createdAt, env);
        RewrittenProxyIsClean(proxies, k, proxies[k].(name := Trim(p.name), urlEnc := env.seal(n, Trim(p.url)),
                                                      updatedAt := env.clock(n)), env);
      case None =>
        SealedProxyIsClean(env.ids(n), p.name, p.url, n, env.clock(n), env);
        InsertedProxyIsClean(proxies, ProxyRow(env.ids(n), Trim(p.name), env.seal(n, Trim(p.url)), env.clock(n),
                                               env.clock(n)), env);
    }
  }

  lemma RenameKeepsClean(proxies: seq<ProxyRow>, id: string, name: string, urlEnc: string, now: int, env: Env)
    requires CleanProxyRows(proxies, env) && ProxyNameFree(proxies, id, name)
    requires Trimmed(name) && env.open(urlEnc).Some? && Trimmed(env.open(urlEnc).value)
    ensures var r := RenameProxy(proxies, id, name, urlEnc, now);
            CleanProxyRows(r, env) && KeepsProxies(proxies, r)
  {
    var r := RenameProxy(proxies, id, name, urlEnc, now);
    forall i | 0 <= i < |r| ensures CleanProxy(r[i], env) && r[i].id == proxies[i].id {
      assert CleanProxy(proxies[i], env);
    }
    forall i, j | 0 <= i < j < |r| ensures PROXY_TAG(r[i]) != PROXY_TAG(r[j]) {
      assert proxies[i] in proxies && proxies[j] in proxies;
      assert PROXY_TAG(proxies[i]) != PROXY_TAG(proxies[j]);
    }
    forall p | p in proxies ensures HasProxy(r, p.id) {
      var i :| 0 <= i < |proxies| && proxies[i] == p;
      assert r[i] in r;
    }
  }

  const PROXY_ID_OF: ProxyRow -> string := (p: ProxyRow) => p.id

  /** Deleting a proxy detaches it from every account, so that no link dangles. */
  lemma DeleteProxyKeepsClean(t: Tables, id: string, env: Env)
    requires CleanTables(t, env)
    ensures CleanTables(Tables(Apply(t.keys, DetachProxy(id)), Filter(t.proxies, OtherProxy(id))), env)
  {
    var keys, proxies := Apply(t.keys, DetachProxy(id)), Filter(t.proxies, OtherProxy(id));
    assert DistinctBy(t.proxies, PROXY_ID_OF);
    DistinctFilter(t.proxies, PROXY_ID_OF, OtherProxy(id));
    DistinctFilter(t.proxies, PROXY_TAG, OtherProxy(id));
    forall i, j | 0 <= i < j < |proxies| ensures proxies[i].id != proxies[j].id {
      assert PROXY_ID_OF(proxies[i]) != PROXY_ID_OF(proxies[j]);
    }
    EventKeepsKeysClean(t.keys, DetachProxy(id), t.proxies, env);
    forall r | r in keys ensures CleanKey(r, proxies, env) {
      assert CleanKey(r, t.proxies, env);
      var i :| 0 <= i < |t.keys| && Touching(DetachProxy(id))(t.keys[i]) == r;
      assert r.proxyId != Some(id);
    }
  }

  // ---- imports keep the tables clean ------------------------------------------------------------------

  /** Clean, and every proxy of `a` still there. */
  ghost predicate CleanGrowth(a: seq<ProxyRow>, b: seq<ProxyRow>, env: Env) {
    CleanProxyRows(b, env) && KeepsProxies(a, b)
  }

  lemma OneProxyKeepsClean(a: seq<ProxyRow>, b: seq<ProxyRow>, list: seq<ProxyExport>, i: nat, env: Env)
    requires Reliable(env) && CleanGrowth(a, b, env) && i < |list|
    ensures CleanGrowth(a, ProxyStep(list, env)(b, i), env)
  {
    PutProxyKeepsClean(b, list[i], i, env);
    var r := PutProxy(b, list[i], i, env);
    forall p | p in a ensures HasProxy(r, p.id) {
      var q :| q in b && q.id == p.id;
      assert HasProxy(r, q.id);
    }
  }

  lemma ProxiesKeepClean(proxies: seq<ProxyRow>, list: seq<ProxyExport>, env: Env)
    requires Reliable(env) && CleanProxyRows(proxies, env)
    ensures CleanGrowth(proxies, PutProxies(proxies, list, env), env)
  {
    var step := ProxyStep(list, env);
    assert KeepsProxies(proxies, proxies);
    forall b, i: nat | i < |list| && CleanGrowth(proxies, b, env) ensures CleanGrowth(proxies, step(b, i), env) {
      OneProxyKeepsClean(proxies, b, list, i, env);
    }
    FoldKeeps(proxies, step, (b: seq<ProxyRow>, i: nat) => CleanGrowth(proxies, b, env), |list|);
  }

  lemma ItemEventIsGood(keys: seq<KeyRow>, proxies: seq<ProxyRow>, item: ExportItem, n: nat, env: Env)
    requires Reliable(env) && !Blank(item.name)
    ensures GoodEvent(ItemEvent(keys, proxies, item, n, env), proxies, env)
  {
    TrimmedIffTight(item.name);
    var d := ItemData(proxies, item, n, env);
    assert LinkHolds(d.proxyId, proxies) by {
      if d.proxyId.Some? {
        var k := ProxyNamed(proxies, Trim(item.proxy.value)).value;
        assert proxies[k] in proxies;
      }
    }
  }

  lemma ItemKeepsClean(s: Progress, proxies: seq<ProxyRow>, item: ExportItem, n: nat, env: Env)
    requires Reliable(env) && CleanKeyRows(s.keys, proxies, env)
    ensures CleanKeyRows(PutItem(s, proxies, item, n, env).keys, proxies, env)
  {
    if !Blank(item.name) {
      var e := ItemEvent(s.keys, proxies, item, n, env);
      ItemEventIsGood(s.keys, proxies, item, n, env);
      EventKeepsKeysClean(s.keys, e, proxies, env);
      assert PutItem(s, proxies, item, n, env).keys == Apply(s.keys, e);
    }
  }

  lemma OneItemKeepsClean(s: Progress, proxies: seq<ProxyRow>, items: seq<ExportItem>, base: nat, i: nat, env: Env)
    requires Reliable(env) && CleanKeyRows(s.keys, proxies, env) && i < |items|
    ensures CleanKeyRows(ItemStep(proxies, items, base, env)(s, i).keys, proxies, env)
  {
    ItemKeepsClean(s, proxies, items[i], base + i, env);
  }

  lemma ItemsKeepClean(keys: seq<KeyRow>, proxies: seq<ProxyRow>, items: seq<ExportItem>, base: nat, env: Env)
    requires Reliable(env) && CleanKeyRows(keys, proxies, env)
    ensures CleanKeyRows(PutItems(keys, proxies, items, base, env).keys, proxies, env)
  {
    var step := ItemStep(proxies, items, base, env);
    forall s: Progress, i: nat | i < |items| && CleanKeyRows(s.keys, proxies, env)
      ensures CleanKeyRows(step(s, i).keys, proxies, env)
    {
      OneItemKeepsClean(s, proxies, items, base, i, env);
    }
    FoldKeeps(Progress(keys, 0, 0), step, (s: Progress, i: nat) => CleanKeyRows(s.keys, proxies, env), |items|);
  }

  lemma SameOpenSameClean(t: Tables, a: Env, b: Env)
    requires a.open == b.open && CleanTables(t, a)
    ensures CleanTables(t, b)
  {
  }

  /** Whatever the payload holds, an import leaves the tables clean. */
  lemma ImportKeepsClean(t: Tables, payload: Payload, base: nat, env: Env)
    requires Reliable(env) && CleanTables(t, env)
    ensures CleanTables(Import(t, payload, base, env).0, env)
  {
    var later := Shift(env, base);
    ShiftIsReliable(env, base);
    SameOpenSameClean(t, env, later);
    ProxiesKeepClean(t.proxies, payload.proxies, later);
    var proxies := PutProxies(t.proxies, payload.proxies, later);
    SameLinks(t.keys, t.proxies, proxies, later);
    ItemsKeepClean(t.keys, proxies, payload.items, |payload.proxies|, later);
    SameOpenSameClean(Import(t, payload, base, env).0, later, env);
  }

  // ---- password changes -------------------------------------------------------------------------------

  /** The same rows with every secret under another key. */
  ghost predicate Rekeyed(t: Tables, env: Env, t': Tables, env': Env) {
    && |t'.keys| == |t.keys| && |t'.proxies| == |t.proxies|
    && (forall i :: 0 <= i < |t.keys| ==>
          && t'.keys[i] == t.keys[i].(apiKeyEnc := t'.keys[i].apiKeyEnc)
          && env.open(t.keys[i].apiKeyEnc).Some?
          && env'.open(t'.keys[i].apiKeyEnc) == env.open(t.keys[i].apiKeyEnc))
    && (forall i :: 0 <= i < |t.proxies| ==>
          && t'.proxies[i] == t.proxies[i].(urlEnc := t'.proxies[i].urlEnc)
          && env.open(t.proxies[i].urlEnc).Some?
          && env'.open(t'.proxies[i].urlEnc) == env.open(t.proxies[i].urlEnc))
  }

  lemma ResealedIsRekeyed(t: Tables, n: nat, env: Env, seal: (nat, string) -> string, open: string -> Option<string>)
    requires AllOpen(t, env) && forall n, p :: open(seal(n, p)) == Some(p)
    ensures Rekeyed(t, env, Resealed(t, n, env, seal), env.(seal := seal, open := open))
  {
  }

  /**
   A password change as the vault does it, which keeps every plaintext and changes nothing but secrets, leaves
   clean tables clean and shows the same in a backup.
   */
  lemma VaultRekeys<Key>(c: Vault.Crypto<Key>, k: Key, k': Key, t: Tables, env: Env, t': Tables, env': Env)
    requires forall s :: env.open(s) == c.decrypt(k, s)
    requires forall s :: env'.open(s) == c.decrypt(k', s)
    requires Vault.SamePlaintexts(c, k, Vault.ApiKeys(t.keys), k', Vault.ApiKeys(t'.keys))
    requires Vault.SamePlaintexts(c, k, Vault.Urls(t.proxies), k', Vault.Urls(t'.proxies))
    requires |t'.keys| == |t.keys| && |t'.proxies| == |t.proxies|
    requires forall i :: 0 <= i < |t.keys| ==> t'.keys[i] == t.keys[i].(apiKeyEnc := t'.keys[i].apiKeyEnc)
    requires forall i :: 0 <= i < |t.proxies| ==> t'.proxies[i] == t.proxies[i].(urlEnc := t'.proxies[i].urlEnc)
    ensures Rekeyed(t, env, t', env')
    ensures CleanTables(t, env) ==> CleanTables(t', env')
    ensures ProxyViews(t', env') == ProxyViews(t, env) && KeyViews(t', env') == KeyViews(t, env)
  {
    assert forall i :: 0 <= i < |t.keys| ==> Vault.ApiKeys(t.keys)[i] == Some(t.keys[i].apiKeyEnc);
    assert forall i :: 0 <= i < |t.keys| ==> Vault.ApiKeys(t'.keys)[i] == Some(t'.keys[i].apiKeyEnc);
    assert forall i :: 0 <= i < |t.proxies| ==> Vault.Urls(t.proxies)[i] == Some(t.proxies[i].urlEnc);
    assert forall i :: 0 <= i < |t.proxies| ==> Vault.Urls(t'.proxies)[i] == Some(t'.proxies[i].urlEnc);
    RekeyedShowsTheSame(t, env, t', env');
    if CleanTables(t, env) {
      RekeyedIsClean(t, env, t', env');
    }
  }

  lemma RekeyedLinks(id: Option<string>, a: seq<ProxyRow>, b: seq<ProxyRow>)
    requires |a| == |b| && forall i :: 0 <= i < |a| ==> a[i].id == b[i].id
    requires LinkHolds(id, a)
    ensures LinkHolds(id, b)
  {
  }

  lemma RekeyedKeysAreClean(t: Tables, env: Env, t': Tables, env': Env)
    requires CleanTables(t, env) && Rekeyed(t, env, t', env')
    ensures CleanKeyRows(t'.keys, t'.proxies, env')
  {
    forall i | 0 <= i < |t'.keys| ensures CleanKey(t'.keys[i], t'.proxies, env') {
      assert CleanKey(t.keys[i], t.proxies, env);
      RekeyedLinks(t.keys[i].proxyId, t.proxies, t'.proxies);
    }
    forall i, j | 0 <= i < j < |t'.keys| ensures KEY_TAG(t'.keys[i]) != KEY_TAG(t'.keys[j]) {
      assert KEY_TAG(t.keys[i]) != KEY_TAG(t.keys[j]);
    }
  }

  lemma RekeyedIsClean(t: Tables, env: Env, t': Tables, env': Env)
    requires CleanTables(t, env) && Rekeyed(t, env, t', env')
    ensures CleanTables(t', env')
  {
    RekeyedKeysAreClean(t, env, t', env');
    forall i | 0 <= i < |t'.proxies| ensures CleanProxy(t'.proxies[i], env') {
      assert CleanProxy(t.proxies[i], env);
    }
    forall i, j | 0 <= i < j < |t'.proxies| ensures PROXY_TAG(t'.proxies[i]) != PROXY_TAG(t'.proxies[j]) {
      assert PROXY_TAG(t.proxies[i]) != PROXY_TAG(t.proxies[j]);
    }
  }

  /** What a backup shows does not depend on the key the secrets are under. */
  lemma RekeyedShowsTheSame(t: Tables, env: Env, t': Tables, env': Env)
    requires Rekeyed(t, env, t', env')
    ensures ProxyViews(t', env') == ProxyViews(t, env) && KeyViews(t', env') == KeyViews(t, env)
  {
    forall i | 0 <= i < |t.keys|
      ensures KeyView(env', t'.proxies)(t'.keys[i]) == KeyView(env, t.proxies)(t.keys[i])
    {
      SameNamesJoinAlike(t.proxies, t'.proxies, t.keys[i].proxyId);
    }
  }

  // ---- every run --------------------------------------------------------------------------------------

  lemma LastFourIsTight(key: string)
    requires Tight(key)
    ensures Tight("OpenCode " + LastFour(key))
  {
  }

  lemma NamesAreTrimmed(keys: seq<KeyRow>, name: string, hex: string)
    requires Tight(name) && Tight(hex)
    ensures Trimmed(FreeName(keys, name, hex))
  {
  }

  lemma CreateNameIsTight(name: string, key: string)
    requires Tight(key)
    ensures Tight(CreateName(name, key))
  {
    TrimIsTight(name);
    LastFourIsTight(key);
  }

  lemma CookieNameIsTight(name: Option<string>, email: Option<string>, workspaceId: string)
    requires Tight(workspaceId) && (email.Some? ==> Tight(email.value))
    ensures Tight(CookieName(name, email, workspaceId))
  {
    if name.Some? {
      TrimIsTight(name.value);
    }
    assert ("OpenCode " + workspaceId)[0] == 'O';
  }

  lemma KeyEventIsGood(t: Tables, c: Change, n: nat, env: Env)
    requires Reliable(env) && CleanTables(t, env) && WellFormed(c)
    ensures var e := KeyEvent(t, c, n, env); e.Some? ==> GoodEvent(e.value, t.proxies, env)
  {
    match c
    case CreateKey(input, hex) =>
      if Replaces(input.apiKey) {
        var key := Trim(input.apiKey.value);
        TrimIsTight(input.apiKey.value);
        CreateNameIsTight(input.name, key);
        NamesAreTrimmed(t.keys, CreateName(input.name, key), hex);
      }
    case AddCookie(wanted, email, workspaceId, _, _, _, _, hex) =>
      CookieNameIsTight(wanted, email, workspaceId);
      NamesAreTrimmed(t.keys, CookieName(wanted, email, workspaceId), hex);
    case UpdateKey(id, input) =>
      FindHas(t.keys, id);
      if Find(t.keys, id).Some? {
        assert CleanKey(Find(t.keys, id).value, t.proxies, env);
      }
    case _ =>
  }

  lemma HandlerKeepsClean(t: Tables, c: Change, n: nat, env: Env)
    requires Reliable(env) && CleanTables(t, env) && WellFormed(c)
    ensures CleanTables(Handle(t, c, n, env), NextEnv(t, c, env))
  {
    match c
    case ChangePassword(seal, open) =>
      CleanIsRestorable(t, env);
      ResealedIsRekeyed(t, n, env, seal, open);
      RekeyedIsClean(t, env, Resealed(t, n, env, seal), env.(seal := seal, open := open));
    case CreateProxy(name, url, usable) =>
      if !Blank(name) && !Blank(url) {
        SealedProxyIsClean(env.ids(n), name, url, n, env.clock(n), env);
        var row := ProxyRow(env.ids(n), Trim(name), env.seal(n, Trim(url)), env.clock(n), env.clock(n));
        InsertedProxyIsClean(t.proxies, row, env);
        SameLinks(t.keys, t.proxies, InsertProxy(t.proxies, row), env);
      }
    case UpdateProxy(id, name, url, usable) =>
      if !Blank(name) && !Blank(url) && ProxyNameFree(t.proxies, id, Trim(name)) {
        SealedProxyIsClean(id, name, url, n, 0, env);
        var r := RenameProxy(t.proxies, id, Trim(name), env.seal(n, Trim(url)), env.clock(n));
        RenameKeepsClean(t.proxies, id, Trim(name), env.seal(n, Trim(url)), env.clock(n), env);
        SameLinks(t.keys, t.proxies, r, env);
      }
    case DeleteProxy(id) => DeleteProxyKeepsClean(t, id, env);
    case ImportBackup(payload) => ImportKeepsClean(t, payload, n, env);
    case _ =>
      var e := KeyEvent(t, c, n, env);
      KeyEventIsGood(t, c, n, env);
      if e.Some? {
        EventKeepsKeysClean(t.keys, e.value, t.proxies, env);
      }
  }

  ghost predicate InOrder(w: World) {
    Reliable(w.env) && CleanTables(w.t, w.env)
  }

  /**
   After any run of administration, password changes, traffic and monitoring, names, secrets and links are in
   order.
   */
  lemma EveryRunStaysClean(changes: seq<Change>, written: nat -> nat, n: nat, env: Env)
    requires Reliable(env) && n <= |changes| && forall c :: c in changes ==> WellFormed(c)
    ensures InOrder(WorldAt(changes, written, n, env))
  {
    var step := HandlerStep(changes, written);
    forall w: World, i: nat | i < n && InOrder(w) ensures InOrder(step(w, i)) {
      assert WellFormed(changes[i]);
      HandlerKeepsClean(w.t, changes[i], written(i), w.env);
    }
    FoldKeeps(World(Tables([], []), env), step, (w: World, i: nat) => InOrder(w), n);
  }

  /** So a backup taken at any time restores, whatever passwords were set meanwhile. */
  lemma EveryBackupRestores(changes: seq<Change>, written: nat -> nat, n: nat, env: Env, other: Env)
    requires Reliable(env) && Reliable(other) && n <= |changes| && forall c :: c in changes ==> WellFormed(c)
    ensures var w := WorldAt(changes, written, n, env); Restores(w.t, w.env, other)
  {
    var w := WorldAt(changes, written, n, env);
    EveryRunStaysClean(changes, written, n, env);
    CleanIsRestorable(w.t, w.env);
    BackupRestores(w.t, w.env, 0, other);
  }

  // ---- exactly which tables a backup restores ---------------------------------------------------------

  /** An export imported into an empty installation brings back every account and every proxy. */
  ghost predicate Restores(t: Tables, env: Env, other: Env) {
    var r := Import(Tables([], []), Exported(t, env), 0, other).0;
    && multiset(ProxyViews(r, other)) == multiset(ProxyViews(t, env))
    && multiset(KeyViews(r, other)) == multiset(KeyViews(t, env))
  }

  const ITEM_TAG: ExportItem -> string := (x: ExportItem) => Lower(x.name)
  const PROXY_ITEM_TAG: ProxyExport -> string := (x: ProxyExport) => Lower(x.name)

  /** `Restorable`, said of what a backup shows. */
  ghost predicate RestorableViews(proxies: seq<ProxyExport>, items: seq<ExportItem>) {
    && DistinctBy(items, ITEM_TAG) && DistinctBy(proxies, PROXY_ITEM_TAG)
    && (forall x :: x in items ==> Trimmed(x.name))
    && (forall x :: x in proxies ==> Trimmed(x.name) && Trimmed(x.url))
  }

  lemma RestorableIffViews(t: Tables, env: Env)
    requires AllOpen(t, env)
    ensures Restorable(t, env) <==> RestorableViews(ProxyViews(t, env), KeyViews(t, env))
  {
    var p, k := ProxyViews(t, env), KeyViews(t, env);
    assert forall i :: 0 <= i < |p| ==>
      p[i] == ProxyView(env)(t.proxies[i]) && PROXY_ITEM_TAG(p[i]) == PROXY_TAG(t.proxies[i]);
    assert forall i :: 0 <= i < |k| ==>
      k[i] == KeyView(env, t.proxies)(t.keys[i]) && ITEM_TAG(k[i]) == KEY_TAG(t.keys[i]);
    assert DistinctBy(k, ITEM_TAG) <==> DistinctBy(t.keys, KEY_TAG);
    assert DistinctBy(p, PROXY_ITEM_TAG) <==> DistinctBy(t.proxies, PROXY_TAG);
  }

  lemma RestorablePermuted(p: seq<ProxyExport>, k: seq<ExportItem>, p': seq<ProxyExport>, k': seq<ExportItem>)
    requires RestorableViews(p, k) && multiset(p) == multiset(p') && multiset(k) == multiset(k')
    ensures RestorableViews(p', k')
  {
    DistinctPermuted(p, p', PROXY_ITEM_TAG);
    DistinctPermuted(k, k', ITEM_TAG);
    forall x | x in p' ensures x in p {
      assert x in multiset(p');
      assert x in multiset(p);
    }
    forall x | x in k' ensures x in k {
      assert x in multiset(k');
      assert x in multiset(k);
    }
  }

  /** A backup of tables whose secrets open restores them exactly when they are restorable. */
  lemma RestoresIff(t: Tables, env: Env, other: Env)
    requires AllOpen(t, env) && Reliable(other)
    ensures Restores(t, env, other) <==> Restorable(t, env)
  {
    if Restores(t, env, other) {
      var r := Import(Tables([], []), Exported(t, env), 0, other).0;
      ImportKeepsClean(Tables([], []), Exported(t, env), 0, other);
      CleanIsRestorable(r, other);
      RestorableIffViews(r, other);
      RestorablePermuted(ProxyViews(r, other), KeyViews(r, other), ProxyViews(t, env), KeyViews(t, env));
      RestorableIffViews(t, env);
    }
    if Restorable(t, env) {
      BackupRestores(t, env, 0, other);
    }
  }
}
