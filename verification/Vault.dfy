/**
 The vault: secrets at rest under the master key (src/db.rs `reencrypt_all`, src/routes/auth.rs,
 src/state.rs).

 The cryptography is a parameter. `Sound` lists all that is asked of it.
 */
module Vault {
  import opened Wrappers
  import opened Sequences
  import opened Accounts
  import QuotaLifecycle
  import Backup

  type Nonce = int

  datatype Crypto<!Key> = Crypto(
    encrypt: (Key, Nonce, string) -> string,
    decrypt: (Key, string) -> Option<string>,
    hashPassword: (string, string) -> string,
    verify: (string, string) -> bool,
    derive: (string, string) -> Key,
    encodeKey: Key -> string,
    decodeKey: string -> Option<Key>)

  /**
   Authenticated decryption inverts encryption; a fresh password hash accepts its password; passwords
   accepted by one hash derive one key (the hash is itself the Argon2 output the key is); the stored
   form of a key decodes.
   */
  ghost predicate Sound<Key(!new)>(c: Crypto<Key>) {
    && (forall k, n, p {:trigger c.encrypt(k, n, p)} :: c.decrypt(k, c.encrypt(k, n, p)) == Some(p))
    && (forall p, salt :: c.verify(c.hashPassword(p, salt), p))
    && (forall h, p, q :: c.verify(h, p) && c.verify(h, q) ==> c.derive(h, p) == c.derive(h, q))
    && (forall k :: c.decodeKey(c.encodeKey(k)) == Some(k))
  }

  /**
   An idealisation: what one key opens, no other key opens. Authenticated encryption makes a second key
   improbable, not impossible; AES-GCM in particular does not promise it.
   */
  ghost predicate OneKeyOpens<Key(!new)>(c: Crypto<Key>) {
    forall k, k', enc :: c.decrypt(k, enc).Some? && c.decrypt(k', enc).Some? ==> k == k'
  }

  lemma RoundTrip<Key(!new)>(c: Crypto<Key>, k: Key, n: Nonce, p: string)
    requires Sound(c)
    ensures c.decrypt(k, c.encrypt(k, n, p)) == Some(p)
  {
  }

  datatype ClientKeyRow = ClientKeyRow(id: string, name: string, keyHash: string, keyEnc: Option<string>)

  datatype AuthError = AlreadyInstalled | NotInstalled | EmptyPassword | WrongPassword | DecryptFailed
                     | KeyUnavailable | BadPersistedKey | Conflict

  // ---- encrypted columns --------------------------------------------------------------------------

  /** A column of encrypted values, NULL where there is none. */
  type Column = seq<Option<string>>

  function ApiKeys(rows: seq<KeyRow>): Column {
    Map(rows, (r: KeyRow) => Some(r.apiKeyEnc))
  }

  function Urls(rows: seq<ProxyRow>): Column {
    Map(rows, (r: ProxyRow) => Some(r.urlEnc))
  }

  function ClientSecrets(rows: seq<ClientKeyRow>): Column {
    Map(rows, (r: ClientKeyRow) => r.keyEnc)
  }

  /** `cookie_enc`, which `reencrypt_all` does not touch. */
  function Cookies(rows: seq<KeyRow>): Column {
    Map(rows, (r: KeyRow) => r.cookieEnc)
  }

  predicate NoCookies(rows: seq<KeyRow>) {
    forall r :: r in rows ==> r.cookieEnc.None?
  }

  /** The unique columns of `client_api_keys`. */
  predicate ClientKeyTaken(rows: seq<ClientKeyRow>, row: ClientKeyRow) {
    exists r :: r in rows && (r.id == row.id || SameName(r.name, row.name) || r.keyHash == row.keyHash)
  }

  function NonNull(col: Column): nat {
    if col == [] then 0 else NonNull(col[..|col| - 1]) + if col[|col| - 1].Some? then 1 else 0
  }

  ghost predicate Decrypts<Key>(c: Crypto<Key>, k: Key, col: Column) {
    forall i :: 0 <= i < |col| && col[i].Some? ==> c.decrypt(k, col[i].value).Some?
  }

  /** The plaintexts of a column, which must all decrypt. */
  ghost predicate SamePlaintexts<Key>(c: Crypto<Key>, k: Key, col: Column, k': Key, col': Column) {
    && |col'| == |col|
    && forall i :: 0 <= i < |col| ==>
         && col'[i].Some? == col[i].Some?
         && (col[i].Some? ==> c.decrypt(k, col[i].value).Some?
                              && c.decrypt(k', col'[i].value) == c.decrypt(k, col[i].value))
  }

  /** One of the three loops of `reencrypt_all`: row by row, stopping at the first that does not decrypt. */
  method ReencryptColumn<Key(!new)>(c: Crypto<Key>, oldKey: Key, newKey: Key, col: Column, nonces: nat -> Nonce,
                              count: nat)
    returns (r: Option<Column>, count': nat)
    requires Sound(c)
    ensures r.Some? <==> Decrypts(c, oldKey, col)
    ensures r.Some? ==> SamePlaintexts(c, oldKey, col, newKey, r.value) && count' == count + NonNull(col)
  {
    var done: Column := [];
    count' := count;
    for i := 0 to |col|
      invariant |done| == i && SamePlaintexts(c, oldKey, col[..i], newKey, done)
      invariant count' == count + NonNull(col[..i])
    {
      assert col[..i + 1] == col[..i] + [col[i]];
      if col[i].Some? {
        var pt := c.decrypt(oldKey, col[i].value);
        if pt.None? {
          return None, count';
        }
        var enc := c.encrypt(newKey, nonces(count'), pt.value);
        RoundTrip(c, newKey, nonces(count'), pt.value);
        done := done + [Some(enc)];
        count' := count' + 1;
      } else {
        done := done + [None];
      }
    }
    assert col[..|col|] == col;
    return Some(done), count';
  }

  // ---- writing a column back ------------------------------------------------------------------------

  function WithApiKeys(rows: seq<KeyRow>, col: Column): seq<KeyRow>
    requires |col| == |rows| && forall i :: 0 <= i < |col| ==> col[i].Some?
  {
    seq(|rows|, i requires 0 <= i < |rows| => rows[i].(apiKeyEnc := col[i].value))
  }

  function WithUrls(rows: seq<ProxyRow>, col: Column): seq<ProxyRow>
    requires |col| == |rows| && forall i :: 0 <= i < |col| ==> col[i].Some?
  {
    seq(|rows|, i requires 0 <= i < |rows| => rows[i].(urlEnc := col[i].value))
  }

  function WithClientSecrets(rows: seq<ClientKeyRow>, col: Column): seq<ClientKeyRow>
    requires |col| == |rows|
  {
    seq(|rows|, i requires 0 <= i < |rows| => rows[i].(keyEnc := col[i]))
  }

  lemma ColumnsReadBack(a: seq<KeyRow>, p: seq<ProxyRow>, k: seq<ClientKeyRow>,
                        ca: Column, cp: Column, ck: Column)
    requires |ca| == |a| && |cp| == |p| && |ck| == |k|
    requires forall i :: 0 <= i < |ca| ==> ca[i].Some?
    requires forall i :: 0 <= i < |cp| ==> cp[i].Some?
    ensures ApiKeys(WithApiKeys(a, ca)) == ca && Urls(WithUrls(p, cp)) == cp
    ensures ClientSecrets(WithClientSecrets(k, ck)) == ck
  {
  }

  // ---- the vault ----------------------------------------------------------------------------------

  class Vault<Key(!new, ==)> {
    const crypto: Crypto<Key>
    var accounts: seq<KeyRow>
    var proxies: seq<ProxyRow>
    var clients: seq<ClientKeyRow>
    var passwordHash: Option<string>
    var encryptionKey: Option<string>
    var masterKey: Option<Key>

    ghost predicate AllDecrypt(k: Key)
      reads this
    {
      && Decrypts(crypto, k, ApiKeys(accounts))
      && Decrypts(crypto, k, Urls(proxies))
      && Decrypts(crypto, k, ClientSecrets(clients))
    }

    ghost predicate NoSecrets()
      reads this
    {
      accounts == [] && proxies == [] && NonNull(ClientSecrets(clients)) == 0
    }

    /**
     The key in memory is the persisted one, every secret decrypts under it, and it is the key that any
     accepted password derives. Before the first login on an older database there is no key yet; before
     the set-up there is nothing to decrypt.
     */
    ghost predicate Valid()
      reads this
    {
      && Sound(crypto)
      && (masterKey.None? <==> encryptionKey.None?)
      && (masterKey.Some? ==> && crypto.decodeKey(encryptionKey.value) == masterKey
                              && passwordHash.Some? && AllDecrypt(masterKey.value))
      && (passwordHash.None? ==> NoSecrets())
      && (passwordHash.Some? ==>
            forall p :: crypto.verify(passwordHash.value, p) ==>
              var k := crypto.derive(passwordHash.value, p);
              AllDecrypt(k) && (masterKey.Some? ==> masterKey.value == k))
    }

    /** Every stored cookie can be read, with the key in memory and after every login. */
    ghost predicate CookiesDecrypt()
      reads this
    {
      && (masterKey.Some? ==> Decrypts(crypto, masterKey.value, Cookies(accounts)))
      && (passwordHash.Some? ==>
            forall p :: crypto.verify(passwordHash.value, p) ==>
              Decrypts(crypto, crypto.derive(passwordHash.value, p), Cookies(accounts)))
    }

    constructor (crypto: Crypto<Key>)
      requires Sound(crypto)
      ensures Valid() && CookiesDecrypt() && this.crypto == crypto && passwordHash.None? && accounts == []
    {
      this.crypto := crypto;
      accounts, proxies, clients, passwordHash, encryptionKey, masterKey := [], [], [], None, None, None;
    }

    /** Everything but the three columns is as it was: cookies in particular. */
    twostate predicate OnlySecretsChanged()
      reads this
    {
      && |accounts| == |old(accounts)| && |proxies| == |old(proxies)| && |clients| == |old(clients)|
      && (forall i :: 0 <= i < |accounts| ==>
            accounts[i] == old(accounts)[i].(apiKeyEnc := accounts[i].apiKeyEnc))
      && (forall i :: 0 <= i < |proxies| ==> proxies[i] == old(proxies)[i].(urlEnc := proxies[i].urlEnc))
      && (forall i :: 0 <= i < |clients| ==> clients[i] == old(clients)[i].(keyEnc := clients[i].keyEnc))
    }

    twostate predicate PlaintextsKept(k: Key, k': Key)
      reads this
    {
      && SamePlaintexts(crypto, k, ApiKeys(old(accounts)), k', ApiKeys(accounts))
      && SamePlaintexts(crypto, k, Urls(old(proxies)), k', Urls(proxies))
      && SamePlaintexts(crypto, k, ClientSecrets(old(clients)), k', ClientSecrets(clients))
    }

    /**
     `reencrypt_all`: one transaction. It succeeds exactly when everything decrypts under the old key;
     then every plaintext is kept under the new key and the count is the number of secrets. Otherwise the
     tables are untouched.
     */
    method ReencryptAll(oldKey: Key, newKey: Key, nonces: nat -> Nonce) returns (r: Result<nat, AuthError>)
      requires Sound(crypto)
      modifies this`accounts, this`proxies, this`clients
      ensures r.Success? <==> old(AllDecrypt(oldKey))
      ensures r.Success? ==> PlaintextsKept(oldKey, newKey) && OnlySecretsChanged()
      ensures Cookies(accounts) == old(Cookies(accounts))
      ensures r.Success? ==> r.value == |accounts| + |proxies| + NonNull(ClientSecrets(clients))
      ensures r.Failure? ==> unchanged(this)
    {
      ghost var a, p, k := ApiKeys(accounts), Urls(proxies), ClientSecrets(clients);
      var ca, n1 := ReencryptColumn(crypto, oldKey, newKey, ApiKeys(accounts), nonces, 0);
      if ca.None? {
        return Failure(DecryptFailed);
      }
      var cp, n2 := ReencryptColumn(crypto, oldKey, newKey, Urls(proxies), nonces, n1);
      if cp.None? {
        return Failure(DecryptFailed);
      }
      var ck, n3 := ReencryptColumn(crypto, oldKey, newKey, ClientSecrets(clients), nonces, n2);
      if ck.None? {
        return Failure(DecryptFailed);
      }
      ColumnsReadBack(accounts, proxies, clients, ca.value, cp.value, ck.value);
      AllNonNull(a);
      AllNonNull(p);
      SameNonNull(k, ck.value);
      accounts := WithApiKeys(accounts, ca.value);
      proxies := WithUrls(proxies, cp.value);
      clients := WithClientSecrets(clients, ck.value);
      assert Cookies(accounts) == old(Cookies(accounts));
      return Success(n3);
    }

    /** First run: set the password and derive the key. */
    method Setup(password: string, salt: string) returns (r: Result<(), AuthError>)
      requires Valid()
      modifies this`passwordHash, this`encryptionKey, this`masterKey
      ensures Valid()
      ensures r == if old(passwordHash).Some? then Failure(AlreadyInstalled)
                   else if password == "" then Failure(EmptyPassword) else Success(())
      ensures r.Success? ==> masterKey.Some? && passwordHash.Some? && crypto.verify(passwordHash.value, password)
                             && passwordHash.value == crypto.hashPassword(password, salt) && CookiesDecrypt()
      ensures r.Failure? ==> unchanged(this)
    {
      if passwordHash.Some? {
        return Failure(AlreadyInstalled);
      }
      if password == "" {
        return Failure(EmptyPassword);
      }
      NoSecretsDecrypt(clients);
      var phc := crypto.hashPassword(password, salt);
      passwordHash := Some(phc);
      var key := crypto.derive(phc, password);
      encryptionKey := Some(crypto.encodeKey(key));
      masterKey := Some(key);
      return Success(());
    }

    method Login(password: string) returns (r: Result<(), AuthError>)
      requires Valid()
      modifies this`encryptionKey, this`masterKey
      ensures Valid()
      ensures r == if passwordHash.None? then Failure(NotInstalled)
                   else if !crypto.verify(passwordHash.value, password) then Failure(WrongPassword) else Success(())
      ensures r.Success? ==> masterKey.Some? && (old(masterKey).Some? ==> masterKey == old(masterKey))
      ensures r.Failure? ==> unchanged(this)
      ensures old(CookiesDecrypt()) ==> CookiesDecrypt()
    {
      if passwordHash.None? {
        return Failure(NotInstalled);
      }
      if !crypto.verify(passwordHash.value, password) {
        return Failure(WrongPassword);
      }
      var key := crypto.derive(passwordHash.value, password);
      encryptionKey := Some(crypto.encodeKey(key));
      masterKey := Some(key);
      return Success(());
    }

    /**
     Every plaintext survives. Cookies are not rewritten, so they can still be read exactly when there are none
     or the new password happens to derive the old key.
     */
    method ChangePassword(oldPassword: string, newPassword: string, salt: string, nonces: nat -> Nonce)
      returns (r: Result<(), AuthError>)
      requires Valid()
      modifies this
      ensures Valid()
      ensures r == if newPassword == "" then Failure(EmptyPassword)
                   else if old(passwordHash).None? then Failure(NotInstalled)
                   else if !crypto.verify(old(passwordHash).value, oldPassword) then Failure(WrongPassword)
                   else Success(())
      ensures r.Success? ==> && masterKey.Some? && passwordHash.Some?
                             && crypto.verify(passwordHash.value, newPassword)
                             && PlaintextsKept(crypto.derive(old(passwordHash).value, oldPassword), masterKey.value)
                             && passwordHash.value == crypto.hashPassword(newPassword, salt)
                             && masterKey.value == crypto.derive(passwordHash.value, newPassword)
                             && OnlySecretsChanged() && Cookies(accounts) == old(Cookies(accounts))
      ensures r.Success? && OneKeyOpens(crypto) && old(CookiesDecrypt()) ==>
                (CookiesDecrypt() <==> NoCookies(old(accounts))
                                       || masterKey.value == crypto.derive(old(passwordHash).value, oldPassword))
      ensures r.Success? && old(CookiesDecrypt())
              && (NoCookies(old(accounts)) || masterKey.value == crypto.derive(old(passwordHash).value, oldPassword))
              ==> CookiesDecrypt()
      ensures r.Failure? ==> unchanged(this)
    {
      if newPassword == "" {
        return Failure(EmptyPassword);
      }
      if passwordHash.None? {
        return Failure(NotInstalled);
      }
      if !crypto.verify(passwordHash.value, oldPassword) {
        return Failure(WrongPassword);
      }
      var oldKey := crypto.derive(passwordHash.value, oldPassword);
      Rekey(oldKey, newPassword, salt, nonces);
      if OneKeyOpens(crypto) && old(CookiesDecrypt()) {
        CookiesSurviveIff(crypto, oldKey, masterKey.value, old(accounts));
      }
      return Success(());
    }

    /** `change_password` past its checks. */
    method Rekey(oldKey: Key, newPassword: string, salt: string, nonces: nat -> Nonce)
      requires Sound(crypto) && AllDecrypt(oldKey)
      modifies this
      ensures Valid() && masterKey.Some? && passwordHash == Some(crypto.hashPassword(newPassword, salt))
      ensures masterKey.value == crypto.derive(passwordHash.value, newPassword)
      ensures crypto.verify(passwordHash.value, newPassword)
      ensures PlaintextsKept(oldKey, masterKey.value) && OnlySecretsChanged()
      ensures Cookies(accounts) == old(Cookies(accounts))
      ensures CookiesDecrypt() <==> Decrypts(crypto, masterKey.value, Cookies(accounts))
    {
      var newPhc := crypto.hashPassword(newPassword, salt);
      var newKey := crypto.derive(newPhc, newPassword);
      var n := ReencryptAll(oldKey, newKey, nonces);
      assert n.Success?;
      assert AllDecrypt(newKey);
      passwordHash := Some(newPhc);
      encryptionKey := Some(crypto.encodeKey(newKey));
      masterKey := Some(newKey);
    }

    /** `AppState::new`: the key in memory is read back from the database. */
    method Restart() returns (r: Result<(), AuthError>)
      requires Valid()
      modifies this`masterKey
      ensures Valid() && r.Success? && masterKey == old(masterKey)
      ensures old(CookiesDecrypt()) ==> CookiesDecrypt()
    {
      if encryptionKey.None? {
        masterKey := None;
        return Success(());
      }
      var key := crypto.decodeKey(encryptionKey.value);
      if key.None? {
        return Failure(BadPersistedKey);
      }
      masterKey := key;
      return Success(());
    }

    /** `encrypt_secret`. */
    method EncryptSecret(plain: string, nonce: Nonce) returns (r: Result<string, AuthError>)
      requires Valid()
      ensures r.Success? <==> masterKey.Some?
      ensures r.Success? ==> crypto.decrypt(masterKey.value, r.value) == Some(plain)
      ensures r.Failure? ==> r.error == KeyUnavailable
    {
      if masterKey.None? {
        return Failure(KeyUnavailable);
      }
      return Success(crypto.encrypt(masterKey.value, nonce, plain));
    }

    /** Adding an account, with a cookie or without. Its id and its name, letter case aside, must be new. */
    method InsertAccount(row: KeyRow, plain: string, cookie: Option<string>, nonce: Nonce, cookieNonce: Nonce)
      returns (r: Result<(), AuthError>)
      requires Valid()
      modifies this`accounts
      ensures Valid()
      ensures r == if masterKey.None? then Failure(KeyUnavailable)
                   else if HasId(old(accounts), row.id) || QuotaLifecycle.NameTaken(old(accounts), row.name, None)
                   then Failure(Conflict) else Success(())
      ensures r.Failure? ==> unchanged(this)
      ensures r.Success? ==>
        && |accounts| == |old(accounts)| + 1 && accounts[..|old(accounts)|] == old(accounts)
        && var added := accounts[|old(accounts)|];
        && added == row.(apiKeyEnc := added.apiKeyEnc, cookieEnc := added.cookieEnc)
        && crypto.decrypt(masterKey.value, added.apiKeyEnc) == Some(plain)
        && (if cookie.None? then added.cookieEnc.None?
            else added.cookieEnc.Some? && crypto.decrypt(masterKey.value, added.cookieEnc.value) == cookie)
      ensures old(CookiesDecrypt()) ==> CookiesDecrypt()
    {
      var enc := EncryptSecret(plain, nonce);
      if enc.Failure? {
        return Failure(enc.error);
      }
      var cookieEnc: Option<string> := None;
      if cookie.Some? {
        var sealed := EncryptSecret(cookie.value, cookieNonce);
        cookieEnc := Some(sealed.value);
      }
      if HasId(accounts, row.id) || QuotaLifecycle.NameTaken(accounts, row.name, None) {
        return Failure(Conflict);
      }
      accounts := accounts + [row.(apiKeyEnc := enc.value, cookieEnc := cookieEnc)];
      return Success(());
    }

    method InsertProxy(row: ProxyRow, url: string, nonce: Nonce) returns (r: Result<(), AuthError>)
      requires Valid()
      modifies this`proxies
      ensures Valid()
      ensures r == if masterKey.None? then Failure(KeyUnavailable)
                   else if Backup.HasProxy(old(proxies), row.id) || Backup.ProxyNamed(old(proxies), row.name).Some?
                   then Failure(Conflict) else Success(())
      ensures r.Failure? ==> unchanged(this)
      ensures r.Success? ==> |proxies| == |old(proxies)| + 1 && proxies[..|old(proxies)|] == old(proxies)
                             && var added := proxies[|old(proxies)|];
                                added == row.(urlEnc := added.urlEnc)
                                && crypto.decrypt(masterKey.value, added.urlEnc) == Some(url)
    {
      var enc := EncryptSecret(url, nonce);
      if enc.Failure? {
        return Failure(enc.error);
      }
      if Backup.HasProxy(proxies, row.id) || Backup.ProxyNamed(proxies, row.name).Some? {
        return Failure(Conflict);
      }
      proxies := proxies + [row.(urlEnc := enc.value)];
      return Success(());
    }

    method InsertClientKey(row: ClientKeyRow, plain: string, nonce: Nonce) returns (r: Result<(), AuthError>)
      requires Valid()
      modifies this`clients
      ensures Valid()
      ensures r == if masterKey.None? then Failure(KeyUnavailable)
                   else if ClientKeyTaken(old(clients), row) then Failure(Conflict) else Success(())
      ensures r.Failure? ==> unchanged(this)
      ensures r.Success? ==> |clients| == |old(clients)| + 1 && clients[..|old(clients)|] == old(clients)
                             && var added := clients[|old(clients)|];
                                added == row.(keyEnc := added.keyEnc) && added.keyEnc.Some?
                                && crypto.decrypt(masterKey.value, added.keyEnc.value) == Some(plain)
    {
      var enc := EncryptSecret(plain, nonce);
      if enc.Failure? {
        return Failure(enc.error);
      }
      if ClientKeyTaken(clients, row) {
        return Failure(Conflict);
      }
      clients := clients + [row.(keyEnc := Some(enc.value))];
      return Success(());
    }
  }

  lemma {:induction false} AllNonNull(col: Column)
    requires forall i :: 0 <= i < |col| ==> col[i].Some?
    ensures NonNull(col) == |col|
  {
    if col != [] {
      AllNonNull(col[..|col| - 1]);
    }
  }

  lemma {:induction false} SameNonNull(col: Column, col': Column)
    requires |col| == |col'| && forall i :: 0 <= i < |col| ==> col'[i].Some? == col[i].Some?
    ensures NonNull(col) == NonNull(col')
  {
    if col != [] {
      SameNonNull(col[..|col| - 1], col'[..|col| - 1]);
    }
  }

  lemma {:induction false} NullColumn(col: Column, i: nat)
    requires NonNull(col) == 0 && i < |col|
    ensures col[i].None?
  {
    if i < |col| - 1 {
      NullColumn(col[..|col| - 1], i);
    }
  }

  lemma NoSecretsDecrypt(clients: seq<ClientKeyRow>)
    requires NonNull(ClientSecrets(clients)) == 0
    ensures forall i :: 0 <= i < |clients| ==> ClientSecrets(clients)[i].None?
  {
    forall i | 0 <= i < |clients| ensures ClientSecrets(clients)[i].None? {
      NullColumn(ClientSecrets(clients), i);
    }
  }

  // ---- what a password change does to cookies ---------------------------------------------------------

  /** Cookies sealed under one key and left as they are can be read under another exactly when there are none. */
  lemma CookiesSurviveIff<Key(!new)>(c: Crypto<Key>, oldKey: Key, newKey: Key, rows: seq<KeyRow>)
    requires OneKeyOpens(c) && Decrypts(c, oldKey, Cookies(rows))
    ensures Decrypts(c, newKey, Cookies(rows)) <==> NoCookies(rows) || newKey == oldKey
  {
  }

  /** A small sound cryptography in which one key opens: the key is the first character of the password. */
  function Toy(): Crypto<char> {
    Crypto((k: char, n: Nonce, p: string) => [k] + p,
           (k: char, s: string) => if s != "" && s[0] == k then Some(s[1..]) else None,
           (p: string, salt: string) => p,
           (h: string, p: string) => h == p,
           (h: string, p: string) => if p == "" then 'x' else p[0],
           (k: char) => [k],
           (s: string) => if |s| == 1 then Some(s[0]) else None)
  }

  lemma ToyIsSound()
    ensures Sound(Toy()) && OneKeyOpens(Toy())
  {
    var c := Toy();
    forall k, n, p {:trigger c.encrypt(k, n, p)} ensures c.decrypt(k, c.encrypt(k, n, p)) == Some(p) {
      assert c.encrypt(k, n, p)[1..] == p;
    }
  }

  /**
   A run that loses a cookie: set the password, add an account imported from a cookie, change the password.
   The account's key is still there, its cookie is not.
   */
  method CookieIsLost(row: KeyRow, key: string, cookie: string)
    returns (keyBefore: Option<string>, before: Option<string>, keyAfter: Option<string>, after: Option<string>)
    ensures (keyBefore, before) == (Some(key), Some(cookie))
    ensures (keyAfter, after) == (Some(key), None)
  {
    ToyIsSound();
    var vault := new Vault(Toy());
    var installed := vault.Setup("a", "");
    var added := vault.InsertAccount(row, key, Some(cookie), 0, 1);
    assert installed.Success? && added.Success?;
    ghost var accounts := vault.accounts;
    keyBefore := Toy().decrypt(vault.masterKey.value, vault.accounts[0].apiKeyEnc);
    before := Toy().decrypt(vault.masterKey.value, vault.accounts[0].cookieEnc.value);
    var changed := vault.ChangePassword("a", "b", "", (n: nat) => n);
    assert changed.Success? && vault.masterKey.value == 'b';
    assert ApiKeys(accounts)[0] == Some(accounts[0].apiKeyEnc);
    assert ApiKeys(vault.accounts)[0] == Some(vault.accounts[0].apiKeyEnc);
    keyAfter := Toy().decrypt(vault.masterKey.value, vault.accounts[0].apiKeyEnc);
    after := Toy().decrypt(vault.masterKey.value, vault.accounts[0].cookieEnc.value);
  }
}
