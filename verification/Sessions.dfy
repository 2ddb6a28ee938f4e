/**
 Web sessions (src/db.rs): rows purged lazily, against the plain map that never purges.

 The table's `last_used_at` column is not part of this model.
 */
module Sessions {
  /** Session hash to expiry. */
  type Table = map<string, int>

  datatype Op =
    | Insert(hash: string, now: int, expiresAt: int)
    | Authenticate(hash: string, now: int)
    | Logout(hash: string)

  /** A session that was inserted, was not logged out and has not expired. */
  predicate Alive(t: Table, hash: string, now: int) {
    hash in t && t[hash] > now
  }

  /** DELETE FROM web_sessions WHERE expires_at <= now. */
  function Purge(t: Table, now: int): Table {
    map h | h in t && t[h] > now :: t[h]
  }

  /** One operation as the database does it, and its answer. */
  function Step(t: Table, op: Op): (Table, bool) {
    match op
    case Insert(hash, now, expiresAt) =>
      var purged := Purge(t, now);
      if hash in purged then (purged, false) else (purged[hash := expiresAt], true)
    case Authenticate(hash, now) =>
      if hash in t && t[hash] > now then (t, true)
      else (if hash in t && t[hash] <= now then t - {hash} else t, false)
    case Logout(hash) => (t - {hash}, true)
  }

  /** The specification: sessions last until they are logged out, and count while they have not expired. */
  function PlainStep(t: Table, op: Op): (Table, bool) {
    match op
    case Insert(hash, now, expiresAt) => if Alive(t, hash, now) then (t, false) else (t[hash := expiresAt], true)
    case Authenticate(hash, now) => (t, Alive(t, hash, now))
    case Logout(hash) => (t - {hash}, true)
  }

  function Answers(t: Table, ops: seq<Op>): seq<bool>
    decreases ops
  {
    if ops == [] then [] else [Step(t, ops[0]).1] + Answers(Step(t, ops[0]).0, ops[1..])
  }

  function PlainAnswers(t: Table, ops: seq<Op>): seq<bool>
    decreases ops
  {
    if ops == [] then [] else [PlainStep(t, ops[0]).1] + PlainAnswers(PlainStep(t, ops[0]).0, ops[1..])
  }

  // ---- which runs of the clock are answered alike -----------------------------------------------------

  /** The operation asks, at its own time, about a session that is alive but whose row is gone. */
  predicate Revives(plain: Table, gone: set<string>, op: Op) {
    !op.Logout? && op.hash in gone && Alive(plain, op.hash, op.now)
  }

  /** The sessions whose rows are gone after an operation: expired ones as they are come across. */
  function Gone(plain: Table, gone: set<string>, op: Op): set<string> {
    match op
    case Insert(hash, now, _) =>
      (gone + set h | h in plain && plain[h] <= now) - if Alive(plain, hash, now) then {} else {hash}
    case Authenticate(hash, now) => if hash in plain && plain[hash] <= now then gone + {hash} else gone
    case Logout(hash) => gone - {hash}
  }

  /** No operation of a run looks back to before the time at which a session was purged. */
  predicate NeverRevives(plain: Table, gone: set<string>, ops: seq<Op>)
    decreases ops
  {
    ops != [] ==>
      !Revives(plain, gone, ops[0]) && NeverRevives(PlainStep(plain, ops[0]).0, Gone(plain, gone, ops[0]), ops[1..])
  }

  /** The table is the plain map without the rows that are gone. */
  ghost predicate Lacks(t: Table, plain: Table, gone: set<string>) {
    gone <= plain.Keys && t == plain - gone
  }

  lemma StepLacks(t: Table, plain: Table, gone: set<string>, op: Op)
    requires Lacks(t, plain, gone)
    ensures Step(t, op).1 == PlainStep(plain, op).1 <==> !Revives(plain, gone, op)
    ensures !Revives(plain, gone, op) ==> Lacks(Step(t, op).0, PlainStep(plain, op).0, Gone(plain, gone, op))
  {
  }

  /**
   Purging is invisible exactly in the runs that never revive a session: whatever the clocks, the table
   answers as the plain map does if and only if no operation asks about a session at a time before the
   expiry at which an earlier operation purged it.
   */
  lemma {:induction false} PurgingIsInvisibleIff(t: Table, plain: Table, gone: set<string>, ops: seq<Op>)
    requires Lacks(t, plain, gone)
    ensures Answers(t, ops) == PlainAnswers(plain, ops) <==> NeverRevives(plain, gone, ops)
    decreases ops
  {
    if ops != [] {
      StepLacks(t, plain, gone, ops[0]);
      var t', plain' := Step(t, ops[0]).0, PlainStep(plain, ops[0]).0;
      assert Answers(t, ops)[0] == Step(t, ops[0]).1 && Answers(t, ops)[1..] == Answers(t', ops[1..]);
      assert PlainAnswers(plain, ops)[0] == PlainStep(plain, ops[0]).1;
      assert PlainAnswers(plain, ops)[1..] == PlainAnswers(plain', ops[1..]);
      if !Revives(plain, gone, ops[0]) {
        PurgingIsInvisibleIff(t', plain', Gone(plain, gone, ops[0]), ops[1..]);
      }
    }
  }

  function Clock(op: Op, now: int): int {
    if op.Logout? then now else op.now
  }

  /** The clock never goes back. */
  predicate Monotone(ops: seq<Op>, now: int)
    decreases ops
  {
    ops != [] ==> Clock(ops[0], now) >= now && Monotone(ops[1..], Clock(ops[0], now))
  }

  lemma {:induction false} MonotoneNeverRevives(plain: Table, gone: set<string>, now: int, ops: seq<Op>)
    requires Monotone(ops, now) && gone <= plain.Keys && forall h :: h in gone ==> plain[h] <= now
    ensures NeverRevives(plain, gone, ops)
    decreases ops
  {
    if ops != [] {
      MonotoneNeverRevives(PlainStep(plain, ops[0]).0, Gone(plain, gone, ops[0]), Clock(ops[0], now), ops[1..]);
    }
  }

  /** With a clock that does not go back, every run on an empty table is answered as by the plain map. */
  lemma PurgingIsInvisible(now: int, ops: seq<Op>)
    requires Monotone(ops, now)
    ensures Answers(map[], ops) == PlainAnswers(map[], ops)
  {
    MonotoneNeverRevives(map[], {}, now, ops);
    PurgingIsInvisibleIff(map[], map[], {}, ops);
  }

  /** A clock that goes back far enough misses a session: expiry 10, purged at 20, asked for at 5. */
  lemma ClockMustNotGoBack()
    ensures var ops := [Insert("s", 0, 10), Insert("t", 20, 30), Authenticate("s", 5)];
            Answers(map[], ops) != PlainAnswers(map[], ops)
  {
    var ops := [Insert("s", 0, 10), Insert("t", 20, 30), Authenticate("s", 5)];
    var p1 := PlainStep(map[], ops[0]).0;
    var g1 := Gone(map[], {}, ops[0]);
    assert "s" in Gone(p1, g1, ops[1]);
    assert ops[1..] == [ops[1], ops[2]] && ops[1..][1..] == [ops[2]];
    PurgingIsInvisibleIff(map[], map[], {}, ops);
  }

  // ---- the table --------------------------------------------------------------------------------------

  /** The table holds a part of the plain map that includes everything still alive at `now`. */
  ghost predicate Lags(t: Table, plain: Table, now: int) {
    && (forall h :: h in t ==> h in plain && plain[h] == t[h])
    && (forall h :: h in plain && plain[h] > now ==> h in t)
  }

  /**
   The `web_sessions` table. What a caller sees is `sessions`: every session inserted and not logged out,
   never purged. The rows lag behind it.
   */
  class SessionStore {
    var rows: Table
    ghost var sessions: Table
    ghost var now: int

    ghost predicate Valid()
      reads this
    {
      Lags(rows, sessions, now)
    }

    constructor (ghost start: int)
      ensures Valid() && sessions == map[] && now == start
    {
      rows, sessions, now := map[], map[], start;
    }

    /**
     Refused exactly when the session is alive; so a fresh hash is always inserted. The purge is a statement
     of its own, which stays even when the unique index refuses the insertion.
     */
    method InsertSession(hash: string, createdAt: int, expiresAt: int) returns (inserted: bool)
      requires Valid() && createdAt >= now
      modifies this
      ensures Valid() && now == createdAt
      ensures inserted <==> !Alive(old(sessions), hash, createdAt)
      ensures sessions == if inserted then old(sessions)[hash := expiresAt] else old(sessions)
      ensures (rows, inserted) == Step(old(rows), Insert(hash, createdAt, expiresAt))
    {
      now := createdAt;
      rows := Purge(rows, createdAt);
      if hash in rows {
        return false;
      }
      rows := rows[hash := expiresAt];
      sessions := sessions[hash := expiresAt];
      return true;
    }

    /** True exactly when the hash was inserted, was not logged out, and expires later than now. */
    method AuthenticateSession(hash: string, at: int) returns (ok: bool)
      requires Valid() && at >= now
      modifies this
      ensures Valid() && now == at && sessions == old(sessions)
      ensures ok <==> Alive(sessions, hash, at)
      ensures (rows, ok) == Step(old(rows), Authenticate(hash, at))
    {
      now := at;
      var updated := if hash in rows && rows[hash] > at then 1 else 0;
      if updated == 0 {
        if hash in rows && rows[hash] <= at {
          rows := rows - {hash};
        }
      }
      return updated > 0;
    }

    /** Logged out for good, and no other session with it. */
    method DeleteSession(hash: string)
      requires Valid()
      modifies this
      ensures Valid() && now == old(now) && sessions == old(sessions) - {hash}
      ensures rows == Step(old(rows), Logout(hash)).0
    {
      rows := rows - {hash};
      sessions := sessions - {hash};
    }
  }
}
