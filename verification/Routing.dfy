/**
 Sticky routing (src/routes/proxy.rs): which accounts a request may try, and in which order.

 SHA-256 is a parameter `hash: (affinity, id) -> u64`, and the theorems hold for every such function,
 ties included.
 */
module Routing {
  import opened Wrappers
  import opened Sequences
  import opened Accounts

  datatype RoutingError = NoAccountConfigured | AllQuotaExhausted

  type Hash = (string, string) -> int

  function Weight(hash: Hash, affinity: string): KeyRow -> int {
    (r: KeyRow) => hash(affinity, r.id)
  }

  const ENABLED: KeyRow -> bool := (r: KeyRow) => r.isEnabled
  const UNMARKED: KeyRow -> bool := (r: KeyRow) => r.quotaExhaustedAt.None?

  function Advertises(model: string): KeyRow -> bool {
    (r: KeyRow) => model in r.modelCache
  }

  /** Enabled accounts that advertise the model, or every enabled account when none does. */
  function CandidatesForModel(rows: seq<KeyRow>, model: Option<string>): seq<KeyRow> {
    var enabled := Filter(rows, ENABLED);
    if model.None? || model.value == "" then enabled
    else
      var matches := Filter(enabled, Advertises(model.value));
      if matches == [] then enabled else matches
  }

  function OrderedCandidates(pool: seq<KeyRow>, hash: Hash, affinity: string): seq<KeyRow> {
    StableSort(Filter(pool, UNMARKED), Weight(hash, affinity))
  }

  function RoutingCandidates(rows: seq<KeyRow>, model: Option<string>, hash: Hash, affinity: string)
    : (r: Result<seq<KeyRow>, RoutingError>)
    ensures r.Success? ==> r.value != []
  {
    var base := CandidatesForModel(ListKeys(rows), model);
    if base == [] then Failure(NoAccountConfigured)
    else
      var ordered := OrderedCandidates(base, hash, affinity);
      if ordered == [] then Failure(AllQuotaExhausted) else Success(ordered)
  }

  /** `max_by_key`: of several maxima the last one wins. */
  function SelectSticky(pool: seq<KeyRow>, hash: Hash, affinity: string): Option<KeyRow> {
    if pool == [] then None
    else
      var best := SelectSticky(pool[..|pool| - 1], hash, affinity);
      var last := pool[|pool| - 1];
      if best.None? || hash(affinity, last.id) >= hash(affinity, best.value.id) then Some(last) else best
  }

  // ---- who is a candidate -----------------------------------------------------------------------

  /** The routing rule as the design states it, one account at a time. */
  ghost predicate Eligible(rows: seq<KeyRow>, model: Option<string>, r: KeyRow) {
    && r in rows && r.isEnabled && r.quotaExhaustedAt.None?
    && (model.None? || model.value == "" || model.value in r.modelCache
        || forall o :: o in rows && o.isEnabled ==> model.value !in o.modelCache)
  }

  lemma PoolMembers(rows: seq<KeyRow>, model: Option<string>, r: KeyRow)
    ensures r in CandidatesForModel(ListKeys(rows), model) <==>
            r in rows && r.isEnabled
            && (model.None? || model.value == "" || model.value in r.modelCache
                || forall o :: o in rows && o.isEnabled ==> model.value !in o.modelCache)
  {
    var listed := ListKeys(rows);
    SortMembers(rows, CREATED_AT);
    var enabled := Filter(listed, ENABLED);
    if model.Some? && model.value != "" {
      var matches := Filter(enabled, Advertises(model.value));
      if matches != [] {
        assert matches[0] in matches;
      } else {
        assert forall o :: o in rows && o.isEnabled ==> o in enabled && o !in matches;
      }
    }
  }

  lemma CandidatesAreExactlyEligible(rows: seq<KeyRow>, model: Option<string>, hash: Hash, affinity: string)
    requires UniqueIds(rows)
    ensures match RoutingCandidates(rows, model, hash, affinity)
            case Success(c) =>
              && c != [] && UniqueIds(c)
              && (forall r :: r in c <==> Eligible(rows, model, r))
              && (forall i, j :: 0 <= i < j < |c| ==> hash(affinity, c[i].id) >= hash(affinity, c[j].id))
            case Failure(NoAccountConfigured) => forall r :: r in rows ==> !r.isEnabled
            case Failure(AllQuotaExhausted) =>
              && (exists r :: r in rows && r.isEnabled)
              && (forall r :: !Eligible(rows, model, r))
  {
    var base := CandidatesForModel(ListKeys(rows), model);
    forall r ensures r in base && UNMARKED(r) <==> Eligible(rows, model, r) {
      PoolMembers(rows, model, r);
    }
    SortMembers(Filter(base, UNMARKED), Weight(hash, affinity));
    SortDescending(Filter(base, UNMARKED), Weight(hash, affinity));
    PoolUnique(rows, model);
    UniqueFilter(base, UNMARKED);
    UniqueSort(Filter(base, UNMARKED), Weight(hash, affinity));
    if base == [] {
      NonEmptyPool(rows, model);
    } else {
      assert base[0] in base;
      PoolMembers(rows, model, base[0]);
      if Filter(base, UNMARKED) != [] {
        assert Filter(base, UNMARKED)[0] in OrderedCandidates(base, hash, affinity);
      }
    }
  }

  /** Accounts whose hashes collide are tried newest first, as `ORDER BY created_at DESC` lists them. */
  lemma TiesGoNewestFirst(rows: seq<KeyRow>, model: Option<string>, hash: Hash, affinity: string,
                          c: seq<KeyRow>, i: nat, j: nat)
    requires RoutingCandidates(rows, model, hash, affinity) == Success(c)
    requires i < j < |c| && hash(affinity, c[i].id) == hash(affinity, c[j].id)
    ensures c[i].createdAt >= c[j].createdAt
  {
    var w, k := Weight(hash, affinity), hash(affinity, c[i].id);
    var pool := Filter(CandidatesForModel(ListKeys(rows), model), UNMARKED);
    PoolIsNewestFirst(rows, model);
    FilterDescending(CandidatesForModel(ListKeys(rows), model), CREATED_AT, UNMARKED);
    FilterDescending(pool, CREATED_AT, KeyIs(w, k));
    SortIsStable(pool, w);
    assert WithKey(c, w, k) == WithKey(pool, w, k);
    FilterReflectsOrder(c, CREATED_AT, KeyIs(w, k), i, j);
  }

  lemma PoolIsNewestFirst(rows: seq<KeyRow>, model: Option<string>)
    ensures Descending(CandidatesForModel(ListKeys(rows), model), CREATED_AT)
  {
    SortDescending(rows, CREATED_AT);
    FilterDescending(ListKeys(rows), CREATED_AT, ENABLED);
    if model.Some? {
      FilterDescending(Filter(ListKeys(rows), ENABLED), CREATED_AT, Advertises(model.value));
    }
  }

  lemma NonEmptyPool(rows: seq<KeyRow>, model: Option<string>)
    requires CandidatesForModel(ListKeys(rows), model) == []
    ensures forall r :: r in rows ==> !r.isEnabled
  {
    var listed := ListKeys(rows);
    SortMembers(rows, CREATED_AT);
    assert Filter(listed, ENABLED) == [];
    assert forall r :: r in rows && r.isEnabled ==> r in Filter(listed, ENABLED);
  }

  lemma PoolUnique(rows: seq<KeyRow>, model: Option<string>)
    requires UniqueIds(rows)
    ensures UniqueIds(CandidatesForModel(ListKeys(rows), model))
  {
    var listed := ListKeys(rows);
    UniqueSort(rows, CREATED_AT);
    UniqueFilter(listed, ENABLED);
    if model.Some? {
      UniqueFilter(Filter(listed, ENABLED), Advertises(model.value));
    }
  }

  // ---- a snapshot walked in order is the query asked again -------------------------------------

  datatype Mark = Mark(id: string, now: int)

  function MarkAll(rows: seq<KeyRow>, marks: seq<Mark>): seq<KeyRow>
    decreases marks
  {
    if marks == [] then rows
    else MarkAll(SetQuotaExhausted(rows, marks[0].id, true, marks[0].now), marks[1..])
  }

  /** What a run of marks does to one row. */
  function MarkedRow(r: KeyRow, marks: seq<Mark>): KeyRow
    decreases marks
  {
    if marks == [] then r
    else MarkedRow(if r.id == marks[0].id then MarkRow(r, marks[0].now) else r, marks[1..])
  }

  function Marking(marks: seq<Mark>): KeyRow -> KeyRow {
    (r: KeyRow) => MarkedRow(r, marks)
  }

  function NotMarked(marks: seq<Mark>): KeyRow -> bool {
    (r: KeyRow) => !Marks(marks, r.id)
  }

  predicate Marks(marks: seq<Mark>, id: string) {
    exists m :: m in marks && m.id == id
  }

  lemma {:induction false} MarkAllIsMap(rows: seq<KeyRow>, marks: seq<Mark>)
    ensures MarkAll(rows, marks) == Map(rows, Marking(marks))
    decreases marks
  {
    if marks != [] {
      var rows' := SetQuotaExhausted(rows, marks[0].id, true, marks[0].now);
      MarkAllIsMap(rows', marks[1..]);
    }
  }

  /** Marking touches the mark and `updated_at`, never what routing sorts or filters by. */
  lemma {:induction false} MarkedRowFrame(r: KeyRow, marks: seq<Mark>)
    ensures var r' := MarkedRow(r, marks);
            && r'.id == r.id && r'.createdAt == r.createdAt
            && r'.isEnabled == r.isEnabled && r'.modelCache == r.modelCache
            && (!Marks(marks, r.id) ==> r' == r)
            && (r'.quotaExhaustedAt.None? <==> r.quotaExhaustedAt.None? && !Marks(marks, r.id))
    decreases marks
  {
    if marks != [] {
      MarkedRowFrame(if r.id == marks[0].id then MarkRow(r, marks[0].now) else r, marks[1..]);
      assert Marks(marks, r.id) <==> marks[0].id == r.id || Marks(marks[1..], r.id);
    }
  }

  lemma PoolCommutesWithMarks(rows: seq<KeyRow>, model: Option<string>, marks: seq<Mark>)
    ensures CandidatesForModel(ListKeys(MarkAll(rows, marks)), model)
         == Map(CandidatesForModel(ListKeys(rows), model), Marking(marks))
  {
    var f := Marking(marks);
    forall r ensures f(r).createdAt == r.createdAt && ENABLED(f(r)) == ENABLED(r)
                     && f(r).modelCache == r.modelCache {
      MarkedRowFrame(r, marks);
    }
    MarkAllIsMap(rows, marks);
    SortMap(rows, CREATED_AT, f);
    var listed := ListKeys(rows);
    FilterMap(listed, f, ENABLED, ENABLED);
    if model.Some? {
      FilterMap(Filter(listed, ENABLED), f, Advertises(model.value), Advertises(model.value));
    }
  }

  /** After marks, the pool's order is the old order without the marked accounts. */
  lemma MarksOnlyRemove(pool: seq<KeyRow>, marks: seq<Mark>, hash: Hash, affinity: string)
    ensures OrderedCandidates(Map(pool, Marking(marks)), hash, affinity)
         == Filter(OrderedCandidates(pool, hash, affinity), NotMarked(marks))
  {
    var f, left := Marking(marks), NotMarked(marks);
    var both := And(UNMARKED, left);
    forall r ensures UNMARKED(f(r)) == both(r) && (both(r) ==> f(r) == r) {
      MarkedRowFrame(r, marks);
    }
    FilterMap(pool, f, UNMARKED, both);
    assert Map(Filter(pool, both), f) == Filter(pool, both);
    FilterFilter(pool, UNMARKED, left);
    FilterSort(Filter(pool, UNMARKED), Weight(hash, affinity), left);
  }

  lemma {:induction false} DropMarkedPrefix(c: seq<KeyRow>, marks: seq<Mark>)
    requires UniqueIds(c) && |marks| <= |c|
    requires forall j :: 0 <= j < |marks| ==> marks[j].id == c[j].id
    ensures Filter(c, NotMarked(marks)) == c[|marks|..]
  {
    var p := NotMarked(marks);
    var n := |marks|;
    forall r | r in c[..n] ensures Marks(marks, r.id) {
      var j :| 0 <= j < n && c[j] == r;
      assert marks[j] in marks;
    }
    forall r | r in c[n..] ensures p(r) {
      var k :| n <= k < |c| && c[k] == r;
      assert forall j :: 0 <= j < n ==> marks[j].id == c[j].id != r.id;
    }
    assert c == c[..n] + c[n..];
    FilterAppend(c[..n], c[n..], p);
    FilterNone(c[..n], p);
    FilterAll(c[n..], p);
  }

  /**
   The failover walk and the routing query agree: once the first accounts of a snapshot are marked,
   at whatever times, asking again gives exactly the rest of the snapshot, or 503 when none is left.
   */
  lemma {:induction false} RequeryIsSuffix(rows: seq<KeyRow>, model: Option<string>, hash: Hash, affinity: string,
                        c: seq<KeyRow>, marks: seq<Mark>)
    requires UniqueIds(rows)
    requires RoutingCandidates(rows, model, hash, affinity) == Success(c)
    requires |marks| <= |c| && forall j :: 0 <= j < |marks| ==> marks[j].id == c[j].id
    ensures RoutingCandidates(MarkAll(rows, marks), model, hash, affinity)
         == if |marks| < |c| then Success(c[|marks|..]) else Failure(AllQuotaExhausted)
  {
    var base := CandidatesForModel(ListKeys(rows), model);
    PoolCommutesWithMarks(rows, model, marks);
    MarksOnlyRemove(base, marks, hash, affinity);
    CandidatesAreExactlyEligible(rows, model, hash, affinity);
    DropMarkedPrefix(c, marks);
  }

  type Query = seq<KeyRow> -> Result<seq<KeyRow>, RoutingError>

  /** The routing query of one session. */
  function SessionQuery(model: Option<string>, hash: Hash, affinity: string): Query {
    (rows: seq<KeyRow>) => RoutingCandidates(rows, model, hash, affinity)
  }

  /**
   The accounts that `k` successive requests would try, when each tries only its first candidate and
   that account turns out to be exhausted at time `clock(n)`.
   */
  function SuccessiveRequests(rows: seq<KeyRow>, query: Query, clock: nat -> int, n: nat, k: nat): seq<KeyRow>
    decreases k
  {
    if k == 0 || query(rows).Failure? || query(rows).value == [] then []
    else
      var first := query(rows).value[0];
      [first] + SuccessiveRequests(SetQuotaExhausted(rows, first.id, true, clock(n)), query, clock, n + 1, k - 1)
  }

  /** In-request retries visit the accounts that successive requests of the session would, in that order. */
  lemma RetriesFollowSuccessiveRequests(
      rows: seq<KeyRow>, model: Option<string>, hash: Hash, affinity: string,
      c: seq<KeyRow>, clock: nat -> int, k: nat)
    requires UniqueIds(rows)
    requires RoutingCandidates(rows, model, hash, affinity) == Success(c)
    ensures SuccessiveRequests(rows, SessionQuery(model, hash, affinity), clock, 0, k) == Prefix(c, k)
  {
    var query := SessionQuery(model, hash, affinity);
    forall rows', now ensures Peels(query, rows', now) {
      if UniqueIds(rows') && query(rows').Success? {
        OneRequest(rows', model, hash, affinity, query(rows').value, now);
        SetQuotaKeepsIds(rows', query(rows').value[0].id, true, now);
      }
    }
    PeelingWalk(rows, query, c, clock, 0, k);
  }

  /** Marking the first candidate takes it off the front of the query's answer. */
  ghost predicate Peels(query: Query, rows: seq<KeyRow>, now: int) {
    UniqueIds(rows) && query(rows).Success? ==>
      var c := query(rows).value;
      && c != []
      && var rows' := SetQuotaExhausted(rows, c[0].id, true, now);
      && UniqueIds(rows')
      && query(rows') == if |c| > 1 then Success(c[1..]) else Failure(AllQuotaExhausted)
  }

  lemma {:induction false} PeelingWalk(rows: seq<KeyRow>, query: Query, c: seq<KeyRow>, clock: nat -> int,
                                       n: nat, k: nat)
    requires forall rows', now :: Peels(query, rows', now)
    requires UniqueIds(rows) && query(rows) == Success(c)
    ensures SuccessiveRequests(rows, query, clock, n, k) == Prefix(c, k)
    decreases k
  {
    if k == 0 {
      assert Prefix(c, k) == [];
    } else {
      assert Peels(query, rows, clock(n));
      PrefixCons(c, k);
      if |c| > 1 {
        PeelingWalk(SetQuotaExhausted(rows, c[0].id, true, clock(n)), query, c[1..], clock, n + 1, k - 1);
      } else {
        assert Prefix(c[1..], k - 1) == [];
      }
    }
  }

  lemma OneRequest(rows: seq<KeyRow>, model: Option<string>, hash: Hash, affinity: string,
                   c: seq<KeyRow>, now: int)
    requires UniqueIds(rows) && c != []
    requires RoutingCandidates(rows, model, hash, affinity) == Success(c)
    ensures RoutingCandidates(SetQuotaExhausted(rows, c[0].id, true, now), model, hash, affinity)
         == if |c| > 1 then Success(c[1..]) else Failure(AllQuotaExhausted)
  {
    var marks := [Mark(c[0].id, now)];
    RequeryIsSuffix(rows, model, hash, affinity, c, marks);
    assert marks[1..] == [];
  }

  // ---- rendezvous hashing ------------------------------------------------------------------------

  /** Removing accounts from a pool leaves the relative order of all others as it was. */
  lemma RemovalKeepsOrder(pool: seq<KeyRow>, keep: KeyRow -> bool, hash: Hash, affinity: string)
    ensures OrderedCandidates(Filter(pool, keep), hash, affinity)
         == Filter(OrderedCandidates(pool, hash, affinity), keep)
  {
    FilterFilter(pool, keep, UNMARKED);
    FilterFilter(pool, UNMARKED, keep);
    FilterExtensional(pool, And(keep, UNMARKED), And(UNMARKED, keep));
    FilterSort(Filter(pool, UNMARKED), Weight(hash, affinity), keep);
  }

  /** Adding an account anywhere in the pool moves a session to it or to nobody. */
  lemma AdditionMovesOnlyToNewcomer(before: seq<KeyRow>, x: KeyRow, after: seq<KeyRow>,
                                    hash: Hash, affinity: string)
    requires !HasId(before + after, x.id)
    requires OrderedCandidates(before + after, hash, affinity) != []
    ensures var was := OrderedCandidates(before + after, hash, affinity);
            var now := OrderedCandidates(before + [x] + after, hash, affinity);
            now != [] && (now[0] == x || now[0] == was[0])
  {
    var others, pool := OtherThan(x.id), before + [x] + after;
    DropNewcomer(before, x, after);
    RemovalKeepsOrder(pool, others, hash, affinity);
    var now := OrderedCandidates(pool, hash, affinity);
    SortMembers(Filter(pool, UNMARKED), Weight(hash, affinity));
    assert Filter(now, others) == OrderedCandidates(before + after, hash, affinity);
    assert now[0] in pool;
    if others(now[0]) {
      FilterCons(now[0], now[1..], others);
    }
  }

  lemma DropNewcomer(before: seq<KeyRow>, x: KeyRow, after: seq<KeyRow>)
    requires !HasId(before + after, x.id)
    ensures Filter(before + [x] + after, OtherThan(x.id)) == before + after
    ensures forall r :: r in before + [x] + after && r.id == x.id ==> r == x
  {
    var others := OtherThan(x.id);
    assert forall r :: r in before ==> r in before + after;
    assert forall r :: r in after ==> r in before + after;
    FilterAll(before, others);
    FilterAll(after, others);
    FilterCons(x, after, others);
    FilterAppend(before, [x] + after, others);
    assert before + [x] + after == before + ([x] + after);
  }

  ghost predicate DistinctHashes(pool: seq<KeyRow>, hash: Hash, affinity: string) {
    forall r, o :: r in pool && o in pool && r != o ==> hash(affinity, r.id) != hash(affinity, o.id)
  }

  ghost predicate Strict(s: seq<KeyRow>, w: KeyRow -> int) {
    forall i, j :: 0 <= i < j < |s| ==> w(s[i]) > w(s[j])
  }

  lemma {:induction false} StrictPermutationIsUnique(a: seq<KeyRow>, b: seq<KeyRow>, w: KeyRow -> int)
    requires Strict(a, w) && Strict(b, w)
    requires forall r :: r in a <==> r in b
    ensures a == b
  {
    assert a != [] ==> a[0] in b;
    assert b != [] ==> b[0] in a;
    if a != [] && b != [] {
      assert a[0] == b[0];
      TailMembers(a, b, w);
      StrictPermutationIsUnique(a[1..], b[1..], w);
    }
  }

  lemma TailMembers(a: seq<KeyRow>, b: seq<KeyRow>, w: KeyRow -> int)
    requires Strict(a, w) && Strict(b, w)
    requires a != [] && b != [] && a[0] == b[0]
    requires forall r :: r in a <==> r in b
    ensures forall r :: r in a[1..] <==> r in b[1..]
  {
    forall r ensures r in a[1..] <==> r in a && r != a[0] {
    }
    forall r ensures r in b[1..] <==> r in b && r != b[0] {
    }
  }

  lemma OrderedIsStrict(pool: seq<KeyRow>, hash: Hash, affinity: string)
    requires UniqueIds(pool) && DistinctHashes(pool, hash, affinity)
    ensures Strict(OrderedCandidates(pool, hash, affinity), Weight(hash, affinity))
    ensures forall r :: r in OrderedCandidates(pool, hash, affinity) <==> r in pool && UNMARKED(r)
  {
    var w := Weight(hash, affinity);
    UniqueFilter(pool, UNMARKED);
    UniqueSort(Filter(pool, UNMARKED), w);
    SortMembers(Filter(pool, UNMARKED), w);
    SortDescending(Filter(pool, UNMARKED), w);
    var c := OrderedCandidates(pool, hash, affinity);
    forall i, j | 0 <= i < j < |c| ensures w(c[i]) > w(c[j]) {
      assert c[i] in c && c[j] in c && c[i].id != c[j].id;
    }
  }

  /** Without ties the failover order does not depend on the order of the database rows. */
  lemma OrderIgnoresInputOrder(pool: seq<KeyRow>, pool': seq<KeyRow>, hash: Hash, affinity: string)
    requires UniqueIds(pool) && UniqueIds(pool')
    requires forall r :: r in pool <==> r in pool'
    requires DistinctHashes(pool, hash, affinity)
    ensures OrderedCandidates(pool, hash, affinity) == OrderedCandidates(pool', hash, affinity)
  {
    OrderedIsStrict(pool, hash, affinity);
    OrderedIsStrict(pool', hash, affinity);
    StrictPermutationIsUnique(OrderedCandidates(pool, hash, affinity),
                              OrderedCandidates(pool', hash, affinity), Weight(hash, affinity));
  }

  /** The rows of largest hash, in pool order. */
  ghost predicate Tops(pool: seq<KeyRow>, hash: Hash, affinity: string, m: int) {
    (forall r :: r in pool ==> hash(affinity, r.id) <= m) && WithKey(pool, Weight(hash, affinity), m) != []
  }

  /** `max_by_key` returns the last row of largest hash. */
  lemma {:induction false} StickyIsLastTop(pool: seq<KeyRow>, hash: Hash, affinity: string) returns (m: int)
    requires pool != []
    ensures Tops(pool, hash, affinity, m)
    ensures var t := WithKey(pool, Weight(hash, affinity), m);
            SelectSticky(pool, hash, affinity) == Some(t[|t| - 1])
  {
    var w := Weight(hash, affinity);
    var init, last := pool[..|pool| - 1], pool[|pool| - 1];
    assert pool == init + [last];
    if init == [] {
      m := w(last);
      assert pool == [last];
      FilterAll(pool, KeyIs(w, m));
    } else {
      var m' := StickyIsLastTop(init, hash, affinity);
      m := if w(last) > m' then w(last) else m';
      TopsGrow(init, last, hash, affinity, m', m);
    }
  }

  lemma TopsGrow(init: seq<KeyRow>, last: KeyRow, hash: Hash, affinity: string, m': int, m: int)
    requires Tops(init, hash, affinity, m')
    requires m == if hash(affinity, last.id) > m' then hash(affinity, last.id) else m'
    ensures var w := Weight(hash, affinity);
            && Tops(init + [last], hash, affinity, m)
            && w(WithKey(init, w, m')[|WithKey(init, w, m')| - 1]) == m'
            && WithKey(init + [last], w, m)
            == if w(last) > m' then [last] else WithKey(init, w, m') + if w(last) == m' then [last] else []
  {
    var w := Weight(hash, affinity);
    var t' := WithKey(init, w, m');
    assert t'[|t'| - 1] in t';
    FilterAppend(init, [last], KeyIs(w, m));
    FilterCons(last, [], KeyIs(w, m));
    assert [last] + [] == [last];
    if w(last) > m' {
      FilterNone(init, KeyIs(w, m));
    }
  }

  /** The sort puts the first row of largest hash in front. */
  lemma OrderedHeadIsFirstTop(pool: seq<KeyRow>, hash: Hash, affinity: string, m: int)
    requires forall r :: r in pool ==> UNMARKED(r)
    requires Tops(pool, hash, affinity, m)
    ensures OrderedCandidates(pool, hash, affinity) != []
    ensures OrderedCandidates(pool, hash, affinity)[0] == WithKey(pool, Weight(hash, affinity), m)[0]
  {
    var w := Weight(hash, affinity);
    FilterAll(pool, UNMARKED);
    SortIsStable(pool, w);
    SortMembers(pool, w);
    var c := StableSort(pool, w);
    var t := WithKey(pool, w, m);
    assert WithKey(c, w, m) == t;
    HeadAttains(c, w, m);
  }

  /** In a descending sequence bounded by `m`, the first element with key `m` is the first of all. */
  lemma HeadAttains(c: seq<KeyRow>, w: KeyRow -> int, m: int)
    requires Descending(c, w) && (forall r :: r in c ==> w(r) <= m) && WithKey(c, w, m) != []
    ensures c != [] && c[0] == WithKey(c, w, m)[0]
  {
    var t := WithKey(c, w, m)[0];
    assert t in WithKey(c, w, m);
    var k :| 0 <= k < |c| && c[k] == t;
    assert c[0] in c && w(c[0]) >= w(c[k]);
  }

  /** Exactly one row attains the largest hash. */
  ghost predicate UniqueTop(pool: seq<KeyRow>, hash: Hash, affinity: string) {
    exists r :: r in pool && forall o :: o in pool && o.id != r.id ==> hash(affinity, o.id) < hash(affinity, r.id)
  }

  /** The first candidate is the sticky selector's choice exactly when the largest hash is not shared. */
  lemma HeadIsStickyIffUniqueTop(pool: seq<KeyRow>, hash: Hash, affinity: string)
    requires pool != [] && UniqueIds(pool) && forall r :: r in pool ==> UNMARKED(r)
    ensures var c := OrderedCandidates(pool, hash, affinity);
            c != [] && (SelectSticky(pool, hash, affinity) == Some(c[0]) <==> UniqueTop(pool, hash, affinity))
  {
    var w := Weight(hash, affinity);
    var m := StickyIsLastTop(pool, hash, affinity);
    OrderedHeadIsFirstTop(pool, hash, affinity, m);
    var t := WithKey(pool, w, m);
    UniqueFilter(pool, KeyIs(w, m));
    if |t| == 1 {
      SingleTop(pool, hash, affinity, m);
    } else {
      SharedTop(pool, hash, affinity, m, t[0], t[|t| - 1]);
    }
  }

  lemma SingleTop(pool: seq<KeyRow>, hash: Hash, affinity: string, m: int)
    requires Tops(pool, hash, affinity, m) && |WithKey(pool, Weight(hash, affinity), m)| == 1
    ensures UniqueTop(pool, hash, affinity)
  {
    var t := WithKey(pool, Weight(hash, affinity), m);
    assert t[0] in t;
    forall o | o in pool && o.id != t[0].id ensures hash(affinity, o.id) < hash(affinity, t[0].id) {
      assert hash(affinity, o.id) == m ==> o in t;
    }
  }

  lemma SharedTop(pool: seq<KeyRow>, hash: Hash, affinity: string, m: int, first: KeyRow, last: KeyRow)
    requires forall r :: r in pool ==> hash(affinity, r.id) <= m
    requires first in pool && last in pool && first.id != last.id
    requires hash(affinity, first.id) == hash(affinity, last.id) == m
    ensures !UniqueTop(pool, hash, affinity)
  {
  }

  /** Two accounts whose hashes collide: the two selectors disagree. */
  lemma TiedHashesDisagree(r: KeyRow, affinity: string)
    ensures var a, b := r.(id := "a", quotaExhaustedAt := None), r.(id := "b", quotaExhaustedAt := None);
            var hash: Hash := (k, id) => 7;
            && OrderedCandidates([a, b], hash, affinity) == [a, b]
            && SelectSticky([a, b], hash, affinity) == Some(b)
  {
    var a, b := r.(id := "a", quotaExhaustedAt := None), r.(id := "b", quotaExhaustedAt := None);
    var hash: Hash := (k, id) => 7;
    FilterAll([a, b], UNMARKED);
    SortConstant([a, b], Weight(hash, affinity), 7);
    assert [a, b][..1] == [a];
    assert SelectSticky([a], hash, affinity) == Some(a);
  }
}
