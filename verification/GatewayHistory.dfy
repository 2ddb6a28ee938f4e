/**
 The marks a request leaves (src/routes/proxy.rs, src/routes/messages.rs) as events in the life of the account
 table, so that what holds of every run of events holds of the gateway's own writes.
 */
module GatewayHistory {
  import opened Wrappers
  import opened Sequences
  import opened Accounts
  import opened Routing
  import opened QuotaLifecycle
  import Failover

  function Failures(marks: seq<Mark>): seq<Event> {
    Map(marks, (m: Mark) => QuotaFailure(m.id, m.now))
  }

  lemma MarkIsFailure(rows: seq<KeyRow>, m: Mark)
    ensures SetQuotaExhausted(rows, m.id, true, m.now) == Apply(rows, QuotaFailure(m.id, m.now))
  {
  }

  lemma {:induction false} StateOfPrefix(events: seq<Event>, more: seq<Event>, i: nat)
    requires i <= |events|
    ensures State(events + more, i) == State(events, i)
  {
    if i > 0 {
      StateOfPrefix(events, more, i - 1);
      assert (events + more)[i - 1] == events[i - 1];
    }
  }

  /** The table after a whole run. */
  function After(events: seq<Event>): seq<KeyRow> {
    State(events, |events|)
  }

  lemma AfterOneMore(events: seq<Event>, e: Event)
    ensures After(events + [e]) == Apply(After(events), e)
  {
    StateOfPrefix(events, [e], |events|);
  }

  /** Marking a table that a run has led to is running on with as many quota failures. */
  lemma {:induction false} MarksAreEvents(events: seq<Event>, marks: seq<Mark>)
    ensures After(events + Failures(marks)) == MarkAll(After(events), marks)
    decreases marks
  {
    if marks == [] {
      assert events + Failures(marks) == events;
    } else {
      var e := QuotaFailure(marks[0].id, marks[0].now);
      AfterOneMore(events, e);
      MarkIsFailure(After(events), marks[0]);
      MarksAreEvents(events + [e], marks[1..]);
      assert events + Failures(marks) == events + [e] + Failures(marks[1..]);
    }
  }

  /**
   A request served on a table that a run has led to leaves the table of a longer run: one quota failure more for
   each mark that was saved, in the order of the attempts.
   */
  lemma RequestExtendsRun(events: seq<Event>, logs: seq<Failover.LogRow>, rows': seq<KeyRow>,
                          logs': seq<Failover.LogRow>, c: seq<KeyRow>, upstream: nat -> Failover.Exchange,
                          steps: seq<Failover.Step>, model: Option<string>,
                          result: Result<Failover.Response, Failover.ApiError>)
    requires |c| == |steps| && c != []
    requires Failover.Served(After(events), logs, rows', logs', c, upstream, steps, model, result)
    ensures var marks := Failover.SavedMarks(c, upstream, Failover.LeadingQuota(steps));
            rows' == After(events + Failures(marks))
  {
    MarksAreEvents(events, Failover.SavedMarks(c, upstream, Failover.LeadingQuota(steps)));
  }

  /**
   So the lifecycle theorem speaks of the gateway's marks: after a request, an account's mark is the time of the first
   quota failure or adverse report since its last clear, this request's failures included.
   */
  lemma MarksAfterRequest(events: seq<Event>, logs: seq<Failover.LogRow>, rows': seq<KeyRow>,
                          logs': seq<Failover.LogRow>, c: seq<KeyRow>, upstream: nat -> Failover.Exchange,
                          steps: seq<Failover.Step>, model: Option<string>,
                          result: Result<Failover.Response, Failover.ApiError>, x: string)
    requires |c| == |steps| && c != []
    requires Failover.Served(After(events), logs, rows', logs', c, upstream, steps, model, result)
    requires Find(rows', x).Some?
    ensures var run := events + Failures(Failover.SavedMarks(c, upstream, Failover.LeadingQuota(steps)));
            Find(rows', x).value.quotaExhaustedAt
            == FirstFrom(AfterLast(|run|, ClearHistory(run, x)), |run|, MarkHistory(run, x))
  {
    var run := events + Failures(Failover.SavedMarks(c, upstream, Failover.LeadingQuota(steps)));
    RequestExtendsRun(events, logs, rows', logs', c, upstream, steps, model, result);
    assert PresenceHistory(run, x)(|run|);
    MarkIsFirstSinceLastClear(run, |run|, x);
  }

  // ---- edits and routing ------------------------------------------------------------------------------

  lemma TouchedRow(rows: seq<KeyRow>, e: Event, r: KeyRow)
    requires (e.Toggle? || e.CacheModels?) && r in rows
    ensures Touch(e, r) in Apply(rows, e)
  {
    var i :| 0 <= i < |rows| && rows[i] == r;
    assert Apply(rows, e)[i] == Touch(e, r);
  }

  /** Once disabled an account is not routed to, whatever the model; every other account keeps its row. */
  lemma DisabledIsNotRouted(rows: seq<KeyRow>, id: string, now: int, model: Option<string>, hash: Hash, affinity: string)
    requires UniqueIds(rows)
    ensures var after := Apply(rows, Toggle(id, false, now));
            && (forall r :: r in rows && r.id != id ==> r in after)
            && (RoutingCandidates(after, model, hash, affinity).Success? ==>
                  !HasId(RoutingCandidates(after, model, hash, affinity).value, id))
  {
    var e := Toggle(id, false, now);
    var after := Apply(rows, e);
    EventKeepsIds(rows, e);
    CandidatesAreExactlyEligible(after, model, hash, affinity);
    forall r | r in rows && r.id != id ensures r in after {
      TouchedRow(rows, e, r);
    }
    forall r | r in after && r.id == id ensures !r.isEnabled {
      var i :| 0 <= i < |rows| && after[i] == r;
      assert after[i] == Touch(e, rows[i]);
    }
    assert forall r :: Eligible(after, model, r) ==> r.id != id;
  }

  lemma EligibleIsRouted(rows: seq<KeyRow>, r: KeyRow, model: Option<string>, hash: Hash, affinity: string)
    requires UniqueIds(rows) && Eligible(rows, model, r)
    ensures var c := RoutingCandidates(rows, model, hash, affinity); c.Success? && HasId(c.value, r.id)
  {
    CandidatesAreExactlyEligible(rows, model, hash, affinity);
  }

  /** Once enabled, an unmarked account is a candidate of every request for no model or a model it advertises. */
  lemma EnabledIsRouted(rows: seq<KeyRow>, r: KeyRow, now: int, model: Option<string>, hash: Hash, affinity: string)
    requires UniqueIds(rows) && r in rows && r.quotaExhaustedAt.None?
    requires model.None? || model.value in r.modelCache
    ensures var c := RoutingCandidates(Apply(rows, Toggle(r.id, true, now)), model, hash, affinity);
            c.Success? && HasId(c.value, r.id)
  {
    var e := Toggle(r.id, true, now);
    var after := Apply(rows, e);
    EventKeepsIds(rows, e);
    TouchedRow(rows, e, r);
    EligibleIsRouted(after, Touch(e, r), model, hash, affinity);
  }

  /** A refreshed model list is what routing goes by from then on. */
  lemma CachedModelsAreRouted(rows: seq<KeyRow>, r: KeyRow, models: seq<string>, now: int, model: string, hash: Hash,
                              affinity: string)
    requires UniqueIds(rows) && r in rows && r.isEnabled && r.quotaExhaustedAt.None? && model in models
    ensures var c := RoutingCandidates(Apply(rows, CacheModels(r.id, models, now)), Some(model), hash, affinity);
            c.Success? && HasId(c.value, r.id)
  {
    var e := CacheModels(r.id, models, now);
    var after := Apply(rows, e);
    EventKeepsIds(rows, e);
    TouchedRow(rows, e, r);
    EligibleIsRouted(after, Touch(e, r), Some(model), hash, affinity);
  }
}
