/** What the shadow core needs for each of its changes, and the life of one record from quote to figures. */
module ShadowLives {
  import opened Outcomes
  import opened Decimals
  import opened ShadowExecution

  // ---------------------------------------------------------------- what each change needs

  /** The leader in shadow mode, under the positive token of the store. */
  ghost predicate Leads(a: Authority, s: Store) {
    a.shadowMode && a.leaseAuthorized && a.token == Some(s.token) && s.token > 0
  }

  /** A positive quote, not crossed, not from the future and not too old. */
  ghost predicate FreshQuote(q: Quote, now: int, maxAge: int) {
    0.0 < q.bid <= q.offer && 0 <= now - q.asOf <= maxAge
  }

  /** Bought at the offer, sold at the bid. */
  ghost function EntryOf(d: Direction, q: Quote): real {
    if d == Buy then q.offer else q.bid
  }

  ghost function ExitOf(d: Direction, q: Quote): real {
    if d == Buy then q.bid else q.offer
  }

  /** The gain of a price move in this direction. */
  ghost function Gain(d: Direction, from: real, to: real): real {
    if d == Buy then to - from else from - to
  }

  /** The stop on the losing side of the entry and the target on the other, all positive. */
  ghost predicate Bracketed(d: Direction, entry: real, stop: real, target: real) {
    entry > 0.0 && stop > 0.0 && target > 0.0 && Gain(d, entry, stop) < 0.0 < Gain(d, entry, target)
  }

  /** The call that creates a record for a new intent, field by field. */
  ghost predicate MayCreate(c: Settings, s: Store, call: Call)
    requires call.Create?
  {
    && Leads(call.auth, s) && FreshQuote(call.quote, call.now, c.maxQuoteAge)
    && call.signal.instrument in c.pipSizes && call.signal.approved && call.signal.direction.Some?
    && Bracketed(call.signal.direction.value, EntryOf(call.signal.direction.value, call.quote), call.stop, call.target)
  }

  /** A record for a new intent is created exactly then, from the signal, the quote and the lease. */
  lemma CreatedIff(c: Settings, s: Store, call: Call)
    requires call.Create? && call.intentId !in s.records
    ensures Perform(s, c, call).Ok? <==> MayCreate(c, s, call)
    ensures Perform(s, c, call).Ok? ==>
              var (after, r) := Perform(s, c, call).value;
              && after == s.(records := s.records[call.intentId := r])
              && r.intentId == call.intentId && r.strategy == call.signal.strategy
              && r.instrument == call.signal.instrument && Some(r.direction) == call.signal.direction
              && r.entry == EntryOf(r.direction, call.quote) && r.stop == call.stop && r.target == call.target
              && r.token == s.token && r.createdAt == r.updatedAt == call.now && r.lifecycle == IntentCreated
              && r.openedAt.None? && r.closedAt.None? && r.exitPrice.None? && r.exitReason.None?
  {
  }

  /** Which level the quote has reached for this record, the stop taking precedence. */
  ghost function Reached(p: Record, q: Quote): Option<ExitReason> {
    if Gain(p.direction, p.stop, ExitOf(p.direction, q)) <= 0.0 then Some(Stop)
    else if Gain(p.direction, p.target, ExitOf(p.direction, q)) >= 0.0 then Some(Target)
    else None
  }

  /** An open record is closed exactly when a timely quote reaches its stop or target, at that quote. */
  lemma ClosedIff(c: Settings, s: Store, auth: Authority, p: Record, q: Quote, now: int)
    requires p.intentId in s.records && s.records[p.intentId] == p && p.lifecycle == Open
    ensures var answer := Perform(s, c, CloseOnQuote(auth, p, q, now));
            && (answer.Ok? && answer.value.0 != s <==>
                  Leads(auth, s) && FreshQuote(q, now, c.maxQuoteAge) && Reached(p, q).Some?)
            && (answer.Ok? && answer.value.0 != s ==>
                  && answer.value.1 == p.(lifecycle := Closed, token := s.token, updatedAt := now, closedAt := Some(now),
                                          exitPrice := Some(ExitOf(p.direction, q)), exitReason := Reached(p, q))
                  && answer.value.0 == s.(records := s.records[p.intentId := answer.value.1]))
            && (answer.Ok? && answer.value.0 == s ==> answer.value.1 == p)
  {
    var answer := Perform(s, c, CloseOnQuote(auth, p, q, now));
    if answer.Ok? && ExitOn(p, q).Some? {
      assert answer.value.0.records[p.intentId].lifecycle == Closed;
    }
  }

  /** Opening needs the lease and a record still waiting; reconciling needs the lease and a closed one. */
  lemma MovedIff(c: Settings, s: Store, auth: Authority, p: Record, now: int)
    requires p.intentId in s.records && s.records[p.intentId] == p
    ensures var answer := Perform(s, c, OpenIntent(auth, p, now));
            && (answer.Ok? && answer.value.0 != s <==> Leads(auth, s) && p.lifecycle == IntentCreated)
            && (answer.Ok? && answer.value.0 != s ==>
                  answer.value.1 == p.(lifecycle := Open, token := s.token, updatedAt := now, openedAt := Some(now)))
    ensures var answer := Perform(s, c, Reconcile(auth, p, now));
            && (answer.Ok? && answer.value.0 != s <==> Leads(auth, s) && p.lifecycle == Closed)
            && (answer.Ok? && answer.value.0 != s ==>
                  answer.value.1 == p.(lifecycle := Reconciled, token := s.token, updatedAt := now))
  {
    var open, end := Perform(s, c, OpenIntent(auth, p, now)), Perform(s, c, Reconcile(auth, p, now));
    if open.Ok? && p.lifecycle == IntentCreated {
      assert open.value.0.records[p.intentId].lifecycle == Open;
    }
    if end.Ok? && p.lifecycle == Closed {
      assert end.value.0.records[p.intentId].lifecycle == Reconciled;
    }
  }

  // ---------------------------------------------------------------- refusals

  /** Two records of the same intent: every fact that a repeated put must bring again. */
  ghost predicate SameFacts(a: Record, b: Record) {
    && a.intentId == b.intentId && a.strategy == b.strategy && a.instrument == b.instrument && a.direction == b.direction
    && a.entry == b.entry && a.stop == b.stop && a.target == b.target
  }

  /** A put is stale, conflicting, idempotent or new. */
  lemma PutMeans(s: Store, r: Record)
    ensures var known := r.intentId in s.records;
            && (Put(s, r) == Err(StaleToken) <==> r.token != s.token)
            && (Put(s, r) == Err(DuplicateConflict) <==>
                  r.token == s.token && known && !SameFacts(s.records[r.intentId], r))
            && (Put(s, r).Ok? <==> r.token == s.token && (known ==> SameFacts(s.records[r.intentId], r)))
            && (Put(s, r).Ok? && known ==> Put(s, r).value == (s, s.records[r.intentId]))
            && (Put(s, r).Ok? && !known ==> Put(s, r).value == (s.(records := s.records[r.intentId := r]), r))
  {
  }

  const EDGES: set<(Lifecycle, Lifecycle)> :=
    {(IntentCreated, Open), (Open, Closed), (Open, FailedSafe), (Closed, Reconciled)}

  /** A transition is stale, conflicting, off the graph, or moves the record and keeps what it is not given. */
  lemma TransitionMeans(s: Store, id: int, from: Lifecycle, to: Lifecycle, token: int, u: Update)
    ensures var answer := Transition(s, id, from, to, token, u);
            var known := id in s.records && s.records[id].lifecycle == from;
            && (answer == Err(StaleToken) <==> token != s.token)
            && (answer == Err(TransitionConflict) <==> token == s.token && !known)
            && (answer == Err(TransitionInvalid) <==> token == s.token && known && (from, to) !in EDGES)
            && (answer.Ok? <==> token == s.token && known && (from, to) in EDGES)
            && (answer.Ok? ==>
                  var (after, r) := answer.value;
                  && after == s.(records := s.records[id := r]) && SameFacts(r, s.records[id])
                  && r.lifecycle == to && r.token == token && r.updatedAt == u.updatedAt
                  && r.createdAt == s.records[id].createdAt && r.positionId == s.records[id].positionId
                  && r.openedAt == (if u.openedAt.Some? then u.openedAt else s.records[id].openedAt)
                  && r.closedAt == (if u.closedAt.Some? then u.closedAt else s.records[id].closedAt)
                  && r.exitPrice == (if u.exitPrice.Some? then u.exitPrice else s.records[id].exitPrice)
                  && r.exitReason == (if u.exitReason.Some? then u.exitReason else s.records[id].exitReason))
  {
    assert (from, to) in EDGES <==> AllowedTransition(from, to);
  }

  ghost predicate InShadow(a: Authority) {
    a.shadowMode && a.leaseAuthorized
  }

  ghost predicate HasToken(a: Authority) {
    a.token.Some? && a.token.value > 0
  }

  /** The checks of a creation in their order, each with its own refusal. */
  lemma CreateRefusals(c: Settings, s: Store, call: Call)
    requires call.Create?
    ensures var answer := Perform(s, c, call);
            var auth, signal, q := call.auth, call.signal, call.quote;
            var timely := FreshQuote(q, call.now, c.maxQuoteAge);
            var asked := InShadow(auth) && timely && signal.instrument in c.pipSizes;
            var sound := asked && signal.approved && signal.direction.Some?
                         && Bracketed(signal.direction.value, EntryOf(signal.direction.value, q), call.stop, call.target);
            && (answer == Err(NotAuthorized) <==> !InShadow(auth))
            && (answer == Err(BadQuote) <==> InShadow(auth) && !timely)
            && (answer == Err(UnknownInstrument) <==> InShadow(auth) && timely && !asked)
            && (answer == Err(RiskVeto) <==> asked && !signal.approved)
            && (answer == Err(NotActionable) <==> asked && signal.approved && signal.direction.None?)
            && (answer == Err(BadGeometry) <==> asked && signal.approved && signal.direction.Some? && !sound)
            && (answer == Err(TokenUnavailable) <==> sound && !HasToken(auth))
            && (sound && HasToken(auth) && call.intentId !in s.records && auth.token != Some(s.token) ==>
                  answer == Err(StaleToken))
  {
  }

  /** A repeated creation returns the stored record if every fact is the same, and conflicts otherwise. */
  lemma RepeatedCreation(c: Settings, s: Store, call: Call)
    requires call.Create? && call.intentId in s.records && s.records[call.intentId].intentId == call.intentId
    requires InShadow(call.auth) && FreshQuote(call.quote, call.now, c.maxQuoteAge) && HasToken(call.auth)
    requires call.signal.instrument in c.pipSizes && call.signal.approved && call.signal.direction.Some?
    requires Bracketed(call.signal.direction.value, EntryOf(call.signal.direction.value, call.quote), call.stop, call.target)
    ensures var e := s.records[call.intentId];
            Perform(s, c, call)
            == if e.strategy == call.signal.strategy && e.instrument == call.signal.instrument
                  && Some(e.direction) == call.signal.direction && e.entry == EntryOf(e.direction, call.quote)
                  && e.stop == call.stop && e.target == call.target
               then Ok((s, e)) else Err(DuplicateConflict)
  {
  }

  /** The refusals of the other calls; a call for a state already reached hands the record back. */
  lemma MoveRefusals(c: Settings, s: Store, auth: Authority, p: Record, q: Quote, now: int)
    ensures var answer := Perform(s, c, OpenIntent(auth, p, now));
            && (answer == Err(NotAuthorized) <==> !InShadow(auth))
            && (InShadow(auth) && p.lifecycle == Open ==> answer == Ok((s, p)))
            && (answer == Err(TokenUnavailable) <==> InShadow(auth) && p.lifecycle != Open && !HasToken(auth))
    ensures var answer := Perform(s, c, CloseOnQuote(auth, p, q, now));
            var timely := FreshQuote(q, now, c.maxQuoteAge);
            && (answer == Err(NotAuthorized) <==> !InShadow(auth))
            && (answer == Err(BadQuote) <==> InShadow(auth) && !timely)
            && (InShadow(auth) && timely && (p.lifecycle != Open || Reached(p, q).None?) ==> answer == Ok((s, p)))
            && (answer == Err(TokenUnavailable) <==>
                  InShadow(auth) && timely && p.lifecycle == Open && Reached(p, q).Some? && !HasToken(auth))
    ensures var answer := Perform(s, c, Reconcile(auth, p, now));
            && (answer == Err(NotAuthorized) <==> !InShadow(auth))
            && (InShadow(auth) && p.lifecycle == Reconciled ==> answer == Ok((s, p)))
            && (answer == Err(NotClosed) <==> InShadow(auth) && p.lifecycle != Reconciled && p.lifecycle != Closed)
            && (answer == Err(TokenUnavailable) <==> InShadow(auth) && p.lifecycle == Closed && !HasToken(auth))
  {
  }

  // ---------------------------------------------------------------- one life

  /** When a record has no figures, and why. */
  lemma FiguresRefused(c: Settings, p: Record)
    requires GoodSettings(c)
    ensures var complete := (p.lifecycle == Closed || p.lifecycle == Reconciled) && p.exitPrice.Some? && p.exitReason.Some?
                            && p.openedAt.Some? && p.closedAt.Some?;
            && (PerformanceOf(p, c) == Err(PerformanceUnavailable) <==> !complete)
            && (PerformanceOf(p, c) == Err(UnknownInstrument) <==> complete && p.instrument !in c.pipSizes)
            && (PerformanceOf(p, c) == Err(DivisionByZero) <==>
                  complete && p.instrument in c.pipSizes && p.entry == p.stop)
            && (PerformanceOf(p, c).Ok? <==> complete && p.instrument in c.pipSizes && p.entry != p.stop)
  {
  }

  lemma FiguresMean(c: Settings, p: Record)
    requires GoodSettings(c) && PerformanceOf(p, c).Ok?
    ensures p.instrument in c.pipSizes && p.exitPrice.Some? && p.entry != p.stop && p.exitReason.Some?
    ensures var f := PerformanceOf(p, c).value;
            && f.rawDelta == Gain(p.direction, p.entry, p.exitPrice.value)
            && f.pips * c.pipSizes[p.instrument] == f.rawDelta
            && f.rMultiple * Abs(p.entry - p.stop) == f.rawDelta
            && f.reason == p.exitReason.value
  {
    DivideBack(RawDelta(p), c.pipSizes[p.instrument]);
    DivideBack(RawDelta(p), Abs(p.entry - p.stop));
  }

  /** The record at the end of a life that was created on one quote and closed on another. */
  ghost function Lived(call: Call, token: int, openedAt: int, q: Quote, closedAt: int, reconciledAt: int,
                       reason: ExitReason): Record
    requires call.Create? && call.signal.direction.Some?
  {
    var d := call.signal.direction.value;
    Record(PositionIdOf(call.intentId), call.intentId, call.signal.strategy, call.signal.instrument, d,
           EntryOf(d, call.quote), call.stop, call.target, token, call.now, reconciledAt, Reconciled,
           Some(openedAt), Some(closedAt), Some(ExitOf(d, q)), Some(reason))
  }

  /**
   A record that is created, opened, closed and reconciled under one lease: its fields are those of the
   signal, the two quotes and the four instants, and its gain is what the two quotes say. Closed on the
   very quote of its entry it loses exactly the spread, in both directions, by its stop.
   */
  lemma WholeLife(c: Settings, s: Store, call: Call, openedAt: int, q: Quote, closedAt: int, reconciledAt: int)
    returns (stores: seq<Store>, rs: seq<Record>)
    requires GoodSettings(c) && call.Create? && call.intentId !in s.records && MayCreate(c, s, call)
    requires FreshQuote(q, closedAt, c.maxQuoteAge)
    requires var d := call.signal.direction.value;
             Gain(d, call.stop, ExitOf(d, q)) <= 0.0 || Gain(d, call.target, ExitOf(d, q)) >= 0.0
    ensures |stores| == |rs| == 4
    ensures Perform(s, c, call) == Ok((stores[0], rs[0]))
    ensures Perform(stores[0], c, OpenIntent(call.auth, rs[0], openedAt)) == Ok((stores[1], rs[1]))
    ensures Perform(stores[1], c, CloseOnQuote(call.auth, rs[1], q, closedAt)) == Ok((stores[2], rs[2]))
    ensures Perform(stores[2], c, Reconcile(call.auth, rs[2], reconciledAt)) == Ok((stores[3], rs[3]))
    ensures var d := call.signal.direction.value;
            var stopped := Gain(d, call.stop, ExitOf(d, q)) <= 0.0;
            && rs[3] == Lived(call, s.token, openedAt, q, closedAt, reconciledAt, if stopped then Stop else Target)
            && stores[3] == s.(records := s.records[call.intentId := rs[3]])
            && PerformanceOf(rs[3], c).Ok?
            && PerformanceOf(rs[3], c).value.rawDelta == Gain(d, EntryOf(d, call.quote), ExitOf(d, q))
            && (q.bid == call.quote.bid && q.offer == call.quote.offer ==>
                  PerformanceOf(rs[3], c).value.rawDelta == q.bid - q.offer && stopped)
  {
    CreatedIff(c, s, call);
    var (s1, r1) := Perform(s, c, call).value;
    MovedIff(c, s1, call.auth, r1, openedAt);
    var (s2, r2) := Perform(s1, c, OpenIntent(call.auth, r1, openedAt)).value;
    ClosedIff(c, s2, call.auth, r2, q, closedAt);
    var (s3, r3) := Perform(s2, c, CloseOnQuote(call.auth, r2, q, closedAt)).value;
    MovedIff(c, s3, call.auth, r3, reconciledAt);
    var (s4, r4) := Perform(s3, c, Reconcile(call.auth, r3, reconciledAt)).value;
    stores, rs := [s1, s2, s3, s4], [r1, r2, r3, r4];
    assert PerformanceOf(r4, c).Ok?;
    FiguresMean(c, r4);
  }
}
