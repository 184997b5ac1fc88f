/** The ledger invariant, and that every money transition keeps it. */
module LedgerInvariant {
  import opened Base
  import opened Rows
  import opened MapSum
  import opened Ledger
  import opened UseCases

  /** A generation row agrees with the operation it belongs to; only a running one holds money. */
  ghost predicate GenerationFits(g: Generation, log: map<Id, Entry>, id: Id) {
    && id in log && log[id].user == g.user && log[id].month == g.month
    && (g.status == Running <==> log[id].fate == StillRunning)
    && (g.status == Running ==> g.reserved == log[id].reservation && g.lease.Some?)
    && (g.status != Running ==> g.reserved == 0 && g.lease.None?)
    && (g.status == Succeeded ==> g.output.Some? && g.failure.None?)
    && (g.status == Failed ==> g.output.None? && g.failure.Some?)
    && (g.status == Running ==> g.output.None? && g.failure.None?)
    && (g.adopted.Some? ==> g.operation == GoalRefine && g.status == Succeeded)
  }

  ghost predicate Unsettled(fate: Fate) { fate == StillRunning || fate == Released }

  /** A usage row is final exactly when its operation is, and otherwise carries the exact exposure. */
  ghost predicate UsageFits(u: Usage, log: map<Id, Entry>, id: Id) {
    && id in log && log[id].user == u.user && log[id].acceptedAt == u.acceptedAt
    && u.retainUntil == QuotaRetainUntil(u.acceptedAt)
    && (u.finalizedAt.None? <==> Unsettled(log[id].fate))
    && u.exposure == (if Unsettled(log[id].fate) then Some(Exposure(log[id].month, log[id].reservation)) else None)
    && (log[id].fate == StillRunning ==> u.status == UsageStatus.Accepted)
    && (u.status == UsageStatus.Accepted ==> log[id].fate == StillRunning)
  }

  /** An operation that is not settled still has the rows that will settle it. */
  ghost predicate EntryFits(e: Entry, db: Db, id: Id) {
    && e.month in db.months
    && (e.fate == StillRunning ==> id in db.generations)
    && (Unsettled(e.fate) ==> id in db.usages && e.user in db.users)
  }

  /** The three amounts of a month are what its operations say. */
  ghost predicate MonthFits(months: map<int, Budget>, generations: map<Id, Generation>, log: map<Id, Entry>,
                            month: int)
  {
    var b := MonthOf(months, month);
    && b.reserved == Sum(generations, ReservedIn(month))
    && b.actual == Sum(log, SettledIn(month))
    && b.unattributed == Sum(log, WrittenIn(month))
  }

  ghost predicate Balanced(db: Db, log: map<Id, Entry>) {
    forall month :: MonthFits(db.months, db.generations, log, month)
  }

  ghost predicate RowsFit(db: Db, log: map<Id, Entry>) {
    && (forall id :: id in db.generations ==> GenerationFits(db.generations[id], log, id))
    && (forall id :: id in db.usages ==> UsageFits(db.usages[id], log, id))
    && (forall id :: id in log ==> EntryFits(log[id], db, id))
  }

  ghost predicate LedgerInv(db: Db, log: map<Id, Entry>) {
    RowsFit(db, log) && Balanced(db, log)
  }

  /** A month never exceeds the limit by more than what was released first and charged afterwards. */
  ghost predicate MonthBounded(limit: int, months: map<int, Budget>, log: map<Id, Entry>, month: int) {
    Spent(months, month) <= limit + Sum(log, LateIn(month))
  }

  ghost predicate Bounded(limit: int, months: map<int, Budget>, log: map<Id, Entry>) {
    forall month :: MonthBounded(limit, months, log, month)
  }

  // Acceptance.

  lemma AcceptKeepsRows(w: World, id: Id, g: Generation, acceptedAt: int, text: string, revision: nat)
    requires RowsFit(w.db, w.history.log)
    requires id !in w.history.log && g.user in w.db.users
    requires g.status == Running && g.lease.Some? && g.output.None? && g.failure.None? && g.adopted.None?
    ensures var x := Accept(w, id, g, acceptedAt, text, revision); RowsFit(x.db, x.history.log)
  {
    var x := Accept(w, id, g, acceptedAt, text, revision);
    forall k | k in x.db.generations ensures GenerationFits(x.db.generations[k], x.history.log, k) {
      assert k != id ==> GenerationFits(w.db.generations[k], w.history.log, k);
    }
    forall k | k in x.db.usages ensures UsageFits(x.db.usages[k], x.history.log, k) {
      assert k != id ==> UsageFits(w.db.usages[k], w.history.log, k);
    }
    forall k | k in x.history.log ensures EntryFits(x.history.log[k], x.db, k) {
      assert k != id ==> EntryFits(w.history.log[k], w.db, k);
    }
  }

  lemma AcceptMonth(months: map<int, Budget>, generations: map<Id, Generation>, log: map<Id, Entry>, id: Id,
                    g: Generation, e: Entry, month: int)
    requires MonthFits(months, generations, log, month)
    requires id !in log && id !in generations && g.status == Running && e.fate == StillRunning
    ensures var budget := MonthOf(months, g.month);
            MonthFits(months[g.month := budget.(reserved := budget.reserved + g.reserved)], generations[id := g],
                      log[id := e], month)
  {
    SumWrite(generations, id, g, ReservedIn(month));
    SumWrite(log, id, e, SettledIn(month));
    SumWrite(log, id, e, WrittenIn(month));
  }

  lemma AcceptKeepsBalance(db: Db, log: map<Id, Entry>, id: Id, g: Generation, e: Entry, x: Db)
    requires Balanced(db, log) && id !in log && id !in db.generations && g.status == Running && e.fate == StillRunning
    requires e.month == g.month && e.reservation == g.reserved
    requires var b := MonthOf(db.months, g.month);
             x.months == db.months[g.month := b.(reserved := b.reserved + g.reserved)]
    requires x.generations == db.generations[id := g]
    ensures Balanced(x, log[id := e])
  {
    var log' := log[id := e];
    forall month ensures MonthFits(x.months, x.generations, log', month) {
      assert MonthFits(db.months, db.generations, log, month);
      AcceptMonth(db.months, db.generations, log, id, g, e, month);
    }
  }

  lemma AcceptKeepsLedger(w: World, id: Id, g: Generation, acceptedAt: int, text: string, revision: nat)
    requires LedgerInv(w.db, w.history.log)
    requires id !in w.history.log && id !in w.db.generations && id !in w.db.usages && g.user in w.db.users
    requires g.status == Running && g.lease.Some? && g.output.None? && g.failure.None? && g.adopted.None?
    ensures var x := Accept(w, id, g, acceptedAt, text, revision); LedgerInv(x.db, x.history.log)
  {
    var x := Accept(w, id, g, acceptedAt, text, revision);
    AcceptKeepsRows(w, id, g, acceptedAt, text, revision);
    AcceptKeepsBalance(w.db, w.history.log, id, g, x.history.log[id], x.db);
  }

  lemma AcceptKeepsBound(limit: nat, w: World, id: Id, g: Generation, acceptedAt: int, text: string, revision: nat)
    requires Bounded(limit, w.db.months, w.history.log) && id !in w.history.log
    requires Spent(w.db.months, g.month) + g.reserved <= limit
    ensures var x := Accept(w, id, g, acceptedAt, text, revision); Bounded(limit, x.db.months, x.history.log)
  {
    var x := Accept(w, id, g, acceptedAt, text, revision);
    forall month ensures MonthBounded(limit, x.db.months, x.history.log, month) {
      assert MonthBounded(limit, w.db.months, w.history.log, month);
      SumWrite(w.history.log, id, x.history.log[id], LateIn(month));
      SumNonNegative(w.history.log, LateIn(month));
    }
  }

  // Settlement.

  /** Writing one operation's fate changes the charged and written-off sums by that operation alone. */
  lemma ChargeOne(log: map<Id, Entry>, id: Id, fate: Fate, month: int)
    requires id in log && Unsettled(log[id].fate)
    ensures var e := log[id].(fate := fate);
            && Sum(log[id := e], SettledIn(month)) == Sum(log, SettledIn(month)) + SettledIn(month)(e)
            && Sum(log[id := e], WrittenIn(month)) == Sum(log, WrittenIn(month)) + WrittenIn(month)(e)
            && Sum(log[id := e], LateIn(month)) == Sum(log, LateIn(month)) + LateIn(month)(e)
  {
    var e := log[id].(fate := fate);
    SumWrite(log, id, e, SettledIn(month));
    SumWrite(log, id, e, WrittenIn(month));
    SumWrite(log, id, e, LateIn(month));
  }

  lemma SettleKeepsRows(w: World, id: Id, terminal: Generation, cost: nat, failed: bool, now: int)
    requires RowsFit(w.db, w.history.log)
    requires id in w.db.generations && id in w.db.usages && id in w.history.log
             && w.db.generations[id].status == Running
    requires terminal.status != Running && GenerationFits(terminal, Mark(w.history.log, {id}, Settled(cost, false)), id)
    ensures var x := Settle(w, id, terminal, cost, failed, now); RowsFit(x.db, x.history.log)
  {
    var x := Settle(w, id, terminal, cost, failed, now);
    forall k | k in x.db.generations ensures GenerationFits(x.db.generations[k], x.history.log, k) {
      assert k != id ==> GenerationFits(w.db.generations[k], w.history.log, k);
    }
    forall k | k in x.history.log ensures EntryFits(x.history.log[k], x.db, k) {
      assert EntryFits(w.history.log[k], w.db, k);
    }
  }

  lemma SettleMonth(months: map<int, Budget>, generations: map<Id, Generation>, log: map<Id, Entry>, id: Id,
                    terminal: Generation, cost: nat, month: int)
    requires MonthFits(months, generations, log, month)
    requires id in generations && generations[id].status == Running && terminal.status != Running
    requires id in log && log[id].fate == StillRunning && log[id].month == generations[id].month
    ensures MonthFits(Converted(months, generations[id].month, generations[id].reserved, cost),
                      generations[id := terminal], Fated(log, id, Settled(cost, false)), month)
  {
    SumWrite(generations, id, terminal, ReservedIn(month));
    ChargeOne(log, id, Settled(cost, false), month);
  }

  lemma SettleKeepsBalance(w: World, id: Id, terminal: Generation, cost: nat, failed: bool, now: int)
    requires Balanced(w.db, w.history.log)
    requires id in w.db.generations && id in w.db.usages && w.db.generations[id].status == Running
             && terminal.status != Running
    requires GenerationFits(w.db.generations[id], w.history.log, id)
    ensures var x := Settle(w, id, terminal, cost, failed, now); Balanced(x.db, x.history.log)
  {
    var x := Settle(w, id, terminal, cost, failed, now);
    forall month ensures MonthFits(x.db.months, x.db.generations, x.history.log, month) {
      assert MonthFits(w.db.months, w.db.generations, w.history.log, month);
      SettleMonth(w.db.months, w.db.generations, w.history.log, id, terminal, cost, month);
    }
  }

  lemma SettleKeepsLedger(w: World, id: Id, terminal: Generation, cost: nat, failed: bool, now: int)
    requires LedgerInv(w.db, w.history.log)
    requires id in w.db.generations && id in w.db.usages && id in w.history.log
             && w.db.generations[id].status == Running
    requires terminal.status != Running && GenerationFits(terminal, Mark(w.history.log, {id}, Settled(cost, false)), id)
    ensures var x := Settle(w, id, terminal, cost, failed, now); LedgerInv(x.db, x.history.log)
  {
    SettleKeepsRows(w, id, terminal, cost, failed, now);
    SettleKeepsBalance(w, id, terminal, cost, failed, now);
  }

  lemma SettleKeepsBound(limit: nat, w: World, id: Id, terminal: Generation, cost: nat, failed: bool, now: int)
    requires LedgerInv(w.db, w.history.log) && Bounded(limit, w.db.months, w.history.log)
    requires id in w.db.generations && id in w.db.usages && id in w.history.log
             && w.db.generations[id].status == Running
    requires cost <= w.history.log[id].reservation
    ensures var x := Settle(w, id, terminal, cost, failed, now); Bounded(limit, x.db.months, x.history.log)
  {
    var x := Settle(w, id, terminal, cost, failed, now);
    forall month ensures MonthBounded(limit, x.db.months, x.history.log, month) {
      assert MonthBounded(limit, w.db.months, w.history.log, month);
      ChargeOne(w.history.log, id, Settled(cost, false), month);
    }
  }

  /** What settling late finds open: a usage that still carries an exposure of a User who is there. */
  predicate Chargeable(db: Db, id: Id) {
    id in db.usages && db.usages[id].user in db.users && db.usages[id].finalizedAt.None? && db.usages[id].exposure.Some?
  }

  /** An open usage belongs to an operation still owed for; its month is charged and its usage is final. */
  lemma SettleLateShape(w: World, id: Id, cost: nat, failed: bool, now: int)
    requires RowsFit(w.db, w.history.log) && Chargeable(w.db, id)
    ensures id in w.history.log && Unsettled(w.history.log[id].fate) && w.history.log[id].month in w.db.months
    ensures (id in w.db.generations ==> w.db.generations[id].status != Running) ==> w.history.log[id].fate == Released
    ensures var x, e := SettleLate(w, id, cost, failed, now), w.history.log[id];
            var b := MonthOf(w.db.months, e.month);
            && x.db.months == w.db.months[e.month := b.(actual := b.actual + cost)]
            && x.db.generations == w.db.generations && x.db.users == w.db.users
            && x.db.usages == w.db.usages[id := FinalizeUsage(w.db.usages[id], failed, now)]
            && x.history.log == w.history.log[id := e.(fate := Settled(cost, true))]
  {
    assert UsageFits(w.db.usages[id], w.history.log, id);
    assert EntryFits(w.history.log[id], w.db, id);
  }

  lemma SettleLateElse(w: World, id: Id, cost: nat, failed: bool, now: int)
    requires !Chargeable(w.db, id)
    ensures SettleLate(w, id, cost, failed, now) == w
  {
  }

  lemma LateRows(db: Db, log: map<Id, Entry>, id: Id, cost: nat, failed: bool, now: int, x: Db, log': map<Id, Entry>)
    requires RowsFit(db, log) && id in db.usages && id in log && log[id].fate == Released
    requires id in db.generations ==> db.generations[id].status != Running
    requires db.months.Keys <= x.months.Keys && x.generations == db.generations && x.users == db.users
    requires x.usages == db.usages[id := FinalizeUsage(db.usages[id], failed, now)]
    requires log' == log[id := log[id].(fate := Settled(cost, true))]
    ensures RowsFit(x, log')
  {
    forall k | k in x.generations ensures GenerationFits(x.generations[k], log', k) {
      assert GenerationFits(db.generations[k], log, k);
    }
    forall k | k in x.usages ensures UsageFits(x.usages[k], log', k) {
      assert UsageFits(db.usages[k], log, k);
    }
    forall k | k in log' ensures EntryFits(log'[k], x, k) {
      assert EntryFits(log[k], db, k);
    }
  }

  lemma LateMonth(months: map<int, Budget>, generations: map<Id, Generation>, log: map<Id, Entry>, id: Id, cost: nat,
                  month: int)
    requires MonthFits(months, generations, log, month)
    requires id in log && Unsettled(log[id].fate)
    ensures var e := log[id];
            var budget := MonthOf(months, e.month);
            MonthFits(months[e.month := budget.(actual := budget.actual + cost)],
                      generations, log[id := e.(fate := Settled(cost, true))], month)
  {
    ChargeOne(log, id, Settled(cost, true), month);
  }

  lemma LateBalance(db: Db, log: map<Id, Entry>, id: Id, cost: nat, x: Db, log': map<Id, Entry>)
    requires Balanced(db, log) && id in log && log[id].fate == Released
    requires var b := MonthOf(db.months, log[id].month);
             x.months == db.months[log[id].month := b.(actual := b.actual + cost)]
    requires x.generations == db.generations && log' == log[id := log[id].(fate := Settled(cost, true))]
    ensures Balanced(x, log')
  {
    forall month ensures MonthFits(x.months, x.generations, log', month) {
      assert MonthFits(db.months, db.generations, log, month);
      LateMonth(db.months, db.generations, log, id, cost, month);
    }
  }

  lemma SettleLateKeepsLedger(w: World, id: Id, cost: nat, failed: bool, now: int)
    requires LedgerInv(w.db, w.history.log)
    requires id in w.db.generations ==> w.db.generations[id].status != Running
    ensures var x := SettleLate(w, id, cost, failed, now); LedgerInv(x.db, x.history.log)
  {
    var x := SettleLate(w, id, cost, failed, now);
    if Chargeable(w.db, id) {
      SettleLateShape(w, id, cost, failed, now);
      LateRows(w.db, w.history.log, id, cost, failed, now, x.db, x.history.log);
      LateBalance(w.db, w.history.log, id, cost, x.db, x.history.log);
    } else {
      SettleLateElse(w, id, cost, failed, now);
    }
  }

  lemma LateBound(limit: nat, months: map<int, Budget>, log: map<Id, Entry>, id: Id, cost: nat, month: int)
    requires MonthBounded(limit, months, log, month) && id in log && Unsettled(log[id].fate)
             && cost <= log[id].reservation
    ensures var e := log[id];
            var b := MonthOf(months, e.month);
            MonthBounded(limit, months[e.month := b.(actual := b.actual + cost)],
                         log[id := e.(fate := Settled(cost, true))], month)
  {
    ChargeOne(log, id, Settled(cost, true), month);
  }

  lemma SettleLateKeepsBound(limit: nat, w: World, id: Id, cost: nat, failed: bool, now: int)
    requires LedgerInv(w.db, w.history.log) && Bounded(limit, w.db.months, w.history.log)
    requires id in w.history.log ==> cost <= w.history.log[id].reservation
    ensures var x := SettleLate(w, id, cost, failed, now); Bounded(limit, x.db.months, x.history.log)
  {
    var x := SettleLate(w, id, cost, failed, now);
    if Chargeable(w.db, id) {
      SettleLateShape(w, id, cost, failed, now);
      forall month ensures MonthBounded(limit, x.db.months, x.history.log, month) {
        assert MonthBounded(limit, w.db.months, w.history.log, month);
        LateBound(limit, w.db.months, w.history.log, id, cost, month);
      }
    } else {
      SettleLateElse(w, id, cost, failed, now);
    }
  }

  // Release.

  ghost predicate AllRunning(db: Db, ids: set<Id>) {
    forall id :: id in ids ==> id in db.generations && db.generations[id].status == Running
  }

  /** The generations being released hold the reservations of running operations. */
  ghost predicate HoldReservations(db: Db, log: map<Id, Entry>, ids: set<Id>) {
    forall id :: id in ids ==>
      id in db.generations && id in log && log[id].fate == StillRunning && db.generations[id].month in db.months
  }

  lemma RunningHold(db: Db, log: map<Id, Entry>, ids: set<Id>)
    requires RowsFit(db, log) && AllRunning(db, ids)
    ensures HoldReservations(db, log, ids)
  {
    forall id | id in ids ensures id in log && log[id].fate == StillRunning && db.generations[id].month in db.months {
      assert GenerationFits(db.generations[id], log, id) && EntryFits(log[id], db, id);
    }
  }

  /** The released rows' money is exactly what their months lose. */
  lemma ReleasedMoney(generations: map<Id, Generation>, ids: set<Id>, month: int)
    ensures Sum(generations, ReservedIn(month)) ==
              Sum(FailedIn(generations, ids), ReservedIn(month)) + Sum(Select(generations, ids), ReservedIn(month))
  {
    SumAdd(generations, ReservedIn(month), FailedIn(generations, ids), ReservedIn(month),
           Select(generations, ids), ReservedIn(month));
  }

  lemma ReleaseKeepsRows(w: World, ids: set<Id>)
    requires RowsFit(w.db, w.history.log) && AllRunning(w.db, ids)
    ensures var x := Release(w, ids); RowsFit(x.db, x.history.log)
  {
    var x := Release(w, ids);
    RunningHold(w.db, w.history.log, ids);
    forall k | k in x.db.generations ensures GenerationFits(x.db.generations[k], x.history.log, k) {
      assert GenerationFits(w.db.generations[k], w.history.log, k);
    }
    forall k | k in x.db.usages ensures UsageFits(x.db.usages[k], x.history.log, k) {
      assert UsageFits(w.db.usages[k], w.history.log, k);
    }
    forall k | k in x.history.log ensures EntryFits(x.history.log[k], x.db, k) {
      assert EntryFits(w.history.log[k], w.db, k);
    }
  }

  /** Releasing charges and writes off nothing. */
  lemma ReleaseChargesNothing(log: map<Id, Entry>, ids: set<Id>, month: int)
    requires forall id :: id in ids ==> id in log && log[id].fate == StillRunning
    ensures var log' := Mark(log, ids, Released);
            && Sum(log', SettledIn(month)) == Sum(log, SettledIn(month))
            && Sum(log', WrittenIn(month)) == Sum(log, WrittenIn(month))
            && Sum(log', LateIn(month)) == Sum(log, LateIn(month))
  {
    var log' := Mark(log, ids, Released);
    SumSame(log, SettledIn(month), log', SettledIn(month));
    SumSame(log, WrittenIn(month), log', WrittenIn(month));
    SumSame(log, LateIn(month), log', LateIn(month));
  }

  /** A month loses what was released in it, and a month without a row has nothing to lose. */
  lemma ReleasedBudget(months: map<int, Budget>, released: map<Id, Generation>, month: int)
    requires forall id :: id in released ==> released[id].month in months
    ensures var b := MonthOf(months, month);
            MonthOf(ReleaseMonths(months, released), month) ==
              Budget(b.reserved - Sum(released, ReservedIn(month)), b.actual, b.unattributed)
  {
    if month !in months {
      SumSame(released, ReservedIn(month), map[], ReservedIn(month));
      SumEmpty(ReservedIn(month));
    }
  }

  lemma ReleaseMonth(db: Db, log: map<Id, Entry>, ids: set<Id>, month: int)
    requires HoldReservations(db, log, ids)
    requires MonthFits(db.months, db.generations, log, month)
    ensures MonthFits(ReleaseMonths(db.months, Select(db.generations, ids)), FailedIn(db.generations, ids),
                      Mark(log, ids, Released), month)
  {
    ReleaseChargesNothing(log, ids, month);
    ReleasedMoney(db.generations, ids, month);
    ReleasedBudget(db.months, Select(db.generations, ids), month);
  }

  lemma ReleaseKeepsBalance(w: World, ids: set<Id>)
    requires Balanced(w.db, w.history.log) && HoldReservations(w.db, w.history.log, ids)
    ensures var x := Release(w, ids); Balanced(x.db, x.history.log)
  {
    var x := Release(w, ids);
    forall month ensures MonthFits(x.db.months, x.db.generations, x.history.log, month) {
      assert MonthFits(w.db.months, w.db.generations, w.history.log, month);
      ReleaseMonth(w.db, w.history.log, ids, month);
    }
  }

  lemma ReleaseKeepsLedger(w: World, ids: set<Id>)
    requires LedgerInv(w.db, w.history.log) && AllRunning(w.db, ids)
    ensures var x := Release(w, ids); LedgerInv(x.db, x.history.log)
  {
    RunningHold(w.db, w.history.log, ids);
    ReleaseKeepsRows(w, ids);
    ReleaseKeepsBalance(w, ids);
  }

  lemma ReleaseKeepsBound(limit: nat, w: World, ids: set<Id>)
    requires Bounded(limit, w.db.months, w.history.log) && HoldReservations(w.db, w.history.log, ids)
    ensures var x := Release(w, ids); Bounded(limit, x.db.months, x.history.log)
  {
    var released := Select(w.db.generations, ids);
    var x := Release(w, ids);
    forall month ensures MonthBounded(limit, x.db.months, x.history.log, month) {
      assert MonthBounded(limit, w.db.months, w.history.log, month);
      ReleaseChargesNothing(w.history.log, ids, month);
      SumNonNegative(released, ReservedIn(month));
    }
  }

  // Write-off on account deletion.

  /** What each operation of a deleted user moves to the unattributed amount. */
  ghost function MovedBy(user: Id, month: int): Entry -> int {
    (e: Entry) => if e.user == user && Unsettled(e.fate) && e.month == month then e.reservation else 0
  }

  /** The rows the account deletion reads are exactly the unsettled operations of the user. */
  lemma MovedMoney(db: Db, log: map<Id, Entry>, user: Id, month: int)
    requires RowsFit(db, log)
    ensures Sum(log, MovedBy(user, month)) ==
              Sum(Select(db.generations, RunningOfUser(db.generations, user)), ReservedIn(month)) +
              Sum(Select(db.usages, ReleasedOfUser(db, user)), ExposedIn(month))
  {
    var running := Select(db.generations, RunningOfUser(db.generations, user));
    var released := Select(db.usages, ReleasedOfUser(db, user));
    forall id | id in log || id in running || id in released
      ensures Part(log, MovedBy(user, month), id) ==
                Part(running, ReservedIn(month), id) + Part(released, ExposedIn(month), id)
    {
      assert id in db.generations ==> GenerationFits(db.generations[id], log, id);
      assert id in db.usages ==> UsageFits(db.usages[id], log, id);
      assert EntryFits(log[id], db, id);
    }
    SumAdd(log, MovedBy(user, month), running, ReservedIn(month), released, ExposedIn(month));
  }

  lemma WrittenMoney(log: map<Id, Entry>, user: Id, month: int)
    ensures var log' := WriteOffLog(log, user);
            && Sum(log', WrittenIn(month)) == Sum(log, WrittenIn(month)) + Sum(log, MovedBy(user, month))
            && Sum(log', SettledIn(month)) == Sum(log, SettledIn(month))
  {
    var log' := WriteOffLog(log, user);
    SumAdd(log', WrittenIn(month), log, WrittenIn(month), log, MovedBy(user, month));
    SumSame(log, SettledIn(month), log', SettledIn(month));
  }

  lemma LateMoney(db: Db, log: map<Id, Entry>, user: Id, month: int)
    requires RowsFit(db, log)
    ensures Sum(WriteOffLog(log, user), LateIn(month)) ==
              Sum(log, LateIn(month)) + Sum(Select(db.usages, ReleasedOfUser(db, user)), ExposedIn(month))
  {
    var released := Select(db.usages, ReleasedOfUser(db, user));
    var log' := WriteOffLog(log, user);
    forall id | id in log' || id in log || id in released
      ensures Part(log', LateIn(month), id) == Part(log, LateIn(month), id) + Part(released, ExposedIn(month), id)
    {
      assert id in db.generations ==> GenerationFits(db.generations[id], log, id);
      assert id in db.usages ==> UsageFits(db.usages[id], log, id);
      assert EntryFits(log[id], db, id);
    }
    SumAdd(log', LateIn(month), log, LateIn(month), released, ExposedIn(month));
  }

  /** A user's generations go with the user; what they reserved has just been moved. */
  lemma UserMoney(generations: map<Id, Generation>, user: Id, month: int)
    ensures Sum(generations, ReservedIn(month)) ==
              Sum(GenerationsOfOthers(generations, user), ReservedIn(month)) +
              Sum(Select(generations, RunningOfUser(generations, user)), ReservedIn(month))
  {
    SumAdd(generations, ReservedIn(month), GenerationsOfOthers(generations, user), ReservedIn(month),
           Select(generations, RunningOfUser(generations, user)), ReservedIn(month));
  }

  /** A month without a row is exposed to nothing. */
  lemma NothingMoved(db: Db, log: map<Id, Entry>, user: Id, month: int)
    requires RowsFit(db, log) && month !in db.months
    ensures Sum(Select(db.generations, RunningOfUser(db.generations, user)), ReservedIn(month)) == 0
    ensures Sum(Select(db.usages, ReleasedOfUser(db, user)), ExposedIn(month)) == 0
  {
    var running := Select(db.generations, RunningOfUser(db.generations, user));
    var released := Select(db.usages, ReleasedOfUser(db, user));
    SumSame(running, ReservedIn(month), map[], ReservedIn(month));
    SumEmpty(ReservedIn(month));
    SumSame(released, ExposedIn(month), map[], ExposedIn(month));
    SumEmpty(ExposedIn(month));
  }

  lemma WriteOffGenerationsFit(db: Db, log: map<Id, Entry>, user: Id)
    requires RowsFit(db, log)
    ensures forall k :: k in db.generations && db.generations[k].user != user ==>
              GenerationFits(db.generations[k], WriteOffLog(log, user), k)
    ensures forall k :: k in db.usages && db.usages[k].user != user ==>
              UsageFits(db.usages[k], WriteOffLog(log, user), k)
  {
    forall k | k in db.generations && db.generations[k].user != user
      ensures GenerationFits(db.generations[k], WriteOffLog(log, user), k)
    {
      assert GenerationFits(db.generations[k], log, k);
    }
    forall k | k in db.usages && db.usages[k].user != user ensures UsageFits(db.usages[k], WriteOffLog(log, user), k) {
      assert UsageFits(db.usages[k], log, k);
    }
  }

  lemma WriteOffEntryFits(e: Entry, db: Db, user: Id, k: Id, f: Entry)
    requires EntryFits(e, db, k)
    requires k in db.generations ==> db.generations[k].user == e.user
    requires k in db.usages ==> db.usages[k].user == e.user
    requires f == e.(fate := f.fate) && (if e.user == user then !Unsettled(f.fate) else f == e)
    ensures EntryFits(f, CascadeUser(db.(months := WriteOffMonths(db, user)), user), k)
  {
  }

  lemma WriteOffEntriesFit(db: Db, log: map<Id, Entry>, user: Id, k: Id)
    requires RowsFit(db, log) && k in log
    ensures EntryFits(WriteOffLog(log, user)[k], CascadeUser(db.(months := WriteOffMonths(db, user)), user), k)
  {
    assert EntryFits(log[k], db, k);
    assert k in db.generations ==> GenerationFits(db.generations[k], log, k);
    assert k in db.usages ==> UsageFits(db.usages[k], log, k);
    WriteOffEntryFits(log[k], db, user, k, WriteOffLog(log, user)[k]);
  }

  lemma WriteOffKeepsRows(w: World, user: Id)
    requires RowsFit(w.db, w.history.log)
    ensures var x := WriteOff(w, user); RowsFit(CascadeUser(x.db, user), x.history.log)
  {
    var x := WriteOff(w, user);
    WriteOffGenerationsFit(w.db, w.history.log, user);
    forall k | k in x.history.log ensures EntryFits(x.history.log[k], CascadeUser(x.db, user), k) {
      WriteOffEntriesFit(w.db, w.history.log, user, k);
    }
  }

  /** A month's amounts after the move, from what moves. */
  lemma MovedAmounts(db: Db, user: Id, month: int, running: int, released: int)
    requires running == Sum(Select(db.generations, RunningOfUser(db.generations, user)), ReservedIn(month))
    requires released == Sum(Select(db.usages, ReleasedOfUser(db, user)), ExposedIn(month))
    requires month !in db.months ==> running == 0 && released == 0
    ensures var b := MonthOf(db.months, month);
            MonthOf(WriteOffMonths(db, user), month) ==
              Budget(b.reserved - running, b.actual, b.unattributed + running + released)
  {
  }

  lemma WriteOffMonth(db: Db, log: map<Id, Entry>, user: Id, month: int, running: int, released: int)
    requires MonthFits(db.months, db.generations, log, month)
    requires running == Sum(Select(db.generations, RunningOfUser(db.generations, user)), ReservedIn(month))
    requires released == Sum(Select(db.usages, ReleasedOfUser(db, user)), ExposedIn(month))
    requires Sum(log, MovedBy(user, month)) == running + released
    requires month !in db.months ==> running == 0 && released == 0
    ensures MonthFits(WriteOffMonths(db, user), GenerationsOfOthers(db.generations, user), WriteOffLog(log, user),
                      month)
  {
    MovedAmounts(db, user, month, running, released);
    WrittenMoney(log, user, month);
    UserMoney(db.generations, user, month);
  }

  lemma WriteOffKeepsLedger(w: World, user: Id)
    requires LedgerInv(w.db, w.history.log)
    ensures var x := WriteOff(w, user); LedgerInv(CascadeUser(x.db, user), x.history.log)
  {
    WriteOffKeepsRows(w, user);
    var x := WriteOff(w, user);
    var db := CascadeUser(x.db, user);
    forall month ensures MonthFits(db.months, db.generations, x.history.log, month) {
      assert MonthFits(w.db.months, w.db.generations, w.history.log, month);
      MovedMoney(w.db, w.history.log, user, month);
      if month !in w.db.months {
        NothingMoved(w.db, w.history.log, user, month);
      }
      WriteOffMonth(w.db, w.history.log, user, month,
                    Sum(Select(w.db.generations, RunningOfUser(w.db.generations, user)), ReservedIn(month)),
                    Sum(Select(w.db.usages, ReleasedOfUser(w.db, user)), ExposedIn(month)));
    }
  }

  lemma WriteOffKeepsBound(limit: nat, w: World, user: Id)
    requires LedgerInv(w.db, w.history.log) && Bounded(limit, w.db.months, w.history.log)
    ensures var x := WriteOff(w, user); Bounded(limit, x.db.months, x.history.log)
  {
    var log := WriteOffLog(w.history.log, user);
    var months := WriteOffMonths(w.db, user);
    forall month ensures MonthBounded(limit, months, log, month) {
      assert MonthBounded(limit, w.db.months, w.history.log, month);
      LateMoney(w.db, w.history.log, user, month);
      if month !in w.db.months {
        NothingMoved(w.db, w.history.log, user, month);
      }
    }
  }

  // Steps that move no money.

  ghost predicate SameMoney(g: Generation, h: Generation) {
    && g.user == h.user && g.operation == h.operation && g.status == h.status && g.month == h.month
    && g.reserved == h.reserved
    && g.lease == h.lease && g.output == h.output && g.failure == h.failure
  }

  lemma SameReserved(db: Db, db': Db, log: map<Id, Entry>, month: int)
    requires RowsFit(db, log)
    requires forall id :: id in db'.generations ==>
               id in db.generations && SameMoney(db.generations[id], db'.generations[id])
    requires forall id :: id in db.generations && db.generations[id].status == Running ==> id in db'.generations
    ensures Sum(db.generations, ReservedIn(month)) == Sum(db'.generations, ReservedIn(month))
  {
    SumSame(db.generations, ReservedIn(month), db'.generations, ReservedIn(month));
  }

  /**
   Removing or re-targeting operations that are over, and keeping every usage that is still owed for, moves no money.
   */
  lemma TrimKeepsLedger(db: Db, db': Db, log: map<Id, Entry>)
    requires LedgerInv(db, log) && db'.months == db.months && db.users <= db'.users
    requires forall id :: id in db'.generations ==>
               id in db.generations && SameMoney(db.generations[id], db'.generations[id])
    requires forall id :: id in db'.generations && db'.generations[id].adopted.Some? ==>
               db'.generations[id].operation == GoalRefine && db'.generations[id].status == Succeeded
    requires forall id :: id in db.generations && db.generations[id].status == Running ==> id in db'.generations
    requires forall id :: id in db'.usages ==> UsageFits(db'.usages[id], log, id)
    requires forall id :: id in db.usages && db.usages[id].finalizedAt.None? ==> id in db'.usages
    ensures LedgerInv(db', log)
  {
    forall id | id in db'.generations ensures GenerationFits(db'.generations[id], log, id) {
      assert GenerationFits(db.generations[id], log, id);
    }
    forall id | id in log ensures EntryFits(log[id], db', id) {
      assert EntryFits(log[id], db, id);
      assert id in db.generations ==> GenerationFits(db.generations[id], log, id);
      assert id in db.usages ==> UsageFits(db.usages[id], log, id);
    }
    forall month ensures MonthFits(db'.months, db'.generations, log, month) {
      assert MonthFits(db.months, db.generations, log, month);
      SameReserved(db, db', log, month);
    }
  }

  /** The ledger reads four tables only. */
  lemma FrameLedger(db: Db, db': Db, log: map<Id, Entry>)
    requires LedgerInv(db, log) && db.users <= db'.users
    requires db'.months == db.months && db'.generations == db.generations && db'.usages == db.usages
    ensures LedgerInv(db', log)
  {
    forall id | id in log ensures EntryFits(log[id], db', id) {
      assert EntryFits(log[id], db, id);
    }
    forall month ensures MonthFits(db'.months, db'.generations, log, month) {
      assert MonthFits(db.months, db.generations, log, month);
    }
  }

  /** What is reserved in a month is what its running operations reserved when they were accepted. */
  lemma ReservedIsRunning(db: Db, log: map<Id, Entry>, month: int)
    requires LedgerInv(db, log)
    ensures MonthOf(db.months, month).reserved == Sum(log, RunningIn(month))
  {
    assert MonthFits(db.months, db.generations, log, month);
    forall id | id in db.generations || id in log
      ensures Part(db.generations, ReservedIn(month), id) == Part(log, RunningIn(month), id)
    {
      assert id in db.generations ==> GenerationFits(db.generations[id], log, id);
      assert id in log ==> EntryFits(log[id], db, id);
    }
    SumSame(db.generations, ReservedIn(month), log, RunningIn(month));
  }
}
