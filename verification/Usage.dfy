/** The usage ledger: reservations against a monthly budget, settlements and cancellations. */
module Usage {
  import opened Prelude

  datatype Amount = Amount(tokens: int, cost: real)
  datatype Scope = Scope(organization: nat, workspace: nat, user: nat)
  datatype Status = Reserved | Settled | Cancelled

  /** A ledger row; `month` is the month of its creation. */
  datatype Row = Row(id: nat, scope: Scope, operation: string, estimated: Amount, actual: Option<Amount>,
                     status: Status, settlementKey: Option<string>, month: nat)

  function Plus(a: Amount, b: Amount): Amount {
    Amount(a.tokens + b.tokens, a.cost + b.cost)
  }

  function Minus(a: Amount, b: Amount): Amount {
    Amount(a.tokens - b.tokens, a.cost - b.cost)
  }

  const NOTHING: Amount := Amount(0, 0.0)

  predicate Within(a: Amount, b: Amount) {
    a.tokens <= b.tokens && a.cost <= b.cost
  }

  predicate Positive(a: Amount) {
    Within(NOTHING, a)
  }

  /** What the month's query selects. */
  predicate Counts(row: Row, organization: nat, month: nat) {
    row.scope.organization == organization && row.month >= month && row.status != Cancelled
  }

  function Charge(row: Row): Amount {
    if row.actual.Some? then row.actual.value else row.estimated
  }

  function Share(row: Row, organization: nat, month: nat): Amount {
    if Counts(row, organization, month) then Charge(row) else NOTHING
  }

  /** The month total of an organization. */
  function Total(rows: seq<Row>, organization: nat, month: nat): Amount {
    if rows == [] then NOTHING else Plus(Total(rows[..|rows| - 1], organization, month),
      Share(rows[|rows| - 1], organization, month))
  }

  /** The row with an id. */
  function Index(rows: seq<Row>, id: nat): (r: Option<nat>)
    ensures r.Some? ==> r.value < |rows| && rows[r.value].id == id
    ensures r.None? ==> forall i :: 0 <= i < |rows| ==> rows[i].id != id
  {
    if rows == [] then None
    else if rows[|rows| - 1].id == id then Some(|rows| - 1)
    else
      assert forall i :: 0 <= i < |rows| - 1 ==> rows[i] == rows[..|rows| - 1][i];
      Index(rows[..|rows| - 1], id)
  }

  predicate Has(rows: seq<Row>, id: nat) {
    Index(rows, id).Some?
  }

  predicate UniqueIds(rows: seq<Row>) {
    forall i, j :: 0 <= i < j < |rows| ==> rows[i].id != rows[j].id
  }

  function Find(rows: seq<Row>, id: nat): nat
    requires Has(rows, id)
  {
    Index(rows, id).value
  }

  // ---- the operations on the rows

  datatype Decision = Allowed | Conflict | Exhausted

  predicate SameRequest(row: Row, scope: Scope, operation: string) {
    row.scope == scope && row.operation == operation
  }

  function NewRow(id: nat, scope: Scope, operation: string, estimated: Amount, month: nat): Row {
    Row(id, scope, operation, estimated, None, Reserved, None, month)
  }

  function ReserveTx(rows: seq<Row>, budget: Amount, id: nat, scope: Scope, operation: string, estimated: Amount,
      month: nat): (seq<Row>, Decision)
  {
    if Has(rows, id) then (rows, if SameRequest(rows[Find(rows, id)], scope, operation) then Allowed else Conflict)
    else if !Within(Plus(Total(rows, scope.organization, month), estimated), budget) then (rows, Exhausted)
    else (rows + [NewRow(id, scope, operation, estimated, month)], Allowed)
  }

  predicate KeyTaken(rows: seq<Row>, id: nat, key: string) {
    exists i :: 0 <= i < |rows| && rows[i].id != id && rows[i].settlementKey == Some(key)
  }

  function SettledRow(row: Row, actual: Amount, key: string): Row {
    row.(actual := Some(actual), status := Settled, settlementKey := Some(key))
  }

  /** None is the raised error: no such row, settled under another key, or the key belongs to another row. */
  function SettleTx(rows: seq<Row>, id: nat, actual: Amount, key: string): Option<seq<Row>> {
    if !Has(rows, id) then None
    else
      var i := Find(rows, id);
      if rows[i].status == Settled then if rows[i].settlementKey != Some(key) then None else Some(rows)
      else if KeyTaken(rows, id, key) then None
      else Some(rows[i := SettledRow(rows[i], actual, key)])
  }

  function CancelTx(rows: seq<Row>, id: nat): Option<seq<Row>> {
    if !Has(rows, id) || rows[Find(rows, id)].status == Cancelled then Some(rows)
    else if rows[Find(rows, id)].status == Settled then None
    else Some(rows[Find(rows, id) := rows[Find(rows, id)].(status := Cancelled)])
  }

  class UsageLedger {
    var rows: seq<Row>
    const budget: Amount

    constructor (budget: Amount)
      ensures rows == [] && this.budget == budget
    {
      this.budget, rows := budget, [];
    }

    /** `_current_usage`. */
    method CurrentUsage(organization: nat, month: nat) returns (total: Amount)
      ensures total == Total(rows, organization, month)
    {
      var tokens, cost := 0, 0.0;
      for i := 0 to |rows|
        invariant Amount(tokens, cost) == Total(rows[..i], organization, month)
      {
        assert rows[..i + 1][..i] == rows[..i];
        if Counts(rows[i], organization, month) {
          tokens := tokens + if rows[i].actual.Some? then rows[i].actual.value.tokens else rows[i].estimated.tokens;
          cost := cost + if rows[i].actual.Some? then rows[i].actual.value.cost else rows[i].estimated.cost;
        }
      }
      assert rows[..|rows|] == rows;
      total := Amount(tokens, cost);
    }

    method ReserveUsage(id: nat, scope: Scope, operation: string, estimated: Amount, month: nat) returns (d: Decision)
      modifies this
      ensures (rows, d) == ReserveTx(old(rows), budget, id, scope, operation, estimated, month)
      ensures (exists i :: 0 <= i < |old(rows)| && old(rows)[i].id == id) ==>
                && rows == old(rows) && (d == Allowed || d == Conflict)
                && (UniqueIds(rows) ==> forall i :: 0 <= i < |rows| && rows[i].id == id ==>
                      (d == Allowed <==> rows[i].scope == scope && rows[i].operation == operation))
      ensures (forall i :: 0 <= i < |old(rows)| ==> old(rows)[i].id != id) ==>
                var total := Total(old(rows), scope.organization, month);
                var fits := total.tokens + estimated.tokens <= budget.tokens
                            && total.cost + estimated.cost <= budget.cost;
                && d == (if fits then Allowed else Exhausted)
                && rows == old(rows) + if fits
                     then [Row(id, scope, operation, estimated, None, Reserved, None, month)] else []
    {
      if Has(rows, id) {
        d := if SameRequest(rows[Find(rows, id)], scope, operation) then Allowed else Conflict;
        return;
      }
      var total := CurrentUsage(scope.organization, month);
      if total.tokens + estimated.tokens > budget.tokens || total.cost + estimated.cost > budget.cost {
        return Exhausted;
      }
      rows := rows + [NewRow(id, scope, operation, estimated, month)];
      d := Allowed;
    }

    method SettleUsage(id: nat, actual: Amount, key: string) returns (ok: bool)
      modifies this
      ensures ok <==> SettleTx(old(rows), id, actual, key).Some?
      ensures rows == if ok then SettleTx(old(rows), id, actual, key).value else old(rows)
      ensures (forall i :: 0 <= i < |old(rows)| ==> old(rows)[i].id != id) ==> !ok
      ensures UniqueIds(old(rows)) ==> forall i :: 0 <= i < |old(rows)| && old(rows)[i].id == id ==>
                var row := old(rows)[i];
                if row.status == Settled then rows == old(rows) && (ok <==> row.settlementKey == Some(key))
                else
                  && (ok <==> forall j :: 0 <= j < |old(rows)| && j != i ==> old(rows)[j].settlementKey != Some(key))
                  && rows == if ok
                       then old(rows)[i := row.(actual := Some(actual), status := Settled, settlementKey := Some(key))]
                       else old(rows)
    {
      if !Has(rows, id) {
        return false;
      }
      var i := Find(rows, id);
      if rows[i].status == Settled {
        return rows[i].settlementKey == Some(key);
      }
      if KeyTaken(rows, id, key) {
        return false;
      }
      rows := rows[i := SettledRow(rows[i], actual, key)];
      ok := true;
    }

    method CancelUsage(id: nat) returns (ok: bool)
      modifies this
      ensures ok <==> CancelTx(old(rows), id).Some?
      ensures rows == if ok then CancelTx(old(rows), id).value else old(rows)
      ensures (forall i :: 0 <= i < |old(rows)| ==> old(rows)[i].id != id) ==> ok && rows == old(rows)
      ensures UniqueIds(old(rows)) ==> forall i :: 0 <= i < |old(rows)| && old(rows)[i].id == id ==>
                && (ok <==> old(rows)[i].status != Settled)
                && rows == if old(rows)[i].status == Reserved then old(rows)[i := old(rows)[i].(status := Cancelled)]
                           else old(rows)
    {
      if !Has(rows, id) || rows[Find(rows, id)].status == Cancelled {
        return true;
      }
      var i := Find(rows, id);
      if rows[i].status == Settled {
        return false;
      }
      rows := rows[i := rows[i].(status := Cancelled)];
      ok := true;
    }
  }

  // ---- what one operation does to a total

  lemma TotalOfOneMore(rows: seq<Row>, row: Row, organization: nat, month: nat)
    ensures Total(rows + [row], organization, month) ==
            Plus(Total(rows, organization, month), Share(row, organization, month))
  {
    assert (rows + [row])[..|rows|] == rows;
  }

  /** What a month's total sums up: for the organization's rows of this month or later that are not cancelled,
      the actual amount when there is one and the estimate otherwise. */
  lemma TotalIs(rows: seq<Row>, row: Row, organization: nat, month: nat)
    ensures Total([], organization, month) == Amount(0, 0.0)
    ensures var counted := row.scope.organization == organization && row.month >= month && row.status != Cancelled;
            var amount := if row.actual.Some? then row.actual.value else row.estimated;
            var before := Total(rows, organization, month);
            Total(rows + [row], organization, month) ==
              if counted then Amount(before.tokens + amount.tokens, before.cost + amount.cost) else before
  {
    TotalOfOneMore(rows, row, organization, month);
  }

  lemma PlusAssociates(a: Amount, b: Amount, c: Amount)
    ensures Plus(Plus(a, b), c) == Plus(a, Plus(b, c))
  {
  }

  lemma {:induction false} TotalOfConcat(a: seq<Row>, b: seq<Row>, organization: nat, month: nat)
    ensures Total(a + b, organization, month) == Plus(Total(a, organization, month), Total(b, organization, month))
  {
    if b == [] {
      assert a + b == a;
    } else {
      var init, last := b[..|b| - 1], b[|b| - 1];
      assert b == init + [last] && a + b == a + init + [last];
      TotalOfConcat(a, init, organization, month);
      TotalOfOneMore(a + init, last, organization, month);
      TotalOfOneMore(init, last, organization, month);
      PlusAssociates(Total(a, organization, month), Total(init, organization, month), Share(last, organization, month));
    }
  }

  lemma TotalAround(a: seq<Row>, row: Row, b: seq<Row>, organization: nat, month: nat)
    ensures Total(a + [row] + b, organization, month) ==
            Plus(Plus(Total(a, organization, month), Share(row, organization, month)), Total(b, organization, month))
  {
    TotalOfConcat(a + [row], b, organization, month);
    TotalOfOneMore(a, row, organization, month);
  }

  lemma ShareReplaced(a: Amount, before: Amount, after: Amount, b: Amount)
    ensures Plus(Plus(a, after), b) == Plus(Plus(Plus(a, before), b), Minus(after, before))
  {
  }

  lemma TotalOfUpdate(rows: seq<Row>, i: nat, row: Row, organization: nat, month: nat)
    requires i < |rows|
    ensures Total(rows[i := row], organization, month)
      == Plus(Total(rows, organization, month),
              Minus(Share(row, organization, month), Share(rows[i], organization, month)))
  {
    var a, b := rows[..i], rows[i + 1..];
    assert rows == a + [rows[i]] + b && rows[i := row] == a + [row] + b;
    TotalAround(a, rows[i], b, organization, month);
    TotalAround(a, row, b, organization, month);
    ShareReplaced(Total(a, organization, month), Share(rows[i], organization, month), Share(row, organization, month),
                  Total(b, organization, month));
  }

  /** Settling changes the organization's total by the actual amount less what the row counted for: its
      estimate while reserved, nothing once cancelled. */
  lemma SettlementEffect(rows: seq<Row>, id: nat, actual: Amount, key: string, organization: nat, month: nat)
    requires Has(rows, id) && rows[Find(rows, id)].status != Settled && SettleTx(rows, id, actual, key).Some?
    ensures var row := rows[Find(rows, id)];
            var after := Total(SettleTx(rows, id, actual, key).value, organization, month);
            after == if row.scope.organization == organization && row.month >= month
                     then Plus(Total(rows, organization, month), Minus(actual, Share(row, organization, month)))
                     else Total(rows, organization, month)
  {
    var i := Find(rows, id);
    TotalOfUpdate(rows, i, SettledRow(rows[i], actual, key), organization, month);
  }

  /** When a single settlement keeps a total within the budget: exactly when the amount fits beside the other rows. */
  lemma SettlementFits(budget: Amount, rows: seq<Row>, id: nat, actual: Amount, key: string, organization: nat,
      month: nat)
    requires Has(rows, id) && rows[Find(rows, id)].status != Settled && SettleTx(rows, id, actual, key).Some?
    requires rows[Find(rows, id)].scope.organization == organization && rows[Find(rows, id)].month >= month
    ensures Within(Total(SettleTx(rows, id, actual, key).value, organization, month), budget)
      <==> Within(Plus(Minus(Total(rows, organization, month), Share(rows[Find(rows, id)], organization, month)),
        actual), budget)
  {
    SettlementEffect(rows, id, actual, key, organization, month);
  }

  // ---- runs

  datatype Step =
    | Reserve(id: nat, scope: Scope, operation: string, estimated: Amount)
    | Settle(id: nat, actual: Amount, key: string)
    | Cancel(id: nat)
    | NextMonth

  datatype World = World(rows: seq<Row>, month: nat)

  function Apply(budget: Amount, w: World, s: Step): World {
    match s
    case Reserve(id, scope, operation, estimated) =>
      w.(rows := ReserveTx(w.rows, budget, id, scope, operation, estimated, w.month).0)
    case Settle(id, actual, key) =>
      var after := SettleTx(w.rows, id, actual, key);
      if after.Some? then w.(rows := after.value) else w
    case Cancel(id) =>
      var after := CancelTx(w.rows, id);
      if after.Some? then w.(rows := after.value) else w
    case NextMonth => w.(month := w.month + 1)
  }

  function After(budget: Amount, steps: seq<Step>): World {
    if steps == [] then World([], 0) else Apply(budget, After(budget, steps[..|steps| - 1]), steps[|steps| - 1])
  }

  /** Estimates are not negative. */
  predicate NonNegative(s: Step) {
    s.Reserve? ==> Positive(s.estimated)
  }

  /** A settlement that takes effect, on a row the month still counts, fits beside the other rows of its
      organization. */
  predicate Fits(budget: Amount, w: World, s: Step) {
    s.Settle? && Has(w.rows, s.id) ==>
      var row := w.rows[Find(w.rows, s.id)];
      var organization := row.scope.organization;
      row.status != Settled && !KeyTaken(w.rows, s.id, s.key) && row.month >= w.month ==>
        Within(Plus(Minus(Total(w.rows, organization, w.month), Share(row, organization, w.month)), s.actual), budget)
  }

  /** A settlement that takes effect hits a reserved row, within its estimate. */
  predicate Disciplined(w: World, s: Step) {
    && NonNegative(s)
    && (s.Settle? && Has(w.rows, s.id) && w.rows[Find(w.rows, s.id)].status != Settled ==>
          w.rows[Find(w.rows, s.id)].status == Reserved && Within(s.actual, w.rows[Find(w.rows, s.id)].estimated))
  }

  predicate Legal(budget: Amount, steps: seq<Step>) {
    steps == []
    || (Legal(budget, steps[..|steps| - 1]) && Disciplined(After(budget, steps[..|steps| - 1]), steps[|steps| - 1]))
  }

  predicate SettlementsFit(budget: Amount, steps: seq<Step>) {
    steps == []
    || (SettlementsFit(budget, steps[..|steps| - 1])
       && Fits(budget, After(budget, steps[..|steps| - 1]), steps[|steps| - 1]))
  }

  predicate RowKept(row: Row, month: nat) {
    row.month <= month && (row.actual.Some? <==> row.status == Settled) && Positive(row.estimated)
  }

  predicate Kept(w: World) {
    UniqueIds(w.rows) && forall i :: 0 <= i < |w.rows| ==> RowKept(w.rows[i], w.month)
  }

  /** The month total of an organization is within the budget. */
  predicate Safe(budget: Amount, w: World, organization: nat) {
    Within(Total(w.rows, organization, w.month), budget)
  }

  ghost predicate AllSafe(budget: Amount, w: World) {
    forall organization :: Safe(budget, w, organization)
  }

  /** Every month total is within the budget now and was so after each step before. */
  ghost predicate SafeThroughout(budget: Amount, steps: seq<Step>) {
    (steps == [] || SafeThroughout(budget, steps[..|steps| - 1])) && AllSafe(budget, After(budget, steps))
  }

  lemma StepKept(budget: Amount, w: World, s: Step)
    requires Kept(w) && NonNegative(s)
    ensures Kept(Apply(budget, w, s))
  {
    match s
    case Reserve(id, scope, operation, estimated) =>
      assert !Has(w.rows, id) ==> forall i :: 0 <= i < |w.rows| ==> w.rows[i].id != id;
    case Settle(id, actual, key) =>
    case Cancel(id) =>
    case NextMonth =>
  }

  lemma {:induction false} NothingInTheNextMonth(rows: seq<Row>, organization: nat, month: nat)
    requires forall i :: 0 <= i < |rows| ==> RowKept(rows[i], month)
    ensures Total(rows, organization, month + 1) == NOTHING
  {
    if rows != [] {
      NothingInTheNextMonth(rows[..|rows| - 1], organization, month);
    }
  }

  lemma NextMonthIsSafe(budget: Amount, w: World)
    requires Positive(budget) && Kept(w)
    ensures AllSafe(budget, w.(month := w.month + 1))
  {
    var v := w.(month := w.month + 1);
    forall organization ensures Safe(budget, v, organization) {
      NothingInTheNextMonth(w.rows, organization, w.month);
    }
  }

  lemma ReserveIsSafe(budget: Amount, w: World, id: nat, scope: Scope, operation: string, estimated: Amount)
    requires AllSafe(budget, w)
    ensures AllSafe(budget, Apply(budget, w, Reserve(id, scope, operation, estimated)))
  {
    var v := Apply(budget, w, Reserve(id, scope, operation, estimated));
    var row := NewRow(id, scope, operation, estimated, w.month);
    forall organization ensures Safe(budget, v, organization) {
      assert Safe(budget, w, organization);
      if v.rows != w.rows { TotalOfOneMore(w.rows, row, organization, w.month); }
    }
  }

  lemma CancelIsSafe(budget: Amount, w: World, id: nat)
    requires Kept(w) && AllSafe(budget, w)
    ensures AllSafe(budget, Apply(budget, w, Cancel(id)))
  {
    var v := Apply(budget, w, Cancel(id));
    if v != w {
      var i := Find(w.rows, id);
      assert RowKept(w.rows[i], w.month);
      forall organization ensures Safe(budget, v, organization) {
        assert Safe(budget, w, organization);
        TotalOfUpdate(w.rows, i, w.rows[i].(status := Cancelled), organization, w.month);
      }
    }
  }

  /** A settlement moves the total of one organization only. */
  lemma SettleIsSafe(budget: Amount, w: World, id: nat, actual: Amount, key: string)
    requires AllSafe(budget, w)
    ensures AllSafe(budget, Apply(budget, w, Settle(id, actual, key))) <==> Fits(budget, w, Settle(id, actual, key))
  {
    var v := Apply(budget, w, Settle(id, actual, key));
    if Has(w.rows, id) && w.rows[Find(w.rows, id)].status != Settled && !KeyTaken(w.rows, id, key) {
      var row := w.rows[Find(w.rows, id)];
      forall organization ensures Safe(budget, v, organization) <==>
        (organization == row.scope.organization ==> Fits(budget, w, Settle(id, actual, key)))
      {
        assert Safe(budget, w, organization);
        SettlementEffect(w.rows, id, actual, key, organization, w.month);
        if organization == row.scope.organization && row.month >= w.month {
          SettlementFits(budget, w.rows, id, actual, key, organization, w.month);
        }
      }
      assert AllSafe(budget, v) ==> Safe(budget, v, row.scope.organization);
    } else {
      assert v == w;
    }
  }

  lemma StepIsSafe(budget: Amount, w: World, s: Step)
    requires Positive(budget) && Kept(w) && AllSafe(budget, w)
    ensures AllSafe(budget, Apply(budget, w, s)) <==> Fits(budget, w, s)
  {
    match s
    case Reserve(id, scope, operation, estimated) => ReserveIsSafe(budget, w, id, scope, operation, estimated);
    case Settle(id, actual, key) => SettleIsSafe(budget, w, id, actual, key);
    case Cancel(id) => CancelIsSafe(budget, w, id);
    case NextMonth => NextMonthIsSafe(budget, w);
  }

  lemma {:induction false} RowsAreKept(budget: Amount, steps: seq<Step>)
    requires forall s :: s in steps ==> NonNegative(s)
    ensures Kept(After(budget, steps))
  {
    if steps != [] {
      RowsAreKept(budget, steps[..|steps| - 1]);
      StepKept(budget, After(budget, steps[..|steps| - 1]), steps[|steps| - 1]);
    }
  }

  lemma NothingIsSafe(budget: Amount)
    requires Positive(budget)
    ensures AllSafe(budget, After(budget, []))
  {
    forall organization ensures Safe(budget, After(budget, []), organization) {
      assert Total([], organization, 0) == NOTHING;
    }
  }

  /** Budget safety, exactly: in a run of non-negative estimates every month total of every organization
      stays within the budget throughout if and only if every settlement that takes effect fits. */
  lemma {:induction false} BudgetHoldsExactly(budget: Amount, steps: seq<Step>)
    requires Positive(budget) && forall s :: s in steps ==> NonNegative(s)
    ensures SafeThroughout(budget, steps) <==> SettlementsFit(budget, steps)
  {
    if steps == [] {
      NothingIsSafe(budget);
    } else {
      var before, last := steps[..|steps| - 1], steps[|steps| - 1];
      BudgetHoldsExactly(budget, before);
      RowsAreKept(budget, before);
      if SafeThroughout(budget, before) { StepIsSafe(budget, After(budget, before), last); }
    }
  }

  lemma DisciplinedFits(budget: Amount, w: World, s: Step)
    requires Kept(w) && AllSafe(budget, w) && Disciplined(w, s)
    ensures Fits(budget, w, s)
  {
    if s.Settle? && Has(w.rows, s.id) {
      var row := w.rows[Find(w.rows, s.id)];
      assert RowKept(row, w.month) && Safe(budget, w, row.scope.organization);
    }
  }

  /** ... which is so in every disciplined run: settlements of reserved rows, within their estimates. */
  lemma {:induction false} BudgetIsSafe(budget: Amount, steps: seq<Step>)
    requires Positive(budget) && Legal(budget, steps)
    ensures Kept(After(budget, steps)) && SafeThroughout(budget, steps)
  {
    if steps == [] {
      NothingIsSafe(budget);
    } else {
      var w, last := After(budget, steps[..|steps| - 1]), steps[|steps| - 1];
      BudgetIsSafe(budget, steps[..|steps| - 1]);
      StepKept(budget, w, last);
      DisciplinedFits(budget, w, last);
      StepIsSafe(budget, w, last);
    }
  }

  /** Asking again with a reservation id adds nothing, whatever the amounts and the month. */
  lemma RepeatedReservationAddsNothing(budget: Amount, rows: seq<Row>, id: nat, scope: Scope, operation: string,
                                       estimated: Amount, again: Amount, month: nat, later: nat)
    requires ReserveTx(rows, budget, id, scope, operation, estimated, month).1 == Allowed
    ensures var after := ReserveTx(rows, budget, id, scope, operation, estimated, month).0;
            ReserveTx(after, budget, id, scope, operation, again, later) == (after, Allowed)
  {
    var after := ReserveTx(rows, budget, id, scope, operation, estimated, month).0;
    if !Has(rows, id) {
      assert after[|rows|].id == id;
      assert forall j :: 0 <= j < |rows| ==> after[j].id != id;
    }
  }

  const TIGHT: Amount := Amount(10, 1.0)
  const ASK: string := "question"

  function First(scope: Scope): Row {
    NewRow(1, scope, ASK, TIGHT, 0)
  }

  function Second(scope: Scope): Row {
    NewRow(2, scope, ASK, TIGHT, 0)
  }

  function Released(scope: Scope): seq<Step> {
    [Reserve(1, scope, ASK, TIGHT)] + [Cancel(1)]
  }

  function Overspending(scope: Scope): seq<Step> {
    Released(scope) + [Reserve(2, scope, ASK, TIGHT)] + [Settle(1, TIGHT, "k")]
  }

  lemma CancelledFirst(scope: Scope)
    ensures After(TIGHT, Released(scope)) == World([First(scope).(status := Cancelled)], 0)
  {
    var one := [Reserve(1, scope, ASK, TIGHT)];
    AfterOneMore(TIGHT, [], Reserve(1, scope, ASK, TIGHT), one);
    assert After(TIGHT, one) == World([First(scope)], 0);
    AfterOneMore(TIGHT, one, Cancel(1), Released(scope));
    assert [First(scope)][0].id == 1;
  }

  lemma OneCancelledRow(rows: seq<Row>, organization: nat, month: nat, id: nat)
    requires |rows| == 1 && rows[0].status == Cancelled && rows[0].id != id
    ensures Total(rows, organization, month) == NOTHING && !Has(rows, id)
  {
    assert rows[..0] == [];
  }

  /** A cancelled row leaves the whole budget to the next reservation. */
  lemma CancelledRowIsFree(rows: seq<Row>, budget: Amount, id: nat, scope: Scope, operation: string, month: nat)
    requires |rows| == 1 && rows[0].status == Cancelled && rows[0].id != id
    ensures ReserveTx(rows, budget, id, scope, operation, budget, month).0 == rows
            + [NewRow(id, scope, operation, budget, month)]
  {
    OneCancelledRow(rows, scope.organization, month, id);
    NewReservation(rows, budget, id, scope, operation, budget, month);
  }

  lemma NewReservation(rows: seq<Row>, budget: Amount, id: nat, scope: Scope, operation: string, estimated: Amount,
      month: nat)
    requires !Has(rows, id)
    requires Total(rows, scope.organization, month).tokens + estimated.tokens <= budget.tokens
    requires Total(rows, scope.organization, month).cost + estimated.cost <= budget.cost
    ensures ReserveTx(rows, budget, id, scope, operation, estimated, month).0 == rows
            + [NewRow(id, scope, operation, estimated, month)]
  {
  }

  lemma ReservedSecond(scope: Scope)
    ensures After(TIGHT, Released(scope) + [Reserve(2, scope, ASK, TIGHT)]) ==
            World([First(scope).(status := Cancelled)] + [Second(scope)], 0)
  {
    var released, second := Released(scope), Reserve(2, scope, ASK, TIGHT);
    CancelledFirst(scope);
    ReservedBeside(World([First(scope).(status := Cancelled)], 0), 2, scope, ASK);
    AfterOneMore(TIGHT, released, second, released + [second]);
  }

  lemma ReservedBeside(w: World, id: nat, scope: Scope, operation: string)
    requires |w.rows| == 1 && w.rows[0].status == Cancelled && w.rows[0].id != id
    ensures Apply(TIGHT, w, Reserve(id, scope, operation, TIGHT)) ==
            w.(rows := w.rows + [NewRow(id, scope, operation, TIGHT, w.month)])
  {
    CancelledRowIsFree(w.rows, TIGHT, id, scope, operation, w.month);
  }

  lemma SettledBeside(scope: Scope)
    ensures var rows := [First(scope).(status := Cancelled)] + [Second(scope)];
            Apply(TIGHT, World(rows, 0), Settle(1, TIGHT, "k")) ==
              World([SettledRow(First(scope), TIGHT, "k"), Second(scope)], 0)
  {
    var rows := [First(scope).(status := Cancelled)] + [Second(scope)];
    assert rows[0].id == 1;
    assert rows[0 := SettledRow(rows[0], TIGHT, "k")] == [SettledRow(First(scope), TIGHT, "k"), Second(scope)];
  }

  lemma SettledBoth(scope: Scope)
    ensures After(TIGHT, Overspending(scope)) == World([SettledRow(First(scope), TIGHT, "k"), Second(scope)], 0)
  {
    ReservedSecond(scope);
    SettledBeside(scope);
    AfterOneMore(TIGHT, Released(scope) + [Reserve(2, scope, ASK, TIGHT)], Settle(1, TIGHT, "k"), Overspending(scope));
  }

  /** A settlement does not ask whether its row was cancelled: with every estimate honoured, a cancelled
      reservation that is settled after its budget was given to another one breaks the budget. */
  lemma SettlingACancelledRowOverspends(scope: Scope)
    ensures !Safe(TIGHT, After(TIGHT, Overspending(scope)), scope.organization)
  {
    var paid, second := SettledRow(First(scope), TIGHT, "k"), Second(scope);
    SettledBoth(scope);
    TotalOfOneMore([], paid, scope.organization, 0);
    TotalOfOneMore([paid], second, scope.organization, 0);
    assert [] + [paid] == [paid] && [paid] + [second] == [paid, second];
  }

  lemma AfterOneMore(budget: Amount, steps: seq<Step>, s: Step, longer: seq<Step>)
    requires longer == steps + [s]
    ensures After(budget, longer) == Apply(budget, After(budget, steps), s)
  {
    assert longer[..|steps|] == steps;
  }

}
