/**
  Threshold alerts of one team's budget, period by period: validation of the thresholds, which of
  them a spend newly crosses, and the evaluations that fire them, run one at a time or interleaved.
*/
module BudgetAlerts {
  import opened Outcomes

  /** A threshold as a request body may carry it; booleans are not integers here. */
  datatype Value = Int(n: int) | NotInt

  predicate Ascending(s: seq<int>) { forall i, j :: 0 <= i < j < |s| ==> s[i] <= s[j] }

  predicate Strict(s: seq<int>) { forall i, j :: 0 <= i < j < |s| ==> s[i] < s[j] }

  lemma Prepend(x: int, s: seq<int>)
    ensures Ascending(s) && (forall y :: y in s ==> x <= y) ==> Ascending([x] + s)
    ensures Strict(s) && (forall y :: y in s ==> x < y) ==> Strict([x] + s)
  {
    assert forall j :: 0 <= j < |s| ==> s[j] in s;
  }

  lemma HeadIsLeast(s: seq<int>)
    requires s != [] && Ascending(s)
    ensures s == [s[0]] + s[1..] && Ascending(s[1..])
    ensures forall y :: y in s[1..] ==> s[0] <= y
    ensures Strict(s) ==> Strict(s[1..]) && forall y :: y in s[1..] ==> s[0] < y
  {
  }

  function Insert(s: seq<int>, x: int): (r: seq<int>)
    requires Ascending(s)
    ensures Ascending(r) && forall y :: y in r <==> y in s || y == x
    ensures Strict(s) && x !in s ==> Strict(r)
  {
    hide Ascending, Strict;
    if s == [] then Prepend(x, s); EmptyIsSorted(); [x] + s
    else
      HeadIsLeast(s);
      if x <= s[0] then
        Prepend(x, s);
        [x] + s
      else
        var rest := Insert(s[1..], x);
        Prepend(s[0], rest);
        [s[0]] + rest
  }

  lemma EmptyIsSorted()
    ensures Ascending([]) && Strict([])
  {
  }

  function Sorted(s: seq<int>): (r: seq<int>)
    ensures Ascending(r) && forall y :: y in r <==> y in s
  {
    if s == [] then [] else
      assert s == [s[0]] + s[1..];
      Insert(Sorted(s[1..]), s[0])
  }

  function SortedDistinct(s: seq<int>): (r: seq<int>)
    ensures Strict(r) && forall y :: y in r <==> y in s
  {
    if s == [] then [] else
      var rest := SortedDistinct(s[1..]);
      assert s == [s[0]] + s[1..];
      if s[0] in rest then rest else Insert(rest, s[0])
  }

  function Ints(values: seq<Value>): (r: seq<int>)
    requires forall v :: v in values ==> v.Int?
    ensures |r| == |values| && forall i :: 0 <= i < |r| ==> r[i] == values[i].n
  {
    seq(|values|, i requires 0 <= i < |values| => assert values[i] in values; values[i].n)
  }

  predicate InRange(v: Value) { v.Int? && 1 <= v.n <= 100 }

  /** Accepted exactly when every value is an integer percentage, then in ascending order without repeats. */
  method ValidateThresholds(values: seq<Value>) returns (r: Result<seq<int>, string>)
    ensures r.Ok? <==> forall v :: v in values ==> v.Int? && 1 <= v.n <= 100
    ensures r.Ok? ==> Strict(r.value) && forall t :: t in r.value <==> Int(t) in values
  {
    for n := 0 to |values|
      invariant forall i :: 0 <= i < n ==> InRange(values[i])
    {
      assert values[n] in values;
      if values[n].NotInt? { return Err("threshold must be an int"); }
      if !(1 <= values[n].n <= 100) { return Err("threshold must be in 1..100"); }
    }
    var ints := Ints(values);
    forall t ensures t in ints <==> Int(t) in values {
      if t in ints { var i :| 0 <= i < |ints| && ints[i] == t; assert values[i] == Int(t); }
      if Int(t) in values { var i :| 0 <= i < |values| && values[i] == Int(t); assert ints[i] == t; }
    }
    return Ok(SortedDistinct(ints));
  }

  // ---- Which thresholds a spend crosses ----

  /** `spend / limit * 100 >= t`, without the division. */
  predicate Reaches(spend: int, limit: int, t: int) { limit > 0 && spend * 100 >= t * limit }

  /** The percentage of the limit that is spent is at least the threshold; nothing reaches one when there is no limit. */
  lemma ReachesIsThePercentage(spend: int, limit: int, t: int)
    ensures limit > 0 ==> (Reaches(spend, limit, t) <==> spend as real / limit as real * 100.0 >= t as real)
    ensures limit <= 0 ==> !Reaches(spend, limit, t)
  {
    if limit > 0 {
      var s, l := spend as real, limit as real;
      assert s / l * 100.0 * l == s * 100.0 by { assert s / l * l == s; }
      assert Reaches(spend, limit, t) <==> s * 100.0 >= t as real * l;
      ScaledBy(s / l * 100.0, t as real, l);
    }
  }

  lemma ScaledBy(x: real, y: real, l: real)
    requires l > 0.0
    ensures x >= y <==> x * l >= y * l
  {
  }

  function Keep(s: seq<int>, spend: int, limit: int, fired: set<int>): (r: seq<int>)
    requires Ascending(s)
    ensures Ascending(r)
    ensures forall t :: t in r <==> t in s && t !in fired && Reaches(spend, limit, t)
  {
    hide Ascending, Reaches;
    if s == [] then EmptyIsSorted(); []
    else
      HeadIsLeast(s);
      var rest := Keep(s[1..], spend, limit, fired);
      Prepend(s[0], rest);
      if s[0] !in fired && Reaches(spend, limit, s[0]) then [s[0]] + rest else rest
  }

  function CrossedThresholds(spend: int, limit: int, thresholds: seq<int>, fired: set<int>): (r: seq<int>)
    ensures Ascending(r)
    ensures forall t :: t in r <==> t in thresholds && t !in fired && Reaches(spend, limit, t)
  {
    if limit <= 0 then [] else Keep(Sorted(thresholds), spend, limit, fired)
  }

  // ---- One evaluation at a time ----

  /** `period` is the start of the budget window the alert belongs to. */
  datatype Alert = Alert(period: int, threshold: int, spend: int)

  datatype Books = Books(fired: set<(int, int)>, outbox: seq<Alert>)

  /** What the dedup table holds for one period. */
  function FiredIn(b: Books, period: int): (f: set<int>)
    ensures forall t :: t in f <==> (period, t) in b.fired
  {
    set k | k in b.fired && k.0 == period :: k.1
  }

  /** The store's atomic step: only the insert that wins the dedup key enqueues. */
  function Record(b: Books, period: int, t: int, spend: int): Books {
    if (period, t) in b.fired then b else Books(b.fired + {(period, t)}, b.outbox + [Alert(period, t, spend)])
  }

  predicate OncePerThreshold(outbox: seq<Alert>) {
    forall i, j :: 0 <= i < j < |outbox| ==>
      outbox[i].period != outbox[j].period || outbox[i].threshold != outbox[j].threshold
  }

  predicate Queued(outbox: seq<Alert>, period: int, t: int) {
    exists i :: 0 <= i < |outbox| && outbox[i].period == period && outbox[i].threshold == t
  }

  /** Fired keys and queued alerts are the same, each once. */
  ghost predicate InStep(b: Books) {
    OncePerThreshold(b.outbox) && forall p, t :: (p, t) in b.fired <==> Queued(b.outbox, p, t)
  }

  lemma QueueOneMore(outbox: seq<Alert>, a: Alert)
    requires OncePerThreshold(outbox) && !Queued(outbox, a.period, a.threshold)
    ensures OncePerThreshold(outbox + [a])
    ensures forall p, t :: Queued(outbox + [a], p, t) <==> Queued(outbox, p, t) || (p == a.period && t == a.threshold)
  {
    var after := outbox + [a];
    assert after[|outbox|] == a;
    forall p, t | Queued(outbox, p, t) ensures Queued(after, p, t) {
      var i :| 0 <= i < |outbox| && outbox[i].period == p && outbox[i].threshold == t;
      assert after[i] == outbox[i];
    }
  }

  lemma RecordKeepsInStep(b: Books, period: int, t: int, spend: int)
    requires InStep(b)
    ensures InStep(Record(b, period, t, spend))
  {
    hide OncePerThreshold, Queued;
    if (period, t) !in b.fired { QueueOneMore(b.outbox, Alert(period, t, spend)); }
  }

  class AlertStore {
    var books: Books

    constructor ()
      ensures books == Books({}, []) && InStep(books)
    {
      books := Books({}, []);
    }

    method RecordFiredAndEnqueue(period: int, t: int, spend: int) returns (won: bool)
      requires InStep(books)
      modifies this
      ensures books == Record(old(books), period, t, spend) && InStep(books)
      ensures won <==> (period, t) !in old(books).fired
    {
      RecordKeepsInStep(books, period, t, spend);
      won := (period, t) !in books.fired;
      if won { books := Books(books.fired + {(period, t)}, books.outbox + [Alert(period, t, spend)]); }
    }

    /** A settlement's evaluation, undisturbed: every threshold its spend reaches has fired in its period, and no other is touched. */
    method Evaluate(period: int, spend: int, limit: int, thresholds: seq<int>)
      requires InStep(books)
      modifies this
      ensures InStep(books)
      ensures forall p, t :: (p, t) in books.fired <==>
                (p, t) in old(books).fired || (p == period && t in thresholds && Reaches(spend, limit, t))
      ensures old(books).outbox <= books.outbox
      ensures forall i :: |old(books).outbox| <= i < |books.outbox| ==>
                books.outbox[i].period == period && books.outbox[i].spend == spend
    {
      hide InStep;
      var crossed := CrossedThresholds(spend, limit, thresholds, FiredIn(books, period));
      for n := 0 to |crossed|
        invariant InStep(books)
        invariant forall p, t :: (p, t) in books.fired <==> (p, t) in old(books).fired || (p == period && t in crossed[..n])
        invariant old(books).outbox <= books.outbox
        invariant forall i :: |old(books).outbox| <= i < |books.outbox| ==>
                    books.outbox[i].period == period && books.outbox[i].spend == spend
      {
        var _ := RecordFiredAndEnqueue(period, crossed[n], spend);
      }
      assert crossed[..|crossed|] == crossed;
    }
  }

  // ---- Interleaved evaluations, across periods ----

  /** An evaluation in progress: the period and spend it read, and the thresholds it has still to record. */
  datatype Evaluation = Evaluation(period: int, spend: int, pending: seq<int>)

  datatype Config = Config(limit: int, thresholds: seq<int>)

  /** `evaluated` collects the period and spend of every evaluation that has read the fired set. */
  datatype State = State(
    period: int, books: Books, read: map<nat, (int, int)>, running: map<nat, Evaluation>, evaluated: set<(int, int)>)

  datatype Action = ReadSpend(e: nat, period: int, spend: int) | ReadFired(e: nat) | RecordNext(e: nat) | Rollover

  predicate Enabled(s: State, a: Action) {
    match a
    case ReadSpend(e, period, _) => e !in s.read && e !in s.running && period <= s.period
    case ReadFired(e) => e in s.read && e !in s.running
    case RecordNext(e) => e in s.running && s.running[e].pending != []
    case Rollover => true
  }

  /** An evaluation belongs to the period its settlement was dated in, which may have ended before it reads or records. */
  function Apply(c: Config, s: State, a: Action): State
    requires Enabled(s, a)
  {
    match a
    case ReadSpend(e, period, spend) => s.(read := s.read[e := (period, spend)])
    case ReadFired(e) =>
      var (period, spend) := s.read[e];
      s.(read := s.read - {e}, evaluated := s.evaluated + {(period, spend)},
         running := s.running[e := Evaluation(period, spend,
                                              CrossedThresholds(spend, c.limit, c.thresholds, FiredIn(s.books, period)))])
    case RecordNext(e) =>
      var ev := s.running[e];
      s.(books := Record(s.books, ev.period, ev.pending[0], ev.spend),
         running := s.running[e := ev.(pending := ev.pending[1..])])
    case Rollover => s.(period := s.period + 1)
  }

  predicate ValidRun(c: Config, s: State, run: seq<Action>)
    decreases |run|
  {
    run == [] || (Enabled(s, run[0]) && ValidRun(c, Apply(c, s, run[0]), run[1..]))
  }

  function After(c: Config, s: State, run: seq<Action>): State
    requires ValidRun(c, s, run)
    decreases |run|
  {
    if run == [] then s else After(c, Apply(c, s, run[0]), run[1..])
  }

  /** Nothing fired, nobody evaluating. */
  const FRESH := State(0, Books({}, []), map[], map[], {})

  /** Some evaluation of the period read a spend that reaches the threshold. */
  predicate ReachedIn(c: Config, evaluated: set<(int, int)>, period: int, t: int) {
    t in c.thresholds && exists k :: k in evaluated && k.0 == period && Reaches(k.1, c.limit, t)
  }

  predicate Pending(s: State, period: int, t: int) {
    exists e :: e in s.running && s.running[e].period == period && t in s.running[e].pending
  }

  ghost predicate OutboxIsDue(c: Config, s: State) {
    forall a :: a in s.books.outbox ==>
      a.threshold in c.thresholds && (a.period, a.spend) in s.evaluated && Reaches(a.spend, c.limit, a.threshold)
  }

  predicate Due(c: Config, s: State, ev: Evaluation) {
    (ev.period, ev.spend) in s.evaluated && forall t :: t in ev.pending ==> t in c.thresholds && Reaches(ev.spend, c.limit, t)
  }

  predicate PendingIsDue(c: Config, s: State) { forall e :: e in s.running ==> Due(c, s, s.running[e]) }

  ghost predicate NothingMissed(c: Config, s: State) {
    forall p, t :: ReachedIn(c, s.evaluated, p, t) ==> (p, t) in s.books.fired || Pending(s, p, t)
  }

  /** Whatever some evaluated spend reaches has fired in its period or is still pending, and nothing else has or is. */
  ghost predicate Inv(c: Config, s: State) {
    InStep(s.books) && OutboxIsDue(c, s) && PendingIsDue(c, s) && NothingMissed(c, s)
  }

  lemma StartHasInv(c: Config)
    ensures Inv(c, FRESH)
  {
  }

  lemma ReadFiredKeepsInv(c: Config, s: State, e: nat)
    requires Inv(c, s) && Enabled(s, ReadFired(e))
    ensures Inv(c, Apply(c, s, ReadFired(e)))
  {
    hide CrossedThresholds, Reaches, InStep;
    var after := Apply(c, s, ReadFired(e));
    var (period, spend) := s.read[e];
    forall p, t | ReachedIn(c, after.evaluated, p, t) ensures (p, t) in after.books.fired || Pending(after, p, t) {
      if p == period && Reaches(spend, c.limit, t) {
        if (p, t) !in s.books.fired { assert t in after.running[e].pending; }
      } else {
        var k :| k in after.evaluated && k.0 == p && Reaches(k.1, c.limit, t);
        assert k == (k.0, k.1) && k in s.evaluated;
        assert ReachedIn(c, s.evaluated, p, t);
        if (p, t) !in s.books.fired {
          var f :| f in s.running && s.running[f].period == p && t in s.running[f].pending;
          assert t in after.running[f].pending;
        }
      }
    }
  }

  lemma RecordNextKeepsInv(c: Config, s: State, e: nat)
    requires Inv(c, s) && Enabled(s, RecordNext(e))
    ensures Inv(c, Apply(c, s, RecordNext(e)))
  {
    hide CrossedThresholds, Reaches, InStep;
    var after, ev := Apply(c, s, RecordNext(e)), s.running[e];
    RecordKeepsInStep(s.books, ev.period, ev.pending[0], ev.spend);
    assert ev.pending[0] in ev.pending && ev.pending == [ev.pending[0]] + ev.pending[1..];
    forall p, t | ReachedIn(c, after.evaluated, p, t) ensures (p, t) in after.books.fired || Pending(after, p, t) {
      if (p, t) !in s.books.fired {
        var f :| f in s.running && s.running[f].period == p && t in s.running[f].pending;
        if t != ev.pending[0] || f != e { assert t in after.running[f].pending; }
      }
    }
  }

  lemma QuietStepKeepsInv(c: Config, s: State, a: Action)
    requires Inv(c, s) && Enabled(s, a) && (a.ReadSpend? || a.Rollover?)
    ensures Inv(c, Apply(c, s, a))
  {
    hide CrossedThresholds, Reaches, InStep;
    forall p, t | Pending(s, p, t) ensures Pending(Apply(c, s, a), p, t) {
      var f :| f in s.running && s.running[f].period == p && t in s.running[f].pending;
      assert f in Apply(c, s, a).running;
    }
  }

  lemma {:induction false} RunKeepsInv(c: Config, s: State, run: seq<Action>)
    requires Inv(c, s) && ValidRun(c, s, run)
    ensures Inv(c, After(c, s, run))
    decreases |run|
  {
    hide Inv, Apply, Enabled;
    if run != [] {
      match run[0] {
        case ReadFired(e) => ReadFiredKeepsInv(c, s, e);
        case RecordNext(e) => RecordNextKeepsInv(c, s, e);
        case _ => QuietStepKeepsInv(c, s, run[0]);
      }
      RunKeepsInv(c, Apply(c, s, run[0]), run[1..]);
    }
  }

  predicate Settled(s: State) { forall e :: e in s.running ==> s.running[e].pending == [] }

  /**
    Over every interleaving, rollovers included, no threshold is queued twice in a period and none is
    queued that no spend evaluated in that period reached; once the evaluations have finished,
    exactly those reached are queued.
  */
  lemma AlertsFireExactlyOnce(c: Config, run: seq<Action>)
    requires ValidRun(c, FRESH, run)
    ensures var s := After(c, FRESH, run);
            && OncePerThreshold(s.books.outbox)
            && (forall a :: a in s.books.outbox ==>
                  ReachedIn(c, s.evaluated, a.period, a.threshold) && Reaches(a.spend, c.limit, a.threshold))
            && (Settled(s) ==> forall p, t :: ReachedIn(c, s.evaluated, p, t) <==> Queued(s.books.outbox, p, t))
  {
    hide After, ValidRun, Reaches, Apply, CrossedThresholds;
    StartHasInv(c);
    RunKeepsInv(c, FRESH, run);
    var s := After(c, FRESH, run);
    forall a | a in s.books.outbox ensures ReachedIn(c, s.evaluated, a.period, a.threshold) {
      var k := (a.period, a.spend);
      assert k in s.evaluated && k.0 == a.period && Reaches(k.1, c.limit, a.threshold);
    }
    forall p, t ensures Settled(s) ==> (ReachedIn(c, s.evaluated, p, t) <==> Queued(s.books.outbox, p, t)) {
      if i :| 0 <= i < |s.books.outbox| && s.books.outbox[i].period == p && s.books.outbox[i].threshold == t {
        assert s.books.outbox[i] in s.books.outbox;
      }
    }
  }

  /** What fired before a rollover fires again after it: one alert for each period whose spend reaches the threshold. */
  lemma RolloverRefires(c: Config, run: seq<Action>, p: int, q: int, t: int)
    requires ValidRun(c, FRESH, run) && p != q
    requires var s := After(c, FRESH, run);
             Settled(s) && ReachedIn(c, s.evaluated, p, t) && ReachedIn(c, s.evaluated, q, t)
    ensures var outbox := After(c, FRESH, run).books.outbox;
            exists i, j :: 0 <= i < |outbox| && 0 <= j < |outbox| && i != j
                           && outbox[i].period == p && outbox[j].period == q && outbox[i].threshold == outbox[j].threshold == t
  {
    AlertsFireExactlyOnce(c, run);
    hide After, ValidRun, ReachedIn;
    var outbox := After(c, FRESH, run).books.outbox;
    assert Queued(outbox, p, t) && Queued(outbox, q, t);
    var i :| 0 <= i < |outbox| && outbox[i].period == p && outbox[i].threshold == t;
    var j :| 0 <= j < |outbox| && outbox[j].period == q && outbox[j].threshold == t;
  }
}
