/** The daily request quota (pkg/ratebudget/ratebudget.go): charged before the per-second limiter is waited for, given
    back when that wait is cancelled, possibly on a later day. */
module RateBudget {
  import opened Query

  type Day = nat

  /** The UTC day the counter belongs to, and the units charged to it. */
  datatype Counter = Counter(day: Day, spent: int)

  const MAX_INT: int := 0x7fff_ffff_ffff_ffff

  function Rolled(c: Counter, today: Day): Counter {
    if today != c.day then Counter(today, 0) else c
  }

  predicate Grants(daily: int, c: Counter, today: Day) {
    daily <= 0 || Rolled(c, today).spent < daily
  }

  function Charge(daily: int, c: Counter, today: Day): Counter {
    var r := Rolled(c, today);
    if Grants(daily, c, today) then r.(spent := r.spent + 1) else r
  }

  function Refund(c: Counter, today: Day): Counter {
    if today == c.day && c.spent > 0 then c.(spent := c.spent - 1) else c
  }

  /** What other callers do to the counter. */
  datatype Op = Consumes(today: Day) | Refunds(today: Day)

  function Apply(daily: int, c: Counter, ops: seq<Op>): Counter
    decreases |ops|
  {
    if ops == [] then c
    else
      var before := Apply(daily, c, ops[..|ops| - 1]);
      match ops[|ops| - 1]
      case Consumes(today) => Charge(daily, before, today)
      case Refunds(today) => Refund(before, today)
  }

  /** How the per-second limiter answers: absent, a turn, or a cancelled wait that returns on day `at`. */
  datatype Limiter = Unshaped | Turn | CancelledOn(at: Day)

  datatype Answer = Go | Exhausted | ContextDone

  class Budget {
    const daily: int
    var day: Day
    var spent: int

    ghost function View(): Counter
      reads this
    {
      Counter(day, spent)
    }

    constructor (daily: int, today: Day)
      ensures this.daily == daily && View() == Counter(today, 0)
    {
      this.daily := daily;
      day, spent := today, 0;
    }

    /** A new day starts from nothing; a call is granted as long as less than the quota has been charged to its day, or
        always when there is none, and only a granted call is charged. */
    method Consume(today: Day) returns (ok: bool)
      modifies this
      ensures ok <==> daily <= 0 || (if today == old(day) then old(spent) else 0) < daily
      ensures day == today && spent == (if today == old(day) then old(spent) else 0) + if ok then 1 else 0
      ensures ok == Grants(daily, old(View()), today)
      ensures View() == Charge(daily, old(View()), today)
    {
      if today != day {
        day, spent := today, 0;
      }
      if daily > 0 && spent >= daily {
        return false;
      }
      spent := spent + 1;
      return true;
    }

    /** A unit comes back only on the day it is asked back on, and never more than were charged. */
    method GiveBack(today: Day)
      modifies this
      ensures day == old(day)
      ensures spent == old(spent) - if today == old(day) && old(spent) > 0 then 1 else 0
      ensures View() == Refund(old(View()), today)
    {
      if today == day && spent > 0 {
        spent := spent - 1;
      }
    }

    method Others(ops: seq<Op>)
      modifies this
      ensures View() == Apply(daily, old(View()), ops)
    {
      var k := 0;
      while k < |ops|
        invariant 0 <= k <= |ops| && View() == Apply(daily, old(View()), ops[..k])
      {
        assert ops[..k + 1][..k] == ops[..k];
        match ops[k] {
          case Consumes(today) => var _ := Consume(today);
          case Refunds(today) => GiveBack(today);
        }
        k := k + 1;
      }
      assert ops[..k] == ops;
    }

    /** One call; `others` is what concurrent callers do while it waits for the limiter. A call is charged one unit
        exactly when it is let through: a refused one is not, a cancelled one gives its unit back if the day has not
        rolled. */
    method Wait(done: bool, today: Day, limiter: Limiter, others: seq<Op>) returns (a: Answer)
      modifies this
      ensures a == if done then ContextDone
                   else if !Grants(daily, old(View()), today) then Exhausted
                   else if limiter.CancelledOn? then ContextDone else Go
      ensures View() == if done then old(View())
                        else
                          var charged := Charge(daily, old(View()), today);
                          if !Grants(daily, old(View()), today) then charged
                          else match limiter
                            case Unshaped => charged
                            case Turn => Apply(daily, charged, others)
                            case CancelledOn(at) => Refund(Apply(daily, charged, others), at)
    {
      if done {
        return ContextDone;
      }
      var ok := Consume(today);
      if !ok {
        return Exhausted;
      }
      if limiter.Unshaped? {
        return Go;
      }
      Others(others);
      if limiter.CancelledOn? {
        GiveBack(limiter.at);
        return ContextDone;
      }
      return Go;
    }

    method Spent(today: Day) returns (n: int)
      ensures n == Rolled(View(), today).spent
    {
      if today != day {
        return 0;
      }
      return spent;
    }

    /** How many more calls today would be granted. */
    method Remaining(today: Day) returns (n: int)
      requires spent >= 0
      ensures daily <= 0 ==> n == MAX_INT
      ensures daily > 0 ==> n >= 0 && (n > 0 <==> Grants(daily, View(), today))
      ensures daily > 0 ==> n == Max(0, daily - Rolled(View(), today).spent)
    {
      if daily <= 0 {
        return MAX_INT;
      }
      var s := Spent(today);
      return if s >= daily then 0 else daily - s;
    }
  }

  // ------------------------------------------------------------------ any interleaving of calls

  /** `granted[u]` is the day unit `u` was charged on, `returned[u]` the day it was given back; `lowered` are the units
      whose return the counter took. */
  datatype World = World(counter: Counter, clock: Day, granted: seq<Day>, returned: map<nat, Day>, lowered: set<nat>)

  datatype Label = Ask(today: Day) | Return(unit: nat, today: Day)

  /** The clock only moves forward; a call gives back the unit it was granted, once. */
  predicate Enabled(w: World, l: Label) {
    match l
    case Ask(today) => today >= w.clock
    case Return(u, today) => today >= w.clock && u < |w.granted| && u !in w.returned
  }

  function Step(daily: int, w: World, l: Label): World {
    if !Enabled(w, l) then w
    else match l
      case Ask(today) =>
        World(Charge(daily, w.counter, today), today,
              if Grants(daily, w.counter, today) then w.granted + [today] else w.granted, w.returned, w.lowered)
      case Return(u, today) =>
        World(Refund(w.counter, today), today, w.granted, w.returned[u := today],
              if Refund(w.counter, today) != w.counter then w.lowered + {u} else w.lowered)
  }

  function Initial(today: Day): World {
    World(Counter(today, 0), today, [], map[], {})
  }

  function Run(daily: int, start: Day, labels: seq<Label>): World
    decreases |labels|
  {
    if labels == [] then Initial(start)
    else Step(daily, Run(daily, start, labels[..|labels| - 1]), labels[|labels| - 1])
  }

  function Charged(w: World, d: Day): set<nat> {
    set u: nat | u < |w.granted| && w.granted[u] == d
  }

  /** The calls charged to a day and let through. */
  function LetThrough(w: World, d: Day): set<nat> {
    Charged(w, d) - w.returned.Keys
  }

  /** Units charged to a day and given back on that day. */
  function OwnReturns(w: World, d: Day): set<nat> {
    set u: nat | u in w.returned && u < |w.granted| && w.granted[u] == d && w.returned[u] == d
  }

  /** Units given back on a day but charged to an earlier one. */
  function LateReturns(w: World, d: Day): set<nat> {
    set u: nat | u in w.returned && u < |w.granted| && w.granted[u] < d && w.returned[u] == d
  }

  /** What is open on a day, not counting the units the counter took for returns of that day. */
  function Open(w: World, d: Day): int {
    |Charged(w, d)| - |OwnReturns(w, d)| - |LateReturns(w, d)|
  }

  predicate Numbered(w: World) {
    forall u | u in w.returned :: u < |w.granted|
  }

  ghost predicate Sound(daily: int, w: World) {
    && w.counter.day <= w.clock
    && w.counter.spent >= 0
    && (daily > 0 ==> w.counter.spent <= daily)
    && (forall u | 0 <= u < |w.granted| :: w.granted[u] <= w.counter.day)
    && Numbered(w)
    && (forall u | u in w.returned :: u < |w.granted| && w.granted[u] <= w.returned[u] <= w.clock)
    && Open(w, w.counter.day) <= w.counter.spent
    && (daily > 0 ==> forall d: Day :: Open(w, d) <= daily)
  }

  /** What asking on `today` adds to the units charged to day `d`. */
  function Granted(daily: int, w: World, today: Day, d: Day): nat {
    if d == today && Grants(daily, w.counter, today) then 1 else 0
  }

  lemma AskOpens(daily: int, w: World, today: Day, d: Day)
    requires Numbered(w) && Enabled(w, Ask(today))
    ensures Open(Step(daily, w, Ask(today)), d) == Open(w, d) + Granted(daily, w, today, d)
  {
    if Grants(daily, w.counter, today) {
      var next := Step(daily, w, Ask(today));
      UnitGranted(w, next, today, d);
    }
  }

  lemma GrantCharges(w: World, next: World, today: Day, d: Day)
    requires next.granted == w.granted + [today]
    ensures |Charged(next, d)| == |Charged(w, d)| + if d == today then 1 else 0
  {
    var u := |w.granted|;
    if d == today {
      assert Charged(next, d) == Charged(w, d) + {u};
    } else {
      assert Charged(next, d) == Charged(w, d);
    }
  }

  lemma GrantReturnsNothing(w: World, next: World, today: Day, d: Day)
    requires Numbered(w) && next.granted == w.granted + [today] && next.returned == w.returned
    ensures OwnReturns(next, d) == OwnReturns(w, d) && LateReturns(next, d) == LateReturns(w, d)
  {
  }

  lemma UnitGranted(w: World, next: World, today: Day, d: Day)
    requires Numbered(w) && next.granted == w.granted + [today] && next.returned == w.returned
    ensures Open(next, d) == Open(w, d) + if d == today then 1 else 0
  {
    GrantCharges(w, next, today, d);
    GrantReturnsNothing(w, next, today, d);
    hide OwnReturns, LateReturns, Charged;
  }

  lemma NothingChargedYet(daily: int, w: World, d: Day)
    requires Sound(daily, w) && d > w.counter.day
    ensures Open(w, d) <= 0
  {
    assert Charged(w, d) == {};
  }

  lemma AskKeepsSound(daily: int, w: World, today: Day)
    requires Sound(daily, w) && Enabled(w, Ask(today))
    ensures Sound(daily, Step(daily, w, Ask(today)))
  {
    forall d: Day
      ensures Open(Step(daily, w, Ask(today)), d) == Open(w, d) + Granted(daily, w, today, d)
    {
      AskOpens(daily, w, today, d);
    }
    if today != w.counter.day {
      NothingChargedYet(daily, w, today);
    }
    hide Open;
  }

  lemma ReturnedOwn(w: World, next: World, u: nat, today: Day, d: Day)
    requires u < |w.granted| && u !in w.returned
    requires next.granted == w.granted && next.returned == w.returned[u := today]
    ensures |OwnReturns(next, d)| == |OwnReturns(w, d)| + if d == today && w.granted[u] == d then 1 else 0
  {
    if d == today && w.granted[u] == d {
      assert OwnReturns(next, d) == OwnReturns(w, d) + {u};
    } else {
      assert OwnReturns(next, d) == OwnReturns(w, d);
    }
  }

  lemma ReturnedLate(w: World, next: World, u: nat, today: Day, d: Day)
    requires u < |w.granted| && u !in w.returned
    requires next.granted == w.granted && next.returned == w.returned[u := today]
    ensures |LateReturns(next, d)| == |LateReturns(w, d)| + if d == today && w.granted[u] < d then 1 else 0
  {
    if d == today && w.granted[u] < d {
      assert LateReturns(next, d) == LateReturns(w, d) + {u};
    } else {
      assert LateReturns(next, d) == LateReturns(w, d);
    }
  }

  lemma ReturnCloses(w: World, next: World, u: nat, today: Day, d: Day)
    requires u < |w.granted| && u !in w.returned && w.granted[u] <= today
    requires next.granted == w.granted && next.returned == w.returned[u := today]
    ensures Open(next, d) == Open(w, d) - if d == today then 1 else 0
  {
    ReturnedOwn(w, next, u, today, d);
    ReturnedLate(w, next, u, today, d);
    assert Charged(next, d) == Charged(w, d);
    hide OwnReturns, LateReturns, Charged;
  }

  lemma ReturnKeepsSound(daily: int, w: World, u: nat, today: Day)
    requires Sound(daily, w) && Enabled(w, Return(u, today))
    ensures Sound(daily, Step(daily, w, Return(u, today)))
  {
    forall d: Day ensures Open(Step(daily, w, Return(u, today)), d) == Open(w, d) - if d == today then 1 else 0 {
      ReturnCloses(w, Step(daily, w, Return(u, today)), u, today, d);
    }
    hide Open;
  }

  lemma {:induction false} EveryRunIsSound(daily: int, start: Day, labels: seq<Label>)
    ensures Sound(daily, Run(daily, start, labels))
    decreases |labels|
  {
    if labels == [] {
      forall d: Day ensures Open(Initial(start), d) == 0 {
        assert Charged(Initial(start), d) == {} && OwnReturns(Initial(start), d) == {}
            && LateReturns(Initial(start), d) == {};
      }
    } else {
      var before := Run(daily, start, labels[..|labels| - 1]);
      EveryRunIsSound(daily, start, labels[..|labels| - 1]);
      hide Sound;
      match labels[|labels| - 1]
      case Ask(today) =>
        if Enabled(before, Ask(today)) { AskKeepsSound(daily, before, today); }
      case Return(u, today) =>
        if Enabled(before, Return(u, today)) { ReturnKeepsSound(daily, before, u, today); }
    }
  }

  /** Whatever the interleaving, the counter is never negative, and the calls charged to a day and let through are at
      most the quota plus the units of earlier days given back on that day. */
  lemma QuotaHolds(daily: int, start: Day, labels: seq<Label>, d: Day)
    requires daily > 0
    ensures var w := Run(daily, start, labels);
            0 <= w.counter.spent <= daily && |LetThrough(w, d)| <= daily + |LateReturns(w, d)|
  {
    var w := Run(daily, start, labels);
    EveryRunIsSound(daily, start, labels);
    assert OwnReturns(w, d) <= Charged(w, d);
    assert LetThrough(w, d) <= Charged(w, d) - OwnReturns(w, d);
    SubsetIsNoLarger(LetThrough(w, d), Charged(w, d) - OwnReturns(w, d));
    assert Open(w, d) <= daily;
  }

  // ------------------------------------------------------------------ the books of the current day

  /** Units charged to the counter's day and given back, then or later, without the counter taking them. */
  function Unlowered(w: World, d: Day): set<nat> {
    (Charged(w, d) * w.returned.Keys) - w.lowered
  }

  /** Units of earlier days the counter took back on this one. */
  function LateLowered(w: World, d: Day): set<nat> {
    LateReturns(w, d) * w.lowered
  }

  /** Units the counter took back on this day. */
  function LoweredOn(w: World, d: Day): set<nat> {
    set u | u in w.lowered && u in w.returned && w.returned[u] == d
  }

  ghost predicate Balanced(w: World) {
    && w.counter.day <= w.clock
    && Numbered(w)
    && (forall u | 0 <= u < |w.granted| :: w.granted[u] <= w.counter.day)
    && (forall u | u in w.returned :: w.granted[u] <= w.returned[u])
    && (forall u | u in w.lowered :: u in w.returned && w.returned[u] <= w.counter.day)
    && w.counter.spent == |Charged(w, w.counter.day)| - |LoweredOn(w, w.counter.day)|
  }

  lemma AskKeepsBalanced(daily: int, w: World, today: Day)
    requires Balanced(w) && Enabled(w, Ask(today))
    ensures Balanced(Step(daily, w, Ask(today)))
  {
    var next := Step(daily, w, Ask(today));
    assert LoweredOn(next, today) == LoweredOn(w, today);
    if Grants(daily, w.counter, today) {
      GrantCharges(w, next, today, today);
    }
    if today != w.counter.day {
      assert Charged(w, today) == {} && LoweredOn(w, today) == {};
    }
    hide Charged, LoweredOn;
  }

  lemma LoweredGrows(w: World, next: World, u: nat, today: Day, d: Day)
    requires u !in w.returned && (forall v | v in w.lowered :: v in w.returned)
    requires next.returned == w.returned[u := today] && (next.lowered == w.lowered || next.lowered == w.lowered + {u})
    ensures |LoweredOn(next, d)| == |LoweredOn(w, d)| + if next.lowered != w.lowered && d == today then 1 else 0
  {
    if next.lowered != w.lowered && d == today {
      assert LoweredOn(next, d) == LoweredOn(w, d) + {u};
    } else {
      assert LoweredOn(next, d) == LoweredOn(w, d);
    }
  }

  lemma ReturnKeepsBalanced(daily: int, w: World, u: nat, today: Day)
    requires Balanced(w) && Enabled(w, Return(u, today))
    ensures Balanced(Step(daily, w, Return(u, today)))
  {
    var next := Step(daily, w, Return(u, today));
    assert Charged(next, w.counter.day) == Charged(w, w.counter.day);
    LoweredGrows(w, next, u, today, w.counter.day);
    hide Charged, LoweredOn;
  }

  lemma {:induction false} EveryRunIsBalanced(daily: int, start: Day, labels: seq<Label>)
    ensures Balanced(Run(daily, start, labels))
    decreases |labels|
  {
    if labels == [] {
      assert Charged(Initial(start), start) == {} && LoweredOn(Initial(start), start) == {};
    } else {
      var before := Run(daily, start, labels[..|labels| - 1]);
      EveryRunIsBalanced(daily, start, labels[..|labels| - 1]);
      hide Balanced;
      match labels[|labels| - 1]
      case Ask(today) =>
        if Enabled(before, Ask(today)) { AskKeepsBalanced(daily, before, today); }
      case Return(u, today) =>
        if Enabled(before, Return(u, today)) { ReturnKeepsBalanced(daily, before, u, today); }
    }
  }

  lemma SplitInThree<T>(charged: set<T>, returned: set<T>, lowered: set<T>)
    requires lowered <= returned
    ensures |charged| == |charged - returned| + |(charged * returned) - lowered| + |charged * lowered|
  {
    var kept, taken := charged * returned, charged * lowered;
    assert charged == (charged - returned) + kept;
    assert kept == (kept - lowered) + taken;
  }

  lemma LoweredAreOwnOrLate(w: World)
    requires Balanced(w)
    ensures var d := w.counter.day;
            |LoweredOn(w, d)| == |Charged(w, d) * w.lowered| + |LateLowered(w, d)|
  {
    var d := w.counter.day;
    var own, late := Charged(w, d) * w.lowered, LateLowered(w, d);
    forall u ensures u in LoweredOn(w, d) <==> u in own || u in late {
      if u in w.lowered {
        assert u < |w.granted| && w.granted[u] <= w.returned[u] <= d;
      }
    }
    assert own * late == {};
    assert LoweredOn(w, d) == own + late;
  }

  /** The exact books of the counter's day: the calls let through, together with the given-back units of the day the
      counter did not take, are what it shows together with the units of earlier days it did take. */
  lemma BooksBalance(daily: int, start: Day, labels: seq<Label>)
    ensures var w := Run(daily, start, labels); var d := w.counter.day;
            |LetThrough(w, d)| + |Unlowered(w, d)| == w.counter.spent + |LateLowered(w, d)|
  {
    var w := Run(daily, start, labels);
    EveryRunIsBalanced(daily, start, labels);
    LoweredAreOwnOrLate(w);
    hide Run, Charged, LoweredOn, LateLowered;
    assert w.lowered <= w.returned.Keys;
    SplitInThree(Charged(w, w.counter.day), w.returned.Keys, w.lowered);
  }

  // ------------------------------------------------------------------ the bound is attained

  /** `days` units were charged, one a day, and none since. */
  predicate Warmed(w: World, days: nat) {
    && w.clock <= days && w.counter.day <= days && (w.counter.day == days ==> w.counter.spent == 0)
    && |w.granted| == days && (forall u | 0 <= u < days :: w.granted[u] == u)
    && w.returned == map[]
  }

  /** On day `days`, `asked` more units were charged and the first `back` of the earlier ones given back. */
  ghost predicate Filled(w: World, days: nat, asked: nat, back: nat, spent: nat) {
    && w.clock == days && w.counter == Counter(days, spent)
    && |w.granted| == days + asked
    && (forall u | 0 <= u < days :: w.granted[u] == u)
    && (forall u | days <= u < days + asked :: w.granted[u] == days)
    && (forall u: nat :: u in w.returned <==> u < back)
    && (forall u | u in w.returned :: w.returned[u] == days)
  }

  lemma {:induction false} WarmUp(daily: int, days: nat) returns (labels: seq<Label>)
    requires daily > 0
    ensures Warmed(Run(daily, 0, labels), days)
  {
    if days == 0 {
      labels := [];
    } else {
      var before := WarmUp(daily, days - 1);
      RunsOn(daily, 0, before, Ask(days - 1));
      hide Run;
      labels := before + [Ask(days - 1)];
    }
  }

  lemma FirstAsk(daily: int, w: World, days: nat)
    requires daily > 0 && Warmed(w, days)
    ensures Filled(Step(daily, w, Ask(days)), days, 1, 0, 1)
  {
  }

  lemma NextAsk(daily: int, w: World, days: nat, asked: nat, back: nat, spent: nat)
    requires Filled(w, days, asked, back, spent) && spent < daily
    ensures Filled(Step(daily, w, Ask(days)), days, asked + 1, back, spent + 1)
  {
  }

  lemma LateReturn(daily: int, w: World, days: nat, asked: nat, back: nat, spent: nat)
    requires Filled(w, days, asked, back, spent) && back < days && spent > 0
    ensures Filled(Step(daily, w, Return(back, days)), days, asked, back + 1, spent - 1)
  {
  }

  /** A day's quota used up, then `back` times a late return and one more call. */
  lemma {:induction false} FillUp(daily: int, days: nat, asked: nat, back: nat) returns (labels: seq<Label>)
    requires 1 <= asked <= daily && back <= days && (back > 0 ==> asked == daily)
    ensures Filled(Run(daily, 0, labels), days, asked + back, back, asked)
    decreases back, asked
  {
    hide Run, Step, Filled, Warmed;
    if back > 0 {
      var before := FillUp(daily, days, asked, back - 1);
      LateReturn(daily, Run(daily, 0, before), days, asked + back - 1, back - 1, asked);
      RunsOn(daily, 0, before, Return(back - 1, days));
      var returned := before + [Return(back - 1, days)];
      NextAsk(daily, Run(daily, 0, returned), days, asked + back - 1, back, asked - 1);
      RunsOn(daily, 0, returned, Ask(days));
      labels := returned + [Ask(days)];
    } else if asked > 1 {
      var before := FillUp(daily, days, asked - 1, 0);
      NextAsk(daily, Run(daily, 0, before), days, asked - 1, 0, asked - 1);
      RunsOn(daily, 0, before, Ask(days));
      labels := before + [Ask(days)];
    } else {
      var before := WarmUp(daily, days);
      FirstAsk(daily, Run(daily, 0, before), days);
      RunsOn(daily, 0, before, Ask(days));
      labels := before + [Ask(days)];
    }
  }

  lemma FilledThrough(w: World, days: nat, asked: nat, back: nat, spent: nat)
    requires Filled(w, days, asked, back, spent) && back <= days
    ensures |LetThrough(w, days)| == asked
  {
    var through := LetThrough(w, days);
    assert forall u: nat :: u in through <==> days <= u < days + asked;
    hide Filled, LetThrough;
    AtMostSoMany(through, days, days + asked);
    AtLeastSoMany(through, days, days + asked);
  }

  lemma FilledLate(w: World, days: nat, asked: nat, back: nat, spent: nat)
    requires Filled(w, days, asked, back, spent) && back <= days
    ensures |LateReturns(w, days)| == back
  {
    var late := LateReturns(w, days);
    assert forall u: nat :: u in late <==> u < back;
    hide Filled, LateReturns;
    AtMostSoMany(late, 0, back);
    AtLeastSoMany(late, 0, back);
  }

  /** On this day, on which `late` units of earlier days were given back, at least `n` calls were let through. */
  predicate LetsThrough(w: World, d: Day, late: nat, n: int) {
    |LateReturns(w, d)| == late && |LetThrough(w, d)| >= n
  }

  /** How far the quota can be exceeded: some run lets `n` calls through on a day with that many late returns if and
      only if `n` is at most the quota plus those returns. */
  lemma QuotaIsExceededIff(daily: int, late: nat, n: int)
    requires daily > 0
    ensures (exists labels, d :: LetsThrough(Run(daily, 0, labels), d, late, n)) <==> n <= daily + late
  {
    forall labels, d: Day | LetsThrough(Run(daily, 0, labels), d, late, n) ensures n <= daily + late {
      QuotaHolds(daily, 0, labels, d);
    }
    if n <= daily + late {
      var labels := FillUp(daily, late, daily, late);
      hide Run;
      var w := Run(daily, 0, labels);
      FilledThrough(w, late, daily + late, late, daily);
      FilledLate(w, late, daily + late, late, daily);
      assert LetsThrough(w, late, late, n);
    }
  }

  lemma RunsOn(daily: int, start: Day, labels: seq<Label>, l: Label)
    ensures Run(daily, start, labels + [l]) == Step(daily, Run(daily, start, labels), l)
    ensures Run(daily, start, []) == Initial(start)
  {
    assert (labels + [l])[..|labels|] == labels;
  }
}
