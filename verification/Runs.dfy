/** Whole runs: every interleaving of merchants, the expirer, the clock, configuration and the two watchers, with each
    watcher's `Apply` split between its reads and its transaction. */
module Runs {
  import opened Domain
  import opened Query
  import opened Tables
  import opened Matching
  import opened Ledger
  import opened Interference

  datatype Label =
    | Begin(observed: Observed, lookups: Lookups)
    | Act(move: Move)

  /** The database, the decisions watchers hold in local variables, and what a run must remember to be judged:
      the order invoices were issued in, when each one ended, which were credited off a withdrawn payment row, and
      whether a new event id ever repeated a queued one. */
  datatype World = World(
    db: Db,
    inFlight: map<Network, Decision>,
    issued: seq<InvoiceId>,
    endedAt: map<InvoiceId, Time>,
    revived: set<InvoiceId>,
    repeatedEventId: bool)

  function Initial(now: Time): World {
    World(Db(now, map[], map[], map[], map[], []), map[], [], map[], {}, false)
  }

  /** One watcher per network at a time: it starts on a transfer when it is idle, and only its own decision commits. */
  ghost predicate Enabled(w: World, l: Label) {
    match l
    case Begin(x, found) => x.ref.network !in w.inFlight && LookupsOk(w.db, x, found)
    case Act(m) =>
      match m {
        case Decide(d, _) => NetworkOf(d) in w.inFlight && w.inFlight[NetworkOf(d)] == d
        case Settle(r, _) => r.network !in w.inFlight
        case Revoke(r, _) => r.network !in w.inFlight
        case _ => true
      }
  }

  function EventIdOf(m: Move): Option<EventId> {
    match m
    case Decide(_, ev) => Some(ev)
    case Settle(_, ev) => Some(ev)
    case Revoke(_, ev) => Some(ev)
    case _ => None
  }

  predicate Queued(db: Db, ev: EventId) {
    exists k | 0 <= k < |db.events| :: db.events[k].id == ev
  }

  /** The invoice a decision credits although the transfer's own row is withdrawn. */
  function RevivedBy(db: Db, m: Move): set<InvoiceId> {
    if m.Decide? && m.decision.Credit? && m.decision.observed.ref in db.payments then {m.decision.id} else {}
  }

  ghost function Step(cfg: Config, w: World, l: Label): World {
    if !Enabled(w, l) then w
    else match l
      case Begin(x, found) => w.(inFlight := w.inFlight[x.ref.network := Read(w.db, x, found)])
      case Act(m) =>
        var db := Perform(cfg, w.db, m);
        World(db,
              if m.Decide? then w.inFlight - {NetworkOf(m.decision)} else w.inFlight,
              if m.Create? && m.id !in w.db.invoices && m.id in db.invoices then w.issued + [m.id] else w.issued,
              map i | i in db.invoices && IsTerminal(db.invoices[i].status) ::
                if i in w.endedAt then w.endedAt[i] else db.now,
              w.revived + RevivedBy(w.db, m),
              w.repeatedEventId || (EventIdOf(m).Some? && Queued(w.db, EventIdOf(m).value)))
  }

  ghost function Run(cfg: Config, w: World, labels: seq<Label>): World
    decreases |labels|
  {
    if labels == [] then w else Step(cfg, Run(cfg, w, labels[..|labels| - 1]), labels[|labels| - 1])
  }

  // ------------------------------------------------------------------ the ledger over every run

  ghost predicate WorldOk(w: World) {
    && LedgerOk(w.db)
    && (forall n | n in w.inFlight :: NetworkOf(w.inFlight[n]) == n && StillSound(w.db, w.inFlight[n]))
  }

  lemma StepKeepsWorldOk(cfg: Config, w: World, l: Label)
    requires WorldOk(w)
    ensures WorldOk(Step(cfg, w, l))
  {
    if Enabled(w, l) {
      match l
      case Begin(x, found) => ReadIsSound(w.db, x, found);
      case Act(m) =>
        EveryStepKeeps(cfg, w.db, m);
        EveryStepKeepsPaidOnce(cfg, w.db, m);
        var db := Perform(cfg, w.db, m);
        forall n | n in w.inFlight && Actor(m) != Some(n) ensures StillSound(db, w.inFlight[n]) {
          OutsideStep(cfg, w.db, n, m);
          StaysSound(w.db, db, w.inFlight[n]);
        }
        hide Perform;
        assert LedgerOk(db);
    }
  }

  lemma StepKeepsAssetKeys(cfg: Config, db: Db, m: Move)
    requires AssetKeyUnique(db)
    ensures AssetKeyUnique(Perform(cfg, db, m))
  {
    hide CreditTx, HasLive, EnqueueEvent, AmountHeld, ExternalIdUsed;
    if m.Decide? && m.decision.Credit? {
      CreditKeepsAssets(cfg, db, m.decision, m.ev);
    }
  }

  /** Over every run an asset is the only one of its network and contract, so a lookup by contract has one answer. */
  lemma {:induction false} EveryRunKeepsAssetKeys(cfg: Config, start: Time, labels: seq<Label>)
    ensures AssetKeyUnique(Run(cfg, Initial(start), labels).db)
    decreases |labels|
  {
    if labels != [] {
      var before, l := Run(cfg, Initial(start), labels[..|labels| - 1]), labels[|labels| - 1];
      EveryRunKeepsAssetKeys(cfg, start, labels[..|labels| - 1]);
      hide Perform, AssetKeyUnique;
      if l.Act? {
        StepKeepsAssetKeys(cfg, before.db, l.move);
      }
    }
  }

  /** Safety over whole runs. In every reachable state the foreign keys hold, an invoice has at most one live payment,
      a pending invoice has none, every invoice that can still be paid holds its amount, and held amounts are unique. */
  lemma {:induction false} EveryRunKeepsTheLedger(cfg: Config, start: Time, labels: seq<Label>)
    ensures WorldOk(Run(cfg, Initial(start), labels))
    decreases |labels|
  {
    if labels != [] {
      EveryRunKeepsTheLedger(cfg, start, labels[..|labels| - 1]);
      StepKeepsWorldOk(cfg, Run(cfg, Initial(start), labels[..|labels| - 1]), labels[|labels| - 1]);
    }
  }
}
