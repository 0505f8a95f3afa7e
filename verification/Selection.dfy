/**
 Which worker wins an order on a given plane, and how polling changes that.
 */
module Selection {
  import opened Options
  import opened Lifecycle
  import opened Tables
  import opened Events
  import opened Routing

  function ProfileOf(p: Plane, w: string): Option<Profile> {
    if w in p.profiles then Some(p.profiles[w]) else None
  }

  predicate EligibleFor(cfg: Settings, p: Plane, w: string, terms: Terms, now: int) {
    w in p.workers && Eligible(cfg, w, p.workers[w], ProfileOf(p, w), terms, now)
  }

  /** Worker `w` comes before worker `v` in the ranking. */
  predicate Outranks(p: Plane, w: string, v: string) {
    && w in p.workers && w in p.profiles && v in p.workers && v in p.profiles
    && Precedes(Candidate(w, p.workers[w], p.profiles[w]), Candidate(v, p.workers[v], p.profiles[v]))
  }

  /** The eligible worker that outranks every other eligible worker. */
  ghost predicate Best(cfg: Settings, p: Plane, w: string, terms: Terms, now: int) {
    && EligibleFor(cfg, p, w, terms, now)
    && (forall v :: v in p.workers && v != w && EligibleFor(cfg, p, v, terms, now) ==> Outranks(p, w, v))
  }

  /** Worker `w` would be given order `o` if it asked now. */
  ghost predicate Wins(cfg: Settings, p: Plane, w: string, o: nat, now: int) {
    && InStatus(p, o, {Queued})
    && EligibleFor(cfg, p, w, p.orders[o].terms, now)
    && (p.orders[o].terms.routing == CheapestCapable ==> Best(cfg, p, w, p.orders[o].terms, now))
  }

  /** Two workers can never both be the best. */
  lemma OneBest(cfg: Settings, p: Plane, w: string, v: string, terms: Terms, now: int)
    requires Best(cfg, p, w, terms, now) && Best(cfg, p, v, terms, now)
    ensures w == v
  {
    if w != v {
      BothWays(Candidate(w, p.workers[w], p.profiles[w]), Candidate(v, p.workers[v], p.profiles[v]));
    }
  }

  function Polled(p: Plane, w: string, now: int): Plane
    requires w in p.workers
  {
    WithWorker(p, w, p.workers[w].(lastPoll := Some(now)))
  }

  /** As time passes, workers that do not poll can only lose eligibility. */
  lemma EligibilityFades(cfg: Settings, p: Plane, v: string, terms: Terms, early: int, late: int)
    requires early <= late && EligibleFor(cfg, p, v, terms, late)
    ensures EligibleFor(cfg, p, v, terms, early)
  {
  }

  /** Whoever wins an order at one time still wins it at any later time after its own poll,
      as long as its heartbeat and that poll are fresh then. */
  lemma PollKeepsWinner(cfg: Settings, p: Plane, w: string, o: nat, early: int, polledAt: int, late: int)
    requires Wins(cfg, p, w, o, early) && early <= late
    requires IsFresh(Some(p.workers[w].lastHeartbeat), late, cfg.heartbeatFreshness)
    requires IsFresh(Some(polledAt), late, cfg.pollFreshness)
    ensures Wins(cfg, Polled(p, w, polledAt), w, o, late)
  {
    var q, terms := Polled(p, w, polledAt), p.orders[o].terms;
    forall v | v in q.workers && v != w && EligibleFor(cfg, q, v, terms, late) && terms.routing == CheapestCapable
      ensures Outranks(q, w, v)
    {
      assert EligibleFor(cfg, p, v, terms, late);
      EligibilityFades(cfg, p, v, terms, early, late);
      assert Outranks(p, w, v);
    }
  }

  /** Whoever stands in the way polled within the freshness window. */
  lemma BlockersPolledRecently(cfg: Settings, p: Plane, w: string, o: nat, now: int)
    requires InStatus(p, o, {Queued}) && EligibleFor(cfg, p, w, p.orders[o].terms, now)
    requires !Wins(cfg, p, w, o, now)
    ensures exists v :: v in p.workers && v != w && EligibleFor(cfg, p, v, p.orders[o].terms, now)
              && p.workers[v].lastPoll.Some? && p.workers[v].lastPoll.value >= now - cfg.pollFreshness
  {
    var v :| v in p.workers && v != w && EligibleFor(cfg, p, v, p.orders[o].terms, now) && !Outranks(p, w, v);
  }

  /** If every rival has been quiet for longer than the window, an eligible worker wins. */
  lemma QuietRivalsDoNotBlock(cfg: Settings, p: Plane, w: string, o: nat, now: int)
    requires InStatus(p, o, {Queued}) && EligibleFor(cfg, p, w, p.orders[o].terms, now)
    requires forall v :: v in p.workers && v != w && p.workers[v].lastPoll.Some? ==>
               p.workers[v].lastPoll.value < now - cfg.pollFreshness
    ensures Wins(cfg, p, w, o, now)
  {
    if !Wins(cfg, p, w, o, now) {
      BlockersPolledRecently(cfg, p, w, o, now);
    }
  }
}
