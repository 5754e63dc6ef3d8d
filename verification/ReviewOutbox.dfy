/**
 * The outbox of a run, as a map of keys, is what the leased queue of the effect gateway holds under the rendered keys
 * (course_discovery/review/nodes.py, course_discovery/review/router.py, course_discovery/effects/memory_store.py).
 */
module ReviewOutbox {
  import opened Text
  import opened ReviewGraph
  import opened ReviewEffects
  import Outbox
  import OutboxRuns
  import OutboxWorker

  /** Passes are numbered from zero. */
  predicate Numbered(k: Key) { k.DigestKey? ==> k.pass >= 0 }

  function KindOf(k: Key): string {
    match k
    case DigestKey(_, _) => "send_digest_message"
    case PromptKey(_) => "send_feedback_prompt"
    case PublishKey(_) => "publish_digest"
  }

  function Rendered(k: Key, payload: Payload, encode: Payload -> string): Outbox.Effect
    requires Numbered(k)
  {
    Outbox.Effect(Render(k), KindOf(k), encode(payload))
  }

  ghost predicate MirrorsKey(outbox: map<Key, Payload>, t: Outbox.Table, encode: Payload -> string, k: Key)
    requires Numbered(k)
  {
    (k in outbox <==> Render(k) in t.rows)
    && (k in outbox ==> t.rows[Render(k)].effect == Rendered(k, outbox[k], encode))
  }

  /** Under each rendered key the queue holds the effect of the map, and no other. */
  ghost predicate Mirrors(outbox: map<Key, Payload>, t: Outbox.Table, encode: Payload -> string) {
    forall k :: Numbered(k) ==> MirrorsKey(outbox, t, encode, k)
  }

  lemma SubmitMirrorsKey(outbox: map<Key, Payload>, t: Outbox.Table, key: Key, payload: Payload, now: Outbox.Time,
                         encode: Payload -> string, k: Key)
    requires Numbered(key) && Numbered(k)
    requires MirrorsKey(outbox, t, encode, key) && MirrorsKey(outbox, t, encode, k)
    ensures MirrorsKey(Enqueued(outbox, key, payload), Outbox.Enqueued(t, Rendered(key, payload, encode), now), encode,
            k)
  {
    if Render(k) == Render(key) { KeysAreDistinct(k, key); }
  }

  /** The first submission under a key wins in the queue exactly as it does in the map. */
  lemma SubmitMirrors(run: string, env: Env, t: Outbox.Table, key: Key, payload: Payload, now: Outbox.Time,
                      encode: Payload -> string)
    requires Numbered(key) && Mirrors(env.outbox, t, encode)
    ensures Mirrors(Performed(run, env, Submit(key, payload)).outbox,
                    Outbox.Enqueued(t, Rendered(key, payload, encode), now), encode)
  {
    assert MirrorsKey(env.outbox, t, encode, key);
    forall k | Numbered(k)
      ensures MirrorsKey(Enqueued(env.outbox, key, payload), Outbox.Enqueued(t, Rendered(key, payload, encode), now),
              encode, k)
    {
      SubmitMirrorsKey(env.outbox, t, key, payload, now, encode, k);
    }
  }

  ghost predicate AllNumbered(es: seq<Effect>) {
    forall e :: e in es && e.Submit? ==> Numbered(e.key)
  }

  /** The submissions among the effects, performed on the queue one after the other. */
  function Submitted(t: Outbox.Table, es: seq<Effect>, clock: nat -> Outbox.Time, encode: Payload -> string)
    : Outbox.Table
    requires AllNumbered(es)
    decreases |es|
  {
    if es == [] then t
    else
      var next := if es[0].Submit? then Outbox.Enqueued(t, Rendered(es[0].key, es[0].payload, encode), clock(|es|))
          else t;
      Submitted(next, es[1..], clock, encode)
  }

  lemma {:induction false} EffectsMirror(run: string, env: Env, t: Outbox.Table, es: seq<Effect>,
                                         clock: nat -> Outbox.Time, encode: Payload -> string)
    requires AllNumbered(es) && Mirrors(env.outbox, t, encode)
    ensures Mirrors(PerformedAll(run, env, es).outbox, Submitted(t, es, clock, encode), encode)
    decreases |es|
  {
    if es == [] {
    } else {
      var next := Performed(run, env, es[0]);
      if es[0].Submit? {
        SubmitMirrors(run, env, t, es[0].key, es[0].payload, clock(|es|), encode);
        EffectsMirror(run, next, Outbox.Enqueued(t, Rendered(es[0].key, es[0].payload, encode), clock(|es|)), es[1..],
                      clock, encode);
      } else {
        EffectsMirror(run, next, t, es[1..], clock, encode);
      }
    }
  }

  lemma EffectsAreNumbered(c: Config, s: State, done: nat)
    requires Anchored(c, s) && done <= |EffectsOf(c, s)|
    ensures AllNumbered(EffectsOf(c, s)[..done])
  {
    var all := EffectsOf(c, s);
    forall e | e in all[..done] && e.Submit? ensures Numbered(e.key) { assert e in all; }
  }

  /** How many effects of its node a step performs. */
  function Done(c: Config, w: World, step: Step): nat {
    match step
    case Commit(_) => |EffectsOf(c, w.s)|
    case Interrupted(done) => done
  }

  /** Whatever a step of a run submits, complete or cut short, the queue follows the map. */
  lemma StepMirrors(c: Config, w: World, step: Step, t: Outbox.Table, clock: nat -> Outbox.Time,
                    encode: Payload -> string)
    requires Rounds(c, w.s) && StepEnabled(c, w, step) && Mirrors(w.env.outbox, t, encode)
    ensures AllNumbered(EffectsOf(c, w.s)[..Done(c, w, step)])
    ensures Mirrors(After(c, w, step).env.outbox, Submitted(t, EffectsOf(c, w.s)[..Done(c, w, step)], clock, encode),
            encode)
  {
    var es := EffectsOf(c, w.s)[..Done(c, w, step)];
    EffectsAreNumbered(c, w.s, Done(c, w, step));
    EffectsMirror(c.run, w.env, t, es, clock, encode);
    if step.Commit? { assert es == EffectsOf(c, w.s); }
  }

  lemma ClaimKeepsEffects(t: Outbox.Table, now: Outbox.Time, limit: nat, lease: Outbox.Time, k: string)
    requires Outbox.Valid(t)
    ensures var after := Outbox.Claimed(t, now, limit, lease);
            (k in after.rows <==> k in t.rows) && (k in t.rows ==> after.rows[k].effect == t.rows[k].effect)
  {
  }

  lemma SettleKeepsEffects(cfg: OutboxWorker.Config, w: OutboxRuns.World, ticket: nat, outcome: OutboxWorker.Outcome,
                           k: string)
    requires ticket in w.tasks
    ensures var t := OutboxRuns.Settled(cfg, w, ticket, outcome).table;
            (k in t.rows <==> k in w.table.rows) && (k in w.table.rows ==> t.rows[k].effect == w.table.rows[k].effect)
  {
  }

  /** Whatever the workers do, whether they crash, overrun or settle late, what was submitted stays as it was. */
  lemma WorkersKeepEffects(cfg: OutboxWorker.Config, w: OutboxRuns.World, e: OutboxRuns.Event, k: string)
    requires Outbox.Valid(w.table) && OutboxRuns.Enabled(w, e) && !e.Submit? && !e.Prune?
    ensures var t := OutboxRuns.After(cfg, w, e).table;
            (k in t.rows <==> k in w.table.rows) && (k in w.table.rows ==> t.rows[k].effect == w.table.rows[k].effect)
  {
    match e
    case Claim(_) => ClaimKeepsEffects(w.table, w.now, cfg.batchSize, cfg.lease, k);
    case Begin(ticket) => SettleKeepsEffects(cfg, w, ticket, OutboxWorker.Succeeds, k);
    case Finish(ticket, outcome) => SettleKeepsEffects(cfg, w, ticket, outcome, k);
    case _ =>
  }

  lemma WorkersKeepMirror(cfg: OutboxWorker.Config, w: OutboxRuns.World, e: OutboxRuns.Event, outbox: map<Key, Payload>,
                          encode: Payload -> string)
    requires Outbox.Valid(w.table) && OutboxRuns.Enabled(w, e) && !e.Submit? && !e.Prune?
    requires Mirrors(outbox, w.table, encode)
    ensures Mirrors(outbox, OutboxRuns.After(cfg, w, e).table, encode)
  {
    var t := OutboxRuns.After(cfg, w, e).table;
    forall k | Numbered(k) ensures MirrorsKey(outbox, t, encode, k) {
      WorkersKeepEffects(cfg, w, e, Render(k));
      assert MirrorsKey(outbox, w.table, encode, k);
    }
  }
}
