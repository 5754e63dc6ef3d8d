/** Submission of effects (course_discovery/effects/gateway.py). */
module Gateway {
  import opened Text
  import Outbox
  import OutboxWorker

  datatype DeliveryStatus = Queued | Delivered | Dead

  function ToDeliveryStatus(record: Outbox.Record): DeliveryStatus {
    if record.status == Outbox.Status.Delivered then Delivered
    else if record.status == Outbox.Status.Dead then Dead
    else Queued
  }

  /** What a caller is told: delivered and dead as they are, queued for everything that is still to come. */
  lemma StatusMeans(record: Outbox.Record)
    ensures ToDeliveryStatus(record).Delivered? <==> record.status.Delivered?
    ensures ToDeliveryStatus(record).Dead? <==> record.status.Dead?
    ensures ToDeliveryStatus(record).Queued? <==> record.status.Queued? || record.status.InProgress?
  {
  }

  /** Submitting a key again, with whatever payload and at whatever time, changes nothing: the first submission wins. */
  lemma FirstSubmissionWins(t: Outbox.Table, first: Outbox.Effect, again: Outbox.Effect, now: Outbox.Time,
                            later: Outbox.Time)
    requires first.key == again.key
    ensures Outbox.Enqueued(Outbox.Enqueued(t, first, now), again, later) == Outbox.Enqueued(t, first, now)
    ensures first.key !in t.rows ==> Outbox.Enqueued(t, first, now).rows[first.key].effect == first
  {}

  class OutboxGateway {
    const store: Outbox.InMemoryOutboxStore

    constructor (store: Outbox.InMemoryOutboxStore)
      ensures this.store == store
    {
      this.store := store;
    }

    method Submit(effect: Outbox.Effect, now: Outbox.Time) returns (status: DeliveryStatus)
      requires Outbox.Valid(store.Contents())
      modifies store
      ensures Outbox.Valid(store.Contents()) && store.Contents() == Outbox.Enqueued(old(store.Contents()), effect, now)
      ensures effect.key in store.rows && status == ToDeliveryStatus(store.rows[effect.key])
    {
      var record := store.Enqueue(effect, now);
      status := ToDeliveryStatus(record);
    }

    method StatusOf(key: string) returns (status: Option<DeliveryStatus>)
      ensures status == if key in store.rows then Some(ToDeliveryStatus(store.rows[key])) else None
    {
      var record := store.Get(key);
      status := if record.Some? then Some(ToDeliveryStatus(record.value)) else None;
    }
  }

  /** The gateway without a separate worker process: a submission that finds its record queued runs one round. */
  class InlineGateway {
    const store: Outbox.InMemoryOutboxStore
    const worker: OutboxWorker.Worker

    constructor (store: Outbox.InMemoryOutboxStore, worker: OutboxWorker.Worker)
      requires worker.store == store
      ensures this.store == store && this.worker == worker
    {
      this.store, this.worker := store, worker;
    }

    /** `now` is read for the insert; `behave` and `clock` are those of the round. */
    method Submit(effect: Outbox.Effect, now: Outbox.Time, behave: nat -> OutboxWorker.Outcome,
                  clock: nat -> Outbox.Time)
      returns (status: DeliveryStatus)
      requires worker.store == store && Outbox.Valid(store.Contents())
      modifies store
      ensures Outbox.Valid(store.Contents())
      ensures var queued := Outbox.Enqueued(old(store.Contents()), effect, now);
              && Outbox.Valid(queued)
              && effect.key in queued.rows
              && store.Contents() == (if queued.rows[effect.key].status == Outbox.Status.Queued
                                      then OutboxWorker.Round(worker.cfg, queued, behave, clock) else queued)
      ensures effect.key in store.rows && status == ToDeliveryStatus(store.rows[effect.key])
    {
      Outbox.EnqueuedValid(store.Contents(), effect, now);
      var enqueued := store.Enqueue(effect, now);
      if enqueued.status == Outbox.Status.Queued {
        OutboxWorker.RoundValid(worker.cfg, store.Contents(), behave, clock);
        var stats := worker.RunOnce(behave, clock);
      }
      status := ToDeliveryStatus(store.rows[effect.key]);
    }
  }
}
