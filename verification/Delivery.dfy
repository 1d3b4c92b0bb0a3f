/** From the store and the feeds to the client, in one statement. */
module Delivery {
  import opened Basics
  import opened Assistant
  import opened Layout
  import opened Configuration
  import Store
  import StoreRuns
  import opened Snapshot

  /** What one turn sends passes `write_message`, `read_message` and `next_frame`. */
  predicate Delivered(s: Snapshot) {
    0 < |MessageText(s)| <= MAX_MESSAGE && Accepted(s)
  }

  lemma ValidIsDelivered(config: Config, preview: bool, sequence: u32, hour: byte, minute: byte,
                         power: PowerReading, assistants: AssistantState, now: u64)
    requires config.Valid() && hour < 24 && minute < 60 && |power.updatedAt| <= 40
    requires FromFeedTask(assistants, now) && now + 5000 <= MAX_DATE
    ensures Delivered(Built(sequence, hour, minute, power, assistants, config, preview))
  {
    EverySnapshotFits(sequence, hour, minute, power, assistants, config, preview, now);
    AcceptedIffDatesHeld(sequence, hour, minute, power, assistants, config, preview, now);
  }

  /**
   Whatever file the daemon started from and whatever clients have applied, previewed
   or cancelled since, crashes included: the snapshot of every turn of the clock loop
   fits into one message and passes the client's check, if the clock is below the
   client's largest date.
   */
  lemma EveryTickIsDelivered(file: Store.File, steps: seq<StoreRuns.Step>, store: Store.StoreState, clock: int,
                             sequence: u32, hour: byte, minute: byte, power: PowerReading,
                             assistants: AssistantState, now: u64)
    requires Store.Load(file).Opened? && Running(StoreRuns.Run(StoreRuns.From(file), steps), store, clock)
    requires hour < 24 && minute < 60 && |power.updatedAt| <= 40
    requires FromFeedTask(assistants, now) && now + 5000 <= MAX_DATE
    ensures Store.Output(store, clock).panels != []
    ensures Delivered(Built(sequence, hour, minute, power, assistants,
                            Store.Output(store, clock), Store.PreviewActive(store, clock)))
  {
    StoreRuns.OutputIsValid(file, steps);
    ValidIsDelivered(Store.Output(store, clock), Store.PreviewActive(store, clock),
                     sequence, hour, minute, power, assistants, now);
  }

  /** A running process between two calls, with its store and its clock. */
  predicate Running(w: StoreRuns.World, store: Store.StoreState, clock: int) {
    && w.process.Some? && w.process.value.progress.Idle? && w.process.value.store == store && w.now == clock
  }
}
