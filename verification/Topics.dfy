/** Kafka topics as the workers see them: append-only logs. */
module Topics {

  /** A topic with its dead-letter topic and its one consumer group's committed offset. */
  class Topic<M> {
    var log: seq<M>
    var dlq: seq<M>
    var committed: nat

    constructor ()
      ensures log == [] && dlq == [] && committed == 0
    {
      log, dlq, committed := [], [], 0;
    }
  }
}
