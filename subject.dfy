/**
 * Combine's `PassthroughSubject<Output, NetworkError>` as the session delegate
 * and the network use it: a log of what has been sent, and whether a completion
 * has been sent. A value or completion sent after the completion is dropped.
 */
module Subjects {
  import opened NetworkErrors

  datatype Completion = Finished | Failed(error: NetworkError)

  datatype Event<T> = Value(value: T) | End(completion: Completion)

  /** What a subscriber that subscribed before the first send observes, given what was sent. */
  function Observe<T>(sent: seq<Event<T>>): (observed: seq<Event<T>>)
    ensures |observed| <= |sent|
    ensures forall i :: 0 <= i < |observed| - 1 ==> observed[i].Value?
    ensures forall i :: 0 <= i < |observed| ==> observed[i] == sent[i]
    ensures |observed| < |sent| ==> |observed| > 0 && observed[|observed| - 1].End?
  {
    if |sent| == 0 then []
    else
      var before := Observe(sent[..|sent| - 1]);
      if |before| > 0 && before[|before| - 1].End? then before
      else before + [sent[|sent| - 1]]
  }

  /** A log is well formed when only its last event may be a completion. */
  ghost predicate WellFormed<T>(events: seq<Event<T>>)
  {
    forall i :: 0 <= i < |events| - 1 ==> events[i].Value?
  }

  class Subject<T> {
    /** The events delivered so far, in order. */
    var events: seq<Event<T>>
    /** Whether a completion has been delivered. */
    var completed: bool
    /** Everything ever sent, delivered or dropped. */
    ghost var sent: seq<Event<T>>

    ghost predicate Valid()
      reads this
    {
      && events == Observe(sent)
      && WellFormed(events)
      && (completed <==> |events| > 0 && events[|events| - 1].End?)
    }

    /** `PassthroughSubject()`: nothing sent yet. */
    constructor ()
      ensures Valid() && events == [] && !completed && sent == []
    {
      events := [];
      completed := false;
      sent := [];
    }

    /** `send(_:)`: deliver a value, unless the subject has completed. */
    method Send(v: T)
      requires Valid()
      modifies this
      ensures Valid() && sent == old(sent) + [Value(v)]
      ensures completed == old(completed)
      ensures events == if old(completed) then old(events) else old(events) + [Value(v)]
    {
      assert (sent + [Value(v)])[..|sent|] == sent;
      sent := sent + [Value(v)];
      if !completed {
        events := events + [Value(v)];
      }
    }

    /** `send(completion:)`: deliver the completion, unless the subject has already completed. */
    method SendCompletion(c: Completion)
      requires Valid()
      modifies this
      ensures Valid() && completed && sent == old(sent) + [End(c)]
      ensures events == if old(completed) then old(events) else old(events) + [End(c)]
    {
      assert (sent + [End(c)])[..|sent|] == sent;
      sent := sent + [End(c)];
      if !completed {
        events := events + [End(c)];
        completed := true;
      }
    }
  }

  /** Sending only values never completes an observed log, and a log is observed whole until its first completion. */
  lemma {:induction false} ObserveValues<T>(sent: seq<Event<T>>)
    requires forall i :: 0 <= i < |sent| ==> sent[i].Value?
    ensures Observe(sent) == sent
  {
    if |sent| > 0 {
      ObserveValues(sent[..|sent| - 1]);
    }
  }

  /** Once a completion has been observed, nothing more is. */
  lemma {:induction false} ObserveStopsAtCompletion<T>(sent: seq<Event<T>>, later: seq<Event<T>>)
    requires |Observe(sent)| > 0 && Observe(sent)[|Observe(sent)| - 1].End?
    ensures Observe(sent + later) == Observe(sent)
    decreases |later|
  {
    if |later| > 0 {
      var init := sent + later[..|later| - 1];
      assert (sent + later)[..|sent + later| - 1] == init;
      assert later[..|later| - 1][..|later| - 1 - 0] == later[..|later| - 1];
      ObserveStopsAtCompletion(sent, later[..|later| - 1]);
    } else {
      assert sent + later == sent;
    }
  }
}
