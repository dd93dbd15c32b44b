/**
 * The session-task extension of `Network`: suspend, resume or cancel the first
 * task in a given state whose original request is the given one, and flush.
 */
module NetworkSessionTasks {
  import opened Wrappers
  import opened NetworkRequests
  import opened Sessions
  import opened Networks

  /** `suspend(for:)`: the first running task with this original request is suspended. */
  method Suspend(network: Network, request: URLRequest)
    modifies network.session
    ensures network.session.tasks == Apply(old(network.session.tasks), FirstWhere(old(network.session.tasks), InState(Running), HasRequest(request)), Suspended)
    ensures network.session.flushes == old(network.session.flushes) && network.session.invalidated == old(network.session.invalidated)
  {
    var selected := FirstWhere(network.session.tasks, InState(Running), HasRequest(request));
    network.session.Transition(selected, Suspended);
  }

  /** `resume(for:)`: the first suspended task with this original request runs again. */
  method Resume(network: Network, request: URLRequest)
    modifies network.session
    ensures network.session.tasks == Apply(old(network.session.tasks), FirstWhere(old(network.session.tasks), InState(Suspended), HasRequest(request)), Running)
    ensures network.session.flushes == old(network.session.flushes) && network.session.invalidated == old(network.session.invalidated)
  {
    var selected := FirstWhere(network.session.tasks, InState(Suspended), HasRequest(request));
    network.session.Transition(selected, Running);
  }

  /** `cancel(for:)`: the first running task with this original request is cancelled. */
  method Cancel(network: Network, request: URLRequest)
    modifies network.session
    ensures network.session.tasks == Apply(old(network.session.tasks), FirstWhere(old(network.session.tasks), InState(Running), HasRequest(request)), Canceling)
    ensures network.session.flushes == old(network.session.flushes) && network.session.invalidated == old(network.session.invalidated)
  {
    var selected := FirstWhere(network.session.tasks, InState(Running), HasRequest(request));
    network.session.Transition(selected, Canceling);
  }

  /** `cancelAllRequests`: only flushes the session; no task changes state. */
  method CancelAllRequests(network: Network)
    modifies network.session
    ensures network.session.tasks == old(network.session.tasks)
    ensures network.session.flushes == old(network.session.flushes) + 1
    ensures network.session.invalidated == old(network.session.invalidated)
  {
    network.session.Flush();
  }

  /**
   * Suspending, resuming or cancelling by request changes at most one task:
   * the first one in the required state whose original request is the given
   * one; every other task keeps its state, and nothing changes without a match.
   */
  lemma ChangesFirstMatchingTaskOnly(tasks: seq<SessionTask>, from: TaskState, request: URLRequest, to: TaskState)
    ensures var r := Apply(tasks, FirstWhere(tasks, InState(from), HasRequest(request)), to);
            && |r| == |tasks|
            && (forall i, j :: 0 <= i < j < |tasks| && r[i] != tasks[i] ==> r[j] == tasks[j])
            && (forall i :: 0 <= i < |tasks| && r[i] != tasks[i] ==>
                  && tasks[i].state == from && tasks[i].originalRequest == Some(request) && r[i].state == to
                  && forall j :: 0 <= j < i ==> !(tasks[j].state == from && tasks[j].originalRequest == Some(request)))
            && ((forall i :: 0 <= i < |tasks| ==> !(tasks[i].state == from && tasks[i].originalRequest == Some(request)))
                  ==> r == tasks)
  {
    ActsOnFirstMatchOnly(tasks, InState(from), HasRequest(request), to);
  }
}
