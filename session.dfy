/**
 * The part of `URLSession` the network drives: its list of tasks, each with
 * the request it was created for, what kind of task it is and its state, and
 * the `flush` and `invalidateAndCancel` calls. Task selection by
 * `filter`/`filter`/`first` is modelled on task indices, since tasks are objects.
 */
module Sessions {
  import opened Wrappers
  import opened Bytes
  import opened NetworkRequests

  datatype TaskState = Running | Suspended | Canceling | Completed

  datatype TaskKind =
    | DataTask
    | DownloadTask
    | UploadFromData(bodyData: Bytes)
    | UploadFromFile(fileURL: Url)
    | ResumedDownload(resumeData: Bytes)

  /** The scheduling hints `resumeBackgroundTask` sets before resuming a task. */
  datatype BackgroundHints = BackgroundHints(beginDelaySeconds: int, bytesClientExpectsToSend: int, bytesClientExpectsToReceive: int)

  /** A begin date one hour ahead, 200 bytes to send, 500 KiB to receive. */
  const BackgroundTaskHints := BackgroundHints(60 * 60, 200, 500 * 1024)

  datatype SessionTask = SessionTask(originalRequest: Option<URLRequest>, kind: TaskKind, state: TaskState, hints: Option<BackgroundHints>)

  function InState(s: TaskState): SessionTask -> bool
  {
    (t: SessionTask) => t.state == s
  }

  /** `$0.originalRequest == request`. */
  function HasRequest(request: URLRequest): SessionTask -> bool
  {
    (t: SessionTask) => t.originalRequest == Some(request)
  }

  /** `$0.originalRequest?.url == url`: a task without an original request never matches. */
  function HasUrl(url: Url): SessionTask -> bool
  {
    (t: SessionTask) => t.originalRequest.Some? && t.originalRequest.value.url == url
  }

  /** The conjunction of two task predicates. */
  function Both(p: SessionTask -> bool, q: SessionTask -> bool): SessionTask -> bool
  {
    (t: SessionTask) => p(t) && q(t)
  }

  function Indices(n: nat): (r: seq<nat>)
    ensures |r| == n && forall i :: 0 <= i < n ==> r[i] == i
  {
    seq(n, i => i)
  }

  /** `filter`: the indices among `from`, in order, whose task satisfies `p`. */
  function Filter(tasks: seq<SessionTask>, from: seq<nat>, p: SessionTask -> bool): (r: seq<nat>)
    requires forall j :: 0 <= j < |from| ==> from[j] < |tasks|
    ensures |r| <= |from|
    ensures forall j :: 0 <= j < |r| ==> r[j] in from && r[j] < |tasks| && p(tasks[r[j]])
    // every index whose task satisfies `p` is kept
    ensures forall j :: 0 <= j < |from| && p(tasks[from[j]]) ==> from[j] in r
    // the kept indices keep their order: from ascending indices come ascending indices
    ensures (forall i, j :: 0 <= i < j < |from| ==> from[i] < from[j]) ==> (forall i, j :: 0 <= i < j < |r| ==> r[i] < r[j])
  {
    if from == [] then []
    else
      assert forall j :: 1 <= j < |from| ==> from[j] == from[1..][j - 1];
      (if p(tasks[from[0]]) then [from[0]] else []) + Filter(tasks, from[1..], p)
  }

  /** `.filter { p }.filter { q }.first`. */
  function FirstWhere(tasks: seq<SessionTask>, p: SessionTask -> bool, q: SessionTask -> bool): (r: Option<nat>)
    ensures r.Some? ==> r.value < |tasks| && p(tasks[r.value]) && q(tasks[r.value])
  {
    var candidates := Filter(tasks, Filter(tasks, Indices(|tasks|), p), q);
    if candidates == [] then None else Some(candidates[0])
  }

  lemma {:induction false} FilterAppend(tasks: seq<SessionTask>, a: seq<nat>, b: seq<nat>, p: SessionTask -> bool)
    requires forall j :: 0 <= j < |a| ==> a[j] < |tasks|
    requires forall j :: 0 <= j < |b| ==> b[j] < |tasks|
    ensures Filter(tasks, a + b, p) == Filter(tasks, a, p) + Filter(tasks, b, p)
  {
    if a != [] {
      assert (a + b)[1..] == a[1..] + b;
      FilterAppend(tasks, a[1..], b, p);
    } else {
      assert a + b == b;
    }
  }

  /** Filtering twice is filtering once by the conjunction. */
  lemma {:induction false} FilterFilter(tasks: seq<SessionTask>, from: seq<nat>, p: SessionTask -> bool, q: SessionTask -> bool)
    requires forall j :: 0 <= j < |from| ==> from[j] < |tasks|
    ensures Filter(tasks, Filter(tasks, from, p), q) == Filter(tasks, from, Both(p, q))
  {
    if from != [] {
      var head := if p(tasks[from[0]]) then [from[0]] else [];
      var rest := Filter(tasks, from[1..], p);
      FilterAppend(tasks, head, rest, q);
      FilterFilter(tasks, from[1..], p, q);
    }
  }

  /** A filter is empty exactly when no element of `from` satisfies the predicate. */
  lemma {:induction false} FilterEmpty(tasks: seq<SessionTask>, from: seq<nat>, p: SessionTask -> bool)
    requires forall j :: 0 <= j < |from| ==> from[j] < |tasks|
    ensures Filter(tasks, from, p) == [] <==> forall k :: 0 <= k < |from| ==> !p(tasks[from[k]])
  {
    if from != [] {
      FilterEmpty(tasks, from[1..], p);
      assert forall k :: 1 <= k < |from| ==> from[k] == from[1..][k - 1];
    }
  }

  /** The head of a filter is the first element of `from` that satisfies the predicate. */
  lemma {:induction false} FilterHead(tasks: seq<SessionTask>, from: seq<nat>, p: SessionTask -> bool) returns (k: nat)
    requires forall j :: 0 <= j < |from| ==> from[j] < |tasks|
    requires Filter(tasks, from, p) != []
    ensures k < |from| && Filter(tasks, from, p)[0] == from[k] && p(tasks[from[k]])
    ensures forall k' :: 0 <= k' < k ==> !p(tasks[from[k']])
  {
    if p(tasks[from[0]]) {
      k := 0;
    } else {
      var k1 := FilterHead(tasks, from[1..], p);
      k := k1 + 1;
      assert from[1..][k1] == from[k];
      forall k' | 0 <= k' < k
        ensures !p(tasks[from[k']])
      {
        if k' > 0 {
          assert from[k'] == from[1..][k' - 1];
        }
      }
    }
  }

  /** The task the source picks is the first task satisfying both predicates; there is none exactly when no task does. */
  lemma FirstWhereIsFirstMatch(tasks: seq<SessionTask>, p: SessionTask -> bool, q: SessionTask -> bool)
    ensures FirstWhere(tasks, p, q).None? <==> forall i :: 0 <= i < |tasks| ==> !(p(tasks[i]) && q(tasks[i]))
    ensures FirstWhere(tasks, p, q).Some? ==>
              forall i :: 0 <= i < FirstWhere(tasks, p, q).value ==> !(p(tasks[i]) && q(tasks[i]))
  {
    var all := Indices(|tasks|);
    var both := Both(p, q);
    assert forall t :: both(t) == (p(t) && q(t));
    FilterFilter(tasks, all, p, q);
    FilterEmpty(tasks, all, both);
    if Filter(tasks, all, both) != [] {
      var k := FilterHead(tasks, all, both);
      assert FirstWhere(tasks, p, q).value == all[k] == k;
      forall i | 0 <= i < k
        ensures !(p(tasks[i]) && q(tasks[i]))
      {
        assert all[i] == i;
      }
    } else {
      forall i | 0 <= i < |tasks|
        ensures !(p(tasks[i]) && q(tasks[i]))
      {
        assert all[i] == i;
      }
    }
  }

  /** The task list after the selected task, if any, moves to state `s`. */
  function Apply(tasks: seq<SessionTask>, selected: Option<nat>, s: TaskState): (r: seq<SessionTask>)
    requires selected.Some? ==> selected.value < |tasks|
    ensures |r| == |tasks|
    ensures forall i :: 0 <= i < |tasks| && selected != Some(i) ==> r[i] == tasks[i]
    ensures selected.Some? ==> r[selected.value] == tasks[selected.value].(state := s)
  {
    if selected.None? then tasks else tasks[selected.value := tasks[selected.value].(state := s)]
  }

  /**
   * Acting on the first match changes at most one task, the first one that
   * satisfies both predicates, and nothing when none does.
   */
  lemma ActsOnFirstMatchOnly(tasks: seq<SessionTask>, p: SessionTask -> bool, q: SessionTask -> bool, s: TaskState)
    ensures var r := Apply(tasks, FirstWhere(tasks, p, q), s);
            && |r| == |tasks|
            && (forall i, j :: 0 <= i < j < |tasks| && r[i] != tasks[i] ==> r[j] == tasks[j])
            && (forall i :: 0 <= i < |tasks| && r[i] != tasks[i] ==>
                  && p(tasks[i]) && q(tasks[i]) && r[i].state == s
                  && forall j :: 0 <= j < i ==> !(p(tasks[j]) && q(tasks[j])))
            && ((forall i :: 0 <= i < |tasks| ==> !(p(tasks[i]) && q(tasks[i]))) ==> r == tasks)
  {
    FirstWhereIsFirstMatch(tasks, p, q);
  }

  /** `invalidateAndCancel`: every outstanding task is cancelled. */
  function CancelOutstanding(tasks: seq<SessionTask>): (r: seq<SessionTask>)
    ensures |r| == |tasks|
    ensures forall i :: 0 <= i < |r| ==> r[i].state != Running && r[i].state != Suspended
    ensures forall i :: 0 <= i < |r| ==> r[i].(state := tasks[i].state) == tasks[i]
    ensures forall i :: 0 <= i < |r| && tasks[i].state != Running && tasks[i].state != Suspended ==> r[i] == tasks[i]
  {
    seq(|tasks|, i requires 0 <= i < |tasks| =>
      if tasks[i].state == Running || tasks[i].state == Suspended then tasks[i].(state := Canceling) else tasks[i])
  }

  class URLSession {
    var tasks: seq<SessionTask>
    /** How many times `flush` has been called. */
    var flushes: nat
    var invalidated: bool

    constructor ()
      ensures tasks == [] && flushes == 0 && !invalidated
    {
      tasks := [];
      flushes := 0;
      invalidated := false;
    }

    /** Creates a task of the given kind, applies the scheduling hints if any, and resumes it. */
    method StartTask(request: Option<URLRequest>, kind: TaskKind, hints: Option<BackgroundHints>)
      modifies this
      ensures tasks == old(tasks) + [SessionTask(request, kind, Running, hints)]
      ensures flushes == old(flushes) && invalidated == old(invalidated)
    {
      var task := SessionTask(request, kind, Suspended, None);
      task := task.(hints := hints);
      task := task.(state := Running);
      tasks := tasks + [task];
    }

    /** `suspend()`, `resume()` or `cancel()` on the selected task, if any. */
    method Transition(selected: Option<nat>, s: TaskState)
      requires selected.Some? ==> selected.value < |tasks|
      modifies this
      ensures tasks == Apply(old(tasks), selected, s)
      ensures flushes == old(flushes) && invalidated == old(invalidated)
    {
      if selected.Some? {
        var i := selected.value;
        tasks := tasks[i := tasks[i].(state := s)];
      }
    }

    /** `flush`: writes cookies and credentials out; no task changes. */
    method Flush()
      modifies this
      ensures flushes == old(flushes) + 1
      ensures tasks == old(tasks) && invalidated == old(invalidated)
    {
      flushes := flushes + 1;
    }

    method InvalidateAndCancel()
      modifies this
      ensures tasks == CancelOutstanding(old(tasks)) && invalidated
      ensures flushes == old(flushes)
    {
      tasks := CancelOutstanding(tasks);
      invalidated := true;
    }
  }
}
