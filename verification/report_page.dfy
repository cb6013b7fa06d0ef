/**
 * The report page of app/dashboard-b/page.tsx: on mount it asks for the
 * complete analysis; a cached report is shown at once, a task id starts a
 * poll loop that asks for the task's status every 2000 ms until the task
 * completes or fails, and the report is then paged through six sections.
 *
 * Network replies are inputs, and the timer that re-issues a poll is an
 * immediate next request: `requests` counts the status requests issued.
 */
module ReportPage {
  import opened Wrappers

  /** The report payload, kept as the JSON text the backend sent. */
  datatype Report = Report(json: string)

  datatype TaskState = Pending | Running | Completed | Failed

  /** `taskStatus.result`, whose `data` member may be absent. */
  datatype TaskResult = TaskResult(data: Option<Report>)

  datatype TaskStatus = TaskStatus(id: string, status: TaskState, progress: int, result: Option<TaskResult>)

  /** The outcome of GET /api/launchpad/complete-analysis. */
  datatype AnalysisReply =
    | AnalysisNotOk
      /** An exception; `thrownMessage` is absent when what was thrown is not an `Error`. */
    | AnalysisThrown(thrownMessage: Option<string>)
    | AnalysisBody(success: bool, message: string, taskId: Option<string>, data: Option<Report>)

  /** The outcome of one GET .../launchpad/task-status/{taskId}. */
  datatype PollReply = PollNotOk | PollThrown | PollBody(success: bool, taskStatus: TaskStatus)

  /** The six report sections, competitorAnalysis through launchpad. */
  const SectionCount := 6
  const FetchFailed := "Failed to fetch report data"
  const UnknownError := "Unknown error occurred"
  const GenericError := "An error occurred"
  const AnalysisFailed := "Analysis failed. Please try again."
  const StatusFailed := "Failed to get analysis status. Please refresh the page."

  /**
   * The page's React state plus the two facts about its pending work:
   * whether the first request is still out, and the task id of the
   * scheduled poll, if any.
   */
  datatype PageState = PageState(
    isLoading: bool,
    reportData: Option<Report>,
    taskStatus: Option<TaskStatus>,
    error: Option<string>,
    currentPage: int,
    awaitingAnalysis: bool,
    polling: Option<string>,
    requests: nat)

  datatype Phase = Loading | Polling | Ready | Errored

  function PhaseOf(s: PageState): Phase {
    if s.awaitingAnalysis then Loading
    else if s.polling.Some? then Polling
    else if s.error.Some? then Errored
    else Ready
  }

  predicate Terminal(s: PageState) {
    PhaseOf(s) == Ready || PhaseOf(s) == Errored
  }

  /** The states the page can be in. */
  ghost predicate Valid(s: PageState) {
    && 0 <= s.currentPage < SectionCount
    && !(s.awaitingAnalysis && s.polling.Some?)
    && s.isLoading == (s.awaitingAnalysis || s.polling.Some?)
    && (s.error.Some? ==> !s.isLoading && s.reportData.None?)
    && (s.isLoading ==> s.reportData.None?)
    && (s.awaitingAnalysis ==> s.taskStatus.None? && s.requests == 0)
    && (s.polling.Some? ==> s.taskStatus.Some? && s.requests >= 1)
  }

  /** The state on mount, with the complete-analysis request out. */
  function Mounted(): (s: PageState)
    ensures Valid(s) && PhaseOf(s) == Loading && s.isLoading
  {
    PageState(true, None, None, None, 0, true, None, 0)
  }

  /** The catch blocks: show `message`, stop loading, schedule nothing. */
  function Fail(s: PageState, message: string): PageState {
    s.(error := Some(message), isLoading := false, awaitingAnalysis := false, polling := None)
  }

  /**
   * The text `fetchReportData`'s catch block shows. It is empty only when an
   * `Error` with an empty message was thrown: the page's own texts and a
   * reply's empty `message` (replaced by "Unknown error occurred") never are.
   */
  function AnalysisErrorText(reply: AnalysisReply): (t: string)
    ensures t == "" ==> reply == AnalysisThrown(Some(""))
    ensures reply.AnalysisNotOk? ==> t == FetchFailed
    ensures reply.AnalysisBody? && reply.message == "" ==> t == UnknownError
    ensures reply == AnalysisThrown(None) ==> t == GenericError
    ensures reply.AnalysisBody? && reply.message != "" ==> t == reply.message
    ensures reply.AnalysisThrown? && reply.thrownMessage.Some? ==> t == reply.thrownMessage.value
  {
    match reply
    case AnalysisNotOk => FetchFailed
    case AnalysisThrown(m) => m.GetOr(GenericError)
    case AnalysisBody(_, message, _, _) => if message != "" then message else UnknownError
  }

  /** A reply with a truthy `success && data`: the cached report. */
  predicate Cached(reply: AnalysisReply) {
    reply.AnalysisBody? && reply.success && reply.data.Some?
  }

  /** A reply that is not cached but carries a truthy `taskId`. */
  predicate Queued(reply: AnalysisReply) {
    reply.AnalysisBody? && !Cached(reply) && reply.taskId.Some? && reply.taskId.value != ""
  }

  /** `fetchReportData` once its reply is in. */
  function AfterAnalysis(s: PageState, reply: AnalysisReply): (r: PageState)
    requires Valid(s) && s.awaitingAnalysis
    ensures Valid(r) && !r.awaitingAnalysis && r.currentPage == s.currentPage
    ensures Cached(reply) <==> PhaseOf(r) == Ready
    ensures Cached(reply) ==> r.reportData == reply.data && r.requests == 0
    ensures Queued(reply) <==> PhaseOf(r) == Polling
    ensures Queued(reply) ==>
              && r.polling == reply.taskId
              && r.taskStatus == Some(TaskStatus(reply.taskId.value, Pending, 0, None))
              && r.requests == 1
    ensures !Cached(reply) && !Queued(reply) <==> PhaseOf(r) == Errored
    ensures PhaseOf(r) == Errored ==> r.error == Some(AnalysisErrorText(reply)) && !r.isLoading
  {
    match reply
    case AnalysisBody(success, message, taskId, data) =>
      if success && data.Some? then
        s.(reportData := data, isLoading := false, awaitingAnalysis := false)
      else if taskId.Some? && taskId.value != "" then
        s.(taskStatus := Some(TaskStatus(taskId.value, Pending, 0, None)),
           awaitingAnalysis := false, polling := taskId, requests := 1)
      else
        Fail(s, AnalysisErrorText(reply))
    case _ => Fail(s, AnalysisErrorText(reply))
  }

  /** A successful poll reply for a task that finished with a result. */
  predicate Completes(reply: PollReply) {
    reply.PollBody? && reply.success
    && reply.taskStatus.status == Completed && reply.taskStatus.result.Some?
  }

  /** A successful poll reply for a failed task. */
  predicate FailsTask(reply: PollReply) {
    reply.PollBody? && reply.success && reply.taskStatus.status == Failed
  }

  /** A successful poll reply that is neither: another poll follows. */
  predicate Waits(reply: PollReply) {
    reply.PollBody? && reply.success && !Completes(reply) && !FailsTask(reply)
  }

  /** `pollTaskStatus` once its reply is in. */
  function AfterPoll(s: PageState, reply: PollReply): (r: PageState)
    requires Valid(s) && s.polling.Some?
    ensures Valid(r) && r.currentPage == s.currentPage
    ensures reply.PollBody? && reply.success ==> r.taskStatus == Some(reply.taskStatus)
    ensures !(reply.PollBody? && reply.success) ==>
              PhaseOf(r) == Errored && r.error == Some(StatusFailed) && r.taskStatus == s.taskStatus
    ensures Completes(reply) ==>
              PhaseOf(r) == Ready && r.reportData == reply.taskStatus.result.value.data
    ensures FailsTask(reply) ==> PhaseOf(r) == Errored && r.error == Some(AnalysisFailed)
    ensures Waits(reply) <==> PhaseOf(r) == Polling
    ensures Waits(reply) ==> r.polling == s.polling && r.requests == s.requests + 1
    ensures !Waits(reply) ==> r.requests == s.requests && !r.isLoading
  {
    match reply
    case PollBody(true, ts) =>
      var s1 := s.(taskStatus := Some(ts));
      if ts.status == Completed && ts.result.Some? then
        s1.(reportData := ts.result.value.data, isLoading := false, polling := None)
      else if ts.status == Failed then
        Fail(s1, AnalysisFailed)
      else
        s1.(requests := s.requests + 1)
    case _ => Fail(s, StatusFailed)
  }

  /**
   * Feeding a script of poll replies to the page: replies are consumed while
   * a poll is scheduled; the result is the final state and how many replies
   * (= status requests answered) were consumed.
   */
  function RunPolls(s: PageState, replies: seq<PollReply>): (r: (PageState, nat))
    requires Valid(s)
    ensures Valid(r.0) && r.1 <= |replies|
    ensures r.1 == |replies| || r.0.polling.None?
    decreases |replies|
  {
    if s.polling.None? || replies == [] then (s, 0)
    else
      var (t, n) := RunPolls(AfterPoll(s, replies[0]), replies[1..]);
      (t, n + 1)
  }

  /** Ready and error are absorbing: no poll is scheduled, so no reply is taken. */
  lemma TerminalAbsorbs(s: PageState, replies: seq<PollReply>)
    requires Valid(s) && Terminal(s)
    ensures RunPolls(s, replies) == (s, 0)
  {
  }

  /** A task that never finishes is polled for ever: one request per reply, no limit. */
  lemma {:induction false} PollsIndefinitely(s: PageState, replies: seq<PollReply>)
    requires Valid(s) && PhaseOf(s) == Polling
    requires forall i :: 0 <= i < |replies| ==> Waits(replies[i])
    ensures PhaseOf(RunPolls(s, replies).0) == Polling
    ensures RunPolls(s, replies).1 == |replies|
    ensures RunPolls(s, replies).0.requests == s.requests + |replies|
    decreases |replies|
  {
    if replies != [] {
      PollsIndefinitely(AfterPoll(s, replies[0]), replies[1..]);
    }
  }

  /**
   * A run of waiting replies followed by a reply that ends the task: exactly
   * one request per reply up to and including the ending one, nothing after it.
   */
  lemma {:induction false} PollsUntilEnd(s: PageState, waits: seq<PollReply>, last: PollReply, rest: seq<PollReply>)
    requires Valid(s) && PhaseOf(s) == Polling
    requires forall i :: 0 <= i < |waits| ==> Waits(waits[i])
    requires !Waits(last)
    ensures Terminal(RunPolls(s, waits + [last] + rest).0)
    ensures RunPolls(s, waits + [last] + rest).1 == |waits| + 1
    ensures RunPolls(s, waits + [last] + rest).0.requests == s.requests + |waits|
    ensures Completes(last) ==> PhaseOf(RunPolls(s, waits + [last] + rest).0) == Ready
    ensures !Completes(last) ==> PhaseOf(RunPolls(s, waits + [last] + rest).0) == Errored
    decreases |waits|
  {
    var script := waits + [last] + rest;
    if waits == [] {
      assert script[0] == last && script[1..] == rest;
      TerminalAbsorbs(AfterPoll(s, last), rest);
    } else {
      assert script[0] == waits[0];
      assert script[1..] == waits[1..] + [last] + rest;
      PollsUntilEnd(AfterPoll(s, waits[0]), waits[1..], last, rest);
    }
  }

  /**
   * The whole flow for a queued task answered `pending`, `pending`,
   * `completed` with a result: three status requests, then the report.
   */
  lemma ThreeStatusRequests(id: string, p1: PollReply, p2: PollReply, done: PollReply, later: seq<PollReply>)
    requires id != ""
    requires Waits(p1) && Waits(p2) && Completes(done)
    ensures var s := AfterAnalysis(Mounted(), AnalysisBody(false, "", Some(id), None));
            && RunPolls(s, [p1, p2, done] + later).1 == 3
            && RunPolls(s, [p1, p2, done] + later).0.requests == 3
            && PhaseOf(RunPolls(s, [p1, p2, done] + later).0) == Ready
  {
    var s := AfterAnalysis(Mounted(), AnalysisBody(false, "", Some(id), None));
    assert [p1, p2, done] + later == [p1, p2] + [done] + later;
    PollsUntilEnd(s, [p1, p2], done, later);
  }

  /** What the page renders, in the order its early returns test. */
  datatype View = ErrorPanel(message: string) | LoaderView(progress: Option<int>) | NoData | SectionView(page: int)

  function ViewOf(s: PageState): (v: View)
    ensures v.ErrorPanel? <==> s.error.Some? && s.error.value != ""
    ensures v.LoaderView? ==> s.isLoading
    ensures v.SectionView? ==> s.reportData.Some? && !s.isLoading && v.page == s.currentPage
    ensures !(s.error.Some? && s.error.value != "") ==> (v.LoaderView? <==> s.isLoading)
    ensures !(s.error.Some? && s.error.value != "") && !s.isLoading ==>
              v == (if s.reportData.Some? then SectionView(s.currentPage) else NoData)
  {
    if s.error.Some? && s.error.value != "" then ErrorPanel(s.error.value)
    else if s.isLoading then LoaderView(if s.taskStatus.Some? then Some(s.taskStatus.value.progress) else None)
    else if s.reportData.None? then NoData
    else SectionView(s.currentPage)
  }

  /**
   * The view follows the phase: the loader while loading or polling, the
   * error panel for a non-empty error, a section once a report is in; an
   * empty error text or a completed task without `data` shows "No Data".
   */
  lemma ViewByPhase(s: PageState)
    requires Valid(s)
    ensures PhaseOf(s) == Loading || PhaseOf(s) == Polling ==> ViewOf(s).LoaderView?
    ensures PhaseOf(s) == Errored ==> ViewOf(s) == (if s.error.value != "" then ErrorPanel(s.error.value) else NoData)
    ensures PhaseOf(s) == Ready ==> ViewOf(s) == (if s.reportData.Some? then SectionView(s.currentPage) else NoData)
  {
  }

  /** `nextPage`: one section forward unless on the last. */
  function NextPage(p: int): (q: int)
    requires 0 <= p < SectionCount
    ensures 0 <= q < SectionCount
    ensures q == (if p == SectionCount - 1 then p else p + 1)
  {
    if p < SectionCount - 1 then p + 1 else p
  }

  /** `prevPage`: one section back unless on the first. */
  function PrevPage(p: int): (q: int)
    requires 0 <= p < SectionCount
    ensures 0 <= q < SectionCount
    ensures q == (if p == 0 then p else p - 1)
  {
    if p > 0 then p - 1 else p
  }

  /** Forward then back returns to the page, except from the last one. */
  lemma PagingInverse(p: int)
    requires 0 <= p < SectionCount
    ensures p < SectionCount - 1 ==> PrevPage(NextPage(p)) == p
    ensures p > 0 ==> NextPage(PrevPage(p)) == p
  {
  }

  /** The page component: its state, with one method per event. */
  class ReportDashboard {
    var isLoading: bool
    var reportData: Option<Report>
    var taskStatus: Option<TaskStatus>
    var error: Option<string>
    var currentPage: int
    var awaitingAnalysis: bool
    var polling: Option<string>
    var requests: nat

    function State(): PageState
      reads this
    {
      PageState(isLoading, reportData, taskStatus, error, currentPage, awaitingAnalysis, polling, requests)
    }

    method SetState(s: PageState)
      modifies this
      ensures State() == s
    {
      isLoading, reportData, taskStatus, error := s.isLoading, s.reportData, s.taskStatus, s.error;
      currentPage, awaitingAnalysis, polling, requests := s.currentPage, s.awaitingAnalysis, s.polling, s.requests;
    }

    /** Mounting the page issues the complete-analysis request. */
    constructor ()
      ensures State() == Mounted()
    {
      isLoading, reportData, taskStatus, error := true, None, None, None;
      currentPage, awaitingAnalysis, polling, requests := 0, true, None, 0;
    }

    /** The complete-analysis reply arrives. */
    method OnAnalysis(reply: AnalysisReply)
      requires Valid(State()) && awaitingAnalysis
      modifies this
      ensures State() == AfterAnalysis(old(State()), reply)
      ensures Valid(State())
    {
      SetState(AfterAnalysis(State(), reply));
    }

    /** The reply to the scheduled status request arrives. */
    method OnTaskStatus(reply: PollReply)
      requires Valid(State()) && polling.Some?
      modifies this
      ensures State() == AfterPoll(old(State()), reply)
      ensures Valid(State())
    {
      SetState(AfterPoll(State(), reply));
    }

    method NextPageClicked()
      requires Valid(State())
      modifies this`currentPage
      ensures currentPage == NextPage(old(currentPage))
      ensures Valid(State())
    {
      if currentPage < SectionCount - 1 {
        currentPage := currentPage + 1;
      }
    }

    method PrevPageClicked()
      requires Valid(State())
      modifies this`currentPage
      ensures currentPage == PrevPage(old(currentPage))
      ensures Valid(State())
    {
      if currentPage > 0 {
        currentPage := currentPage - 1;
      }
    }

    /** `goToPage`, reached only from the six section buttons. */
    method GoToPage(pageIndex: int)
      requires Valid(State()) && 0 <= pageIndex < SectionCount
      modifies this`currentPage
      ensures currentPage == pageIndex
      ensures Valid(State())
    {
      currentPage := pageIndex;
    }
  }
}
