/**
 * The decisions of the My Page screen: which thumbnail and status badge a
 * job card shows, what opening a job does, when retry is offered, whether
 * the member is PRO, and how the first load merges its three requests.
 *
 * Record fields are strings, and the empty string stands for any falsy
 * field (`undefined`, `null`, `''`).
 */
module MyPage {
  import opened Wrappers

  /** The job record fields the screen reads. */
  datatype Job = Job(
    id: string, jobId: string, status: string,
    previewImageUrl: string, correctedImageUrl: string, sourceImageUrl: string,
    ldrUrl: string, ldrUrlSnake: string, errorMessage: string)

  /** `a || b`: the first operand when it is truthy, else the second. */
  function Or(a: string, b: string): string {
    if a != "" then a else b
  }

  /** `getJobThumbUrl`: the preview image, else the corrected image, else the source image, else ''. */
  function GetJobThumbUrl(job: Job): (url: string)
    ensures url == "" <==> job.previewImageUrl == "" && job.correctedImageUrl == "" && job.sourceImageUrl == ""
    ensures job.previewImageUrl != "" ==> url == job.previewImageUrl
    ensures job.previewImageUrl == "" && job.correctedImageUrl != "" ==> url == job.correctedImageUrl
    ensures job.previewImageUrl == "" && job.correctedImageUrl == "" ==> url == job.sourceImageUrl
  {
    Or(Or(Or(job.previewImageUrl, job.correctedImageUrl), job.sourceImageUrl), "")
  }

  /** The five job statuses the screen knows. */
  predicate IsKnownStatus(status: string) {
    status == "QUEUED" || status == "RUNNING" || status == "DONE" || status == "FAILED" || status == "CANCELED"
  }

  /** The translated status labels of the current language. */
  datatype StatusLabels = StatusLabels(queued: string, running: string, done: string, failed: string, canceled: string)

  datatype StatusMeta = StatusMeta(caption: string, color: string)

  const QueuedColor: string := "#6B7280"
  const RunningColor: string := "#2563EB"
  const DoneColor: string := "#15803D"
  const FailedColor: string := "#DC2626"
  const MutedColor: string := "#9CA3AF"

  /** The colour of a status badge. */
  function StatusColor(status: string): string {
    if status == "QUEUED" then QueuedColor
    else if status == "RUNNING" then RunningColor
    else if status == "DONE" then DoneColor
    else if status == "FAILED" then FailedColor
    else MutedColor
  }

  /** `getStatusMeta`: a known status gets its translated label; any other shows itself, or '-' when missing. */
  function GetStatusMeta(status: string, t: StatusLabels): (meta: StatusMeta)
    ensures meta.color == StatusColor(status)
    ensures status == "QUEUED" ==> meta.caption == t.queued
    ensures status == "RUNNING" ==> meta.caption == t.running
    ensures status == "DONE" ==> meta.caption == t.done
    ensures status == "FAILED" ==> meta.caption == t.failed
    ensures status == "CANCELED" ==> meta.caption == t.canceled
    ensures !IsKnownStatus(status) ==> meta.caption == Or(status, "-") && meta.caption != ""
  {
    match status
    case "QUEUED" => StatusMeta(t.queued, QueuedColor)
    case "RUNNING" => StatusMeta(t.running, RunningColor)
    case "DONE" => StatusMeta(t.done, DoneColor)
    case "FAILED" => StatusMeta(t.failed, FailedColor)
    case "CANCELED" => StatusMeta(t.canceled, MutedColor)
    case _ => StatusMeta(Or(status, "-"), MutedColor)
  }

  /** The badge colour does not depend on the language, and an unknown status looks like a cancelled one. */
  lemma StatusColorFixed(status: string, t1: StatusLabels, t2: StatusLabels)
    ensures GetStatusMeta(status, t1).color == GetStatusMeta(status, t2).color
    ensures !IsKnownStatus(status) ==> GetStatusMeta(status, t1).color == GetStatusMeta("CANCELED", t1).color
    ensures IsKnownStatus(status) && status != "CANCELED" ==> GetStatusMeta(status, t1).color != MutedColor
  {
  }

  /** What `handleOpenJob` does. */
  datatype OpenOutcome =
    | OpenResult(ldrUrl: string, jobId: string)
    | AlertShown(title: string, body: string)

  const FailedTitle: string := "작업 실패"
  const FailedBody: string := "작업이 실패했습니다."
  const PendingTitle: string := "처리 중"
  const PendingBody: string := "작업이 아직 완료되지 않았습니다."

  /** `handleOpenJob(job)`, for a job that may be missing. */
  function OpenJob(job: Option<Job>): (o: OpenOutcome)
    ensures o.OpenResult? <==> job.Some? && job.value.status == "DONE" && (job.value.ldrUrl != "" || job.value.ldrUrlSnake != "")
    ensures o.OpenResult? ==> o.ldrUrl != "" && o.ldrUrl in {job.value.ldrUrl, job.value.ldrUrlSnake}
                              && (job.value.ldrUrl != "" ==> o.ldrUrl == job.value.ldrUrl)
                              && o.jobId == Or(job.value.id, job.value.jobId)
    ensures o.AlertShown? && job.Some? && job.value.status == "FAILED" ==>
              o.title == FailedTitle && o.body == Or(job.value.errorMessage, FailedBody) && o.body != ""
    ensures o.AlertShown? && !(job.Some? && job.value.status == "FAILED") ==> o == AlertShown(PendingTitle, PendingBody)
  {
    if job.Some? && job.value.status == "DONE" && Or(job.value.ldrUrl, job.value.ldrUrlSnake) != "" then
      OpenResult(Or(job.value.ldrUrl, job.value.ldrUrlSnake), Or(job.value.id, job.value.jobId))
    else if job.Some? && job.value.status == "FAILED" then
      AlertShown(FailedTitle, Or(job.value.errorMessage, FailedBody))
    else
      AlertShown(PendingTitle, PendingBody)
  }

  /** A finished job without a model file is reported as still in progress, like a running one. */
  lemma DoneWithoutModelIsPending(job: Job)
    requires job.status == "DONE" && job.ldrUrl == "" && job.ldrUrlSnake == ""
    ensures OpenJob(Some(job)) == OpenJob(Some(job.(status := "RUNNING")))
    ensures OpenJob(Some(job)).AlertShown? && OpenJob(Some(job)).title == PendingTitle
  {
  }

  /** The retry button is offered for failed, cancelled and queued jobs. */
  predicate CanRetry(status: string) {
    status in ["FAILED", "CANCELED", "QUEUED"]
  }

  /** Retry is offered exactly for the statuses that have not produced a result and are not running. */
  lemma CanRetryStatuses(status: string)
    ensures CanRetry(status) <==> IsKnownStatus(status) && status != "DONE" && status != "RUNNING"
  {
    assert ["FAILED", "CANCELED", "QUEUED"][0] == "FAILED";
    assert ["FAILED", "CANCELED", "QUEUED"][1] == "CANCELED";
    assert ["FAILED", "CANCELED", "QUEUED"][2] == "QUEUED";
  }

  datatype Profile = Profile(nickname: string, bio: string, membershipPlan: string)
  datatype Membership = Membership(membershipPlan: string)

  /** `isPro`: the profile's plan, or else the membership's, is 'PRO'. */
  function IsPro(profile: Option<Profile>, membership: Option<Membership>): (pro: bool)
    ensures profile.Some? && profile.value.membershipPlan != "" ==> (pro <==> profile.value.membershipPlan == "PRO")
    ensures (profile.None? || profile.value.membershipPlan == "") ==>
              (pro <==> membership.Some? && membership.value.membershipPlan == "PRO")
  {
    var fromProfile := if profile.Some? then profile.value.membershipPlan else "";
    var fromMembership := if membership.Some? then membership.value.membershipPlan else "";
    Or(fromProfile, fromMembership) == "PRO"
  }

  /** A non-empty plan in the profile hides the membership's plan. */
  lemma ProfilePlanWins(p: Profile, m1: Option<Membership>, m2: Option<Membership>)
    requires p.membershipPlan != ""
    ensures IsPro(Some(p), m1) == IsPro(Some(p), m2)
  {
  }

  /**
   * What `handleCheckout` ends with: nothing, an alert with nothing applied,
   * or the re-read membership applied and then an alert (the refresh of the
   * user can still fail after the membership is set).
   */
  datatype CheckoutOutcome =
    | Skipped
    | CheckoutAlert(title: string, body: string)
    | Upgraded(membership: Option<Membership>, title: string, body: string)

  const CheckoutFailedTitle: string := "결제 실패"
  const NoCheckoutUrlBody: string := "결제 URL을 찾을 수 없습니다."
  const CheckoutFailedBody: string := "결제에 실패했습니다."
  const CheckoutDoneTitle: string := "결제 완료"
  const CheckoutDoneBody: string := "업그레이드가 반영되었습니다."

  /**
   * `handleCheckout`, given the checkout request's url (an error when the
   * request fails, '' when the reply has none), the outcome of opening
   * it and re-reading the membership, and whether `refreshUser` then
   * succeeds. A PRO member is never sent to checkout.
   */
  function Checkout(isPro: bool, created: Result<string>, afterBrowser: Result<Option<Membership>>, refreshOk: bool)
    : (o: CheckoutOutcome)
    ensures o.Skipped? <==> isPro
    ensures !isPro && created.Ok? && created.value == "" ==> o == CheckoutAlert(CheckoutFailedTitle, NoCheckoutUrlBody)
    ensures o.Upgraded? <==> !isPro && created.Ok? && created.value != "" && afterBrowser.Ok?
    ensures o.Upgraded? ==> o.membership == afterBrowser.value
    ensures o.Upgraded? ==>
              (o.title, o.body) == if refreshOk then (CheckoutDoneTitle, CheckoutDoneBody)
                                   else (CheckoutFailedTitle, CheckoutFailedBody)
    ensures !isPro && (created.Err? || (created.value != "" && afterBrowser.Err?)) ==>
              o == CheckoutAlert(CheckoutFailedTitle, CheckoutFailedBody)
  {
    if isPro then Skipped
    else if created.Err? then CheckoutAlert(CheckoutFailedTitle, CheckoutFailedBody)
    else if created.value == "" then CheckoutAlert(CheckoutFailedTitle, NoCheckoutUrlBody)
    else if afterBrowser.Err? then CheckoutAlert(CheckoutFailedTitle, CheckoutFailedBody)
    else if refreshOk then Upgraded(afterBrowser.value, CheckoutDoneTitle, CheckoutDoneBody)
    else Upgraded(afterBrowser.value, CheckoutFailedTitle, CheckoutFailedBody)
  }

  /** The outcome of one request of `Promise.allSettled`: its reply's `data`, or a rejection. */
  datatype Settled<T> = Fulfilled(data: Option<T>) | Rejected

  /** The state `loadAll` writes. */
  datatype PageState<O> = PageState(
    profile: Option<Profile>, membership: Option<Membership>, overview: Option<O>,
    editNickname: string, editBio: string, loading: bool)

  /**
   * `loadAll`: after the login check, the three requests are awaited
   * together and each result that arrived is applied; a failing login ends
   * the load with nothing applied. Loading is off afterwards in every case.
   */
  function LoadAll<O>(st: PageState<O>, loginOk: bool, p: Settled<Profile>, m: Settled<Membership>, o: Settled<O>): (r: PageState<O>)
    ensures !r.loading
    ensures !loginOk ==> r == st.(loading := false)
    ensures loginOk && p.Fulfilled? ==> r.profile == p.data
                                        && r.editNickname == (if p.data.Some? then p.data.value.nickname else "")
                                        && r.editBio == (if p.data.Some? then p.data.value.bio else "")
    ensures (!loginOk || p.Rejected?) ==> r.profile == st.profile && r.editNickname == st.editNickname && r.editBio == st.editBio
    ensures r.membership == if loginOk && m.Fulfilled? then m.data else st.membership
    ensures r.overview == if loginOk && o.Fulfilled? then o.data else st.overview
  {
    if !loginOk then st.(loading := false)
    else
      var afterProfile := match p
        case Fulfilled(d) =>
          st.(profile := d,
              editNickname := if d.Some? then d.value.nickname else "",
              editBio := if d.Some? then d.value.bio else "")
        case Rejected => st;
      var afterMembership := if m.Fulfilled? then afterProfile.(membership := m.data) else afterProfile;
      var afterOverview := if o.Fulfilled? then afterMembership.(overview := o.data) else afterMembership;
      afterOverview.(loading := false)
  }

  /** Each request's result lands independently: whether one fails does not change what the others set. */
  lemma LoadAllIndependent<O>(st: PageState<O>, p: Settled<Profile>, m1: Settled<Membership>, m2: Settled<Membership>,
                              o1: Settled<O>, o2: Settled<O>)
    ensures LoadAll(st, true, p, m1, o1).profile == LoadAll(st, true, p, m2, o2).profile
    ensures LoadAll(st, true, p, m1, o1).editNickname == LoadAll(st, true, p, m2, o2).editNickname
    ensures LoadAll(st, true, p, m1, o1).membership == LoadAll(st, true, p, m1, o2).membership
    ensures LoadAll(st, true, p, m1, o1).overview == LoadAll(st, true, p, m2, o1).overview
  {
  }

  /** A profile reply with a PRO plan makes the member PRO, whatever the membership request did. */
  lemma ProfileReplyDecidesPro<O>(st: PageState<O>, prof: Profile, m: Settled<Membership>, o: Settled<O>)
    requires prof.membershipPlan == "PRO"
    ensures var r := LoadAll(st, true, Fulfilled(Some(prof)), m, o); IsPro(r.profile, r.membership)
  {
  }
}
