/**
 * The status page: which view of the panel is shown for a host status, the
 * outcome of the game status query, and the state of the two timers.
 */
module StatusPage {
  import opened Wrappers
  import opened Cloud
  import opened Host
  import opened Scheduler

  /**
   * The page's status query: a player count, a connection failure (an
   * `OSError`, which the page catches), or any other exception, which it does not.
   */
  datatype GameQuery = Answered(players: nat) | ConnectionFailed | OtherFailure

  datatype Page = Page(
    online: bool,
    hostStatus: string,
    ip: Option<string>,
    players: Option<nat>,
    isIdle: bool,
    autoDestroy: bool)

  /** The rendered page, or the server error of an exception the handler lets through. */
  datatype Response = Rendered(page: Page) | InternalError

  /** The offline view: no address, no players, never idle. */
  function OfflinePage(host: HostStatus, sched: SchedulerState): Page {
    Page(false, host.status, None, None, false, sched.monitoringEnabled)
  }

  /** `MainHandler.get`; the query is only made, and `query` only matters, when the host runs. */
  function View(host: HostStatus, query: GameQuery, sched: SchedulerState): (r: Response)
    ensures r.InternalError? <==> host.status == Running && query.OtherFailure?
    ensures r.Rendered? ==> (r.page.online <==> host.status == Running && query.Answered?)
    ensures r.Rendered? ==> r.page.hostStatus == host.status && r.page.autoDestroy == sched.monitoringEnabled
    ensures r.Rendered? && !r.page.online ==> !r.page.isIdle && r.page.ip.None? && r.page.players.None?
    ensures r.Rendered? && r.page.online ==>
              r.page.isIdle == sched.teardownArmed && r.page.ip == host.ip && r.page.players == Some(query.players)
  {
    if host.status != Running then Rendered(OfflinePage(host, sched))
    else
      match query
      case Answered(players) =>
        Rendered(Page(true, host.status, host.ip, Some(players), sched.teardownArmed, sched.monitoringEnabled))
      case ConnectionFailed => Rendered(OfflinePage(host, sched))
      case OtherFailure => InternalError
  }

  /** Off the running state the page does not depend on the query at all. */
  lemma NotRunningIgnoresQuery(host: HostStatus, q1: GameQuery, q2: GameQuery, sched: SchedulerState)
    requires host.status != Running
    ensures View(host, q1, sched) == View(host, q2, sched) == Rendered(OfflinePage(host, sched))
  {
  }

  /** A missing server is shown offline as "destroyed". */
  lemma MissingServerIsOffline(query: GameQuery, sched: SchedulerState)
    ensures View(GetHostStatus(None), query, sched) == Rendered(Page(false, Destroyed, None, None, false, sched.monitoringEnabled))
  {
  }

  /** The online view shows the running server's address. */
  lemma OnlineShowsAddress(server: Option<Server>, query: GameQuery, sched: SchedulerState)
    requires View(GetHostStatus(server), query, sched).Rendered?
    requires View(GetHostStatus(server), query, sched).page.online
    ensures server.Some? && server.value.status == Running
    ensures View(GetHostStatus(server), query, sched).page.ip == Some(server.value.ipv4)
  {
  }
}
