/** The status reporter: the project summary printed when a project
    descriptor (bls.toml) is present and no actionable subcommand was given.
    Only the content of the report is modelled; colours, table layout and
    date formatting are presentation. */
module Reporter {

  datatype Option<T> = None | Some(value: T)

  /** One deployment record of the descriptor. `created` is kept as the raw
      value the descriptor holds; `host` may be absent. */
  datatype Deployment = Deployment(cid: string, created: string, host: Option<string>)

  /** The parsed project descriptor. `deployments` may be absent. */
  datatype Descriptor = Descriptor(
    name: string,
    version: string,
    projectType: string,
    deployments: Option<seq<Deployment>>)

  /** What the report says about deployment. `webHost` is the host behind
      the "Web2 Host" line, present only when that line is printed. */
  datatype DeploymentStatus =
    | NotDeployed
    | Deployed(cid: string, created: string, webHost: Option<string>)

  /** The content of the status report: the name/version/type table, the
      deployment status and the login state. */
  datatype Report = Report(
    name: string,
    version: string,
    projectType: string,
    status: DeploymentStatus,
    loggedIn: bool)

  /** A JavaScript string is truthy exactly when it is not empty. */
  predicate Truthy(s: Option<string>)
  {
    s.Some? && s.value != ""
  }

  /** The deployment part of the report. Only the first record is ever
      read, and only after checking that the list is present and not empty. */
  function StatusOf(deployments: Option<seq<Deployment>>): (st: DeploymentStatus)
    ensures st.NotDeployed? <==> deployments.None? || |deployments.value| == 0
    ensures st.Deployed? ==>
      var first := deployments.value[0];
      st.cid == first.cid && st.created == first.created &&
      (st.webHost.Some? <==> Truthy(first.host)) &&
      (st.webHost.Some? ==> st.webHost == first.host)
  {
    if deployments.Some? && |deployments.value| > 0 then
      var first := deployments.value[0];
      Deployed(first.cid, first.created, if Truthy(first.host) then first.host else None)
    else
      NotDeployed
  }

  /** Builds the report from the descriptor and the login state. */
  function BuildReport(d: Descriptor, loggedIn: bool): (r: Report)
    ensures r.name == d.name && r.version == d.version && r.projectType == d.projectType
    ensures r.loggedIn == loggedIn
    ensures r.status.NotDeployed? <==> d.deployments.None? || d.deployments.value == []
    ensures r.status.Deployed? ==> r.status.cid == d.deployments.value[0].cid
    ensures r.status == StatusOf(d.deployments)
  {
    Report(d.name, d.version, d.projectType, StatusOf(d.deployments), loggedIn)
  }

  /** Only the first deployment record matters: two descriptors that agree
      on it, and on name, version and type, give the same report, however
      their later records differ. */
  lemma OnlyFirstDeploymentMatters(d1: Descriptor, d2: Descriptor, loggedIn: bool)
    requires d1.name == d2.name && d1.version == d2.version && d1.projectType == d2.projectType
    requires d1.deployments.Some? && d2.deployments.Some?
    requires |d1.deployments.value| > 0 && |d2.deployments.value| > 0
    requires d1.deployments.value[0] == d2.deployments.value[0]
    ensures BuildReport(d1, loggedIn) == BuildReport(d2, loggedIn)
  {
  }

  /** An absent deployment list and an empty one report the same. */
  lemma AbsentIsEmpty(d: Descriptor, loggedIn: bool)
    requires d.deployments.None?
    ensures BuildReport(d, loggedIn) == BuildReport(d.(deployments := Some([])), loggedIn)
  {
  }
}
