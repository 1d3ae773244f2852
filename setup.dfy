/**
 * The pure part of `main` in tools/setup_mission.py: from the command line
 * and the environment, the profile, the configuration directory, the command
 * that creates the mission and, in registration order, every agent of the
 * team with its AGENTS.md, its cron schedule and its cron message. The shell
 * commands themselves, the directories and files and all printing are not
 * part of this model; the plan records what they are given.
 */
module Setup {
  import opened Wrappers
  import opened Text
  import opened Templates
  import opened Roles
  import opened AgentDocs

  /** The command line, after argparse and its defaults. */
  datatype SetupArgs = SetupArgs(
    project: string,
    mission: string,
    goal: string,
    roles: string,
    roleConfig: Option<RoleConfig>,
    roleDesc: Option<string>,
    cron: string,
    profile: Option<string>,
    monitor: bool,
    monitorCron: string,
    slackChannel: string,
    slackUserId: string,
    monitorPolicy: Option<string>,
    escalationPolicy: Option<string>)

  const DefaultCron := "*/10 * * * *"
  const DefaultMonitorCron := "0 */6 * * *"

  /**
   * What the process finds around it: the home directory, the
   * OPENCLAW_PROFILE variable ("" when unset) and the texts of the worker,
   * monitor and escalator templates as the loaders return them.
   */
  datatype Environment = Environment(
    home: string,
    profileVar: string,
    baseTemplate: string,
    monitorTemplate: string,
    escalatorTemplate: string)

  /**
   * The environment whose template directory holds the given files: each
   * loader returns the installed file or, when it is absent, its built-in
   * fallback.
   */
  function Installed(home: string, profileVar: string, base: Option<string>, monitor: Option<string>,
                     escalator: Option<string>): (env: Environment)
    ensures env.home == home && env.profileVar == profileVar
    ensures env.baseTemplate == LoadTemplate(base, BasePieces)
    ensures env.monitorTemplate == LoadTemplate(monitor, MonitorPieces)
    ensures env.escalatorTemplate == LoadTemplate(escalator, EscalatorPieces)
  {
    Environment(home, profileVar, LoadTemplate(base, BasePieces), LoadTemplate(monitor, MonitorPieces),
                LoadTemplate(escalator, EscalatorPieces))
  }

  /** One registered agent: its id and role, its AGENTS.md and its cron job. */
  datatype AgentSetup = AgentSetup(
    id: string,
    role: string,
    agentsMd: string,
    schedule: string,
    message: string,
    escapedMessage: string)

  datatype Plan = Plan(profileEnv: string, configDir: string, createMission: string, agents: seq<AgentSetup>)

  const NoRolesError := "At least one role is required"

  /** The profile: the `--profile` flag when it is non-empty, else the variable. */
  function ResolveProfile(flag: Option<string>, profileVar: string): (p: string)
    ensures flag.Some? && flag.value != [] ==> p == flag.value
    ensures flag.None? || flag.value == [] ==> p == profileVar
  {
    if flag.Some? && flag.value != [] then flag.value else profileVar
  }

  /** The environment assignment put in front of `mc`, empty without a profile. */
  function ProfileEnv(profile: string): (e: string)
    ensures e == [] <==> profile == []
  {
    if profile != [] then "OPENCLAW_PROFILE=" + profile + " " else ""
  }

  /** `~/.openclaw-<profile>`, or `~/.openclaw` without a profile. */
  function ConfigDir(home: string, profile: string): string {
    if profile != [] then home + "/.openclaw-" + profile else home + "/.openclaw"
  }

  /** The shell command that creates the mission; the goal is single-quoted. */
  function CreateMissionCommand(profileEnv: string, project: string, mission: string, goal: string): string {
    profileEnv + "mc -p " + project + " mission create " + mission + " -d " + ("'" + EscapeSingleQuotes(goal) + "'")
  }

  /** The command's last word reads back, in any shell, as the goal itself. */
  lemma GoalSurvivesQuoting(profileEnv: string, project: string, mission: string, goal: string)
    ensures var cmd := CreateMissionCommand(profileEnv, project, mission, goal);
            var word := "'" + EscapeSingleQuotes(goal) + "'";
            |word| <= |cmd| && cmd[|cmd| - |word|..] == word && UnquoteWord(word, false) == Some(goal)
  {
    var word := "'" + EscapeSingleQuotes(goal) + "'";
    var head := profileEnv + "mc -p " + project + " mission create " + mission + " -d ";
    assert CreateMissionCommand(profileEnv, project, mission, goal) == head + word;
    assert (head + word)[|head|..] == word;
    SingleQuoteRoundTrip(goal);
  }

  /** `x or ""` for an optional text argument. */
  function OrEmpty(o: Option<string>): string {
    match o
    case Some(s) => s
    case None => ""
  }

  /** What every agent of one run shares. */
  datatype Context = Context(args: SetupArgs, env: Environment, profileEnv: string, configDir: string,
                             custom: Option<string>)

  /** The context of a run whose role list is `roles`; the custom description only goes with a single role. */
  function MakeContext(args: SetupArgs, env: Environment, roles: seq<string>): (ctx: Context)
    ensures |roles| != 1 ==> ctx.custom == None
    ensures |roles| == 1 ==> ctx.custom == args.roleDesc
  {
    var profile := ResolveProfile(args.profile, env.profileVar);
    Context(args, env, ProfileEnv(profile), ConfigDir(env.home, profile), if |roles| == 1 then args.roleDesc else None)
  }

  /** The worker agent of one role. */
  function Worker(ctx: Context, role: string): AgentSetup {
    var a := ctx.args;
    var id := AgentId(a.project, a.mission, role);
    var msg := CronMessage(id, a.project, a.mission, ctx.profileEnv);
    AgentSetup(id, role,
               AgentsMd(ctx.env.baseTemplate, id, role, a.project, a.mission, a.goal, a.roleConfig, ctx.custom,
                        ctx.configDir),
               a.cron, msg, EscapeDoubleQuotes(msg))
  }

  function MonitorDoc(ctx: Context): string {
    var a := ctx.args;
    Render(ctx.env.monitorTemplate,
           MonitorBindings(AgentId(a.project, a.mission, "monitor"), a.project, a.mission, a.goal,
                           OrEmpty(a.monitorPolicy), a.slackUserId, ctx.configDir))
  }

  function EscalatorDoc(ctx: Context): string {
    var a := ctx.args;
    Render(ctx.env.escalatorTemplate,
           EscalatorBindings(AgentId(a.project, a.mission, "escalator"), a.project, a.mission, a.goal,
                             a.slackUserId, OrEmpty(a.escalationPolicy), ctx.configDir))
  }

  /** The monitor, on the monitor schedule. */
  function Monitor(ctx: Context): AgentSetup {
    var a := ctx.args;
    var id := AgentId(a.project, a.mission, "monitor");
    var msg := MonitorCronMessage(id);
    AgentSetup(id, "monitor", MonitorDoc(ctx), a.monitorCron, msg, EscapeDoubleQuotes(msg))
  }

  /** The escalator, on the workers' schedule. */
  function Escalator(ctx: Context): AgentSetup {
    var a := ctx.args;
    var id := AgentId(a.project, a.mission, "escalator");
    var msg := EscalatorCronMessage(id);
    AgentSetup(id, "escalator", EscalatorDoc(ctx), a.cron, msg, EscapeDoubleQuotes(msg))
  }

  function Workers(ctx: Context, roles: seq<string>): (ws: seq<AgentSetup>)
    ensures |ws| == |roles| && forall i :: 0 <= i < |roles| ==> ws[i] == Worker(ctx, roles[i])
  {
    seq(|roles|, i requires 0 <= i < |roles| => Worker(ctx, roles[i]))
  }

  lemma WorkersSnoc(ctx: Context, roles: seq<string>, i: nat)
    requires i < |roles|
    ensures Workers(ctx, roles[..i + 1]) == Workers(ctx, roles[..i]) + [Worker(ctx, roles[i])]
  {
    assert roles[..i + 1][i] == roles[i];
    assert forall j :: 0 <= j < i ==> roles[..i + 1][j] == roles[..i][j];
  }

  /** The monitor and the escalator exist exactly when `--monitor` is given. */
  function Supervisors(ctx: Context): (s: seq<AgentSetup>)
    ensures |s| == if ctx.args.monitor then 2 else 0
  {
    if ctx.args.monitor then [Monitor(ctx), Escalator(ctx)] else []
  }

  /** The roles of `agents_created`, in order. */
  function TeamRoles(monitor: bool, roles: seq<string>): (team: seq<string>)
    ensures |team| == |roles| + (if monitor then 2 else 0)
    ensures team[..|roles|] == roles
  {
    roles + (if monitor then ["monitor", "escalator"] else [])
  }

  /**
   * The run: an error when no role is left after parsing, else the plan with
   * the workers in role order followed by the monitor and the escalator.
   */
  function Provision(args: SetupArgs, env: Environment): (r: Result<Plan, string>)
    ensures r.Failure? <==> ParseRoles(args.roles).None?
    ensures r.Failure? ==> r.error == NoRolesError
    ensures r.Success? ==> |r.value.agents| == |TeamRoles(args.monitor, ParseRoles(args.roles).value)|
    ensures r.Success? ==>
              var profile := ResolveProfile(args.profile, env.profileVar);
              r.value.profileEnv == ProfileEnv(profile) && r.value.configDir == ConfigDir(env.home, profile) &&
              r.value.createMission == CreateMissionCommand(ProfileEnv(profile), args.project, args.mission, args.goal)
  {
    match ParseRoles(args.roles)
    case None => Failure(NoRolesError)
    case Some(roles) =>
      var ctx := MakeContext(args, env, roles);
      Success(Plan(ctx.profileEnv, ctx.configDir,
                   CreateMissionCommand(ctx.profileEnv, args.project, args.mission, args.goal),
                   Workers(ctx, roles) + Supervisors(ctx)))
  }

  function Ids(agents: seq<AgentSetup>): seq<string> {
    seq(|agents|, i requires 0 <= i < |agents| => agents[i].id)
  }

  function RolesOf(agents: seq<AgentSetup>): seq<string> {
    seq(|agents|, i requires 0 <= i < |agents| => agents[i].role)
  }

  function SchedulesOf(agents: seq<AgentSetup>): seq<string> {
    seq(|agents|, i requires 0 <= i < |agents| => agents[i].schedule)
  }

  /** The ids of a team of roles within one mission. */
  function TeamIds(project: string, mission: string, team: seq<string>): (ids: seq<string>)
    ensures |ids| == |team| && forall i :: 0 <= i < |team| ==> ids[i] == AgentId(project, mission, team[i])
  {
    seq(|team|, i requires 0 <= i < |team| => AgentId(project, mission, team[i]))
  }

  /** The workers run on `--cron`, the monitor on `--monitor-cron`, the escalator on `--cron`. */
  function TeamSchedules(args: SetupArgs, workers: nat): (s: seq<string>)
    ensures |s| == workers + (if args.monitor then 2 else 0)
  {
    seq(workers, _ => args.cron) + (if args.monitor then [args.monitorCron, args.cron] else [])
  }

  lemma ShapeAppend(xs: seq<AgentSetup>, ys: seq<AgentSetup>)
    ensures Ids(xs + ys) == Ids(xs) + Ids(ys)
    ensures RolesOf(xs + ys) == RolesOf(xs) + RolesOf(ys)
    ensures SchedulesOf(xs + ys) == SchedulesOf(xs) + SchedulesOf(ys)
  {
  }

  lemma TeamIdsAppend(project: string, mission: string, xs: seq<string>, ys: seq<string>)
    ensures TeamIds(project, mission, xs + ys) == TeamIds(project, mission, xs) + TeamIds(project, mission, ys)
  {
  }

  lemma WorkersShape(ctx: Context, roles: seq<string>)
    ensures var ws := Workers(ctx, roles);
            RolesOf(ws) == roles && Ids(ws) == TeamIds(ctx.args.project, ctx.args.mission, roles) &&
            SchedulesOf(ws) == seq(|roles|, _ => ctx.args.cron)
  {
  }

  lemma SupervisorsShape(ctx: Context)
    ensures var ss := Supervisors(ctx);
            var sroles := if ctx.args.monitor then ["monitor", "escalator"] else [];
            RolesOf(ss) == sroles && Ids(ss) == TeamIds(ctx.args.project, ctx.args.mission, sroles) &&
            SchedulesOf(ss) == if ctx.args.monitor then [ctx.args.monitorCron, ctx.args.cron] else []
  {
  }

  /**
   * The agents of a run, in registration order: the workers in role order,
   * then the monitor and the escalator; their ids and their schedules.
   */
  lemma ProvisionTeam(args: SetupArgs, env: Environment)
    requires Provision(args, env).Success?
    ensures var roles := ParseRoles(args.roles).value;
            var team := TeamRoles(args.monitor, roles);
            var agents := Provision(args, env).value.agents;
            RolesOf(agents) == team && Ids(agents) == TeamIds(args.project, args.mission, team) &&
            SchedulesOf(agents) == TeamSchedules(args, |roles|)
  {
    var roles := ParseRoles(args.roles).value;
    var ctx := MakeContext(args, env, roles);
    var ws, ss := Workers(ctx, roles), Supervisors(ctx);
    assert Provision(args, env).value.agents == ws + ss;
    ShapeAppend(ws, ss);
    WorkersShape(ctx, roles);
    SupervisorsShape(ctx);
    TeamIdsAppend(args.project, args.mission, roles, if args.monitor then ["monitor", "escalator"] else []);
  }

  /** The first agents of the plan are the workers, one per role, in role order. */
  lemma WorkerAt(args: SetupArgs, env: Environment, i: nat)
    requires Provision(args, env).Success? && i < |ParseRoles(args.roles).value|
    ensures var roles := ParseRoles(args.roles).value;
            Provision(args, env).value.agents[i] == Worker(MakeContext(args, env, roles), roles[i])
  {
    var roles := ParseRoles(args.roles).value;
    var ctx := MakeContext(args, env, roles);
    var ws, ss := Workers(ctx, roles), Supervisors(ctx);
    assert Provision(args, env).value.agents == ws + ss;
    assert (ws + ss)[i] == ws[i] == Worker(ctx, roles[i]);
  }

  /**
   * The `i`th worker's document is the worker template rendered for its
   * role, with the custom description only when there is a single role.
   */
  lemma WorkerDocument(args: SetupArgs, env: Environment, i: nat)
    requires Provision(args, env).Success? && i < |ParseRoles(args.roles).value|
    ensures var roles := ParseRoles(args.roles).value;
            var custom := if |roles| == 1 then args.roleDesc else None;
            Provision(args, env).value.agents[i].agentsMd ==
              AgentsMd(env.baseTemplate, AgentId(args.project, args.mission, roles[i]), roles[i], args.project,
                       args.mission, args.goal, args.roleConfig, custom,
                       ConfigDir(env.home, ResolveProfile(args.profile, env.profileVar)))
  {
    WorkerAt(args, env, i);
  }

  /** The `i`th worker's cron job carries the workers' message, escaped for double quotes. */
  lemma WorkerMessage(args: SetupArgs, env: Environment, i: nat)
    requires Provision(args, env).Success? && i < |ParseRoles(args.roles).value|
    ensures var agent := Provision(args, env).value.agents[i];
            var profileEnv := ProfileEnv(ResolveProfile(args.profile, env.profileVar));
            agent.message ==
              CronMessage(AgentId(args.project, args.mission, ParseRoles(args.roles).value[i]), args.project,
                          args.mission, profileEnv) &&
            agent.escapedMessage == EscapeDoubleQuotes(agent.message)
  {
    WorkerAt(args, env, i);
  }

  /** The monitor's document is the monitor template rendered with its seven bindings. */
  lemma MonitorDocument(args: SetupArgs, env: Environment)
    requires Provision(args, env).Success? && args.monitor
    ensures Provision(args, env).value.agents[|ParseRoles(args.roles).value|].agentsMd ==
            Render(env.monitorTemplate,
                   MonitorBindings(AgentId(args.project, args.mission, "monitor"), args.project, args.mission, args.goal,
                                   OrEmpty(args.monitorPolicy), args.slackUserId,
                                   ConfigDir(env.home, ResolveProfile(args.profile, env.profileVar))))
  {
    var roles := ParseRoles(args.roles).value;
    var ctx := MakeContext(args, env, roles);
    var ws, ss := Workers(ctx, roles), Supervisors(ctx);
    assert Provision(args, env).value.agents == ws + ss;
    assert (ws + ss)[|ws|] == ss[0] == Monitor(ctx);
  }

  /** The escalator's document is the escalator template rendered with its seven bindings. */
  lemma EscalatorDocument(args: SetupArgs, env: Environment)
    requires Provision(args, env).Success? && args.monitor
    ensures Provision(args, env).value.agents[|ParseRoles(args.roles).value| + 1].agentsMd ==
            Render(env.escalatorTemplate,
                   EscalatorBindings(AgentId(args.project, args.mission, "escalator"), args.project, args.mission,
                                     args.goal, args.slackUserId, OrEmpty(args.escalationPolicy),
                                     ConfigDir(env.home, ResolveProfile(args.profile, env.profileVar))))
  {
    var roles := ParseRoles(args.roles).value;
    var ctx := MakeContext(args, env, roles);
    var ws, ss := Workers(ctx, roles), Supervisors(ctx);
    assert Provision(args, env).value.agents == ws + ss;
    assert (ws + ss)[|ws| + 1] == ss[1] == Escalator(ctx);
  }

  /** The monitor's and the escalator's cron jobs carry their own messages, escaped for double quotes. */
  lemma SupervisorMessages(args: SetupArgs, env: Environment)
    requires Provision(args, env).Success? && args.monitor
    ensures var n := |ParseRoles(args.roles).value|;
            var agents := Provision(args, env).value.agents;
            agents[n].message == MonitorCronMessage(AgentId(args.project, args.mission, "monitor")) &&
            agents[n].escapedMessage == EscapeDoubleQuotes(agents[n].message) &&
            agents[n + 1].message == EscalatorCronMessage(AgentId(args.project, args.mission, "escalator")) &&
            agents[n + 1].escapedMessage == EscapeDoubleQuotes(agents[n + 1].message)
  {
    var roles := ParseRoles(args.roles).value;
    var ctx := MakeContext(args, env, roles);
    var ws, ss := Workers(ctx, roles), Supervisors(ctx);
    assert Provision(args, env).value.agents == ws + ss;
    assert (ws + ss)[|ws|] == ss[0] == Monitor(ctx);
    assert (ws + ss)[|ws| + 1] == ss[1] == Escalator(ctx);
  }

  /** No placeholder of any of `keys` is left in `doc`. */
  predicate Complete(doc: string, keys: seq<string>) {
    forall k :: 0 <= k < |keys| ==> !Contains(doc, Placeholder(keys[k]))
  }

  /** Every text a run substitutes into a document is free of braces. */
  predicate PlainArgs(args: SetupArgs, home: string, profileVar: string) {
    BraceFree(args.project) && BraceFree(args.mission) && BraceFree(args.goal) && BraceFree(args.roles) &&
    BraceFree(args.slackUserId) && BraceFree(home) && BraceFree(profileVar) &&
    (args.profile.Some? ==> BraceFree(args.profile.value)) &&
    (args.roleDesc.Some? ==> BraceFree(args.roleDesc.value)) &&
    (args.monitorPolicy.Some? ==> BraceFree(args.monitorPolicy.value)) &&
    (args.escalationPolicy.Some? ==> BraceFree(args.escalationPolicy.value))
  }

  lemma PlainConfigDir(args: SetupArgs, home: string, profileVar: string)
    requires PlainArgs(args, home, profileVar)
    ensures BraceFree(ConfigDir(home, ResolveProfile(args.profile, profileVar)))
  {
    assert BraceFree("/.openclaw-") && BraceFree("/.openclaw");
    BraceFreeJoin(home, "/.openclaw-");
    BraceFreeJoin(home + "/.openclaw-", ResolveProfile(args.profile, profileVar));
    BraceFreeJoin(home, "/.openclaw");
  }

  lemma PlainAgentId(project: string, mission: string, role: string)
    requires BraceFree(project) && BraceFree(mission) && BraceFree(role)
    ensures BraceFree(AgentId(project, mission, role))
  {
    assert BraceFree("-");
    BraceFreeJoin(project, "-");
    BraceFreeJoin(project + "-", mission);
    BraceFreeJoin(project + "-" + mission, "-");
    BraceFreeJoin(project + "-" + mission + "-", role);
  }

  /** Roles parsed from an argument free of braces are free of braces. */
  lemma ParsedRoleBraceFree(arg: string, i: nat)
    requires BraceFree(arg) && ParseRoles(arg).Some? && i < |ParseRoles(arg).value|
    ensures BraceFree(ParseRoles(arg).value[i])
  {
    BraceFreeChars(arg);
    ParseRolesAvoid(arg, '{');
    ParseRolesAvoid(arg, '}');
    BraceFreeChars(ParseRoles(arg).value[i]);
  }

  /** The built-in worker template leaves none of the eight keywords when the values hold no braces. */
  lemma FallbackWorkerDoc(args: SetupArgs, home: string, profileVar: string, i: nat)
    requires PlainArgs(args, home, profileVar) && ParseRoles(args.roles).Some?
    requires i < |ParseRoles(args.roles).value|
    ensures var roles := ParseRoles(args.roles).value;
            Complete(AgentsMd(LoadTemplate(None, BasePieces), AgentId(args.project, args.mission, roles[i]), roles[i],
                              args.project, args.mission, args.goal, None,
                              if |roles| == 1 then args.roleDesc else None,
                              ConfigDir(home, ResolveProfile(args.profile, profileVar))),
                     AgentsMdKeys)
  {
    var roles := ParseRoles(args.roles).value;
    ParsedRoleBraceFree(args.roles, i);
    PlainConfigDir(args, home, profileVar);
    PlainAgentId(args.project, args.mission, roles[i]);
    FallbackAgentsMdComplete(AgentId(args.project, args.mission, roles[i]), roles[i], args.project, args.mission,
                             args.goal, if |roles| == 1 then args.roleDesc else None,
                             ConfigDir(home, ResolveProfile(args.profile, profileVar)));
  }

  /**
   * With no template installed and no role configuration, the `i`th worker's
   * document keeps no placeholder of its eight keywords when the arguments
   * hold no braces.
   */
  lemma FallbackWorkerComplete(args: SetupArgs, home: string, profileVar: string, i: nat)
    requires PlainArgs(args, home, profileVar) && args.roleConfig == None
    requires Provision(args, Installed(home, profileVar, None, None, None)).Success?
    requires i < |ParseRoles(args.roles).value|
    ensures Complete(Provision(args, Installed(home, profileVar, None, None, None)).value.agents[i].agentsMd,
                     AgentsMdKeys)
  {
    WorkerDocument(args, Installed(home, profileVar, None, None, None), i);
    FallbackWorkerDoc(args, home, profileVar, i);
  }

  /** The built-in monitor template leaves none of the monitor's keywords when the values hold no braces. */
  lemma FallbackMonitorDoc(args: SetupArgs, configDir: string)
    requires BraceFree(args.project) && BraceFree(args.mission) && BraceFree(args.goal)
    requires BraceFree(args.slackUserId) && BraceFree(configDir)
    requires args.monitorPolicy.Some? ==> BraceFree(args.monitorPolicy.value)
    ensures Complete(Render(LoadTemplate(None, MonitorPieces),
                            MonitorBindings(AgentId(args.project, args.mission, "monitor"), args.project, args.mission,
                                            args.goal, OrEmpty(args.monitorPolicy), args.slackUserId, configDir)),
                     MonitorKeys)
  {
    assert BraceFree("monitor") && BraceFree("");
    PlainAgentId(args.project, args.mission, "monitor");
    FallbackSupervisorDocsComplete(AgentId(args.project, args.mission, "monitor"), args.project, args.mission,
                                   args.goal, OrEmpty(args.monitorPolicy), args.slackUserId, configDir);
  }

  /** The built-in escalator template leaves none of the escalator's keywords when the values hold no braces. */
  lemma FallbackEscalatorDoc(args: SetupArgs, configDir: string)
    requires BraceFree(args.project) && BraceFree(args.mission) && BraceFree(args.goal)
    requires BraceFree(args.slackUserId) && BraceFree(configDir)
    requires args.escalationPolicy.Some? ==> BraceFree(args.escalationPolicy.value)
    ensures Complete(Render(LoadTemplate(None, EscalatorPieces),
                            EscalatorBindings(AgentId(args.project, args.mission, "escalator"), args.project,
                                              args.mission, args.goal, args.slackUserId,
                                              OrEmpty(args.escalationPolicy), configDir)),
                     EscalatorKeys)
  {
    assert BraceFree("escalator") && BraceFree("");
    PlainAgentId(args.project, args.mission, "escalator");
    FallbackSupervisorDocsComplete(AgentId(args.project, args.mission, "escalator"), args.project, args.mission,
                                   args.goal, OrEmpty(args.escalationPolicy), args.slackUserId, configDir);
  }

  /**
   * With no template installed, the monitor's and the escalator's documents
   * keep no placeholder of their seven keywords when the arguments hold no
   * braces.
   */
  lemma FallbackSupervisorsComplete(args: SetupArgs, home: string, profileVar: string)
    requires PlainArgs(args, home, profileVar) && args.monitor
    requires Provision(args, Installed(home, profileVar, None, None, None)).Success?
    ensures var n := |ParseRoles(args.roles).value|;
            var agents := Provision(args, Installed(home, profileVar, None, None, None)).value.agents;
            Complete(agents[n].agentsMd, MonitorKeys) && Complete(agents[n + 1].agentsMd, EscalatorKeys)
  {
    var env := Installed(home, profileVar, None, None, None);
    PlainConfigDir(args, home, profileVar);
    MonitorDocument(args, env);
    EscalatorDocument(args, env);
    FallbackMonitorDoc(args, ConfigDir(home, ResolveProfile(args.profile, profileVar)));
    FallbackEscalatorDoc(args, ConfigDir(home, ResolveProfile(args.profile, profileVar)));
  }

  /**
   * A run on a machine with no template installed and no role configuration,
   * whose arguments hold no braces, registers every agent of the team with a
   * document that keeps no placeholder of its keywords.
   */
  lemma FallbackPlanComplete(args: SetupArgs, home: string, profileVar: string)
    requires PlainArgs(args, home, profileVar) && args.roleConfig == None
    requires Provision(args, Installed(home, profileVar, None, None, None)).Success?
    ensures var n := |ParseRoles(args.roles).value|;
            var agents := Provision(args, Installed(home, profileVar, None, None, None)).value.agents;
            (forall i :: 0 <= i < n ==> Complete(agents[i].agentsMd, AgentsMdKeys)) &&
            (args.monitor ==> Complete(agents[n].agentsMd, MonitorKeys) &&
                              Complete(agents[n + 1].agentsMd, EscalatorKeys))
  {
    forall i | 0 <= i < |ParseRoles(args.roles).value|
      ensures Complete(Provision(args, Installed(home, profileVar, None, None, None)).value.agents[i].agentsMd,
                       AgentsMdKeys)
    {
      FallbackWorkerComplete(args, home, profileVar, i);
    }
    if args.monitor {
      FallbackSupervisorsComplete(args, home, profileVar);
    }
  }

  /** One worker's registration: its AGENTS.md through `safe_render`, its cron message. */
  method RegisterWorker(ctx: Context, role: string) returns (worker: AgentSetup)
    ensures worker == Worker(ctx, role)
  {
    var a := ctx.args;
    var agentId := AgentId(a.project, a.mission, role);
    var values := AgentsMdValues(agentId, role, a.project, a.mission, a.goal, a.roleConfig, ctx.custom, ctx.configDir);
    var agentsMd := SafeRender(ctx.env.baseTemplate, Bindings(AgentsMdKeys, values));
    var cronMsg := CronMessage(agentId, a.project, a.mission, ctx.profileEnv);
    worker := AgentSetup(agentId, role, agentsMd, a.cron, cronMsg, EscapeDoubleQuotes(cronMsg));
  }

  /** The monitor's registration, on the monitor schedule. */
  method RegisterMonitor(ctx: Context) returns (monitor: AgentSetup)
    ensures monitor == Monitor(ctx)
  {
    var a := ctx.args;
    var monitorId := AgentId(a.project, a.mission, "monitor");
    var agentsMd := SafeRender(ctx.env.monitorTemplate,
                               MonitorBindings(monitorId, a.project, a.mission, a.goal, OrEmpty(a.monitorPolicy),
                                               a.slackUserId, ctx.configDir));
    var monitorMsg := MonitorCronMessage(monitorId);
    monitor := AgentSetup(monitorId, "monitor", agentsMd, a.monitorCron, monitorMsg, EscapeDoubleQuotes(monitorMsg));
  }

  /** The escalator's registration, on the workers' schedule. */
  method RegisterEscalator(ctx: Context) returns (escalator: AgentSetup)
    ensures escalator == Escalator(ctx)
  {
    var a := ctx.args;
    var escalatorId := AgentId(a.project, a.mission, "escalator");
    var agentsMd := SafeRender(ctx.env.escalatorTemplate,
                               EscalatorBindings(escalatorId, a.project, a.mission, a.goal, a.slackUserId,
                                                 OrEmpty(a.escalationPolicy), ctx.configDir));
    var escalatorMsg := EscalatorCronMessage(escalatorId);
    escalator := AgentSetup(escalatorId, "escalator", agentsMd, a.cron, escalatorMsg, EscapeDoubleQuotes(escalatorMsg));
  }

  /** The worker loop of `main`: one registration per role, appended in role order. */
  method RegisterWorkers(ctx: Context, roles: seq<string>) returns (agentsCreated: seq<AgentSetup>)
    ensures agentsCreated == Workers(ctx, roles)
  {
    agentsCreated := [];
    for i := 0 to |roles|
      invariant agentsCreated == Workers(ctx, roles[..i])
    {
      var worker := RegisterWorker(ctx, roles[i]);
      WorkersSnoc(ctx, roles, i);
      agentsCreated := agentsCreated + [worker];
    }
    assert roles[..|roles|] == roles;
  }

  /** The monitor and then the escalator, registered only when `--monitor` is given. */
  method RegisterSupervisors(ctx: Context) returns (supervisors: seq<AgentSetup>)
    ensures supervisors == Supervisors(ctx)
  {
    supervisors := [];
    if ctx.args.monitor {
      var monitor := RegisterMonitor(ctx);
      var escalator := RegisterEscalator(ctx);
      supervisors := [monitor, escalator];
    }
  }

  /**
   * The registration sequence of `main`: the parsed roles or the error, the
   * workers, then the monitor and the escalator when `--monitor` is given.
   */
  method SetupMission(args: SetupArgs, env: Environment) returns (r: Result<Plan, string>)
    ensures r == Provision(args, env)
  {
    var parsed := ParseRoles(args.roles);
    if parsed.None? {
      return Failure(NoRolesError);
    }
    var roles := parsed.value;
    var ctx := MakeContext(args, env, roles);
    var agentsCreated := RegisterWorkers(ctx, roles);
    var supervisors := RegisterSupervisors(ctx);
    agentsCreated := agentsCreated + supervisors;
    r := Success(Plan(ctx.profileEnv, ctx.configDir,
                      CreateMissionCommand(ctx.profileEnv, args.project, args.mission, args.goal), agentsCreated));
  }

  // ---------------------------------------------------------------------------
  // Properties of a run
  // ---------------------------------------------------------------------------

  predicate Distinct(xs: seq<string>) {
    forall i, j :: 0 <= i < j < |xs| ==> xs[i] != xs[j]
  }

  /** Within one mission, the ids of a team are unique exactly when its roles are. */
  lemma TeamIdsDistinct(project: string, mission: string, team: seq<string>, ids: seq<string>)
    requires |ids| == |team| && forall i :: 0 <= i < |team| ==> ids[i] == AgentId(project, mission, team[i])
    ensures Distinct(ids) <==> Distinct(team)
  {
    forall i, j | 0 <= i < j < |team| && ids[i] == ids[j] ensures team[i] == team[j] {
      AgentIdRoleInjective(project, mission, team[i], team[j]);
    }
  }

  /** The two supervisors' roles extend a list of distinct roles exactly when neither is among them. */
  lemma SupervisorRolesDistinct(roles: seq<string>)
    ensures Distinct(TeamRoles(true, roles)) <==> Distinct(roles) && "monitor" !in roles && "escalator" !in roles
  {
    var team := TeamRoles(true, roles);
    assert team[|roles|] == "monitor" && team[|roles| + 1] == "escalator";
    assert forall i :: 0 <= i < |roles| ==> team[i] == roles[i];
    if Distinct(team) {
      forall k | 0 <= k < |roles| ensures roles[k] != "monitor" && roles[k] != "escalator" {
        assert team[k] != team[|roles|] && team[k] != team[|roles| + 1];
      }
    }
  }

  /** A team's ids are unique exactly when its roles are and no worker role is a supervisor's. */
  lemma TeamDistinct(project: string, mission: string, monitor: bool, roles: seq<string>, ids: seq<string>)
    requires ids == TeamIds(project, mission, TeamRoles(monitor, roles))
    ensures Distinct(ids) <==> Distinct(roles) && (monitor ==> "monitor" !in roles && "escalator" !in roles)
  {
    var team := TeamRoles(monitor, roles);
    TeamIdsDistinct(project, mission, team, ids);
    if monitor {
      SupervisorRolesDistinct(roles);
    } else {
      assert team == roles;
    }
  }

  /**
   * Agent ids are unique exactly when the roles are and, under `--monitor`,
   * no role is called `monitor` or `escalator`.
   */
  lemma AgentIdsDistinct(args: SetupArgs, env: Environment)
    requires Provision(args, env).Success?
    ensures var roles := ParseRoles(args.roles).value;
            Distinct(Ids(Provision(args, env).value.agents)) <==>
            Distinct(roles) && (args.monitor ==> "monitor" !in roles && "escalator" !in roles)
  {
    ProvisionTeam(args, env);
    TeamDistinct(args.project, args.mission, args.monitor, ParseRoles(args.roles).value,
                 Ids(Provision(args, env).value.agents));
  }

  /** A custom description is ignored unless exactly one role is given. */
  lemma CustomDescriptionNeedsSingleRole(args: SetupArgs, env: Environment)
    requires ParseRoles(args.roles).Some? && |ParseRoles(args.roles).value| != 1
    ensures Provision(args, env) == Provision(args.(roleDesc := None), env)
  {
    var roles := ParseRoles(args.roles).value;
    var args' := args.(roleDesc := None);
    var ctx, ctx' := MakeContext(args, env, roles), MakeContext(args', env, roles);
    assert ctx' == ctx.(args := args');
    assert Workers(ctx, roles) == Workers(ctx', roles);
    assert Supervisors(ctx) == Supervisors(ctx');
  }

  lemma SingleRoleParses()
    ensures ParseRoles("coder") == Some(["coder"])
  {
    assert Join(["coder"], ',') == "coder";
    assert !IsSpace('c') && !IsSpace('r');
    ParseRolesJoin(["coder"]);
  }

  /** The ids of the team of a single coder under `--monitor`. */
  lemma FleetIds()
    ensures TeamIds("proj", "mvp", TeamRoles(true, ["coder"])) ==
            ["proj-mvp-coder", "proj-mvp-monitor", "proj-mvp-escalator"]
  {
    var team := TeamRoles(true, ["coder"]);
    assert team == ["coder", "monitor", "escalator"];
    var ids := TeamIds("proj", "mvp", team);
    assert ids[0] == "proj-mvp-coder";
    assert ids[1] == "proj-mvp-monitor";
    assert ids[2] == "proj-mvp-escalator";
  }

  /** `--roles coder --monitor` registers the coder, then the monitor, then the escalator. */
  lemma FleetExample(args: SetupArgs, env: Environment)
    requires args.project == "proj" && args.mission == "mvp" && args.roles == "coder" && args.monitor
    ensures Provision(args, env).Success?
    ensures Ids(Provision(args, env).value.agents) == ["proj-mvp-coder", "proj-mvp-monitor", "proj-mvp-escalator"]
  {
    SingleRoleParses();
    ProvisionTeam(args, env);
    FleetIds();
  }
}
