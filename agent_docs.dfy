/**
 * The instruction documents (AGENTS.md) and cron messages of a mission's
 * agents (tools/setup_mission.py): the fallback templates, the keyword
 * arguments each document is rendered with, and the message each agent's
 * cron job sends.
 */
module AgentDocs {
  import opened Wrappers
  import opened Text
  import opened Templates
  import opened Roles

  // ---------------------------------------------------------------------------
  // Templates
  // ---------------------------------------------------------------------------

  /**
   * The built-in templates, used when no template file is installed, written
   * as their literal text and placeholders.
   */
  const BasePieces: seq<Piece> := [
    Lit("# "),
    Slot("agent_id"),
    Lit("\n\n## Identity\n" +
        "You are **"),
    Slot("agent_id"),
    Lit("**, a "),
    Slot("role_description"),
    Lit(" working on project **"),
    Slot("project"),
    Lit("**.\n\n" +
        "## Mission Context\n" +
        "- **Project**: "),
    Slot("project"),
    Lit("\n- **Mission**: "),
    Slot("mission"),
    Lit("\n- **Goal**: "),
    Slot("goal"),
    Lit("\n- **Working Directory**: "),
    Slot("config_dir"),
    Lit("/projects/"),
    Slot("project"),
    Lit("/\n" +
        "- **Role**: "),
    Slot("role"),
    Lit("\n\n"),
    Slot("role_specialization"),
    Lit("\n\n## Workflow\n" +
        "1. `mc -p "),
    Slot("project"),
    Lit(" -m "),
    Slot("mission"),
    Lit(" checkin`\n" +
        "2. `mc -p "),
    Slot("project"),
    Lit(" -m "),
    Slot("mission"),
    Lit(" list --mine --status pending`\n" +
        "3. Claim highest-priority task: " +
        "`mc -p "),
    Slot("project"),
    Lit(" -m "),
    Slot("mission"),
    Lit(" claim <id>`\n" +
        "4. Start work: `mc -p "),
    Slot("project"),
    Lit(" -m "),
    Slot("mission"),
    Lit(" start <id>`\n" +
        "5. Complete: `mc -p "),
    Slot("project"),
    Lit(" -m "),
    Slot("mission"),
    Lit(" done <id> -m \"what I did\"`\n")
  ]

  const MonitorPieces: seq<Piece> := [
    Lit("# "),
    Slot("agent_id"),
    Lit("\n\n## Identity\n" +
        "You are **"),
    Slot("agent_id"),
    Lit("**, a mission progress monitor, " +
        "working on project **"),
    Slot("project"),
    Lit("**.\n\n" +
        "## Mission Context\n" +
        "- **Project**: "),
    Slot("project"),
    Lit("\n- **Mission**: "),
    Slot("mission"),
    Lit("\n- **Goal**: "),
    Slot("goal"),
    Lit("\n- **Working Directory**: "),
    Slot("config_dir"),
    Lit("/projects/"),
    Slot("project"),
    Lit("/\n" +
        "- **Role**: monitor\n\n" +
        "## Monitoring Workflow\n" +
        "1. `mc -p "),
    Slot("project"),
    Lit(" -m "),
    Slot("mission"),
    Lit(" checkin` — if " +
        "PAUSED/COMPLETED/ARCHIVED, stop\n" +
        "2. `mc -p "),
    Slot("project"),
    Lit(" -m "),
    Slot("mission"),
    Lit(" mission status` — review state " +
        "and user instructions\n" +
        "3. `mc -p "),
    Slot("project"),
    Lit(" -m "),
    Slot("mission"),
    Lit(" board` — check task progress\n" +
        "4. `mc -p "),
    Slot("project"),
    Lit(" -m "),
    Slot("mission"),
    Lit(" inbox --unread` — check " +
        "messages\n" +
        "5. Analyze: blocked agents → " +
        "reassign; stale tasks → " +
        "message; all done → checkpoint\n" +
        "6. Escalate if needed: `mc -p "),
    Slot("project"),
    Lit(" -m "),
    Slot("mission"),
    Lit(" add \"Human: <reason>\" --for "),
    Slot("project"),
    Lit("-"),
    Slot("mission"),
    Lit("-escalator`\n\n"),
    Slot("monitor_policy"),
    Lit("\n")
  ]

  const EscalatorPieces: seq<Piece> := [
    Lit("# "),
    Slot("agent_id"),
    Lit("\n\n## Identity\n" +
        "You are **"),
    Slot("agent_id"),
    Lit("**, the human escalation agent " +
        "for project **"),
    Slot("project"),
    Lit("**.\n" +
        "You are the **sole channel** " +
        "between the AI agent team and " +
        "the human operator.\n\n" +
        "## Mission Context\n" +
        "- **Project**: "),
    Slot("project"),
    Lit("\n- **Mission**: "),
    Slot("mission"),
    Lit("\n- **Goal**: "),
    Slot("goal"),
    Lit("\n- **Working Directory**: "),
    Slot("config_dir"),
    Lit("/projects/"),
    Slot("project"),
    Lit("/\n" +
        "- **Role**: escalator\n" +
        "- **Human Slack User**: <@"),
    Slot("slack_user_id"),
    Lit(">\n\n" +
        "## Escalation Policy\n" +
        "**MUST escalate:** human " +
        "judgment needed, credentials " +
        "needed, budget approval, " +
        "destructive actions, unclear " +
        "goals.\n" +
        "**Do NOT escalate:** technical " +
        "choices, bug fixes, code " +
        "review, task prioritization.\n\n"),
    Slot("escalation_policy"),
    Lit("\n\n## Workflow\n" +
        "1. `mc -p "),
    Slot("project"),
    Lit(" -m "),
    Slot("mission"),
    Lit(" checkin` — if " +
        "PAUSED/COMPLETED/ARCHIVED, stop\n" +
        "2. `mc -p "),
    Slot("project"),
    Lit(" -m "),
    Slot("mission"),
    Lit(" mission status` — relay human " +
        "instructions to requesting " +
        "agents\n" +
        "3. `mc -p "),
    Slot("project"),
    Lit(" -m "),
    Slot("mission"),
    Lit(" list --mine --status pending` " +
        "— process escalation tasks\n" +
        "4. No tasks → disable own cron " +
        "(monitor will re-enable when " +
        "needed)\n")
  ]

  /** The keywords of the three documents are names without braces. */
  lemma KeywordsBraceFree()
    ensures BraceFree("agent_id")
         && BraceFree("project")
         && BraceFree("mission")
         && BraceFree("goal")
         && BraceFree("role")
         && BraceFree("role_description")
         && BraceFree("role_specialization")
         && BraceFree("config_dir")
         && BraceFree("monitor_policy")
         && BraceFree("slack_user_id")
         && BraceFree("escalation_policy")
  {
    assert BraceFree("agent_id");
    assert BraceFree("project");
    assert BraceFree("mission");
    assert BraceFree("goal");
    assert BraceFree("role");
    assert BraceFree("role_description");
    assert BraceFree("role_specialization");
    assert BraceFree("config_dir");
    assert BraceFree("monitor_policy");
    assert BraceFree("slack_user_id");
    assert BraceFree("escalation_policy");
  }

  // The literals of the built-in templates are free of braces.

  lemma BaseLiterals1()
    ensures BraceFree("# ")
         && BraceFree("\n\n## Identity\n")
         && BraceFree("You are **")
         && BraceFree("**, a ")
         && BraceFree(" working on project **")
         && BraceFree("**.\n\n")
         && BraceFree("## Mission Context\n")
         && BraceFree("- **Project**: ")
         && BraceFree("\n- **Mission**: ")
         && BraceFree("\n- **Goal**: ")
  {
    assert BraceFree("# ");
    assert BraceFree("\n\n## Identity\n");
    assert BraceFree("You are **");
    assert BraceFree("**, a ");
    assert BraceFree(" working on project **");
    assert BraceFree("**.\n\n");
    assert BraceFree("## Mission Context\n");
    assert BraceFree("- **Project**: ");
    assert BraceFree("\n- **Mission**: ");
    assert BraceFree("\n- **Goal**: ");
  }

  lemma BaseLiterals2()
    ensures BraceFree("\n- **Working Directory**: ")
         && BraceFree("/projects/")
         && BraceFree("/\n")
         && BraceFree("- **Role**: ")
         && BraceFree("\n\n")
         && BraceFree("\n\n## Workflow\n")
         && BraceFree("1. `mc -p ")
         && BraceFree(" -m ")
         && BraceFree(" checkin`\n")
         && BraceFree("2. `mc -p ")
         && BraceFree(" list --mine --status pending`\n")
  {
    assert BraceFree("\n- **Working Directory**: ");
    assert BraceFree("/projects/");
    assert BraceFree("/\n");
    assert BraceFree("- **Role**: ");
    assert BraceFree("\n\n");
    assert BraceFree("\n\n## Workflow\n");
    assert BraceFree("1. `mc -p ");
    assert BraceFree(" -m ");
    assert BraceFree(" checkin`\n");
    assert BraceFree("2. `mc -p ");
    assert BraceFree(" list --mine --status pending`\n");
  }

  lemma BaseLiterals3()
    ensures BraceFree("3. Claim highest-priority task: ")
         && BraceFree("`mc -p ")
         && BraceFree(" claim <id>`\n")
         && BraceFree("4. Start work: `mc -p ")
         && BraceFree(" start <id>`\n")
         && BraceFree("5. Complete: `mc -p ")
  {
    assert BraceFree("3. Claim highest-priority task: ");
    assert BraceFree("`mc -p ");
    assert BraceFree(" claim <id>`\n");
    assert BraceFree("4. Start work: `mc -p ");
    assert BraceFree(" start <id>`\n");
    assert BraceFree("5. Complete: `mc -p ");
  }

  lemma BaseLiterals4()
    ensures BraceFree(" done <id> -m \"what I did\"`\n")
  {
    assert BraceFree(" done <id> -m \"what I did\"`\n");
  }

  lemma BaseJoins1()
    requires BraceFree("\n\n## Identity\n")
          && BraceFree("You are **")
          && BraceFree("**.\n\n")
          && BraceFree("## Mission Context\n")
          && BraceFree("- **Project**: ")
          && BraceFree("/\n")
          && BraceFree("- **Role**: ")
    ensures BraceFree("\n\n## Identity\n" + "You are **")
         && BraceFree("**.\n\n" + "## Mission Context\n" + "- **Project**: ")
         && BraceFree("/\n" + "- **Role**: ")
  {
    BraceFreeJoin("\n\n## Identity\n", "You are **");
    BraceFreeJoin("**.\n\n", "## Mission Context\n");
    BraceFreeJoin("**.\n\n" + "## Mission Context\n", "- **Project**: ");
    BraceFreeJoin("/\n", "- **Role**: ");
  }

  lemma BaseJoins2()
    requires BraceFree("\n\n## Workflow\n")
          && BraceFree("1. `mc -p ")
          && BraceFree(" checkin`\n")
          && BraceFree("2. `mc -p ")
          && BraceFree(" list --mine --status pending`\n")
          && BraceFree("3. Claim highest-priority task: ")
          && BraceFree("`mc -p ")
    ensures BraceFree("\n\n## Workflow\n" + "1. `mc -p ")
         && BraceFree(" checkin`\n" + "2. `mc -p ")
         && BraceFree(" list --mine --status pending`\n" + "3. Claim highest-priority task: " + "`mc -p ")
  {
    BraceFreeJoin("\n\n## Workflow\n", "1. `mc -p ");
    BraceFreeJoin(" checkin`\n", "2. `mc -p ");
    BraceFreeJoin(" list --mine --status pending`\n", "3. Claim highest-priority task: ");
    BraceFreeJoin(" list --mine --status pending`\n" + "3. Claim highest-priority task: ", "`mc -p ");
  }

  lemma BaseJoins3()
    requires BraceFree(" claim <id>`\n")
          && BraceFree("4. Start work: `mc -p ")
          && BraceFree(" start <id>`\n")
          && BraceFree("5. Complete: `mc -p ")
    ensures BraceFree(" claim <id>`\n" + "4. Start work: `mc -p ")
         && BraceFree(" start <id>`\n" + "5. Complete: `mc -p ")
  {
    BraceFreeJoin(" claim <id>`\n", "4. Start work: `mc -p ");
    BraceFreeJoin(" start <id>`\n", "5. Complete: `mc -p ");
  }

  lemma BaseTemplateWellFormed()
    ensures WellFormed(BasePieces)
  {
    KeywordsBraceFree();
    BaseLiterals1();
    BaseLiterals2();
    BaseLiterals3();
    BaseLiterals4();
    BaseJoins1();
    BaseJoins2();
    BaseJoins3();
  }

  lemma MonitorLiterals1()
    ensures BraceFree("# ")
         && BraceFree("\n\n## Identity\n")
         && BraceFree("You are **")
         && BraceFree("**, a mission progress monitor, ")
         && BraceFree("working on project **")
         && BraceFree("**.\n\n")
         && BraceFree("## Mission Context\n")
         && BraceFree("- **Project**: ")
  {
    assert BraceFree("# ");
    assert BraceFree("\n\n## Identity\n");
    assert BraceFree("You are **");
    assert BraceFree("**, a mission progress monitor, ");
    assert BraceFree("working on project **");
    assert BraceFree("**.\n\n");
    assert BraceFree("## Mission Context\n");
    assert BraceFree("- **Project**: ");
  }

  lemma MonitorLiterals2()
    ensures BraceFree("\n- **Mission**: ")
         && BraceFree("\n- **Goal**: ")
         && BraceFree("\n- **Working Directory**: ")
         && BraceFree("/projects/")
         && BraceFree("/\n")
         && BraceFree("- **Role**: monitor\n\n")
         && BraceFree("## Monitoring Workflow\n")
         && BraceFree("1. `mc -p ")
         && BraceFree(" -m ")
  {
    assert BraceFree("\n- **Mission**: ");
    assert BraceFree("\n- **Goal**: ");
    assert BraceFree("\n- **Working Directory**: ");
    assert BraceFree("/projects/");
    assert BraceFree("/\n");
    assert BraceFree("- **Role**: monitor\n\n");
    assert BraceFree("## Monitoring Workflow\n");
    assert BraceFree("1. `mc -p ");
    assert BraceFree(" -m ");
  }

  lemma MonitorLiterals3()
    ensures BraceFree(" checkin` — if ")
         && BraceFree("PAUSED/COMPLETED/ARCHIVED, stop\n")
         && BraceFree("2. `mc -p ")
         && BraceFree(" mission status` — review state ")
  {
    assert BraceFree(" checkin` — if ");
    assert BraceFree("PAUSED/COMPLETED/ARCHIVED, stop\n");
    assert BraceFree("2. `mc -p ");
    assert BraceFree(" mission status` — review state ");
  }

  lemma MonitorLiterals4()
    ensures BraceFree("and user instructions\n")
         && BraceFree("3. `mc -p ")
         && BraceFree(" board` — check task progress\n")
         && BraceFree("4. `mc -p ")
         && BraceFree(" inbox --unread` — check ")
         && BraceFree("messages\n")
  {
    assert BraceFree("and user instructions\n");
    assert BraceFree("3. `mc -p ");
    assert BraceFree(" board` — check task progress\n");
    assert BraceFree("4. `mc -p ");
    assert BraceFree(" inbox --unread` — check ");
    assert BraceFree("messages\n");
  }

  lemma MonitorLiterals5()
    ensures BraceFree("5. Analyze: blocked agents → ")
         && BraceFree("reassign; stale tasks → ")
  {
    assert BraceFree("5. Analyze: blocked agents → ");
    assert BraceFree("reassign; stale tasks → ");
  }

  lemma MonitorLiterals6()
    ensures BraceFree("message; all done → checkpoint\n")
         && BraceFree("6. Escalate if needed: `mc -p ")
  {
    assert BraceFree("message; all done → checkpoint\n");
    assert BraceFree("6. Escalate if needed: `mc -p ");
  }

  lemma MonitorLiterals7()
    ensures BraceFree(" add \"Human: <reason>\" --for ")
         && BraceFree("-")
         && BraceFree("-escalator`\n\n")
         && BraceFree("\n")
  {
    assert BraceFree(" add \"Human: <reason>\" --for ");
    assert BraceFree("-");
    assert BraceFree("-escalator`\n\n");
    assert BraceFree("\n");
  }

  lemma MonitorJoins1()
    requires BraceFree("\n\n## Identity\n")
          && BraceFree("You are **")
          && BraceFree("**, a mission progress monitor, ")
          && BraceFree("working on project **")
          && BraceFree("**.\n\n")
          && BraceFree("## Mission Context\n")
          && BraceFree("- **Project**: ")
    ensures BraceFree("\n\n## Identity\n" + "You are **")
         && BraceFree("**, a mission progress monitor, " + "working on project **")
         && BraceFree("**.\n\n" + "## Mission Context\n" + "- **Project**: ")
  {
    BraceFreeJoin("\n\n## Identity\n", "You are **");
    BraceFreeJoin("**, a mission progress monitor, ", "working on project **");
    BraceFreeJoin("**.\n\n", "## Mission Context\n");
    BraceFreeJoin("**.\n\n" + "## Mission Context\n", "- **Project**: ");
  }

  lemma MonitorJoins2()
    requires BraceFree("/\n")
          && BraceFree("- **Role**: monitor\n\n")
          && BraceFree("## Monitoring Workflow\n")
          && BraceFree("1. `mc -p ")
          && BraceFree(" checkin` — if ")
          && BraceFree("PAUSED/COMPLETED/ARCHIVED, stop\n")
          && BraceFree("2. `mc -p ")
    ensures BraceFree("/\n" + "- **Role**: monitor\n\n" + "## Monitoring Workflow\n" + "1. `mc -p ")
         && BraceFree(" checkin` — if " + "PAUSED/COMPLETED/ARCHIVED, stop\n" + "2. `mc -p ")
  {
    BraceFreeJoin("/\n", "- **Role**: monitor\n\n");
    BraceFreeJoin("/\n" + "- **Role**: monitor\n\n", "## Monitoring Workflow\n");
    BraceFreeJoin("/\n" + "- **Role**: monitor\n\n" + "## Monitoring Workflow\n", "1. `mc -p ");
    BraceFreeJoin(" checkin` — if ", "PAUSED/COMPLETED/ARCHIVED, stop\n");
    BraceFreeJoin(" checkin` — if " + "PAUSED/COMPLETED/ARCHIVED, stop\n", "2. `mc -p ");
  }

  lemma MonitorJoins3()
    requires BraceFree(" mission status` — review state ")
          && BraceFree("and user instructions\n")
          && BraceFree("3. `mc -p ")
          && BraceFree(" board` — check task progress\n")
          && BraceFree("4. `mc -p ")
    ensures BraceFree(" mission status` — review state " + "and user instructions\n" + "3. `mc -p ")
         && BraceFree(" board` — check task progress\n" + "4. `mc -p ")
  {
    BraceFreeJoin(" mission status` — review state ", "and user instructions\n");
    BraceFreeJoin(" mission status` — review state " + "and user instructions\n", "3. `mc -p ");
    BraceFreeJoin(" board` — check task progress\n", "4. `mc -p ");
  }

  lemma MonitorJoins4()
    requires BraceFree(" inbox --unread` — check ")
          && BraceFree("messages\n")
          && BraceFree("5. Analyze: blocked agents → ")
          && BraceFree("reassign; stale tasks → ")
          && BraceFree("message; all done → checkpoint\n")
          && BraceFree("6. Escalate if needed: `mc -p ")
    ensures BraceFree(" inbox --unread` — check " + "messages\n" + "5. Analyze: blocked agents → " + "reassign; stale tasks → " + "message; all done → checkpoint\n" + "6. Escalate if needed: `mc -p ")
  {
    BraceFreeJoin(" inbox --unread` — check ", "messages\n");
    BraceFreeJoin(" inbox --unread` — check " + "messages\n", "5. Analyze: blocked agents → ");
    BraceFreeJoin(" inbox --unread` — check " + "messages\n" + "5. Analyze: blocked agents → ", "reassign; stale tasks → ");
    BraceFreeJoin(" inbox --unread` — check " + "messages\n" + "5. Analyze: blocked agents → " + "reassign; stale tasks → ", "message; all done → checkpoint\n");
    BraceFreeJoin(" inbox --unread` — check " + "messages\n" + "5. Analyze: blocked agents → " + "reassign; stale tasks → " + "message; all done → checkpoint\n", "6. Escalate if needed: `mc -p ");
  }

  lemma MonitorTemplateWellFormed()
    ensures WellFormed(MonitorPieces)
  {
    KeywordsBraceFree();
    MonitorLiterals1();
    MonitorLiterals2();
    MonitorLiterals3();
    MonitorLiterals4();
    MonitorLiterals5();
    MonitorLiterals6();
    MonitorLiterals7();
    MonitorJoins1();
    MonitorJoins2();
    MonitorJoins3();
    MonitorJoins4();
  }

  lemma EscalatorLiterals1()
    ensures BraceFree("# ")
         && BraceFree("\n\n## Identity\n")
         && BraceFree("You are **")
         && BraceFree("**, the human escalation agent ")
         && BraceFree("for project **")
         && BraceFree("**.\n")
         && BraceFree("You are the **sole channel** ")
  {
    assert BraceFree("# ");
    assert BraceFree("\n\n## Identity\n");
    assert BraceFree("You are **");
    assert BraceFree("**, the human escalation agent ");
    assert BraceFree("for project **");
    assert BraceFree("**.\n");
    assert BraceFree("You are the **sole channel** ");
  }

  lemma EscalatorLiterals2()
    ensures BraceFree("between the AI agent team and ")
         && BraceFree("the human operator.\n\n")
         && BraceFree("## Mission Context\n")
         && BraceFree("- **Project**: ")
         && BraceFree("\n- **Mission**: ")
         && BraceFree("\n- **Goal**: ")
  {
    assert BraceFree("between the AI agent team and ");
    assert BraceFree("the human operator.\n\n");
    assert BraceFree("## Mission Context\n");
    assert BraceFree("- **Project**: ");
    assert BraceFree("\n- **Mission**: ");
    assert BraceFree("\n- **Goal**: ");
  }

  lemma EscalatorLiterals3()
    ensures BraceFree("\n- **Working Directory**: ")
         && BraceFree("/projects/")
         && BraceFree("/\n")
         && BraceFree("- **Role**: escalator\n")
         && BraceFree("- **Human Slack User**: <@")
         && BraceFree(">\n\n")
         && BraceFree("## Escalation Policy\n")
  {
    assert BraceFree("\n- **Working Directory**: ");
    assert BraceFree("/projects/");
    assert BraceFree("/\n");
    assert BraceFree("- **Role**: escalator\n");
    assert BraceFree("- **Human Slack User**: <@");
    assert BraceFree(">\n\n");
    assert BraceFree("## Escalation Policy\n");
  }

  lemma EscalatorLiterals4()
    ensures BraceFree("**MUST escalate:** human ")
         && BraceFree("judgment needed, credentials ")
         && BraceFree("needed, budget approval, ")
  {
    assert BraceFree("**MUST escalate:** human ");
    assert BraceFree("judgment needed, credentials ");
    assert BraceFree("needed, budget approval, ");
  }

  lemma EscalatorLiterals5()
    ensures BraceFree("destructive actions, unclear ")
         && BraceFree("goals.\n")
         && BraceFree("**Do NOT escalate:** technical ")
         && BraceFree("choices, bug fixes, code ")
  {
    assert BraceFree("destructive actions, unclear ");
    assert BraceFree("goals.\n");
    assert BraceFree("**Do NOT escalate:** technical ");
    assert BraceFree("choices, bug fixes, code ");
  }

  lemma EscalatorLiterals6()
    ensures BraceFree("review, task prioritization.\n\n")
         && BraceFree("\n\n## Workflow\n")
         && BraceFree("1. `mc -p ")
         && BraceFree(" -m ")
         && BraceFree(" checkin` — if ")
         && BraceFree("PAUSED/COMPLETED/ARCHIVED, stop\n")
  {
    assert BraceFree("review, task prioritization.\n\n");
    assert BraceFree("\n\n## Workflow\n");
    assert BraceFree("1. `mc -p ");
    assert BraceFree(" -m ");
    assert BraceFree(" checkin` — if ");
    assert BraceFree("PAUSED/COMPLETED/ARCHIVED, stop\n");
  }

  lemma EscalatorLiterals7()
    ensures BraceFree("2. `mc -p ")
         && BraceFree(" mission status` — relay human ")
         && BraceFree("instructions to requesting ")
         && BraceFree("agents\n")
         && BraceFree("3. `mc -p ")
  {
    assert BraceFree("2. `mc -p ");
    assert BraceFree(" mission status` — relay human ");
    assert BraceFree("instructions to requesting ");
    assert BraceFree("agents\n");
    assert BraceFree("3. `mc -p ");
  }

  lemma EscalatorLiterals8()
    ensures BraceFree(" list --mine --status pending` ")
         && BraceFree("— process escalation tasks\n")
  {
    assert BraceFree(" list --mine --status pending` ");
    assert BraceFree("— process escalation tasks\n");
  }

  lemma EscalatorLiterals9()
    ensures BraceFree("4. No tasks → disable own cron ")
         && BraceFree("(monitor will re-enable when ")
         && BraceFree("needed)\n")
  {
    assert BraceFree("4. No tasks → disable own cron ");
    assert BraceFree("(monitor will re-enable when ");
    assert BraceFree("needed)\n");
  }

  lemma EscalatorJoins1()
    requires BraceFree("\n\n## Identity\n")
          && BraceFree("You are **")
          && BraceFree("**, the human escalation agent ")
          && BraceFree("for project **")
    ensures BraceFree("\n\n## Identity\n" + "You are **")
         && BraceFree("**, the human escalation agent " + "for project **")
  {
    BraceFreeJoin("\n\n## Identity\n", "You are **");
    BraceFreeJoin("**, the human escalation agent ", "for project **");
  }

  lemma EscalatorJoins2()
    requires BraceFree("**.\n")
          && BraceFree("You are the **sole channel** ")
          && BraceFree("between the AI agent team and ")
          && BraceFree("the human operator.\n\n")
          && BraceFree("## Mission Context\n")
          && BraceFree("- **Project**: ")
    ensures BraceFree("**.\n" + "You are the **sole channel** " + "between the AI agent team and " + "the human operator.\n\n" + "## Mission Context\n" + "- **Project**: ")
  {
    BraceFreeJoin("**.\n", "You are the **sole channel** ");
    BraceFreeJoin("**.\n" + "You are the **sole channel** ", "between the AI agent team and ");
    BraceFreeJoin("**.\n" + "You are the **sole channel** " + "between the AI agent team and ", "the human operator.\n\n");
    BraceFreeJoin("**.\n" + "You are the **sole channel** " + "between the AI agent team and " + "the human operator.\n\n", "## Mission Context\n");
    BraceFreeJoin("**.\n" + "You are the **sole channel** " + "between the AI agent team and " + "the human operator.\n\n" + "## Mission Context\n", "- **Project**: ");
  }

  lemma EscalatorJoins3()
    requires BraceFree("/\n")
          && BraceFree("- **Role**: escalator\n")
          && BraceFree("- **Human Slack User**: <@")
    ensures BraceFree("/\n" + "- **Role**: escalator\n" + "- **Human Slack User**: <@")
  {
    BraceFreeJoin("/\n", "- **Role**: escalator\n");
    BraceFreeJoin("/\n" + "- **Role**: escalator\n", "- **Human Slack User**: <@");
  }

  lemma EscalatorJoins4()
    requires BraceFree(">\n\n")
          && BraceFree("## Escalation Policy\n")
          && BraceFree("**MUST escalate:** human ")
          && BraceFree("judgment needed, credentials ")
          && BraceFree("needed, budget approval, ")
          && BraceFree("destructive actions, unclear ")
          && BraceFree("goals.\n")
          && BraceFree("**Do NOT escalate:** technical ")
          && BraceFree("choices, bug fixes, code ")
          && BraceFree("review, task prioritization.\n\n")
    ensures BraceFree(">\n\n" + "## Escalation Policy\n" + "**MUST escalate:** human " + "judgment needed, credentials " + "needed, budget approval, " + "destructive actions, unclear " + "goals.\n" + "**Do NOT escalate:** technical " + "choices, bug fixes, code " + "review, task prioritization.\n\n")
  {
    BraceFreeJoin(">\n\n", "## Escalation Policy\n");
    BraceFreeJoin(">\n\n" + "## Escalation Policy\n", "**MUST escalate:** human ");
    BraceFreeJoin(">\n\n" + "## Escalation Policy\n" + "**MUST escalate:** human ", "judgment needed, credentials ");
    BraceFreeJoin(">\n\n" + "## Escalation Policy\n" + "**MUST escalate:** human " + "judgment needed, credentials ", "needed, budget approval, ");
    BraceFreeJoin(">\n\n" + "## Escalation Policy\n" + "**MUST escalate:** human " + "judgment needed, credentials " + "needed, budget approval, ", "destructive actions, unclear ");
    BraceFreeJoin(">\n\n" + "## Escalation Policy\n" + "**MUST escalate:** human " + "judgment needed, credentials " + "needed, budget approval, " + "destructive actions, unclear ", "goals.\n");
    BraceFreeJoin(">\n\n" + "## Escalation Policy\n" + "**MUST escalate:** human " + "judgment needed, credentials " + "needed, budget approval, " + "destructive actions, unclear " + "goals.\n", "**Do NOT escalate:** technical ");
    BraceFreeJoin(">\n\n" + "## Escalation Policy\n" + "**MUST escalate:** human " + "judgment needed, credentials " + "needed, budget approval, " + "destructive actions, unclear " + "goals.\n" + "**Do NOT escalate:** technical ", "choices, bug fixes, code ");
    BraceFreeJoin(">\n\n" + "## Escalation Policy\n" + "**MUST escalate:** human " + "judgment needed, credentials " + "needed, budget approval, " + "destructive actions, unclear " + "goals.\n" + "**Do NOT escalate:** technical " + "choices, bug fixes, code ", "review, task prioritization.\n\n");
  }

  lemma EscalatorJoins5()
    requires BraceFree("\n\n## Workflow\n")
          && BraceFree("1. `mc -p ")
          && BraceFree(" checkin` — if ")
          && BraceFree("PAUSED/COMPLETED/ARCHIVED, stop\n")
          && BraceFree("2. `mc -p ")
    ensures BraceFree("\n\n## Workflow\n" + "1. `mc -p ")
         && BraceFree(" checkin` — if " + "PAUSED/COMPLETED/ARCHIVED, stop\n" + "2. `mc -p ")
  {
    BraceFreeJoin("\n\n## Workflow\n", "1. `mc -p ");
    BraceFreeJoin(" checkin` — if ", "PAUSED/COMPLETED/ARCHIVED, stop\n");
    BraceFreeJoin(" checkin` — if " + "PAUSED/COMPLETED/ARCHIVED, stop\n", "2. `mc -p ");
  }

  lemma EscalatorJoins6()
    requires BraceFree(" mission status` — relay human ")
          && BraceFree("instructions to requesting ")
          && BraceFree("agents\n")
          && BraceFree("3. `mc -p ")
    ensures BraceFree(" mission status` — relay human " + "instructions to requesting " + "agents\n" + "3. `mc -p ")
  {
    BraceFreeJoin(" mission status` — relay human ", "instructions to requesting ");
    BraceFreeJoin(" mission status` — relay human " + "instructions to requesting ", "agents\n");
    BraceFreeJoin(" mission status` — relay human " + "instructions to requesting " + "agents\n", "3. `mc -p ");
  }

  lemma EscalatorJoins7()
    requires BraceFree(" list --mine --status pending` ")
          && BraceFree("— process escalation tasks\n")
          && BraceFree("4. No tasks → disable own cron ")
          && BraceFree("(monitor will re-enable when ")
          && BraceFree("needed)\n")
    ensures BraceFree(" list --mine --status pending` " + "— process escalation tasks\n" + "4. No tasks → disable own cron " + "(monitor will re-enable when " + "needed)\n")
  {
    BraceFreeJoin(" list --mine --status pending` ", "— process escalation tasks\n");
    BraceFreeJoin(" list --mine --status pending` " + "— process escalation tasks\n", "4. No tasks → disable own cron ");
    BraceFreeJoin(" list --mine --status pending` " + "— process escalation tasks\n" + "4. No tasks → disable own cron ", "(monitor will re-enable when ");
    BraceFreeJoin(" list --mine --status pending` " + "— process escalation tasks\n" + "4. No tasks → disable own cron " + "(monitor will re-enable when ", "needed)\n");
  }

  lemma EscalatorTemplateWellFormed()
    ensures WellFormed(EscalatorPieces)
  {
    KeywordsBraceFree();
    EscalatorLiterals1();
    EscalatorLiterals2();
    EscalatorLiterals3();
    EscalatorLiterals4();
    EscalatorLiterals5();
    EscalatorLiterals6();
    EscalatorLiterals7();
    EscalatorLiterals8();
    EscalatorLiterals9();
    EscalatorJoins1();
    EscalatorJoins2();
    EscalatorJoins3();
    EscalatorJoins4();
    EscalatorJoins5();
    EscalatorJoins6();
    EscalatorJoins7();
  }

  /** The installed template file when there is one, else the built-in one. */
  function LoadTemplate(installed: Option<string>, fallback: seq<Piece>): (t: string)
    ensures installed.Some? ==> t == installed.value
    ensures installed.None? ==> t == Flatten(fallback)
  {
    match installed
    case Some(text) => text
    case None => Flatten(fallback)
  }

  // ---------------------------------------------------------------------------
  // Worker documents
  // ---------------------------------------------------------------------------

  /** The keywords of a worker's document, in the order they are substituted. */
  const AgentsMdKeys: seq<string> :=
    ["role_specialization", "role_description", "agent_id", "role", "project", "mission", "goal", "config_dir"]

  /** Each keyword bound to the value at the same position. */
  function Bindings(keys: seq<string>, values: seq<string>): (b: seq<Binding>)
    requires |keys| == |values|
    ensures |b| == |keys| && forall i :: 0 <= i < |b| ==> b[i] == Bind(keys[i], values[i])
  {
    seq(|keys|, i requires 0 <= i < |keys| => Bind(keys[i], values[i]))
  }

  /** The values of a worker's keywords, in keyword order. */
  function AgentsMdValues(agentId: string, role: string, project: string, mission: string, goal: string,
                          config: Option<RoleConfig>, custom: Option<string>, configDir: string): (v: seq<string>)
    ensures |v| == |AgentsMdKeys|
  {
    [RoleSpecialization(role, config), RoleDescription(role, config, custom),
     agentId, role, project, mission, goal, configDir]
  }

  /**
   * The worker template `template` rendered with the role's specialization
   * and description and the mission's names, in keyword order.
   */
  function AgentsMd(template: string, agentId: string, role: string, project: string, mission: string, goal: string,
                    config: Option<RoleConfig>, custom: Option<string>, configDir: string): string
  {
    Render(template,
           Bindings(AgentsMdKeys, AgentsMdValues(agentId, role, project, mission, goal, config, custom, configDir)))
  }

  /** `generate_agents_md`: the worker document on the template `load_template` returns. */
  function GenerateAgentsMd(agentId: string, role: string, project: string, mission: string, goal: string,
                            config: Option<RoleConfig>, custom: Option<string>, configDir: string,
                            installed: Option<string>): string
  {
    AgentsMd(LoadTemplate(installed, BasePieces), agentId, role, project, mission, goal, config, custom, configDir)
  }

  /** A template that holds none of the eight placeholders comes back as it is. */
  lemma AgentsMdUntouched(template: string, agentId: string, role: string, project: string, mission: string,
                          goal: string, config: Option<RoleConfig>, custom: Option<string>, configDir: string)
    requires forall i :: 0 <= i < |AgentsMdKeys| ==> !Contains(template, Placeholder(AgentsMdKeys[i]))
    ensures AgentsMd(template, agentId, role, project, mission, goal, config, custom, configDir) == template
  {
    var binds := Bindings(AgentsMdKeys, AgentsMdValues(agentId, role, project, mission, goal, config, custom, configDir));
    RenderUntouched(template, binds);
  }

  /** A value that holds no brace, as pieces. */
  function Plain(v: string): (ps: seq<Piece>)
    requires BraceFree(v)
    ensures WellFormed(ps) && Flatten(ps) == v && forall x :: Slot(x) !in ps
  {
    assert Flatten([Lit(v)]) == v + Flatten([]);
    [Lit(v)]
  }

  lemma AgentsMdKeysBraceFree()
    ensures forall i :: 0 <= i < |AgentsMdKeys| ==> BraceFree(AgentsMdKeys[i])
  {
    KeywordsBraceFree();
  }

  /**
   * Keyword arguments whose first value is given as pieces and whose other
   * values are plain: they render as the bindings do.
   */
  function LeadingFills(keys: seq<string>, first: seq<Piece>, values: seq<string>): (fills: seq<Fill>)
    requires |keys| == |values| >= 1 && Flatten(first) == values[0]
    requires forall i :: 1 <= i < |values| ==> BraceFree(values[i])
    ensures |fills| == |keys| && forall i :: 0 <= i < |fills| ==> fills[i].key == keys[i]
    ensures AsBindings(fills) == Bindings(keys, values)
  {
    var fills := seq(|keys|, i requires 0 <= i < |keys| =>
                   if i == 0 then Fill(keys[0], first) else Fill(keys[i], Plain(values[i])));
    assert forall i :: 0 <= i < |fills| ==> AsBindings(fills)[i] == Bindings(keys, values)[i];
    fills
  }

  /**
   * When only the first value may hold placeholders, and not its own, the
   * keyword arguments are forward: no value names its own keyword or an
   * earlier one.
   */
  lemma LeadingFillsForward(keys: seq<string>, first: seq<Piece>, values: seq<string>)
    requires |keys| == |values| >= 1 && Flatten(first) == values[0]
    requires forall i :: 1 <= i < |values| ==> BraceFree(values[i])
    requires forall i :: 0 <= i < |keys| ==> BraceFree(keys[i])
    requires WellFormed(first) && Slot(keys[0]) !in first
    ensures ForwardFills(LeadingFills(keys, first, values))
  {
    var fills := LeadingFills(keys, first, values);
    forall i, j | 0 <= j <= i < |fills| ensures Slot(fills[j].key) !in fills[i].pieces {
      if i > 0 {
        assert fills[i].pieces == Plain(values[i]);
      }
    }
  }

  /**
   * No placeholder of the eight keywords is left in a worker's document when
   * the template's braces only delimit placeholders (the built-in template is
   * such a template), the specialization is such a text too and does not name
   * itself, and the other values hold no braces. Placeholders such as
   * `{project}` written inside the specialization are rendered, because the
   * specialization is substituted before them.
   */
  lemma AgentsMdLeavesNoPlaceholder(text: string, agentId: string, role: string, project: string, mission: string,
                                    goal: string, config: Option<RoleConfig>, custom: Option<string>, configDir: string,
                                    template: seq<Piece>, specialization: seq<Piece>)
    requires text == Flatten(template) && WellFormed(template)
    requires RoleSpecialization(role, config) == Flatten(specialization) && WellFormed(specialization)
    requires Slot("role_specialization") !in specialization
    requires BraceFree(RoleDescription(role, config, custom))
    requires BraceFree(agentId) && BraceFree(role) && BraceFree(project) && BraceFree(mission)
    requires BraceFree(goal) && BraceFree(configDir)
    ensures forall i :: 0 <= i < |AgentsMdKeys| ==>
              !Contains(AgentsMd(text, agentId, role, project, mission, goal, config, custom, configDir),
                        Placeholder(AgentsMdKeys[i]))
  {
    var values := AgentsMdValues(agentId, role, project, mission, goal, config, custom, configDir);
    assert forall i :: 1 <= i < |values| ==> BraceFree(values[i]);
    var fills := LeadingFills(AgentsMdKeys, specialization, values);
    var doc := AgentsMd(text, agentId, role, project, mission, goal, config, custom, configDir);
    assert doc == Render(Flatten(template), AsBindings(fills));
    AgentsMdKeysBraceFree();
    LeadingFillsForward(AgentsMdKeys, specialization, values);
    RenderLeavesNoPassedPlaceholder(Flatten(template), template, fills);
    forall i | 0 <= i < |AgentsMdKeys| ensures !Contains(doc, Placeholder(AgentsMdKeys[i])) {
      assert fills[i].key == AgentsMdKeys[i];
    }
  }

  // ---------------------------------------------------------------------------
  // Monitor and escalator documents
  // ---------------------------------------------------------------------------

  lemma ResearcherDescriptionBraceFree()
    ensures BraceFree(BuiltinDescription("researcher").value)
  {
    assert BraceFree("research and analysis ");
    assert BraceFree("specialist — technology ");
    assert BraceFree("investigation, library ");
    assert BraceFree("evaluation, best practices ");
    assert BraceFree("research");
  }
  lemma CoderDescriptionBraceFree()
    ensures BraceFree(BuiltinDescription("coder").value)
  {
    assert BraceFree("implementation specialist — ");
    assert BraceFree("writing code, tests, and fixing ");
    assert BraceFree("bugs");
  }
  lemma BackendDescriptionBraceFree()
    ensures BraceFree(BuiltinDescription("backend").value)
  {
    assert BraceFree("backend developer — server-side ");
    assert BraceFree("implementation, API design, ");
    assert BraceFree("database work");
  }
  lemma FrontendDescriptionBraceFree()
    ensures BraceFree(BuiltinDescription("frontend").value)
  {
    assert BraceFree("frontend developer — UI ");
    assert BraceFree("implementation, templates, CSS, ");
    assert BraceFree("client-side logic");
  }
  lemma DeveloperDescriptionBraceFree()
    ensures BraceFree(BuiltinDescription("developer").value)
  {
    assert BraceFree("full-stack developer — ");
    assert BraceFree("implementation across the ");
    assert BraceFree("entire stack");
  }
  lemma EngineerDescriptionBraceFree()
    ensures BraceFree(BuiltinDescription("engineer").value)
  {
    assert BraceFree("software engineer — design and ");
    assert BraceFree("implementation of system ");
    assert BraceFree("components");
  }
  lemma ReviewerDescriptionBraceFree()
    ensures BraceFree(BuiltinDescription("reviewer").value)
  {
    assert BraceFree("code reviewer and quality ");
    assert BraceFree("specialist — code review, ");
    assert BraceFree("security checks, quality ");
    assert BraceFree("assurance");
  }
  lemma QaDescriptionBraceFree()
    ensures BraceFree(BuiltinDescription("qa").value)
  {
    assert BraceFree("quality assurance specialist — ");
    assert BraceFree("testing, validation, and ");
    assert BraceFree("quality checks");
  }
  lemma DesignerDescriptionBraceFree()
    ensures BraceFree(BuiltinDescription("designer").value)
  {
    assert BraceFree("design specialist — UI/UX ");
    assert BraceFree("design, wireframes, and visual ");
    assert BraceFree("design");
  }
  lemma DevopsDescriptionBraceFree()
    ensures BraceFree(BuiltinDescription("devops").value)
  {
    assert BraceFree("DevOps engineer — deployment, ");
    assert BraceFree("infrastructure, CI/CD pipelines");
  }
  lemma LeadDescriptionBraceFree()
    ensures BraceFree(BuiltinDescription("lead").value)
  {
    assert BraceFree("team lead — coordination, ");
    assert BraceFree("architecture decisions, and ");
    assert BraceFree("task management");
  }
  /** No built-in description holds a brace. */
  lemma BuiltinDescriptionsBraceFree(role: string)
    requires BuiltinDescription(role).Some?
    ensures BraceFree(BuiltinDescription(role).value)
  {
    if role == "researcher" { ResearcherDescriptionBraceFree(); }
    else if role == "coder" { CoderDescriptionBraceFree(); }
    else if role == "backend" { BackendDescriptionBraceFree(); }
    else if role == "frontend" { FrontendDescriptionBraceFree(); }
    else if role == "developer" { DeveloperDescriptionBraceFree(); }
    else if role == "engineer" { EngineerDescriptionBraceFree(); }
    else if role == "reviewer" { ReviewerDescriptionBraceFree(); }
    else if role == "qa" { QaDescriptionBraceFree(); }
    else if role == "designer" { DesignerDescriptionBraceFree(); }
    else if role == "devops" { DevopsDescriptionBraceFree(); }
    else if role == "lead" { LeadDescriptionBraceFree(); }
  }

  /**
   * With the built-in worker template and no role configuration, values free
   * of braces leave no placeholder of the eight keywords in the document.
   */
  lemma FallbackAgentsMdComplete(agentId: string, role: string, project: string, mission: string, goal: string,
                                 custom: Option<string>, configDir: string)
    requires BraceFree(agentId) && BraceFree(role) && BraceFree(project) && BraceFree(mission)
    requires BraceFree(goal) && BraceFree(configDir)
    requires custom.Some? ==> BraceFree(custom.value)
    ensures forall i :: 0 <= i < |AgentsMdKeys| ==>
              !Contains(GenerateAgentsMd(agentId, role, project, mission, goal, None, custom, configDir, None),
                        Placeholder(AgentsMdKeys[i]))
  {
    BaseTemplateWellFormed();
    if BuiltinDescription(role).Some? {
      BuiltinDescriptionsBraceFree(role);
    }
    assert BraceFree(" specialist");
    assert BraceFree(RoleDescription(role, None, custom));
    assert RoleSpecialization(role, None) == Flatten([]);
    AgentsMdLeavesNoPlaceholder(Flatten(BasePieces), agentId, role, project, mission, goal, None, custom, configDir,
                                BasePieces, []);
  }

  /** The monitor's keywords, in the order `main` passes them. */
  const MonitorKeys: seq<string> :=
    ["agent_id", "project", "mission", "goal", "monitor_policy", "slack_user_id", "config_dir"]

  /** The escalator's keywords, in the order `main` passes them. */
  const EscalatorKeys: seq<string> :=
    ["agent_id", "project", "mission", "goal", "slack_user_id", "escalation_policy", "config_dir"]

  /** The keyword arguments of the monitor's document, in order. */
  function MonitorBindings(agentId: string, project: string, mission: string, goal: string,
                           policy: string, slackUserId: string, configDir: string): (b: seq<Binding>)
    ensures |b| == |MonitorKeys| && forall i :: 0 <= i < |b| ==> b[i].key == MonitorKeys[i]
  {
    Bindings(MonitorKeys, [agentId, project, mission, goal, policy, slackUserId, configDir])
  }

  /** The keyword arguments of the escalator's document, in order. */
  function EscalatorBindings(agentId: string, project: string, mission: string, goal: string,
                             slackUserId: string, policy: string, configDir: string): (b: seq<Binding>)
    ensures |b| == |EscalatorKeys| && forall i :: 0 <= i < |b| ==> b[i].key == EscalatorKeys[i]
  {
    Bindings(EscalatorKeys, [agentId, project, mission, goal, slackUserId, policy, configDir])
  }

  predicate AllBraceFree(binds: seq<Binding>) {
    forall i :: 0 <= i < |binds| ==> BraceFree(binds[i].key) && BraceFree(binds[i].value)
  }

  /**
   * The monitor's and the escalator's documents rendered from a template
   * whose braces only delimit placeholders, with values that hold no braces,
   * keep no placeholder of their keywords.
   */
  lemma SupervisorDocsLeaveNoPlaceholder(template: seq<Piece>, binds: seq<Binding>)
    requires WellFormed(template) && AllBraceFree(binds)
    ensures forall i :: 0 <= i < |binds| ==> !Contains(Render(Flatten(template), binds), Placeholder(binds[i].key))
  {
    RenderBraceFreeValues(Flatten(template), template, binds);
  }

  /** The keywords are brace-free names, so plain values make all bindings plain. */
  lemma SupervisorBindingsPlain(agentId: string, project: string, mission: string, goal: string,
                                policy: string, slackUserId: string, configDir: string)
    requires BraceFree(agentId) && BraceFree(project) && BraceFree(mission) && BraceFree(goal)
    requires BraceFree(policy) && BraceFree(slackUserId) && BraceFree(configDir)
    ensures AllBraceFree(MonitorBindings(agentId, project, mission, goal, policy, slackUserId, configDir))
    ensures AllBraceFree(EscalatorBindings(agentId, project, mission, goal, slackUserId, policy, configDir))
  {
    KeywordsBraceFree();
  }

  /**
   * With the built-in monitor and escalator templates, values free of braces
   * leave no placeholder of their seven keywords in either document.
   */
  lemma FallbackSupervisorDocsComplete(agentId: string, project: string, mission: string, goal: string,
                                       policy: string, slackUserId: string, configDir: string)
    requires BraceFree(agentId) && BraceFree(project) && BraceFree(mission) && BraceFree(goal)
    requires BraceFree(policy) && BraceFree(slackUserId) && BraceFree(configDir)
    ensures var mb := MonitorBindings(agentId, project, mission, goal, policy, slackUserId, configDir);
            forall i :: 0 <= i < |mb| ==> !Contains(Render(LoadTemplate(None, MonitorPieces), mb), Placeholder(mb[i].key))
    ensures var eb := EscalatorBindings(agentId, project, mission, goal, slackUserId, policy, configDir);
            forall i :: 0 <= i < |eb| ==>
              !Contains(Render(LoadTemplate(None, EscalatorPieces), eb), Placeholder(eb[i].key))
  {
    MonitorTemplateWellFormed();
    EscalatorTemplateWellFormed();
    SupervisorBindingsPlain(agentId, project, mission, goal, policy, slackUserId, configDir);
    SupervisorDocsLeaveNoPlaceholder(MonitorPieces, MonitorBindings(agentId, project, mission, goal, policy,
                                                                    slackUserId, configDir));
    SupervisorDocsLeaveNoPlaceholder(EscalatorPieces, EscalatorBindings(agentId, project, mission, goal, slackUserId,
                                                                        policy, configDir));
  }

  // ---------------------------------------------------------------------------
  // Cron messages
  // ---------------------------------------------------------------------------

  /** The text every cron message ends with: an instruction to answer in Japanese. */
  const JapaneseReply := "日本語で応答すること。"

  /** The `mc` command, prefixed with the profile's environment assignment when there is one. */
  function McCommand(profileEnv: string): (mc: string)
    ensures mc == profileEnv + "mc"
  {
    if profileEnv != [] then profileEnv + "mc" else "mc"
  }

  /** The opening of every cron message: the agent is told who it is. */
  function Greeting(agentId: string): string {
    "You are " + agentId + "."
  }

  /** `{mc} -p {project} -m {mission}`: the `mc` command scoped to the mission. */
  function MissionMc(profileEnv: string, project: string, mission: string): string {
    McCommand(profileEnv) + " -p " + project + " -m " + mission
  }

  /** First step of a worker's tick: check in, and stop when the mission is no longer active. */
  function CheckinStep(mc: string): string {
    " Read your AGENTS.md, then " + "execute your workflow: " + mc + " checkin — " +
    "if output contains " + "MISSION_PAUSED, " + "MISSION_COMPLETED, or " + "MISSION_ARCHIVED then stop. "
  }

  /** Second step: list the worker's own pending tasks and work on the most urgent one. */
  function ClaimStep(mc: string): string {
    "Otherwise: " + mc + " list --mine --status pending && " + "claim and work on your " + "highest-priority task. "
  }

  /** Third step: look for unclaimed work. */
  function FallbackStep(mc: string): string {
    "If no tasks, check " + mc + " list --status pending " + "for unclaimed work. "
  }

  /** `generate_cron_message`: the workflow a worker runs on each cron tick. */
  function CronMessage(agentId: string, project: string, mission: string, profileEnv: string): string {
    var mc := MissionMc(profileEnv, project, mission);
    Greeting(agentId) + (CheckinStep(mc) + ClaimStep(mc) + FallbackStep(mc) + JapaneseReply)
  }

  /** `generate_monitor_cron_message`; the project, mission and profile are not used. */
  function MonitorCronMessage(agentId: string): string {
    Greeting(agentId) + (" Execute your monitoring " + "workflow as described in " + "your AGENTS.md. " + JapaneseReply)
  }

  /** `generate_escalator_cron_message`; the project, mission and profile are not used. */
  function EscalatorCronMessage(agentId: string): string {
    Greeting(agentId) + (" Execute your escalation " + "workflow as described in " + "your AGENTS.md. " + JapaneseReply)
  }

  lemma PrefixAt(a: string, b: string)
    ensures IsAt(a + b, a, 0)
  {
    assert (a + b)[..|a|] == a;
  }

  /** Each message opens by naming its agent. */
  lemma CronMessagesNameTheirAgent(agentId: string, project: string, mission: string, profileEnv: string)
    ensures IsAt(CronMessage(agentId, project, mission, profileEnv), Greeting(agentId), 0)
    ensures IsAt(MonitorCronMessage(agentId), Greeting(agentId), 0)
    ensures IsAt(EscalatorCronMessage(agentId), Greeting(agentId), 0)
  {
    var g := Greeting(agentId);
    var m := CronMessage(agentId, project, mission, profileEnv);
    PrefixAt(g, m[|g|..]);
    PrefixAt(g, MonitorCronMessage(agentId)[|g|..]);
    PrefixAt(g, EscalatorCronMessage(agentId)[|g|..]);
  }

  // The fixed text of the cron messages is inert inside double quotes.

  lemma InertAppend(a: string, b: string)
    requires DoubleQuoteInert(a) && DoubleQuoteInert(b)
    ensures DoubleQuoteInert(a + b)
  {
    assert forall i | |a| <= i < |a + b| :: (a + b)[i] == b[i - |a|];
  }

  lemma GreetingInert(agentId: string)
    requires DoubleQuoteInert(agentId)
    ensures DoubleQuoteInert(Greeting(agentId))
  {
    assert DoubleQuoteInert("You are ") && DoubleQuoteInert(".");
    InertAppend("You are ", agentId);
    InertAppend("You are " + agentId, ".");
  }

  lemma MissionMcInert(profileEnv: string, project: string, mission: string)
    requires DoubleQuoteInert(profileEnv) && DoubleQuoteInert(project) && DoubleQuoteInert(mission)
    ensures DoubleQuoteInert(MissionMc(profileEnv, project, mission))
  {
    assert DoubleQuoteInert("mc") && DoubleQuoteInert(" -p ") && DoubleQuoteInert(" -m ");
    InertAppend(profileEnv, "mc");
    var t := McCommand(profileEnv);
    InertAppend(t, " -p ");
    InertAppend(t + " -p ", project);
    InertAppend(t + " -p " + project, " -m ");
    InertAppend(t + " -p " + project + " -m ", mission);
  }

  lemma CheckinLiterals()
    ensures DoubleQuoteInert(" Read your AGENTS.md, then ")
         && DoubleQuoteInert("execute your workflow: ")
         && DoubleQuoteInert(" checkin — ")
         && DoubleQuoteInert("if output contains ")
         && DoubleQuoteInert("MISSION_PAUSED, ")
         && DoubleQuoteInert("MISSION_COMPLETED, or ")
         && DoubleQuoteInert("MISSION_ARCHIVED then stop. ")
  {
    assert DoubleQuoteInert(" Read your AGENTS.md, then ");
    assert DoubleQuoteInert("execute your workflow: ");
    assert DoubleQuoteInert(" checkin — ");
    assert DoubleQuoteInert("if output contains ");
    assert DoubleQuoteInert("MISSION_PAUSED, ");
    assert DoubleQuoteInert("MISSION_COMPLETED, or ");
    assert DoubleQuoteInert("MISSION_ARCHIVED then stop. ");
  }

  lemma CheckinStepInert(mc: string)
    requires DoubleQuoteInert(mc)
    ensures DoubleQuoteInert(CheckinStep(mc))
  {
    CheckinLiterals();
    var t := " Read your AGENTS.md, then ";
    InertAppend(t, "execute your workflow: ");
    t := t + "execute your workflow: ";
    InertAppend(t, mc);
    t := t + mc;
    InertAppend(t, " checkin — ");
    t := t + " checkin — ";
    InertAppend(t, "if output contains ");
    t := t + "if output contains ";
    InertAppend(t, "MISSION_PAUSED, ");
    t := t + "MISSION_PAUSED, ";
    InertAppend(t, "MISSION_COMPLETED, or ");
    t := t + "MISSION_COMPLETED, or ";
    InertAppend(t, "MISSION_ARCHIVED then stop. ");
  }

  lemma ClaimLiterals()
    ensures DoubleQuoteInert("Otherwise: ")
         && DoubleQuoteInert(" list --mine --status pending && ")
         && DoubleQuoteInert("claim and work on your ")
         && DoubleQuoteInert("highest-priority task. ")
  {
    assert DoubleQuoteInert("Otherwise: ");
    assert DoubleQuoteInert(" list --mine --status pending && ");
    assert DoubleQuoteInert("claim and work on your ");
    assert DoubleQuoteInert("highest-priority task. ");
  }

  lemma ClaimStepInert(mc: string)
    requires DoubleQuoteInert(mc)
    ensures DoubleQuoteInert(ClaimStep(mc))
  {
    ClaimLiterals();
    var t := "Otherwise: ";
    InertAppend(t, mc);
    t := t + mc;
    InertAppend(t, " list --mine --status pending && ");
    t := t + " list --mine --status pending && ";
    InertAppend(t, "claim and work on your ");
    t := t + "claim and work on your ";
    InertAppend(t, "highest-priority task. ");
  }

  lemma FallbackLiterals()
    ensures DoubleQuoteInert("If no tasks, check ")
         && DoubleQuoteInert(" list --status pending ")
         && DoubleQuoteInert("for unclaimed work. ")
  {
    assert DoubleQuoteInert("If no tasks, check ");
    assert DoubleQuoteInert(" list --status pending ");
    assert DoubleQuoteInert("for unclaimed work. ");
  }

  lemma FallbackStepInert(mc: string)
    requires DoubleQuoteInert(mc)
    ensures DoubleQuoteInert(FallbackStep(mc))
  {
    FallbackLiterals();
    var t := "If no tasks, check ";
    InertAppend(t, mc);
    t := t + mc;
    InertAppend(t, " list --status pending ");
    t := t + " list --status pending ";
    InertAppend(t, "for unclaimed work. ");
  }

  /**
   * The fixed text of a worker's message holds no backslash, `$` or
   * backquote, so the message is inert inside double quotes when the names
   * in it are.
   */
  lemma CronMessageInert(agentId: string, project: string, mission: string, profileEnv: string)
    requires DoubleQuoteInert(agentId) && DoubleQuoteInert(project) && DoubleQuoteInert(mission)
    requires DoubleQuoteInert(profileEnv)
    ensures DoubleQuoteInert(CronMessage(agentId, project, mission, profileEnv))
  {
    var mc := MissionMc(profileEnv, project, mission);
    MissionMcInert(profileEnv, project, mission);
    GreetingInert(agentId);
    CheckinStepInert(mc);
    ClaimStepInert(mc);
    FallbackStepInert(mc);
    assert DoubleQuoteInert(JapaneseReply);
    InertAppend(CheckinStep(mc), ClaimStep(mc));
    InertAppend(CheckinStep(mc) + ClaimStep(mc), FallbackStep(mc));
    InertAppend(CheckinStep(mc) + ClaimStep(mc) + FallbackStep(mc), JapaneseReply);
    InertAppend(Greeting(agentId), CheckinStep(mc) + ClaimStep(mc) + FallbackStep(mc) + JapaneseReply);
  }

  /** The supervisors' messages are inert inside double quotes when the agent id is. */
  lemma SupervisorMessagesInert(agentId: string)
    requires DoubleQuoteInert(agentId)
    ensures DoubleQuoteInert(MonitorCronMessage(agentId)) && DoubleQuoteInert(EscalatorCronMessage(agentId))
  {
    GreetingInert(agentId);
    assert DoubleQuoteInert("workflow as described in ") && DoubleQuoteInert("your AGENTS.md. ");
    assert DoubleQuoteInert(JapaneseReply);
    assert DoubleQuoteInert(" Execute your monitoring ") && DoubleQuoteInert(" Execute your escalation ");
    InertAppend(" Execute your monitoring ", "workflow as described in ");
    InertAppend(" Execute your monitoring " + "workflow as described in ", "your AGENTS.md. ");
    InertAppend(" Execute your monitoring " + "workflow as described in " + "your AGENTS.md. ", JapaneseReply);
    InertAppend(" Execute your escalation ", "workflow as described in ");
    InertAppend(" Execute your escalation " + "workflow as described in ", "your AGENTS.md. ");
    InertAppend(" Execute your escalation " + "workflow as described in " + "your AGENTS.md. ", JapaneseReply);
    InertAppend(Greeting(agentId), " Execute your monitoring " + "workflow as described in " + "your AGENTS.md. " + JapaneseReply);
    InertAppend(Greeting(agentId), " Execute your escalation " + "workflow as described in " + "your AGENTS.md. " + JapaneseReply);
  }

  /** The shell reads the escaped cron message back as the message itself. */
  lemma CronMessageSurvivesQuoting(agentId: string, project: string, mission: string, profileEnv: string)
    requires DoubleQuoteInert(agentId) && DoubleQuoteInert(project) && DoubleQuoteInert(mission)
    requires DoubleQuoteInert(profileEnv)
    ensures UnquoteDouble(EscapeDoubleQuotes(CronMessage(agentId, project, mission, profileEnv))) ==
            Some(CronMessage(agentId, project, mission, profileEnv))
    ensures UnquoteDouble(EscapeDoubleQuotes(MonitorCronMessage(agentId))) == Some(MonitorCronMessage(agentId))
    ensures UnquoteDouble(EscapeDoubleQuotes(EscalatorCronMessage(agentId))) == Some(EscalatorCronMessage(agentId))
  {
    CronMessageInert(agentId, project, mission, profileEnv);
    SupervisorMessagesInert(agentId);
    DoubleQuoteRoundTrip(CronMessage(agentId, project, mission, profileEnv));
    DoubleQuoteRoundTrip(MonitorCronMessage(agentId));
    DoubleQuoteRoundTrip(EscalatorCronMessage(agentId));
  }
}
