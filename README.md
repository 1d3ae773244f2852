# mission-control: team provisioning and the mobile task board, in Dafny

This project models two parts of mission-control, a tool that runs a team of
autonomous agents against a shared task board.

- `tools/setup_mission.py` provisions a mission team:
  - It parses the `--roles` list and derives one agent id per role, `{project}-{mission}-{role}`.
  - It renders each agent's AGENTS.md by ordered, literal placeholder substitution (`safe_render`).
  - It builds each agent's cron message.
  - It escapes the goal and the messages for the shell.
  - It registers the workers in role order, followed by a monitor and an escalator when `--monitor` is given.
- `mobile/mc-server.py` serves the task board to a phone:
  - a token gate in front of `/api`;
  - the board, with its three-key order;
  - task detail with its message thread;
  - the claim and complete updates;
  - the heartbeat stream, which sends a refresh whenever the latest `updated_at` changes.

The Dafny modules are:

| file | module | what it holds |
|---|---|---|
| `wrappers.dfy` | `Wrappers` | `Option` and `Result` |
| `text.dfy` | `Text` | `str.replace`, `str.split`, `str.strip`, and POSIX sh single- and double-quote reading (sections 2.2.1-2.2.3 of the POSIX Shell Command Language) |
| `templates.dfy` | `Templates` | `safe_render` as a loop, and its ordered-substitution specification with the theory of leftover placeholders |
| `roles.dfy` | `Roles` | role descriptions and specializations, `--roles` parsing, agent ids |
| `agent_docs.dfy` | `AgentDocs` | the three built-in templates, the AGENTS.md keyword lists, the cron messages |
| `setup.dfy` | `Setup` | the pure part of `main`: profile, configuration directory, mission command, and the registration loop proved against `Provision` |
| `sorting.dfy` | `Sorting` | ORDER BY as insertion sort under a total preorder, filtering, and SQLite's byte-wise text order |
| `taskboard.dfy` | `TaskBoard` | the token gate, board, task detail, claim and complete; the `TaskStore` class holds the two tables |
| `heartbeat.dfy` | `Heartbeat` | the watermark step, the stream loop, and how claims show up in it |

Some behaviour of the code that the model states outright:
- Workers get `base.md` from the configuration directory or the built-in template. There is no per-role template file.
- The supervisors are a monitor and an escalator, and they exist only with `--monitor`.
- The cron "self-disable" guard exists only as prose inside the escalator's built-in template (tools/setup_mission.py:233). No code enforces it.
- Task detail answers with a null task when the task is outside the mission. It still lists the messages with that task id (`TaskBoard.OtherMissionThread`).
- A refresh is not sent after every mutation. A change within the same second as the watermark is never signalled (`Heartbeat.SameSecondClaimUnnoticed`).

## Model

| member | source | states |
|---|---|---|
| Text.ReplaceAbsent | tools/setup_mission.py:63 | `str.replace` returns a text unchanged when the pattern does not occur in it |
| Text.ReplaceConcat | tools/setup_mission.py:63 | replacing in `a + b` is replacing in `a` and in `b`, provided no occurrence straddles the boundary |
| Text.ReplaceCharwise | tools/setup_mission.py:369 | replacing a one-character pattern rewrites exactly the occurrences of that character and keeps every other character |
| Text.SingleQuoteRoundTrip | tools/setup_mission.py:369-370 | for every goal, the `'` → `'\''` escape wrapped in single quotes is read by a POSIX shell as the goal itself |
| Text.DoubleQuoteRoundTrip | tools/setup_mission.py:433 | the `"` → `\"` escape inside double quotes reads back as the original text, provided the text holds no `\`, `$` or backquote |
| Text.DoubleQuoteNeedsInert | tools/setup_mission.py:433 | the condition above is needed: a text holding `\"` does not read back |
| Text.Split | tools/setup_mission.py:330 | `split(",")` gives at least one part; no part holds the separator; joining the parts gives the input back |
| Text.SplitJoin | tools/setup_mission.py:330 | splitting the join of separator-free parts gives the parts back |
| Text.Strip | tools/setup_mission.py:330 | `strip()` is the slice of the input between its leading and its trailing whitespace, and has no whitespace at either end. It is empty exactly when the input is all whitespace, and a text already trimmed is its own strip |
| Text.StripUnique | tools/setup_mission.py:330 | that slice is the only trimmed one with nothing but whitespace around it, so the contract of `Text.Strip` determines its result |
| Templates.SafeRender | tools/setup_mission.py:59-64 | the loop, which reassigns `result` once per keyword, computes the ordered substitution `Render` |
| Templates.RenderUntouched | tools/setup_mission.py:59-64 | a template holding none of the passed placeholders comes back unchanged |
| Templates.ValuesAreNotRescanned | tools/setup_mission.py:59-64 | substitution is not recursive: a value that is a placeholder of an earlier key stays verbatim |
| Templates.TemplateBracesCanFormPlaceholders | tools/setup_mission.py:59-64 | with no restriction on the template, braces around a placeholder can form a new placeholder: `{{a}}` with `a="a"` renders as `{a}` |
| Templates.ReplaceFlatten | tools/setup_mission.py:63 | one `str.replace` on a template whose braces only delimit placeholders replaces exactly its slots of that key |
| Templates.RenderFlatten | tools/setup_mission.py:59-64 | rendering such a template with such values instantiates its slots one keyword after the other, and the result stays well formed |
| Templates.FlattenContains | tools/setup_mission.py:59-64 | in such a text `{x}` occurs exactly when the text has a slot `x` |
| Templates.NoPassedSlots | tools/setup_mission.py:62-63 | after keywords where no value names its own key or an earlier one, no slot of a passed key is left |
| Templates.RenderLeavesNoPassedPlaceholder | tools/setup_mission.py:59-64 | under those conditions the rendered text holds no placeholder of any passed key. Placeholders of later keys inside a value are rendered too |
| Templates.RenderBraceFreeValues | tools/setup_mission.py:59-64 | values without braces leave no placeholder of a passed key in such a template |
| Text.ReplaceSplit | tools/setup_mission.py:63 | `str.replace` passes through unchanged every character before the first occurrence of the pattern |
| Templates.SameStart | tools/setup_mission.py:63 | two placeholders of brace-free keys starting at the same index have the same key |
| Templates.ReplaceKeepsOther | tools/setup_mission.py:63 | replacing `{k}` keeps every `{x}` of another brace-free key, whatever the template and the replacement text |
| Templates.RenderKeepsUnpassedPlaceholders | tools/setup_mission.py:59-64 | for any template and any values, a `{x}` it holds survives every substitution of other brace-free keys: a placeholder whose key is not passed is left verbatim |
| Roles.DefaultDescription | tools/setup_mission.py:116-117 | the last-resort description is the role followed by " specialist" |
| Roles.RoleDescription | tools/setup_mission.py:111-117 | precedence: a non-empty custom description; then the configured entry's description, or the default when the entry has none; then the built-in table; then the default |
| Roles.RoleDescriptionEmpty | tools/setup_mission.py:111-117 | the description is empty exactly when there is no custom text and the role configuration itself gives an empty description |
| Roles.RoleSpecialization | tools/setup_mission.py:120-124 | the configured specialization, and "" exactly when none is configured or it is empty |
| Roles.KeptRolesClean | tools/setup_mission.py:330 | every kept role is non-empty and trimmed, and comma-free when the parts are. The list is empty exactly when every part is blank |
| Roles.ParseRoles | tools/setup_mission.py:330-336 | the error exit is taken exactly when the argument holds only whitespace and commas. Otherwise every role is non-empty, trimmed and comma-free |
| Roles.KeptRolesAppend | tools/setup_mission.py:330 | order is preserved: the kept roles of `xs + ys` are those of `xs` followed by those of `ys` |
| Roles.ParseRolesJoin | tools/setup_mission.py:330 | parsing the comma-join of clean role names gives the names back |
| Roles.ParseRolesJoinParts | tools/setup_mission.py:330-336 | for any comma-free parts, padded or blank, parsing their comma-join gives each part stripped with the blank ones dropped, in input order, and the error exit when nothing is left |
| Roles.ParseRolesAvoid | tools/setup_mission.py:330 | a character missing from `--roles` is in no parsed role |
| Roles.ParseRolesExample | tools/setup_mission.py:330 | `" coder, ,qa "` names exactly `coder` and `qa` |
| Roles.AgentId | tools/setup_mission.py:385 | the id is the project, a hyphen, the mission, a hyphen and the role |
| Roles.AgentIdRoleInjective | tools/setup_mission.py:385 | within one mission, distinct roles get distinct ids |
| Roles.AgentIdsCanCollide | tools/setup_mission.py:385 | across missions, hyphens let two different triples share an id |
| Roles.AgentIdInjective | tools/setup_mission.py:385 | with hyphen-free project and mission names, the id determines all three parts |
| AgentDocs.BaseTemplateWellFormed | tools/setup_mission.py:88-108 | the built-in worker template uses braces only as placeholder delimiters |
| AgentDocs.MonitorTemplateWellFormed | tools/setup_mission.py:178-199 | the same holds for the built-in monitor template |
| AgentDocs.EscalatorTemplateWellFormed | tools/setup_mission.py:209-234 | the same holds for the built-in escalator template |
| AgentDocs.LoadTemplate | tools/setup_mission.py:81-88 | the installed file when there is one, otherwise the built-in text |
| AgentDocs.AgentsMdUntouched | tools/setup_mission.py:127-154 | a template without any of the eight placeholders comes back unchanged |
| AgentDocs.AgentsMdLeavesNoPlaceholder | tools/setup_mission.py:142-154 | `role_specialization` is substituted first, so placeholders such as `{project}` inside it are rendered. No placeholder of the eight keywords is left |
| AgentDocs.BuiltinDescriptionsBraceFree | tools/setup_mission.py:30-42 | no built-in description holds a brace |
| AgentDocs.FallbackAgentsMdComplete | tools/setup_mission.py:127-154 | with the built-in template, no role configuration and values free of braces, the document keeps no placeholder of the eight keywords |
| AgentDocs.MonitorBindings | tools/setup_mission.py:463-472 | the monitor's keywords, in call order: `agent_id`, `project`, `mission`, `goal`, `monitor_policy`, `slack_user_id`, `config_dir` |
| AgentDocs.EscalatorBindings | tools/setup_mission.py:530-539 | the escalator's keywords, in call order: `agent_id`, `project`, `mission`, `goal`, `slack_user_id`, `escalation_policy`, `config_dir` |
| AgentDocs.SupervisorDocsLeaveNoPlaceholder | tools/setup_mission.py:463-472 | a supervisor document from a well-formed template with values free of braces keeps no placeholder of its keywords |
| AgentDocs.FallbackSupervisorDocsComplete | tools/setup_mission.py:463-472 | with the built-in templates, the monitor's and the escalator's documents keep no placeholder of their seven keywords |
| AgentDocs.McCommand | tools/setup_mission.py:159 | both branches give `profile_env + "mc"` |
| AgentDocs.CronMessagesNameTheirAgent | tools/setup_mission.py:157-168 | the worker, monitor and escalator messages each open with "You are {agent_id}." |
| AgentDocs.CronMessageInert | tools/setup_mission.py:157-168 | the worker message holds no `\`, `$` or backquote when its inputs hold none |
| AgentDocs.CronMessageSurvivesQuoting | tools/setup_mission.py:433-441 | the shell reads each escaped cron message back as the message itself |
| Setup.Installed | tools/setup_mission.py:81-88 | the environment on a machine whose template directory holds the given files: each loader returns the installed file, or its built-in fallback when it is absent (also lines 171-175 and 202-206) |
| Setup.ParsedRoleBraceFree | tools/setup_mission.py:330 | a role parsed from an argument without braces has no braces |
| Setup.FallbackWorkerComplete | tools/setup_mission.py:81-88 | with no `base.md` installed and no role configuration, the i-th worker's AGENTS.md keeps none of the eight placeholders when the arguments hold no braces |
| Setup.FallbackSupervisorsComplete | tools/setup_mission.py:171-175 | with no `monitor.md` or `escalator.md` installed, the monitor's and the escalator's documents keep none of their seven placeholders when the arguments hold no braces (the escalator loader is at lines 202-206) |
| Setup.FallbackPlanComplete | tools/setup_mission.py:382-581 | on a machine with no template installed and no role configuration, every agent the run registers gets a document with no placeholder of its keywords left, when the arguments hold no braces |
| Setup.ResolveProfile | tools/setup_mission.py:314 | a non-empty `--profile` wins over `OPENCLAW_PROFILE` |
| Setup.ProfileEnv | tools/setup_mission.py:316 | the `OPENCLAW_PROFILE=… ` prefix is empty exactly when there is no profile |
| Setup.GoalSurvivesQuoting | tools/setup_mission.py:369-370 | the mission command ends with the quoted goal, and that word reads back as the goal |
| Setup.MakeContext | tools/setup_mission.py:403 | the custom description is passed only when exactly one role is given |
| Setup.TeamRoles | tools/setup_mission.py:445 | `agents_created` holds the roles first, then monitor and escalator with `--monitor` |
| Setup.Supervisors | tools/setup_mission.py:449 | two supervisors with `--monitor`, none without |
| Setup.Provision | tools/setup_mission.py:327-370 | the run fails exactly when no role is left, with the error text. Otherwise it fixes the profile prefix, the configuration directory and the mission command |
| Setup.ProvisionTeam | tools/setup_mission.py:382-581 | the roles, ids and schedules of the registered agents, in order: the workers on `--cron`, the monitor on `--monitor-cron`, the escalator on `--cron` |
| Setup.WorkerDocument | tools/setup_mission.py:396-405 | the i-th worker's AGENTS.md is the base template rendered for its role |
| Setup.WorkerMessage | tools/setup_mission.py:430-433 | the i-th worker's cron message and its double-quote escape |
| Setup.MonitorDocument | tools/setup_mission.py:462-472 | the monitor's document is its template rendered with seven bindings, in source order |
| Setup.EscalatorDocument | tools/setup_mission.py:529-539 | the escalator's document is its template rendered with seven bindings, in source order |
| Setup.SupervisorMessages | tools/setup_mission.py:498-501 | the supervisors' cron messages and their escapes |
| Setup.RegisterWorker | tools/setup_mission.py:384-445 | one pass of the worker loop produces exactly the specified worker |
| Setup.RegisterMonitor | tools/setup_mission.py:449-514 | the monitor registration |
| Setup.RegisterEscalator | tools/setup_mission.py:517-581 | the escalator registration |
| Setup.RegisterWorkers | tools/setup_mission.py:382-446 | the loop appends one worker per role, in role order |
| Setup.RegisterSupervisors | tools/setup_mission.py:448-581 | the monitor, then the escalator, only with `--monitor` |
| Setup.SetupMission | tools/setup_mission.py:327-581 | the imperative run produces exactly `Provision`'s plan or its error |
| Setup.AgentIdsDistinct | tools/setup_mission.py:385 | the ids are unique exactly when the roles are and, under `--monitor`, no role is `monitor` or `escalator` |
| Setup.CustomDescriptionNeedsSingleRole | tools/setup_mission.py:403 | with other than one role, `--role-desc` changes nothing |
| Setup.FleetExample | tools/setup_mission.py:384-581 | `--roles coder --monitor` registers `proj-mvp-coder`, `proj-mvp-monitor` and `proj-mvp-escalator`, in that order |
| Sorting.SortBy | mobile/mc-server.py:125-135 | the sorted list is a permutation of its input |
| Sorting.SortBySorted | mobile/mc-server.py:125-135 | under a total preorder, the output is in order |
| Sorting.SortedUnique | mobile/mc-server.py:125-135 | two ordered arrangements of the same elements are equal when the order separates distinct elements |
| Sorting.FilterByCount | mobile/mc-server.py:124 | a filter keeps every kept element exactly as often as the input holds it, and nothing else |
| Sorting.StrLeTrans | mobile/mc-server.py:141 | byte-wise text order is transitive |
| Sorting.StrLeTotal | mobile/mc-server.py:141 | byte-wise text order is total |
| TaskBoard.CheckToken | mobile/mc-server.py:76-82 | "/" and `*.html` are open. Other paths not under `/api` are open. Under `/api`, a request passes exactly when `token` equals the server token |
| TaskBoard.GateByPrefix | mobile/mc-server.py:77-82 | `/api/board.html` needs no token; `/apiary` is guarded (prefix match); `/static/app.js` is open |
| TaskBoard.Trunc | mobile/mc-server.py:150 | `int()` truncates toward zero |
| TaskBoard.Rank | mobile/mc-server.py:126-133 | ranks run from 1 to 6. A status outside the six gets NULL, sorting first |
| TaskBoard.AgentOrderTotal | mobile/mc-server.py:141 | `ORDER BY status, name` is a total preorder |
| TaskBoard.Board | mobile/mc-server.py:112-151 | an unresolved mission gives 404 with its message. Otherwise the view lists only mission tasks and every agent, with the workspace, the mission and the time in milliseconds |
| TaskBoard.BoardContents | mobile/mc-server.py:120-124 | each task of the mission appears exactly as often as in the table, and no other task appears. The agents are a permutation of the table |
| TaskBoard.BoardOrder | mobile/mc-server.py:125-141 | a lower rank comes first; at equal rank, a higher priority; at equal rank and priority, a lower id. Agents are in `status, name` order |
| TaskBoard.BoardDetermined | mobile/mc-server.py:125-135 | with unique ids, any board-ordered arrangement of the mission's tasks is the board |
| TaskBoard.FindTask | mobile/mc-server.py:157-160 | the task is returned only when both its id and its mission match. None means no row matches both |
| TaskBoard.TaskDetail | mobile/mc-server.py:153-173 | the task as selected by id and mission; every listed message has that task id |
| TaskBoard.ThreadOfTask | mobile/mc-server.py:162-167 | the thread holds every message with that task id, whatever its mission, oldest first |
| TaskBoard.OtherMissionThread | mobile/mc-server.py:157-167 | a task of another mission is withheld, but its messages are listed |
| TaskBoard.ClaimOwner | mobile/mc-server.py:177-178 | an absent `agent` gives `mobile`; a JSON null gives NULL; a string is kept |
| TaskBoard.Claim | mobile/mc-server.py:181-186 | matching rows get the owner, `in_progress` and both timestamps, whatever their prior status. Their other columns are kept, and all other rows are unchanged |
| TaskBoard.ClaimLastWriterWins | mobile/mc-server.py:181-186 | a second claim overrides the first completely |
| TaskBoard.Complete | mobile/mc-server.py:197-202 | matching rows become `done` with `completed_at` and `updated_at` set to now; owner and claim time are kept; other rows are unchanged |
| TaskBoard.CompleteIdempotent | mobile/mc-server.py:197-202 | completing twice is completing once, at the later time |
| TaskBoard.UpdatesKeepIds | mobile/mc-server.py:181-202 | claim and complete keep task ids unique |
| TaskBoard.NoteOf | mobile/mc-server.py:194 | only a non-empty string counts as a note |
| TaskBoard.NextMessageId | mobile/mc-server.py:205-208 | the new message's rowid is fresh |
| TaskBoard.NoteMessages | mobile/mc-server.py:204-208 | exactly one `status` message from `mobile`, with the note as its body, when a note is given; none otherwise |
| TaskBoard.NoteWithoutTask | mobile/mc-server.py:197-208 | the note is appended even when no task matches |
| TaskBoard.TaskStore.ClaimTask | mobile/mc-server.py:175-189 | the tasks table becomes `Claim` of the old one, messages are untouched, the answer is success, and the primary keys stay keys |
| TaskBoard.TaskStore.CompleteTask | mobile/mc-server.py:191-212 | the tasks table becomes `Complete` of the old one, the note's message is appended, the answer is success, and the keys stay keys |
| Heartbeat.LatestUpdate | mobile/mc-server.py:222-228 | `MAX(updated_at)` over the mission's tasks: NULL exactly when there are none, otherwise a value some task has and none exceeds |
| Heartbeat.Step | mobile/mc-server.py:228-239 | a refresh stamped `int(time())` exactly when the answer differs from the watermark, which then takes the answer. A failure sends an error and keeps the watermark |
| Heartbeat.Stream | mobile/mc-server.py:216-239 | the loop, starting from a watermark of None, sends the events of `Run` |
| Heartbeat.Quiescence | mobile/mc-server.py:230 | polls that repeat the watermark send nothing |
| Heartbeat.NoTasksNoRefresh | mobile/mc-server.py:217-230 | a mission without tasks never sends a refresh |
| Heartbeat.OneRefreshPerChange | mobile/mc-server.py:230-232 | a change sends exactly one refresh; later polls that see the same value send nothing |
| Heartbeat.ClaimSignalled | mobile/mc-server.py:181-186 | a claim in a later second than every earlier update of the mission is signalled on the next poll |
| Heartbeat.SameSecondClaimUnnoticed | mobile/mc-server.py:183-184 | a claim in the same second as the watermark is not signalled |

## Left out

- Shell execution (`run`, `mc`, `openclaw`), directories, file writes and all printing. The model records the command and message strings and the escaping only.
- `--dry-run`: it changes only whether the commands run, not what the plan holds.
- The openclaw registration commands and `--slack-channel`, which appear only in those commands.
- argparse and environment lookups. The parsed arguments, `HOME`, `OPENCLAW_PROFILE` and the loaded template texts are inputs (`Setup.SetupArgs`, `Setup.Environment`).
- Reading roles.json. The role configuration is given as a map. A JSON value that is not a string (for example a null description) is not modelled.
- `Text.DoubleQuoteRoundTrip`: the `"` escape leaves `\`, `$` and backquote alone, so round-tripping is proved only for texts without them.
- `AgentDocs.AgentsMdLeavesNoPlaceholder`: it is stated for templates whose braces only delimit placeholders. Without that restriction the property is false (`Templates.TemplateBracesCanFormPlaceholders`).
- `Roles.AgentIdInjective`: ids of different missions can collide when names contain hyphens (`Roles.AgentIdsCanCollide`). A role called `monitor` or `escalator` collides with a supervisor under `--monitor` (`Setup.AgentIdsDistinct`).
- `monitor_policy` and `escalation_policy` are substituted as given. Placeholders written inside them are rendered only by the keywords that follow them.
- Flask routing, static files, the `/api/info` endpoint, JSON encoding and the event-stream framing (section 9.2 of the WHATWG HTML Living Standard).
- SQLite itself. Tables are sequences of rows. The mission id that `get_mission_id` resolves from the configured name is a parameter, as are `time.time()` and `datetime('now')`.
- Timestamps are whole seconds, compared as integers. The `datetime('now')` text sorts in that order.
- Request bodies other than a JSON object or `null` in the claim and complete endpoints (mobile/mc-server.py:177, :193). Unparsable JSON is answered with 400 by Flask. A non-empty array, a number or a string passes `get_json` and then fails at `data.get` with a 500. An empty array is falsy and becomes `{}`. A body without a JSON content type is answered with 415 by newer Flask, while older Flask yields None, which becomes `{}`; `TaskBoard.Field.Missing` models that older behaviour. JSON values that are not strings (a numeric agent or note) are not modelled either.
- `TaskBoard.NextMessageId`: the messages schema is not part of this model. A new message is assumed to get SQLite's rowid (one past the largest, and at least 1), and `created_at` is assumed to default to the insertion time.
- `TaskBoard.Board`: NULL `status` or `name` in the agents table, and NULL `priority` in the tasks table, are not modelled.
- Ties in `ORDER BY created_at`, which SQLite leaves unspecified. The model keeps table order.
- The 2 s and 5 s sleeps, the threaded server, concurrent requests and the end of the stream on disconnect. The heartbeat is a sequence of polls.
- `secrets.token_urlsafe`: the token is part of `TaskBoard.ServerConfig`.
- `TaskBoard.Trunc`: the board's timestamp is `int(time.time() * 1000)` computed in floating point. The model multiplies exact reals, so rounding of the product is not captured.
- `Setup.ConfigDir` is not a `pathlib` path: `Path.home() / ".openclaw-{profile}"` normalises separators (a trailing `/` on the home directory, say), while the model joins strings with one `/`.
