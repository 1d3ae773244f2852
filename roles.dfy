/**
 * The roles of a mission team (tools/setup_mission.py): the `--roles` list,
 * the description and specialization of each role, and the agent id under
 * which a role's agent is registered.
 */
module Roles {
  import opened Wrappers
  import opened Text

  /** The built-in description of a well-known role, used when no role configuration names it. */
  function BuiltinDescription(role: string): Option<string> {
    match role
    case "researcher" => Some("research and analysis " + "specialist — technology " + "investigation, library " + "evaluation, best practices " + "research")
    case "coder" => Some("implementation specialist — " + "writing code, tests, and fixing " + "bugs")
    case "backend" => Some("backend developer — server-side " + "implementation, API design, " + "database work")
    case "frontend" => Some("frontend developer — UI " + "implementation, templates, CSS, " + "client-side logic")
    case "developer" => Some("full-stack developer — " + "implementation across the " + "entire stack")
    case "engineer" => Some("software engineer — design and " + "implementation of system " + "components")
    case "reviewer" => Some("code reviewer and quality " + "specialist — code review, " + "security checks, quality " + "assurance")
    case "qa" => Some("quality assurance specialist — " + "testing, validation, and " + "quality checks")
    case "designer" => Some("design specialist — UI/UX " + "design, wireframes, and visual " + "design")
    case "devops" => Some("DevOps engineer — deployment, " + "infrastructure, CI/CD pipelines")
    case "lead" => Some("team lead — coordination, " + "architecture decisions, and " + "task management")
    case _ => None
  }

  /** One entry of the `roles` object of a roles.json file; each field may be absent. */
  datatype RoleEntry = RoleEntry(description: Option<string>, specialization: Option<string>)

  type RoleConfig = map<string, RoleEntry>

  /** The last resort description, `"<role> specialist"`. */
  function DefaultDescription(role: string): (r: string)
    ensures |r| == |role| + 11 && r[..|role|] == role
  {
    role + " specialist"
  }

  /** A custom description counts only when it is given and not empty. */
  predicate HasCustom(custom: Option<string>) {
    custom.Some? && custom.value != []
  }

  predicate Configured(role: string, config: Option<RoleConfig>) {
    config.Some? && role in config.value
  }

  /**
   * `generate_role_description`: the first of a non-empty custom description,
   * the configured entry's description (or the default when the entry has
   * none), the built-in table, the default.
   */
  function RoleDescription(role: string, config: Option<RoleConfig>, custom: Option<string>): (r: string)
    ensures HasCustom(custom) ==> r == custom.value
    ensures !HasCustom(custom) && Configured(role, config) ==>
              r == (match config.value[role].description
                    case Some(d) => d
                    case None => DefaultDescription(role))
    ensures !HasCustom(custom) && !Configured(role, config) && BuiltinDescription(role).Some? ==>
              r == BuiltinDescription(role).value
    ensures !HasCustom(custom) && !Configured(role, config) && BuiltinDescription(role).None? ==>
              r == DefaultDescription(role)
  {
    if HasCustom(custom) then custom.value
    else if Configured(role, config) then
      match config.value[role].description
      case Some(d) => d
      case None => DefaultDescription(role)
    else
      match BuiltinDescription(role)
      case Some(d) => d
      case None => DefaultDescription(role)
  }

  /**
   * A description is empty only when the role configuration itself gives an
   * empty description: the custom text is skipped when empty, and neither the
   * built-in table nor the default is ever empty.
   */
  lemma RoleDescriptionEmpty(role: string, config: Option<RoleConfig>, custom: Option<string>)
    ensures RoleDescription(role, config, custom) == [] <==>
              !HasCustom(custom) && Configured(role, config) && config.value[role].description == Some([])
  {
    assert BuiltinDescription(role) != Some([]);
  }

  /**
   * `generate_role_specialization`: the configured entry's specialization,
   * and the empty text when there is none.
   */
  function RoleSpecialization(role: string, config: Option<RoleConfig>): (r: string)
    ensures r != [] ==> Configured(role, config) && config.value[role].specialization == Some(r)
    ensures Configured(role, config) && config.value[role].specialization.Some? ==>
              r == config.value[role].specialization.value
  {
    if Configured(role, config) then
      match config.value[role].specialization
      case Some(s) => s
      case None => []
    else []
  }

  // ---------------------------------------------------------------------------
  // The --roles argument
  // ---------------------------------------------------------------------------

  predicate Blank(s: string) {
    forall i :: 0 <= i < |s| ==> IsSpace(s[i])
  }

  /** Each part stripped, the parts that strip to nothing dropped, in order. */
  function KeptRoles(parts: seq<string>): seq<string>
    decreases |parts|
  {
    if parts == [] then []
    else
      var s := Strip(parts[0]);
      if s == [] then KeptRoles(parts[1..]) else [s] + KeptRoles(parts[1..])
  }

  /**
   * Every kept role is non-empty and trimmed, comma-free when the parts are,
   * and nothing is kept exactly when every part is blank.
   */
  lemma {:induction false} KeptRolesClean(parts: seq<string>)
    ensures var r := KeptRoles(parts);
            forall i :: 0 <= i < |r| ==> r[i] != [] && Trimmed(r[i])
    ensures var r := KeptRoles(parts);
            (forall i :: 0 <= i < |parts| ==> ',' !in parts[i]) ==> forall i :: 0 <= i < |r| ==> ',' !in r[i]
    ensures KeptRoles(parts) == [] <==> forall i :: 0 <= i < |parts| ==> Blank(parts[i])
    decreases |parts|
  {
    if parts != [] {
      KeptRolesClean(parts[1..]);
      assert forall i :: 0 <= i < |parts[1..]| ==> parts[1..][i] == parts[i + 1];
    }
  }

  /** A character no part holds is in no kept role. */
  lemma {:induction false} KeptRolesAvoid(parts: seq<string>, c: char)
    ensures (forall j :: 0 <= j < |parts| ==> c !in parts[j]) ==>
              forall i :: 0 <= i < |KeptRoles(parts)| ==> c !in KeptRoles(parts)[i]
    decreases |parts|
  {
    if parts != [] {
      KeptRolesAvoid(parts[1..], c);
      assert forall j :: 0 <= j < |parts[1..]| ==> parts[1..][j] == parts[j + 1];
    }
  }

  /**
   * The role list: the argument split on `,`, each entry stripped, empty
   * entries dropped; None is the error exit for an empty list.
   */
  function ParseRoles(arg: string): (r: Option<seq<string>>)
    ensures r.Some? ==> r.value != [] && forall i :: 0 <= i < |r.value| ==>
              r.value[i] != [] && Trimmed(r.value[i]) && ',' !in r.value[i]
    ensures r.None? <==> forall i :: 0 <= i < |arg| ==> IsSpace(arg[i]) || arg[i] == ','
  {
    var parts := Split(arg, ',');
    BlankJoin(parts, ',');
    KeptRolesClean(parts);
    var kept := KeptRoles(parts);
    if kept == [] then None else Some(kept)
  }

  /** A character the argument does not hold is in no parsed role. */
  lemma ParseRolesAvoid(arg: string, c: char)
    requires c !in arg && ParseRoles(arg).Some?
    ensures forall i :: 0 <= i < |ParseRoles(arg).value| ==> c !in ParseRoles(arg).value[i]
  {
    var parts := Split(arg, ',');
    JoinAvoids(parts, ',', c);
    KeptRolesAvoid(parts, c);
  }

  /** Every character is whitespace or the separator. */
  predicate BlankOrSep(s: string, sep: char) {
    forall k :: 0 <= k < |s| ==> IsSpace(s[k]) || s[k] == sep
  }

  lemma BlankOrSepJoin(a: string, j: string, sep: char)
    requires !IsSpace(sep) && sep !in a
    ensures BlankOrSep(a + [sep] + j, sep) <==> Blank(a) && BlankOrSep(j, sep)
  {
    var s := a + [sep] + j;
    assert forall k :: 0 <= k < |a| ==> s[k] == a[k] && a[k] in a;
    assert forall k :: 0 <= k < |j| ==> s[|a| + 1 + k] == j[k];
    if Blank(a) && BlankOrSep(j, sep) {
      forall k | 0 <= k < |s| ensures IsSpace(s[k]) || s[k] == sep {
        if k > |a| {
          assert s[k] == j[k - |a| - 1];
        }
      }
    }
  }

  /** Only blanks and separators: exactly when every part is blank. */
  lemma {:induction false} BlankJoin(parts: seq<string>, sep: char)
    requires !IsSpace(sep) && forall i :: 0 <= i < |parts| ==> sep !in parts[i]
    ensures BlankOrSep(Join(parts, sep), sep) <==> forall i :: 0 <= i < |parts| ==> Blank(parts[i])
    decreases |parts|
  {
    if |parts| == 1 {
      assert Join(parts, sep) == parts[0];
      assert forall k :: 0 <= k < |parts[0]| ==> parts[0][k] in parts[0];
    } else if |parts| > 1 {
      var rest := parts[1..];
      assert forall i :: 0 <= i < |rest| ==> rest[i] == parts[i + 1];
      BlankJoin(rest, sep);
      BlankOrSepJoin(parts[0], Join(rest, sep), sep);
      assert Join(parts, sep) == parts[0] + [sep] + Join(rest, sep);
      assert (forall i :: 0 <= i < |parts| ==> Blank(parts[i])) <==>
             Blank(parts[0]) && forall i :: 0 <= i < |rest| ==> Blank(rest[i]);
    }
  }

  /** The first part of `xs` contributes the same to the kept roles of `xs` and of `xs + ys`. */
  lemma KeptRolesHead(xs: seq<string>, ys: seq<string>) returns (head: seq<string>)
    requires xs != []
    ensures KeptRoles(xs) == head + KeptRoles(xs[1..])
    ensures KeptRoles(xs + ys) == head + KeptRoles(xs[1..] + ys)
  {
    assert (xs + ys)[0] == xs[0] && (xs + ys)[1..] == xs[1..] + ys;
    head := if Strip(xs[0]) == [] then [] else [Strip(xs[0])];
  }

  /** Order is preserved: the kept roles of two lists are kept one after the other. */
  lemma {:induction false} KeptRolesAppend(xs: seq<string>, ys: seq<string>)
    ensures KeptRoles(xs + ys) == KeptRoles(xs) + KeptRoles(ys)
    decreases |xs|
  {
    if xs != [] {
      var head := KeptRolesHead(xs, ys);
      KeptRolesAppend(xs[1..], ys);
      AppendAssoc(head, KeptRoles(xs[1..]), KeptRoles(ys));
    } else {
      assert xs + ys == ys;
    }
  }

  /** Joining clean role names with commas and parsing gives the names back. */
  lemma {:induction false} ParseRolesJoin(roles: seq<string>)
    requires roles != []
    requires forall i :: 0 <= i < |roles| ==> roles[i] != [] && Trimmed(roles[i]) && ',' !in roles[i]
    ensures ParseRoles(Join(roles, ',')) == Some(roles)
  {
    SplitJoin(roles, ',');
    KeptClean(roles);
  }

  /**
   * Parsing the comma-join of any parts: each part stripped, the blank ones
   * dropped, in order; the error exit when nothing is left.
   */
  lemma ParseRolesJoinParts(parts: seq<string>)
    requires forall i :: 0 <= i < |parts| ==> ',' !in parts[i]
    ensures ParseRoles(Join(parts, ',')) == if KeptRoles(parts) == [] then None else Some(KeptRoles(parts))
  {
    if parts == [] {
      assert Split(Join(parts, ','), ',') == [[]];
      assert Trimmed([]);
    } else {
      SplitJoin(parts, ',');
    }
  }

  lemma {:induction false} KeptClean(roles: seq<string>)
    requires forall i :: 0 <= i < |roles| ==> roles[i] != [] && Trimmed(roles[i])
    ensures KeptRoles(roles) == roles
    decreases |roles|
  {
    if roles != [] {
      assert forall i :: 0 <= i < |roles[1..]| ==> roles[1..][i] == roles[i + 1];
      KeptClean(roles[1..]);
      assert Strip(roles[0]) == roles[0];
    }
  }

  lemma StripLeading()
    ensures Strip(" coder") == "coder"
  {
    assert !IsSpace('c') && !IsSpace('r');
    assert SkipSpaces(" coder", 0) == 1;
    assert SkipSpacesBack(" coder", 1, 6) == 6;
    assert " coder"[1..6] == "coder";
  }

  lemma StripTrailing()
    ensures Strip("qa ") == "qa"
  {
    assert !IsSpace('q') && !IsSpace('a');
    assert SkipSpaces("qa ", 0) == 0;
    assert SkipSpacesBack("qa ", 0, 3) == 2;
    assert "qa "[0..2] == "qa";
  }

  lemma SplitExample()
    ensures Split(" coder, ,qa ", ',') == [" coder", " ", "qa "]
  {
    var parts := [" coder", " ", "qa "];
    assert parts[1..] == [" ", "qa "] && parts[1..][1..] == ["qa "];
    assert Join(parts[1..], ',') == " ,qa ";
    assert Join(parts, ',') == " coder, ,qa ";
    SplitJoin(parts, ',');
  }

  lemma {:induction false} KeptSingle(x: string)
    ensures KeptRoles([x]) == if Strip(x) == [] then [] else [Strip(x)]
  {
    assert [x][1..] == [];
  }

  lemma KeptLeading() ensures KeptRoles([" coder"]) == ["coder"] {
    StripLeading();
    KeptSingle(" coder");
  }

  lemma KeptBlank() ensures KeptRoles([" "]) == [] {
    assert Strip(" ") == [];
    KeptSingle(" ");
  }

  lemma KeptTrailing() ensures KeptRoles(["qa "]) == ["qa"] {
    StripTrailing();
    KeptSingle("qa ");
  }

  lemma KeptTail() ensures KeptRoles([" ", "qa "]) == ["qa"] {
    KeptBlank();
    KeptTrailing();
    KeptRolesAppend([" "], ["qa "]);
    assert [" "] + ["qa "] == [" ", "qa "];
  }

  lemma KeptExample()
    ensures KeptRoles([" coder", " ", "qa "]) == ["coder", "qa"]
  {
    KeptLeading();
    KeptTail();
    KeptRolesAppend([" coder"], [" ", "qa "]);
    assert [" coder"] + [" ", "qa "] == [" coder", " ", "qa "];
  }

  /** Surrounding blanks and empty entries are dropped: `" coder, ,qa "` names two roles. */
  lemma ParseRolesExample()
    ensures ParseRoles(" coder, ,qa ") == Some(["coder", "qa"])
  {
    SplitExample();
    KeptExample();
  }

  // ---------------------------------------------------------------------------
  // Agent ids
  // ---------------------------------------------------------------------------

  /** The id of a mission's agent, `{project}-{mission}-{role}`. */
  function AgentId(project: string, mission: string, role: string): (id: string)
    ensures |id| == |project| + |mission| + |role| + 2
    ensures id[..|project|] == project && id[|project|] == '-'
    ensures id[|project| + 1..|project| + 1 + |mission|] == mission && id[|project| + 1 + |mission|] == '-'
    ensures id[|project| + |mission| + 2..] == role
  {
    project + "-" + mission + "-" + role
  }

  /** Within one mission, distinct roles get distinct agent ids. */
  lemma AgentIdRoleInjective(project: string, mission: string, r1: string, r2: string)
    requires AgentId(project, mission, r1) == AgentId(project, mission, r2)
    ensures r1 == r2
  {
    var n := |project| + |mission| + 2;
    assert r1 == AgentId(project, mission, r1)[n..];
  }

  /** Hyphens in names let the ids of two different missions coincide. */
  lemma AgentIdsCanCollide()
    ensures AgentId("a", "b-c", "d") == AgentId("a-b", "c", "d")
  {
  }

  /** With hyphen-free project and mission names the id determines all three parts. */
  lemma AgentIdInjective(p1: string, m1: string, r1: string, p2: string, m2: string, r2: string)
    requires '-' !in p1 && '-' !in m1 && '-' !in p2 && '-' !in m2
    requires AgentId(p1, m1, r1) == AgentId(p2, m2, r2)
    ensures p1 == p2 && m1 == m2 && r1 == r2
  {
    var id := AgentId(p1, m1, r1);
    FirstHyphen(p1, m1 + "-" + r1, p2, m2 + "-" + r2);
    var t1, t2 := m1 + "-" + r1, m2 + "-" + r2;
    assert id == p1 + "-" + t1 == p2 + "-" + t2;
    assert t1 == id[|p1| + 1..] == t2;
    FirstHyphen(m1, r1, m2, r2);
  }

  /** The text before the first hyphen is the same on both sides. */
  lemma FirstHyphen(a1: string, b1: string, a2: string, b2: string)
    requires '-' !in a1 && '-' !in a2 && a1 + "-" + b1 == a2 + "-" + b2
    ensures a1 == a2 && b1 == b2
  {
    var s := a1 + "-" + b1;
    assert forall k :: 0 <= k < |a1| ==> s[k] == a1[k] && a1[k] in a1;
    assert forall k :: 0 <= k < |a2| ==> s[k] == a2[k] && a2[k] in a2;
    assert s[|a1|] == '-' && s[|a2|] == '-';
    assert |a1| == |a2|;
    assert a1 == s[..|a1|] == a2;
    assert b1 == s[|a1| + 1..] == b2;
  }

}
