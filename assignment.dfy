/** `assignTask`, the same rule in the plan generator and in the task
    consolidator: each file carries its own table of team-member roles. */
module Assignment {
  import opened PlanModel
  import Common

  datatype Role = ProcessConsultant | OdooDeveloper

  /** TEAM_MEMBER_ROLES of the plan generator. */
  const GeneratorRoles: map<string, Role> := map[
    "Andrés Solórzano" := ProcessConsultant,
    "Jose Ricardo Gomez Duran" := ProcessConsultant,
    "Josué Isaías Torres Gonzalez" := ProcessConsultant,
    "José De Jesus Ruvalcaba Luna" := OdooDeveloper,
    "Kenneth André Parrales Aguirre" := OdooDeveloper,
    "Martin Zollneritsch" := ProcessConsultant,
    "Rodrigo Yeo" := ProcessConsultant,
    "Salvador Perez Barrera" := ProcessConsultant]

  /** TEAM_MEMBER_ROLES of the task consolidator. */
  const ConsolidatorRoles: map<string, Role> := map[
    "Luis Angel Muñoz Zermeño" := ProcessConsultant,
    "Jose Ricardo Gomez Duran" := ProcessConsultant,
    "Josué Isaías Torres Gonzalez" := ProcessConsultant,
    "José De Jesus Ruvalcaba Luna" := OdooDeveloper,
    "Martin Zollneritsch" := ProcessConsultant,
    "Salvador Perez Barrera" := ProcessConsultant]

  predicate HasRole(roles: map<string, Role>, m: string, role: Role)
  {
    m in roles && roles[m] == role
  }

  /** `teamMembers.filter(m => TEAM_MEMBER_ROLES[m] === role)`. */
  function WithRole(team: seq<string>, roles: map<string, Role>, role: Role): (pool: seq<string>)
    ensures |pool| <= |team|
  {
    if team == [] then []
    else
      var rest := WithRole(team[1..], roles, role);
      if HasRole(roles, team[0], role) then [team[0]] + rest else rest
  }

  /** The pool holds exactly the roster members with that role. */
  lemma {:induction false} WithRoleMembers(team: seq<string>, roles: map<string, Role>, role: Role, m: string)
    ensures m in WithRole(team, roles, role) <==> m in team && HasRole(roles, m, role)
    decreases |team|
  {
    if team != [] {
      WithRoleMembers(team[1..], roles, role, m);
      assert team == [team[0]] + team[1..];
    }
  }

  /** The member a task is given, by its phase and its id: always a roster
      member, '' for an empty roster. */
  function AssignTask(phase: Phase, id: nat, team: seq<string>, roles: map<string, Role>): (r: string)
    ensures team == [] ==> r == ""
  {
    if team == [] then ""
    else
      var devs := WithRole(team, roles, OdooDeveloper);
      var cons := WithRole(team, roles, ProcessConsultant);
      if phase == Implementation && |devs| > 0 then devs[id % |devs|]
      else if phase == Implementation && |cons| > 0 then cons[id % |cons|]
      else if (phase == Clarity || phase == Adoption) && |cons| > 0 then cons[id % |cons|]
      else if (phase == Clarity || phase == Adoption) && |devs| > 0 then devs[0]
      else team[id % |team|]
  }

  /** `x % n` for `x == q * n + j` with `j < n`. */
  lemma MultiplePlusRemainder(q: nat, n: nat, j: nat)
    requires 0 < n && j < n
    ensures (q * n + j) % n == j
  {
    var x := q * n + j;
    var d := x / n;
    var r := x % n;
    assert n * (d - q) == j - r by {
      assert x == d * n + r;
    }
    Common.MultipleInOpenRange(n, d - q);
  }

  /** A round-robin over a non-empty pool repeats every `|pool|` ids, and any
      `|pool|` consecutive ids reach every member of the pool. */
  lemma RoundRobin(pool: seq<string>, id: nat)
    requires pool != []
    ensures pool[(id + |pool|) % |pool|] == pool[id % |pool|]
    ensures forall p | p in pool :: exists i | id <= i < id + |pool| :: pool[i % |pool|] == p
  {
    var n := |pool|;
    var q := id / n;
    var k := id % n;
    assert id == q * n + k;
    assert id + n == (q + 1) * n + k;
    MultiplePlusRemainder(q + 1, n, k);
    forall p | p in pool
      ensures exists i | id <= i < id + n :: pool[i % n] == p
    {
      var j :| 0 <= j < n && pool[j] == p;
      var c := if j >= k then q else q + 1;
      var i := c * n + j;
      assert id <= i < id + n;
      MultiplePlusRemainder(c, n, j);
    }
  }

  /** The developer an Implementation id goes to when there is one. */
  lemma ImplementationPick(i: nat, team: seq<string>, roles: map<string, Role>)
    requires WithRole(team, roles, OdooDeveloper) != []
    ensures var devs := WithRole(team, roles, OdooDeveloper);
      AssignTask(Implementation, i, team, roles) == devs[i % |devs|]
  {
  }

  /** The consultant a Clarity or Adoption id goes to when there is one. */
  lemma ConsultantPick(phase: Phase, i: nat, team: seq<string>, roles: map<string, Role>)
    requires phase == Clarity || phase == Adoption
    requires WithRole(team, roles, ProcessConsultant) != []
    ensures var cons := WithRole(team, roles, ProcessConsultant);
      AssignTask(phase, i, team, roles) == cons[i % |cons|]
  {
  }

  /** Implementation work round-robins over the developers: it repeats every
      `|devs|` ids, and any `|devs|` consecutive ids reach every developer. */
  lemma ImplementationRoundRobin(id: nat, team: seq<string>, roles: map<string, Role>)
    requires exists m | m in team :: HasRole(roles, m, OdooDeveloper)
    ensures var devs := WithRole(team, roles, OdooDeveloper);
      && |devs| > 0
      && AssignTask(Implementation, id + |devs|, team, roles) == AssignTask(Implementation, id, team, roles)
      && forall d | d in devs :: exists i | id <= i < id + |devs| :: AssignTask(Implementation, i, team, roles) == d
  {
    var m :| m in team && HasRole(roles, m, OdooDeveloper);
    var devs := WithRole(team, roles, OdooDeveloper);
    WithRoleMembers(team, roles, OdooDeveloper, m);
    hide AssignTask, WithRole;
    var n := |devs|;
    RoundRobin(devs, id);
    ImplementationPick(id, team, roles);
    ImplementationPick(id + n, team, roles);
    forall d | d in devs
      ensures exists i | id <= i < id + n :: AssignTask(Implementation, i, team, roles) == d
    {
      var i :| id <= i < id + n && devs[i % n] == d;
      ImplementationPick(i, team, roles);
    }
  }

  /** Clarity and Adoption work round-robins over the consultants: it repeats
      every `|cons|` ids, and any `|cons|` consecutive ids reach every
      consultant. */
  lemma ConsultantRoundRobin(phase: Phase, id: nat, team: seq<string>, roles: map<string, Role>)
    requires phase == Clarity || phase == Adoption
    requires exists m | m in team :: HasRole(roles, m, ProcessConsultant)
    ensures var cons := WithRole(team, roles, ProcessConsultant);
      && |cons| > 0
      && AssignTask(phase, id + |cons|, team, roles) == AssignTask(phase, id, team, roles)
      && forall c | c in cons :: exists i | id <= i < id + |cons| :: AssignTask(phase, i, team, roles) == c
  {
    var m :| m in team && HasRole(roles, m, ProcessConsultant);
    var cons := WithRole(team, roles, ProcessConsultant);
    WithRoleMembers(team, roles, ProcessConsultant, m);
    hide AssignTask, WithRole;
    var n := |cons|;
    RoundRobin(cons, id);
    ConsultantPick(phase, id, team, roles);
    ConsultantPick(phase, id + n, team, roles);
    forall c | c in cons
      ensures exists i | id <= i < id + n :: AssignTask(phase, i, team, roles) == c
    {
      var i :| id <= i < id + n && cons[i % n] == c;
      ConsultantPick(phase, i, team, roles);
    }
  }

  /** The assignee is always a member of a non-empty roster. */
  lemma AssignTaskInTeam(phase: Phase, id: nat, team: seq<string>, roles: map<string, Role>)
    requires team != []
    ensures AssignTask(phase, id, team, roles) in team
  {
    var devs := WithRole(team, roles, OdooDeveloper);
    var cons := WithRole(team, roles, ProcessConsultant);
    if |devs| > 0 { WithRoleMembers(team, roles, OdooDeveloper, devs[id % |devs|]); }
    if |devs| > 0 { WithRoleMembers(team, roles, OdooDeveloper, devs[0]); }
    if |cons| > 0 { WithRoleMembers(team, roles, ProcessConsultant, cons[id % |cons|]); }
  }

  /** Implementation work goes to a developer whenever the roster has one. */
  lemma ImplementationPrefersDevelopers(id: nat, team: seq<string>, roles: map<string, Role>)
    requires exists m | m in team :: HasRole(roles, m, OdooDeveloper)
    ensures HasRole(roles, AssignTask(Implementation, id, team, roles), OdooDeveloper)
  {
    var m :| m in team && HasRole(roles, m, OdooDeveloper);
    var devs := WithRole(team, roles, OdooDeveloper);
    WithRoleMembers(team, roles, OdooDeveloper, m);
    WithRoleMembers(team, roles, OdooDeveloper, devs[id % |devs|]);
  }

  /** Clarity and Adoption work goes to a consultant whenever the roster has one. */
  lemma ClarityAndAdoptionPreferConsultants(phase: Phase, id: nat, team: seq<string>, roles: map<string, Role>)
    requires phase == Clarity || phase == Adoption
    requires exists m | m in team :: HasRole(roles, m, ProcessConsultant)
    ensures HasRole(roles, AssignTask(phase, id, team, roles), ProcessConsultant)
  {
    var m :| m in team && HasRole(roles, m, ProcessConsultant);
    var cons := WithRole(team, roles, ProcessConsultant);
    WithRoleMembers(team, roles, ProcessConsultant, m);
    WithRoleMembers(team, roles, ProcessConsultant, cons[id % |cons|]);
  }
}
