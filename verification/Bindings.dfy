/** Group bindings: concurrent creators and unbinders over three tables, with a
    unique index on the active binding of a group. */
module Bindings {

  datatype BindingStatus = Draft | Provisioning | Active | Inactive | Failed
  datatype AgentStatus = AgentProvisioning | Healthy | Degraded | Stopped
  datatype Binding = Binding(group: string, template: nat, status: BindingStatus)
  datatype Agent = Agent(binding: nat, status: AgentStatus)
  /** The activation message; it names the agent it announces. */
  datatype Intent = Intent(group: string, agent: nat)

  /** Row ids are positions; rows are only ever added. */
  datatype Db = Db(bindings: seq<Binding>, agents: seq<Agent>, intents: seq<Intent>)
  const EMPTY: Db := Db([], [], [])

  datatype Template = Missing | Unpublished | Published
  datatype Outcome = TemplateNotFound | TemplateNotPublished | ActiveConflict | NotFound | Done(binding: nat)

  predicate IsActive(db: Db, i: nat, group: string) {
    i < |db.bindings| && db.bindings[i].group == group && db.bindings[i].status == Active
  }

  predicate HasActive(db: Db, group: string) {
    exists i: nat :: i < |db.bindings| && IsActive(db, i, group)
  }

  /** `uq_group_bindings_provider_group_id_active` and the unique key of the agents. */
  predicate Accepts(db: Db) {
    && (forall i, j :: 0 <= i < j < |db.bindings| && db.bindings[i].status == Active && db.bindings[j].status == Active
          ==> db.bindings[i].group != db.bindings[j].group)
    && (forall i, j :: 0 <= i < j < |db.agents| ==> db.agents[i].binding != db.agents[j].binding)
  }

  function FindAgent(agents: seq<Agent>, binding: nat): (r: int)
    ensures -1 <= r < |agents|
    ensures r >= 0 ==> agents[r].binding == binding
    ensures r < 0 ==> forall i :: 0 <= i < |agents| ==> agents[i].binding != binding
  {
    if agents == [] then -1
    else if agents[|agents| - 1].binding == binding then |agents| - 1
    else FindAgent(agents[..|agents| - 1], binding)
  }

  /** The rows a creator writes when it commits on `db`. */
  function Created(db: Db, group: string, template: nat): Db {
    var id := |db.bindings|;
    var found := FindAgent(db.agents, id);
    var agents := if found >= 0 then db.agents[found := Agent(id, Healthy)] else db.agents + [Agent(id, Healthy)];
    Db(db.bindings + [Binding(group, template, Active)], agents,
       db.intents + [Intent(group, if found >= 0 then found else |db.agents|)])
  }

  function CommitCreate(db: Db, group: string, template: nat): Db {
    if Accepts(Created(db, group, template)) then Created(db, group, template) else db
  }

  function Unbound(db: Db, binding: nat): Db
    requires binding < |db.bindings|
  {
    var found := FindAgent(db.agents, binding);
    db.(bindings := db.bindings[binding := db.bindings[binding].(status := Inactive)],
        agents := if found >= 0 then db.agents[found := db.agents[found].(status := Stopped)] else db.agents)
  }

  class Session {
    var db: Db

    constructor (db: Db)
      ensures this.db == db
    {
      this.db := db;
    }

    /** One uninterrupted run of `create_binding`. */
    method CreateBinding(group: string, template: nat, state: Template) returns (outcome: Outcome)
      modifies this
      ensures outcome == TemplateNotFound <==> state == Missing
      ensures outcome == TemplateNotPublished <==> state == Unpublished
      ensures !outcome.Done? ==> db == old(db)
      ensures state == Published ==>
                && db == (if HasActive(old(db), group) then old(db) else CommitCreate(old(db), group, template))
                && outcome == if HasActive(old(db), group) || !Accepts(Created(old(db), group, template))
                              then ActiveConflict else Done(|old(db).bindings|)
      ensures outcome.Done? ==>
                && db.bindings == old(db).bindings + [Binding(group, template, Active)]
                && |db.intents| == |old(db).intents| + 1
    {
      if state == Missing {
        return TemplateNotFound;
      }
      if state != Published {
        return TemplateNotPublished;
      }
      if HasActive(db, group) {
        return ActiveConflict;
      }
      var id := |db.bindings|;
      var bindings := db.bindings + [Binding(group, template, Provisioning)];
      var agents := db.agents;
      var agent := FindAgent(agents, id);
      if agent < 0 {
        agents := agents + [Agent(id, AgentProvisioning)];
        agent := |agents| - 1;
      }
      agents := agents[agent := agents[agent].(status := AgentProvisioning)];
      bindings := bindings[id := bindings[id].(status := Active)];
      agents := agents[agent := agents[agent].(status := Healthy)];
      var intents := db.intents + [Intent(group, agent)];
      var written := Db(bindings, agents, intents);
      assert written == Created(db, group, template);
      if !Accepts(written) {
        return ActiveConflict;
      }
      db := written;
      return Done(id);
    }

    /** One uninterrupted run of `unbind`. */
    method Unbind(binding: nat) returns (outcome: Outcome)
      modifies this
      ensures outcome == if binding < |old(db).bindings| then Done(binding) else NotFound
      ensures db == if binding < |old(db).bindings| then Unbound(old(db), binding) else old(db)
      ensures outcome.Done? ==>
                && db.bindings == old(db).bindings[binding := old(db).bindings[binding].(status := Inactive)]
                && |db.agents| == |old(db).agents| && db.intents == old(db).intents
                && forall i :: 0 <= i < |db.agents| ==>
                     && db.agents[i].binding == old(db).agents[i].binding
                     && (db.agents[i] == old(db).agents[i]
                         || (db.agents[i].binding == binding && db.agents[i].status == Stopped))
      ensures outcome.Done? && (exists i :: 0 <= i < |old(db).agents| && old(db).agents[i].binding == binding) ==>
                exists i :: 0 <= i < |db.agents| && db.agents[i] == Agent(binding, Stopped)
    {
      if binding >= |db.bindings| {
        return NotFound;
      }
      var bindings, agents := db.bindings, db.agents;
      var agent := FindAgent(agents, binding);
      bindings := bindings[binding := bindings[binding].(status := Inactive)];
      if agent >= 0 {
        agents := agents[agent := agents[agent].(status := Stopped)];
      }
      db := db.(bindings := bindings, agents := agents);
      return Done(binding);
    }
  }

  // ---------------------------------------------------- concurrent sessions

  datatype Tx = Creating(group: string, template: nat) | Unbinding(binding: nat)
  datatype System = System(db: Db, open: map<nat, Tx>)

  datatype Step =
    | BeginCreate(session: nat, group: string, template: nat, state: Template)
    | BeginUnbind(session: nat, binding: nat)
    | Commit(session: nat)
    | Crash(session: nat)

  ghost predicate Next(s: System, t: System, step: Step) {
    match step
    case BeginCreate(session, group, template, state) =>
      && session !in s.open
      && t == if state != Published || HasActive(s.db, group) then s
              else s.(open := s.open[session := Creating(group, template)])
    case BeginUnbind(session, binding) =>
      && session !in s.open
      && t == if binding < |s.db.bindings| then s.(open := s.open[session := Unbinding(binding)]) else s
    case Commit(session) =>
      && session in s.open
      && t.open == s.open - {session}
      && match s.open[session] {
           case Creating(group, template) => t.db == CommitCreate(s.db, group, template)
           case Unbinding(binding) => binding < |s.db.bindings| && t.db == Unbound(s.db, binding)
         }
    case Crash(session) =>
      session in s.open && t == s.(open := s.open - {session})
  }

  ghost predicate Execution(states: seq<System>, steps: seq<Step>) {
    && |states| == |steps| + 1
    && states[0] == System(EMPTY, map[])
    && forall i :: 0 <= i < |steps| ==> Next(states[i], states[i + 1], steps[i])
  }

  /** Every binding has its own agent and activation message; it is active with
      a healthy agent or inactive with a stopped one; and a binding with a
      successor in its group is inactive. */
  ghost predicate Consistent(db: Db) {
    && |db.bindings| == |db.agents| == |db.intents|
    && (forall i :: 0 <= i < |db.bindings| ==>
          && db.agents[i].binding == i
          && db.intents[i] == Intent(db.bindings[i].group, i)
          && (|| (db.bindings[i].status == Active && db.agents[i].status == Healthy)
              || (db.bindings[i].status == Inactive && db.agents[i].status == Stopped)))
    && (forall i, j :: 0 <= i < j < |db.bindings| && db.bindings[i].group == db.bindings[j].group
          ==> db.bindings[i].status == Inactive)
  }

  lemma AgentOf(db: Db, binding: nat)
    requires Consistent(db)
    ensures FindAgent(db.agents, binding) == if binding < |db.bindings| then binding else -1
  {
    if binding < |db.bindings| {
      assert db.agents[binding].binding == binding;
    }
  }

  /** On consistent tables a creator commits exactly when its group has no active
      binding at that moment, whatever it saw when it began. */
  lemma CreateCommitsIffNoActive(db: Db, group: string, template: nat)
    requires Consistent(db)
    ensures Accepts(Created(db, group, template)) <==> !HasActive(db, group)
  {
    var written := Created(db, group, template);
    AgentOf(db, |db.bindings|);
    if HasActive(db, group) {
      var i: nat :| i < |db.bindings| && IsActive(db, i, group);
      assert written.bindings[i].group == written.bindings[|db.bindings|].group;
    } else {
      forall i, j | 0 <= i < j < |written.bindings|
                    && written.bindings[i].status == Active && written.bindings[j].status == Active
        ensures written.bindings[i].group != written.bindings[j].group
      {
        assert !IsActive(db, i, group);
      }
    }
  }

  lemma PredecessorsInactive(db: Db, group: string)
    requires Consistent(db) && !HasActive(db, group)
    ensures forall i :: 0 <= i < |db.bindings| && db.bindings[i].group == group ==> db.bindings[i].status == Inactive
  {
    forall i | 0 <= i < |db.bindings| && db.bindings[i].group == group
      ensures db.bindings[i].status == Inactive
    {
      assert !IsActive(db, i, group);
    }
  }

  lemma CreateKeepsConsistent(db: Db, group: string, template: nat)
    requires Consistent(db)
    ensures Consistent(CommitCreate(db, group, template))
  {
    CreateCommitsIffNoActive(db, group, template);
    if !HasActive(db, group) {
      PredecessorsInactive(db, group);
      AgentOf(db, |db.bindings|);
      var n, t := |db.bindings|, Created(db, group, template);
      forall i, j | 0 <= i < j < |t.bindings| && t.bindings[i].group == t.bindings[j].group
        ensures t.bindings[i].status == Inactive
      {
        assert t.bindings[i] == db.bindings[i];
        if j < n {
          assert t.bindings[j] == db.bindings[j];
        }
      }
    }
  }

  lemma UnbindKeepsConsistent(db: Db, binding: nat)
    requires Consistent(db) && binding < |db.bindings|
    ensures Consistent(Unbound(db, binding))
  {
    AgentOf(db, binding);
  }

  lemma {:induction false} Reachable(states: seq<System>, steps: seq<Step>)
    requires Execution(states, steps)
    ensures Consistent(states[|steps|].db)
    decreases |steps|
  {
    if steps != [] {
      var n := |steps| - 1;
      Reachable(states[..n + 1], steps[..n]);
      var s, t := states[n], states[n + 1];
      assert Next(s, t, steps[n]);
      if steps[n].Commit? {
        match s.open[steps[n].session]
        case Creating(group, template) => CreateKeepsConsistent(s.db, group, template);
        case Unbinding(binding) => UnbindKeepsConsistent(s.db, binding);
      }
    }
  }

  function CountIntents(intents: seq<Intent>, agent: nat): nat {
    if intents == [] then 0
    else CountIntents(intents[..|intents| - 1], agent) + (if intents[|intents| - 1].agent == agent then 1 else 0)
  }

  lemma {:induction false} OneIntentPerAgent(intents: seq<Intent>, agent: nat)
    requires forall i :: 0 <= i < |intents| ==> intents[i].agent == i
    ensures CountIntents(intents, agent) == if agent < |intents| then 1 else 0
  {
    if intents != [] {
      OneIntentPerAgent(intents[..|intents| - 1], agent);
    }
  }

  /** In every interleaving of creators and unbinders a group has at most one
      active binding and it is the group's latest; every committed binding is
      active with a healthy agent or inactive with a stopped one, and has
      exactly one agent and one activation message for its group. */
  lemma BindingsStayConsistent(states: seq<System>, steps: seq<Step>, i: nat)
    requires Execution(states, steps)
    requires i < |states[|steps|].db.bindings|
    ensures var db := states[|steps|].db;
            var agent := FindAgent(db.agents, i);
            && (db.bindings[i].status == Active ==>
                  forall j: nat :: j < |db.bindings| && j != i && db.bindings[j].group == db.bindings[i].group
                                   ==> j < i && db.bindings[j].status == Inactive)
            && 0 <= agent
            && (forall k :: 0 <= k < |db.agents| && db.agents[k].binding == i ==> k == agent)
            && (|| (db.bindings[i].status == Active && db.agents[agent].status == Healthy)
                || (db.bindings[i].status == Inactive && db.agents[agent].status == Stopped))
            && CountIntents(db.intents, agent) == 1
            && agent < |db.intents| && db.intents[agent] == Intent(db.bindings[i].group, agent)
  {
    Reachable(states, steps);
    AgentOf(states[|steps|].db, i);
    OneIntentPerAgent(states[|steps|].db.intents, i);
  }

  /** A creator that is refused, or one that crashes, leaves no row of any kind;
      one that is accepted leaves exactly one of each. */
  lemma CreatorsAreAtomic(states: seq<System>, steps: seq<Step>, t: System, step: Step)
    requires Execution(states, steps) && Next(states[|steps|], t, step)
    requires step.Commit? && states[|steps|].open[step.session].Creating?
    ensures var s, tx := states[|steps|], states[|steps|].open[step.session];
            if HasActive(s.db, tx.group) then t.db == s.db
            else && t.db.bindings == s.db.bindings + [Binding(tx.group, tx.template, Active)]
                 && t.db.agents == s.db.agents + [Agent(|s.db.bindings|, Healthy)]
                 && t.db.intents == s.db.intents + [Intent(tx.group, |s.db.bindings|)]
  {
    Reachable(states, steps);
    var s := states[|steps|];
    CreateCommitsIffNoActive(s.db, s.open[step.session].group, s.open[step.session].template);
    AgentOf(s.db, |s.db.bindings|);
  }
}
