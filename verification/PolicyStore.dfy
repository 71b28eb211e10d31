/** Several bucket policy members reconciled at once: each gets the policy, edits
    its own copy and sets it back (pkg/controller/storage/bucketpolicymember.go:111-159).
    The store is assumed to reject a set whose etag is not the current one and to
    give every accepted policy an etag it has never used. */
module PolicyStore {
  import opened BucketPolicy
  import opened Runs

  /** `copies` are the policies that clients have read and not yet set; `log` is the
      list of edits whose set was accepted, in the order of acceptance. */
  datatype State = State(policy: Policy, copies: map<nat, Policy>, used: set<string>, log: seq<Op>)

  datatype Event =
    | Get(client: nat)
    | Accepted(client: nat, op: Op, stamp: string)
    | Rejected(client: nat, op: Op)
    | NothingToDo(client: nat, op: Op)

  /** The policy a client sends back. Unbinding leaves the version alone; neither
      edit touches the etag. */
  function Edited(p: Policy, op: Op): Policy {
    p.(bindings := Edit(p.bindings, op), version := if op.Bind? then POLICY_VERSION else p.version)
  }

  predicate Step(s: State, e: Event, t: State) {
    match e
    case Get(c) => t == s.(copies := s.copies[c := s.policy])
    case Accepted(c, op, stamp) =>
      && c in s.copies && Reports(s.copies[c].bindings, op)
      && Edited(s.copies[c], op).etag == s.policy.etag
      && stamp !in s.used
      && t == State(Edited(s.copies[c], op).(etag := stamp), s.copies - {c}, s.used + {stamp}, s.log + [op])
    case Rejected(c, op) =>
      && c in s.copies && Reports(s.copies[c].bindings, op)
      && Edited(s.copies[c], op).etag != s.policy.etag
      && t == s.(copies := s.copies - {c})
    case NothingToDo(c, op) =>
      && c in s.copies && !Reports(s.copies[c].bindings, op)
      && t == s.(copies := s.copies - {c})
  }

  /** A copy with the current etag is a copy of the current policy. */
  ghost predicate Inv(s: State) {
    && s.policy.etag in s.used
    && forall c :: c in s.copies ==>
      && s.copies[c].etag in s.used
      && (s.copies[c].etag == s.policy.etag ==> s.copies[c] == s.policy)
  }

  ghost predicate Init(s: State) {
    s.policy.etag in s.used && s.copies == map[] && s.log == []
  }

  /** Each event either leaves the policy and the log alone, or edits both alike; kind
      and resource never change. */
  lemma StepLinearises(s: State, e: Event, t: State)
    requires Inv(s) && Step(s, e, t)
    ensures Inv(t)
    ensures t.log == if e.Accepted? then s.log + [e.op] else s.log
    ensures t.policy.bindings == if e.Accepted? then Edit(s.policy.bindings, e.op) else s.policy.bindings
    ensures t.policy.kind == s.policy.kind && t.policy.resourceId == s.policy.resourceId
  {
  }

  /** For every policy, any number of clients and any interleaving: the bindings in the
      store are exactly those that the accepted edits give one after the other. */
  lemma {:induction false} Linearisable(states: seq<State>, events: seq<Event>, n: nat)
    requires IsRun(Step, states, events) && Init(states[0]) && n <= |events|
    ensures Inv(states[n])
    ensures states[n].policy.bindings == EditAll(states[0].policy.bindings, states[n].log)
    ensures Tidy(states[0].policy.bindings) ==>
              && Tidy(states[n].policy.bindings)
              && Grants(states[n].policy.bindings) == SetEditAll(Grants(states[0].policy.bindings), states[n].log)
  {
    if n > 0 {
      Linearisable(states, events, n - 1);
      assert Step(states[n - 1], events[n - 1], states[n]);
      StepLinearises(states[n - 1], events[n - 1], states[n]);
      if events[n - 1].Accepted? {
        EditOneMore(states[0].policy.bindings, {}, states[n - 1].log, events[n - 1].op);
      }
    }
    if Tidy(states[0].policy.bindings) {
      EditsRefine(states[0].policy.bindings, states[n].log);
    }
  }

  /** From every starting policy no accepted bind is lost: its pair is granted unless a
      later accepted edit is an unbind of that very pair. */
  lemma NoBindIsLost(states: seq<State>, events: seq<Event>, i: nat)
    requires IsRun(Step, states, events) && Init(states[0])
    requires i < |states[|events|].log| && states[|events|].log[i].Bind?
    requires var log := states[|events|].log;
             forall j :: i < j < |log| ==> log[j] != Unbind(log[i].role, log[i].member)
    ensures var log := states[|events|].log;
            (log[i].role, log[i].member) in Grants(states[|events|].policy.bindings)
  {
    var log := states[|events|].log;
    Linearisable(states, events, |events|);
    BindSurvives(states[0].policy.bindings, log, i, |log|);
    assert log[..|log|] == log;
  }

  /** Nor is anything else: a binding for a role that no accepted edit names is still
      there as it was, and conditions stay. */
  lemma OtherRolesSurvive(states: seq<State>, events: seq<Event>, i: nat)
    requires IsRun(Step, states, events) && Init(states[0]) && i < |states[0].policy.bindings|
    ensures var b, now := states[0].policy.bindings[i], states[|events|].policy.bindings;
            && i < |now| && now[i].role == b.role && now[i].condition == b.condition
            && (!Names(states[|events|].log, b.role) ==> now[i] == b)
  {
    Linearisable(states, events, |events|);
    EditsTouchOnlyNamedRoles(states[0].policy.bindings, states[|events|].log);
  }
}
