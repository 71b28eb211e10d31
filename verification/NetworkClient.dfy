/** Compute networks (pkg/clients/network/network.go:36-105 and
    pkg/controller/compute/network.go:98-181): overlay, late initialisation, the
    comparison with its switch to custom subnet mode, and the two-step update. */
module NetworkClient {
  import opened Gcp
  import opened Runs

  /** Routing config is its mode; `selfLink` stands for the output-only fields. */
  datatype Network = Network(
    name: string, description: string, autoCreate: bool, routing: Option<string>, selfLink: string)
  datatype Spec = Spec(description: Option<string>, autoCreate: Option<bool>, routing: Option<string>)

  function Overlay(name: string, s: Spec, o: Network): Network {
    Network(name, StringValue(s.description), OrZero(s.autoCreate, o.autoCreate), Prefer(s.routing, o.routing),
            o.selfLink)
  }

  function LateSpec(s: Spec, o: Network): Spec {
    Spec(LateInitializeString(s.description, o.description), LateInitializeBool(s.autoCreate, o.autoCreate),
         Prefer(s.routing, o.routing))
  }

  /** The network has everything the user set. */
  predicate Honoured(s: Spec, o: Network) {
    && Says(s.description, o.description) && Says(s.autoCreate, o.autoCreate)
    && Kept(s.routing, o.routing)
  }

  /** Subnets are still created automatically and the user wants them not to be. */
  predicate MustSwitch(s: Spec, o: Network) {
    s.autoCreate == Some(false) && o.autoCreate
  }

  /** After late initialisation, "up to date" means that the name matches and the user
      is honoured; late initialisation does not change whether to switch. */
  lemma UpToDateIffHonoured(name: string, s: Spec, o: Network)
    ensures Overlay(name, LateSpec(s, o), o) == o <==> name == o.name && Honoured(s, o)
    ensures MustSwitch(LateSpec(s, o), o) <==> MustSwitch(s, o)
    ensures MustSwitch(s, o) ==> !Honoured(s, o)
  {
  }

  lemma AdoptionIsSilent(o: Network)
    ensures Overlay(o.name, LateSpec(Spec(None, None, None), o), o) == o
  {
  }

  /** A late-initialised spec by itself, laid over nothing, says all that it says together
      with the observation; so adopting a network loses none of it. */
  lemma LateSaysItAll(name: string, s: Spec, o: Network)
    ensures Overlay(name, LateSpec(s, o), Network("", "", false, None, "")) ==
            Overlay(name, LateSpec(s, o), o).(selfLink := "")
    ensures Overlay(o.name, LateSpec(Spec(None, None, None), o), Network("", "", false, None, "")) ==
            o.(selfLink := "")
  {
  }

  /** What the overlay produces is up to date, also after the next late initialisation. */
  lemma WritingSettles(name: string, s: Spec, o: Network)
    ensures var d := Overlay(name, s, o);
            Overlay(name, s, d) == d && Overlay(name, LateSpec(s, d), d) == d
  {
  }

  // ---- the update loop ----

  datatype State = State(name: string, spec: Spec, network: Network)
  datatype Update = SwitchToCustom | Patch

  predicate Settled(s: State) {
    Overlay(s.name, LateSpec(s.spec, s.network), s.network) == s.network
  }

  /** The assumption about the API: a switch turns automatic subnets off, and a patch
      writes the routing config. Every other parameter is immutable. */
  predicate Step(s: State, u: Update, t: State) {
    var late := LateSpec(s.spec, s.network);
    match u
    case SwitchToCustom => MustSwitch(late, s.network) && t == State(s.name, late, s.network.(autoCreate := false))
    case Patch =>
      && !Settled(s) && !MustSwitch(late, s.network)
      && t == State(s.name, late, s.network.(routing := Overlay(s.name, late, s.network).routing))
  }

  /** Whatever is not settled has a next update. */
  lemma Progress(s: State) returns (u: Update, t: State)
    requires !Settled(s)
    ensures Step(s, u, t)
  {
    var late := LateSpec(s.spec, s.network);
    if MustSwitch(late, s.network) {
      u, t := SwitchToCustom, State(s.name, late, s.network.(autoCreate := false));
    } else {
      u, t := Patch, State(s.name, late, s.network.(routing := Overlay(s.name, late, s.network).routing));
    }
  }

  /** The user asks for nothing that no update can bring about: another name, another
      description, or automatic subnets on a custom network. */
  predicate Attainable(s: State) {
    && s.name == s.network.name && Says(s.spec.description, s.network.description)
    && (s.spec.autoCreate == Some(true) ==> s.network.autoCreate)
  }

  lemma StepKeeps(s: State, u: Update, t: State)
    requires Step(s, u, t)
    ensures Attainable(t) <==> Attainable(s)
    ensures Kept(s.spec.description, t.spec.description)
    ensures Kept(s.spec.autoCreate, t.spec.autoCreate) && Kept(s.spec.routing, t.spec.routing)
    ensures !MustSwitch(LateSpec(t.spec, t.network), t.network)
    ensures Settled(t) ==> forall v, r :: !Step(t, v, r)
    ensures Attainable(s) && u == Patch ==> Settled(t)
  {
  }

  lemma {:induction false} RunKeeps(states: seq<State>, updates: seq<Update>, n: nat)
    requires IsRun(Step, states, updates) && n <= |updates|
    ensures Attainable(states[n]) <==> Attainable(states[0])
    ensures Honoured(states[n].spec, states[n].network) ==> Honoured(states[0].spec, states[n].network)
    ensures Kept(states[0].spec.description, states[n].spec.description)
    ensures Kept(states[0].spec.autoCreate, states[n].spec.autoCreate)
    ensures Kept(states[0].spec.routing, states[n].spec.routing)
  {
    if n > 0 {
      RunKeeps(states, updates, n - 1);
      StepKeeps(states[n - 1], updates[n - 1], states[n]);
    }
  }

  /** A settled network is one whose user is honoured, so also attainable. */
  lemma SettledIsAttainable(s: State)
    requires Settled(s)
    ensures Attainable(s) && Honoured(s.spec, s.network)
  {
    UpToDateIffHonoured(s.name, s.spec, s.network);
  }

  lemma AtMostTwo(states: seq<State>, updates: seq<Update>)
    requires IsRun(Step, states, updates) && Attainable(states[0])
    ensures |updates| <= 2
  {
    if |updates| > 2 {
      StepKeeps(states[0], updates[0], states[1]);
      var third := Step(states[2], updates[2], states[3]);
      StepKeeps(states[1], updates[1], states[2]);
      assert false;
    }
  }

  /** From an attainable state: at most a switch and then a patch, and a patch settles. */
  lemma Converges(states: seq<State>, updates: seq<Update>)
    requires IsRun(Step, states, updates) && Attainable(states[0])
    ensures updates == [Patch] || updates <= [SwitchToCustom, Patch]
    ensures updates != [] && updates[|updates| - 1] == Patch ==> Settled(states[|updates|])
  {
    AtMostTwo(states, updates);
    if |updates| > 0 {
      StepKeeps(states[0], updates[0], states[1]);
    }
    if |updates| > 1 {
      StepKeeps(states[1], updates[1], states[2]);
    }
  }

  /** And such a run exists: an attainable state can be settled. */
  lemma ReachesSettled(s: State) returns (states: seq<State>, updates: seq<Update>)
    requires Attainable(s)
    ensures IsRun(Step, states, updates) && states[0] == s && Settled(states[|updates|])
  {
    states, updates := [s], [];
    if !Settled(s) {
      var u, t := Progress(s);
      StepKeeps(s, u, t);
      states, updates := [s, t], [u];
      if !Settled(t) {
        var v, r := Progress(t);
        StepKeeps(t, v, r);
        states, updates := [s, t, r], [u, v];
      }
    }
  }

  /** From any other state no run ever settles; and every settled end honours what the
      user had set at the start. */
  lemma SettlesOnlyIfAttainable(states: seq<State>, updates: seq<Update>)
    requires IsRun(Step, states, updates) && Settled(states[|updates|])
    ensures Attainable(states[0])
    ensures Honoured(states[0].spec, states[|updates|].network)
  {
    RunKeeps(states, updates, |updates|);
    SettledIsAttainable(states[|updates|]);
  }

  // ---- the code ----

  method GenerateNetwork(name: string, s: Spec, network: Pointer<Network>)
    modifies network
    ensures network.it == Overlay(name, s, old(network.it))
  {
    network.it := network.it.(name := name);
    network.it := network.it.(description := StringValue(s.description));
    if s.autoCreate.Some? {
      network.it := network.it.(autoCreate := s.autoCreate.value);
    }
    if s.routing.Some? {
      if network.it.routing.None? {
        network.it := network.it.(routing := Some(""));
      }
      network.it := network.it.(routing := Some(s.routing.value));
    }
  }

  method LateInitializeSpec(spec: Pointer<Spec>, o: Network)
    modifies spec
    ensures spec.it == LateSpec(old(spec.it), o)
  {
    spec.it := spec.it.(autoCreate := LateInitializeBool(spec.it.autoCreate, o.autoCreate));
    if o.routing.Some? && spec.it.routing.None? {
      spec.it := spec.it.(routing := Some(o.routing.value));
    }
    spec.it := spec.it.(description := LateInitializeString(spec.it.description, o.description));
  }

  method IsUpToDate(name: string, s: Spec, observed: Network) returns (upToDate: bool, switchToCustom: bool)
    ensures upToDate <==> Overlay(name, s, observed) == observed
    ensures switchToCustom <==> MustSwitch(s, observed)
  {
    var desired := new Pointer(observed);
    GenerateNetwork(name, s, desired);
    if !desired.it.autoCreate && observed.autoCreate {
      return false, true;
    }
    return desired.it == observed, false;
  }
}
