/** The polls of `actor_base_t` and the counters of `resources_plugin_t` as one object whose
    methods change it step by step, proved to compute the functions of module Lifecycle. */
module LifecycleActor {
  import opened Lifecycle

  /** Asking the `left` plugins that are left ends as the whole poll from `s0` does. */
  predicate LeadsTo(s0: State, s: State, phase: Phase, left: nat, v: nat -> Answer) {
    && Sized(s0) && Sized(s) && |s.init| == |s0.init| && left <= |s.init| && s.life == s0.life
    && Ask(s, phase, left, v).s == Ask(s0, phase, |s0.init|, v).s
    && Ask(s, phase, left, v).refused == Ask(s0, phase, |s0.init|, v).refused
  }

  lemma AskRound(s0: State, s: State, phase: Phase, left: nat, v: nat -> Answer)
    requires LeadsTo(s0, s, phase, left, v) && left > 0
    ensures var t := Round(s, phase, Turn(phase, |s.init|, left), v);
            if Refusal(t.visit) then Continue(s0, phase, v) == t.s else LeadsTo(s0, t.s, phase, left - 1, v)
  {
    AskStep(s, phase, left, v);
  }

  lemma AskDone(s0: State, s: State, phase: Phase, v: nat -> Answer)
    requires LeadsTo(s0, s, phase, 0, v)
    ensures Continue(s0, phase, v) == s.(life := Ended(phase))
  {}

  class Actor {
    var life: Life
    var initReaction: seq<bool>
    var shutdownReaction: seq<bool>
    var resources: seq<Counter>
    const resourcesPlugin: nat
    var active: bool

    ghost function Abs(): State
      reads this
    {
      State(life, initReaction, shutdownReaction, resourcesPlugin, resources, active)
    }

    constructor (plugins: nat, resourcesPlugin: nat)
      requires resourcesPlugin < plugins
      ensures Initial(Abs()) && |initReaction| == plugins
    {
      life := New;
      initReaction, shutdownReaction := seq(plugins, _ => true), seq(plugins, _ => true);
      resources, active := [], true;
      this.resourcesPlugin := resourcesPlugin;
    }

    method AcquireResource(id: nat)
      requires Sized(Abs())
      modifies this
      ensures Abs() == Acquire(old(Abs()), id)
    {
      if id >= |resources| {
        resources := resources + seq(id + 1 - |resources|, _ => 0);
      }
      resources := resources[id := (resources[id] + 1) % WORD];
      if life == Initializing {
        initReaction := initReaction[resourcesPlugin := true];
      } else if life == Operational || life == ShuttingDown || life == ShutDown {
        shutdownReaction := shutdownReaction[resourcesPlugin := true];
      }
    }

    /** `plugin_base_t::deactivate` of a plugin without subscriptions of its own. */
    method DeactivatePlugin(p: nat)
      requires Sized(Abs()) && p < |initReaction|
      modifies this
      ensures Abs() == Apply(old(Abs()), Deactivates(p))
    {
      initReaction, shutdownReaction := initReaction[p := false], shutdownReaction[p := false];
      if p == resourcesPlugin {
        active := false;
      }
    }

    /** `reaction_on` and `reaction_off` of another plugin. */
    method SwitchReaction(p: nat, phase: Phase, on: bool)
      requires Sized(Abs()) && p < |initReaction| && p != resourcesPlugin
      modifies this
      ensures Abs() == Apply(old(Abs()), Switches(p, phase, on))
    {
      if phase.Init? {
        initReaction := initReaction[p := on];
      } else {
        shutdownReaction := shutdownReaction[p := on];
      }
    }

    method Perform(f: Effect)
      requires Sized(Abs())
      modifies this
      ensures Abs() == Apply(old(Abs()), f)
    {
      match f
      case Acquires(id) => AcquireResource(id);
      case Deactivates(p) => if p < |initReaction| { DeactivatePlugin(p); }
      case Switches(p, phase, on) =>
        if p < |initReaction| && p != resourcesPlugin { SwitchReaction(p, phase, on); }
    }

    method PerformAll(fs: seq<Effect>)
      requires Sized(Abs())
      modifies this
      ensures Abs() == ApplyAll(old(Abs()), fs)
    {
      for n := 0 to |fs|
        invariant Sized(Abs()) && ApplyAll(Abs(), fs[n..]) == ApplyAll(old(Abs()), fs)
      {
        Perform(fs[n]);
      }
    }

    method HasAnyResource() returns (any: bool)
      ensures any <==> HasAny(resources)
      ensures any <==> 0 < Total(resources) % WORD < HALF
    {
      var sum := 0;
      for n := 0 to |resources|
        invariant sum == Accumulate(resources[..n])
      {
        assert resources[..n + 1][..n] == resources[..n];
        sum := AddToInt(sum, resources[n]);
      }
      assert resources[..|resources|] == resources;
      any := sum > 0;
      HasAnyExactly(resources);
    }

    /** `handle_init` or `handle_shutdown` of a plugin. */
    method Handle(phase: Phase, p: nat, v: nat -> Answer) returns (yes: bool)
      requires Sized(Abs())
      modifies this
      ensures Abs() == Asking(old(Abs()), phase, p, v) && yes == Vote(Abs(), p, v)
    {
      if !(p == resourcesPlugin && phase.Shutdown?) {
        PerformAll(v(p).effects);
      }
      if p == resourcesPlugin {
        var any := HasAnyResource();
        yes := !any;
      } else {
        yes := v(p).yes;
      }
    }

    /** Asks a plugin that still reacts to the phase, and switches its reaction off when it
        says yes. */
    method Visit(phase: Phase, p: nat, v: nat -> Answer) returns (goOn: bool)
      requires Sized(Abs()) && p < |initReaction|
      modifies this
      ensures var t := Round(old(Abs()), phase, p, v); Abs() == t.s && goOn == !Refusal(t.visit)
    {
      goOn := true;
      if phase.Init? && initReaction[p] {
        goOn := Handle(phase, p, v);
        if goOn { initReaction := initReaction[p := false]; }
      } else if phase.Shutdown? && shutdownReaction[p] {
        goOn := Handle(phase, p, v);
        if goOn { shutdownReaction := shutdownReaction[p := false]; }
      }
    }

    method InitContinue(v: nat -> Answer)
      requires Sized(Abs()) && life == Initializing
      modifies this
      ensures Abs() == Continue(old(Abs()), Init, v)
    {
      hide Ask, Continue;
      ghost var s0 := Abs();
      var inProgress := |initReaction|;
      var i := 0;
      while i < |initReaction|
        invariant 0 <= i <= |initReaction| && inProgress == |initReaction| - i
        invariant LeadsTo(s0, Abs(), Init, inProgress, v)
      {
        AskRound(s0, Abs(), Init, inProgress, v);
        var goOn := Visit(Init, i, v);
        if !goOn {
          break;
        }
        inProgress := inProgress - 1;
        i := i + 1;
      }
      if inProgress == 0 {
        AskDone(s0, Abs(), Init, v);
        life := Initialized;
      }
    }

    method ShutdownContinue(v: nat -> Answer)
      requires Sized(Abs()) && life == ShuttingDown
      modifies this
      ensures Abs() == Continue(old(Abs()), Shutdown, v)
    {
      hide Ask, Continue;
      ghost var s0 := Abs();
      var inProgress := |shutdownReaction|;
      var i := |shutdownReaction|;
      while i > 0
        invariant 0 <= i <= |shutdownReaction| && inProgress == i
        invariant LeadsTo(s0, Abs(), Shutdown, inProgress, v)
      {
        AskRound(s0, Abs(), Shutdown, inProgress, v);
        var goOn := Visit(Shutdown, i - 1, v);
        if !goOn {
          break;
        }
        inProgress := inProgress - 1;
        i := i - 1;
      }
      if inProgress == 0 {
        AskDone(s0, Abs(), Shutdown, v);
        life := ShutDown;
      }
    }

    method ReleaseResource(id: nat, v: nat -> Answer) returns (hasAcquired: bool)
      requires Sized(Abs()) && id < |resources| && resources[id] > 0
      modifies this
      ensures Abs() == Release(old(Abs()), id, v)
      ensures hasAcquired == HasAny(old(resources)[id := old(resources)[id] - 1])
    {
      resources := resources[id := resources[id] - 1];
      hasAcquired := HasAnyResource();
      if life == Initializing {
        if !hasAcquired {
          InitContinue(v);
        }
      } else if life == ShuttingDown {
        if !hasAcquired {
          ShutdownContinue(v);
        }
      }
    }
  }
}
