/**
  The cancellation scopes of pipeline/cancellation.py: a context variable set
  and reset like a stack around blocks that may be left by an exception.
 */
module Cancellation {
  import opened Wrappers

  type Token = nat

  // What a thread does, as far as cancellation is concerned: check the active
  // token, cancel some token (as another thread may), raise for a reason of
  // its own, or enter a block.
  datatype Action =
    | Check
    | Cancel(which: Token)
    | Raise
    | Scope(token: Option<Token>, body: seq<Action>)
    | Suspended(body: seq<Action>)

  // How a block is left: normally, cancelled, or with another exception.
  datatype Exit = Normally | Cancelled | Failing

  datatype After = After(exit: Exit, cancelled: set<Token>)

  predicate IsCancelled(active: Option<Token>, cancelled: set<Token>) {
    active.Some? && active.value in cancelled
  }

  // What a block does under an active token, given the tokens cancelled so far.
  function Effect(actions: seq<Action>, active: Option<Token>, cancelled: set<Token>): After
    decreases actions, 1
  {
    if actions == [] then After(Normally, cancelled)
    else
      var first := EffectOf(actions[0], active, cancelled);
      if first.exit != Normally then first else Effect(actions[1..], active, first.cancelled)
  }

  function EffectOf(action: Action, active: Option<Token>, cancelled: set<Token>): After
    decreases action, 0
  {
    match action
    case Check => After(if IsCancelled(active, cancelled) then Cancelled else Normally, cancelled)
    case Cancel(which) => After(Normally, cancelled + {which})
    case Raise => After(Failing, cancelled)
    case Scope(token, body) =>
      // The scope checks the given token, or the active one, which it has just become.
      if IsCancelled(token, cancelled) then After(Cancelled, cancelled) else Effect(body, token, cancelled)
    case Suspended(body) => Effect(body, None, cancelled)
  }

  // No block inside sets a token of its own.
  predicate SetsNoToken(actions: seq<Action>)
    decreases actions, 1
  {
    actions == [] || (SetsNone(actions[0]) && SetsNoToken(actions[1..]))
  }

  predicate SetsNone(action: Action)
    decreases action, 0
  {
    match action
    case Scope(token, body) => token.None? && SetsNoToken(body)
    case Suspended(body) => SetsNoToken(body)
    case _ => true
  }

  // Suspended clean-up is never cut short by cancellation, however often and
  // whenever the run is cancelled.
  lemma {:induction false} SuspendedIsNeverCancelled(actions: seq<Action>, cancelled: set<Token>)
    requires SetsNoToken(actions)
    ensures Effect(actions, None, cancelled).exit != Cancelled
    decreases actions, 1
  {
    if actions != [] {
      OneIsNeverCancelled(actions[0], cancelled);
      SuspendedIsNeverCancelled(actions[1..], EffectOf(actions[0], None, cancelled).cancelled);
    }
  }

  lemma {:induction false} OneIsNeverCancelled(action: Action, cancelled: set<Token>)
    requires SetsNone(action)
    ensures EffectOf(action, None, cancelled).exit != Cancelled
    decreases action, 0
  {
    match action {
      case Scope(_, body) => SuspendedIsNeverCancelled(body, cancelled);
      case Suspended(body) => SuspendedIsNeverCancelled(body, cancelled);
      case _ =>
    }
  }

  // Cancellation is permanent.
  lemma {:induction false} CancelledStays(actions: seq<Action>, active: Option<Token>, cancelled: set<Token>)
    ensures cancelled <= Effect(actions, active, cancelled).cancelled
    decreases actions, 1
  {
    if actions != [] {
      OneStays(actions[0], active, cancelled);
      CancelledStays(actions[1..], active, EffectOf(actions[0], active, cancelled).cancelled);
    }
  }

  lemma {:induction false} OneStays(action: Action, active: Option<Token>, cancelled: set<Token>)
    ensures cancelled <= EffectOf(action, active, cancelled).cancelled
    decreases action, 0
  {
    match action {
      case Scope(token, body) => CancelledStays(body, token, cancelled);
      case Suspended(body) => CancelledStays(body, None, cancelled);
      case _ =>
    }
  }

  // The context variable of one thread, and the tokens' events.
  class Context {
    var active: Option<Token>
    var cancelled: set<Token>

    constructor ()
      ensures active.None? && cancelled == {}
    {
      active, cancelled := None, {};
    }

    // Runs a block. However it is left, the token active before is active again.
    method Run(actions: seq<Action>) returns (exit: Exit)
      modifies this
      ensures active == old(active)
      ensures After(exit, cancelled) == Effect(actions, old(active), old(cancelled))
      decreases actions, 1
    {
      if actions == [] {
        return Normally;
      }
      exit := RunOne(actions[0]);
      if exit == Normally {
        exit := Run(actions[1..]);
      }
    }

    method RunOne(action: Action) returns (exit: Exit)
      modifies this
      ensures active == old(active)
      ensures After(exit, cancelled) == EffectOf(action, old(active), old(cancelled))
      decreases action, 0
    {
      exit := Normally;
      match action {
        case Check =>
          if active.Some? && active.value in cancelled {
            exit := Cancelled;
          }
        case Cancel(which) =>
          cancelled := cancelled + {which};
        case Raise =>
          exit := Failing;
        case Scope(token, body) =>
          var marker := active;
          active := token;
          if active.Some? && active.value in cancelled {
            exit := Cancelled;
          } else {
            exit := Run(body);
          }
          active := marker;
        case Suspended(body) =>
          var marker := active;
          active := None;
          exit := Run(body);
          active := marker;
      }
    }
  }
}
