/** The State example: a user account that is active, suspended or inactive. Each state object
    prints a fixed line for each action, and `UserAccount` then switches its state object. */
module AccountState {

  datatype State = Active | Suspended | Inactive

  datatype Action = Activate | Suspend | Deactivate

  /** The line the current state object prints for an action (`ActiveState`,
      `SuspendedState`, `InactiveState`). */
  function Message(s: State, a: Action): (m: string)
  {
    match (s, a)
    case (Active, Activate) => "The account is already active."
    case (Active, Suspend) => "Suspending the account."
    case (Active, Deactivate) => "Deactivating the account."
    case (Suspended, Activate) => "Activating the suspended account."
    case (Suspended, Suspend) => "The account is already suspended."
    case (Suspended, Deactivate) => "Deactivating the suspended account."
    case (Inactive, Activate) => "Activating the inactive account."
    case (Inactive, Suspend) => "Cannot suspend an inactive account."
    case (Inactive, Deactivate) => "The account is already inactive."
  }

  /** The state `UserAccount` holds after an action. Activation leaves only the inactive state,
      suspension leaves only the active state, and deactivation always ends inactive; in
      particular activating a suspended account prints "Activating ..." but stays suspended. */
  function Next(s: State, a: Action): (t: State)
    ensures a == Activate ==> (t != s <==> s == Inactive) && (t != s ==> t == Active)
    ensures a == Suspend ==> (t != s <==> s == Active) && (t != s ==> t == Suspended)
    ensures a == Deactivate ==> t == Inactive
  {
    match a
    case Activate => if s == Inactive then Active else s
    case Suspend => if s == Active then Suspended else s
    case Deactivate => Inactive
  }

  /** The printed line identifies both the state and the action. */
  lemma MessageInjective(s: State, a: Action, s': State, a': Action)
    ensures Message(s, a) == Message(s', a') ==> s == s' && a == a'
  {
  }

  /** The state after a sequence of actions. */
  function Run(s: State, acts: seq<Action>): State
    decreases |acts|
  {
    if acts == [] then s else Run(Next(s, acts[0]), acts[1..])
  }

  /** The lines printed by a sequence of actions. */
  function Transcript(s: State, acts: seq<Action>): (out: seq<string>)
    ensures |out| == |acts|
    decreases |acts|
  {
    if acts == [] then [] else [Message(s, acts[0])] + Transcript(Next(s, acts[0]), acts[1..])
  }

  /** An account only becomes inactive through `deactivate`. */
  lemma {:induction false} InactiveOnlyByDeactivate(s: State, acts: seq<Action>)
    requires s != Inactive && Run(s, acts) == Inactive
    ensures Deactivate in acts
    decreases |acts|
  {
    if acts != [] && acts[0] != Deactivate {
      InactiveOnlyByDeactivate(Next(s, acts[0]), acts[1..]);
      assert Deactivate in acts[1..];
    }
  }

  /** An account that is not suspended only becomes suspended through `suspend`. */
  lemma {:induction false} SuspendedOnlyBySuspend(s: State, acts: seq<Action>)
    requires s != Suspended && Run(s, acts) == Suspended
    ensures Suspend in acts
    decreases |acts|
  {
    if acts != [] && acts[0] != Suspend {
      SuspendedOnlyBySuspend(Next(s, acts[0]), acts[1..]);
      assert Suspend in acts[1..];
    }
  }

  /** Without `deactivate` a suspended account can never become active again: `activate` does
      not lift a suspension. */
  lemma {:induction false} SuspensionIsPermanentWithoutDeactivate(acts: seq<Action>)
    requires Deactivate !in acts
    ensures Run(Suspended, acts) == Suspended
    decreases |acts|
  {
    if acts != [] {
      assert Deactivate !in acts[1..];
      SuspensionIsPermanentWithoutDeactivate(acts[1..]);
    }
  }

  /** `UserAccount`: holds the current state object and replaces it after each action. */
  class UserAccount {
    var state: State

    /** A new account starts active. */
    constructor ()
      ensures state == Active
    {
      state := Active;
    }

    /** `activate`: the current state prints its line; only an inactive account becomes active. */
    method Activate() returns (out: string)
      modifies this
      ensures out == Message(old(state), Action.Activate)
      ensures state == Next(old(state), Action.Activate)
    {
      out := Message(state, Action.Activate);
      if state == Inactive {
        state := Active;
      }
    }

    /** `suspend`: only an active account becomes suspended. */
    method Suspend() returns (out: string)
      modifies this
      ensures out == Message(old(state), Action.Suspend)
      ensures state == Next(old(state), Action.Suspend)
    {
      out := Message(state, Action.Suspend);
      if state == Active {
        state := Suspended;
      }
    }

    /** `deactivate`: an active or suspended account becomes inactive. */
    method Deactivate() returns (out: string)
      modifies this
      ensures out == Message(old(state), Action.Deactivate)
      ensures state == Next(old(state), Action.Deactivate)
    {
      out := Message(state, Action.Deactivate);
      if state == Active || state == Suspended {
        state := Inactive;
      }
    }
  }

  /** Drives an account through a sequence of actions, as the demonstration runner does: what it
      prints and where it ends are `Transcript` and `Run` of the starting state. */
  method Replay(account: UserAccount, acts: seq<Action>) returns (out: seq<string>)
    modifies account
    ensures out == Transcript(old(account.state), acts)
    ensures account.state == Run(old(account.state), acts)
  {
    out := [];
    var i := 0;
    while i < |acts|
      invariant 0 <= i <= |acts|
      invariant Transcript(old(account.state), acts) == out + Transcript(account.state, acts[i..])
      invariant Run(old(account.state), acts) == Run(account.state, acts[i..])
    {
      var line: string;
      match acts[i] {
        case Activate => line := account.Activate();
        case Suspend => line := account.Suspend();
        case Deactivate => line := account.Deactivate();
      }
      assert acts[i..][1..] == acts[i + 1..];
      out := out + [line];
      i := i + 1;
    }
  }

  /** The state tests: each replays actions on a new account and returns what was printed. */
  method SuspendThenActivateScenario() returns (out: seq<string>, final: State)
    ensures out == ["Suspending the account.", "Activating the suspended account."]
    ensures final == Suspended
  {
    var account := new UserAccount();
    var first := account.Suspend();
    var second := account.Activate();
    out, final := [first, second], account.state;
  }

  method DeactivateTwiceScenario() returns (out: seq<string>, final: State)
    ensures out == ["Deactivating the account.", "The account is already inactive."]
    ensures final == Inactive
  {
    var account := new UserAccount();
    var first := account.Deactivate();
    var second := account.Deactivate();
    out, final := [first, second], account.state;
  }

  method SuspendInactiveScenario() returns (out: seq<string>, final: State)
    ensures out == ["Deactivating the account.", "Cannot suspend an inactive account."]
    ensures final == Inactive
  {
    var account := new UserAccount();
    var first := account.Deactivate();
    var second := account.Suspend();
    out, final := [first, second], account.state;
  }
}
