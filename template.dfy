/** The Template Method example: `perform_action` fixes the order login, action, logout, and each
    user kind supplies only the action. Printing is modelled as the returned lines. */
module UserActions {

  datatype UserAction = AdminAction | RegularUserAction

  const LoginLine := "Logging in..."
  const LogoutLine := "Logging out..."

  /** `do_action`, the one step each user kind defines. */
  function DoAction(a: UserAction): (line: string)
    ensures line != LoginLine && line != LogoutLine
  {
    match a
    case AdminAction => "Performing admin action..."
    case RegularUserAction => "Performing regular user action..."
  }

  /** `perform_action`: every user kind is framed the same way, exactly three lines, the login
      line first and the logout line last, with the kind's own action, and nothing else, in
      between. */
  function PerformAction(a: UserAction): (out: seq<string>)
    ensures |out| == 3 && out[0] == LoginLine && out[2] == LogoutLine
    ensures forall k :: 0 <= k < |out| ==> (out[k] == DoAction(a) <==> k == 1)
  {
    [LoginLine, DoAction(a), LogoutLine]
  }

  /** The output tells the user kinds apart: different kinds print different lines. */
  lemma PerformActionInjective(a: UserAction, b: UserAction)
    ensures PerformAction(a) == PerformAction(b) <==> a == b
  {
    if PerformAction(a) == PerformAction(b) {
      assert PerformAction(a)[1] == PerformAction(b)[1];
      assert DoAction(a) == DoAction(b);
    }
  }
}
