/** The client-side admin gate (app/components/AdminAccess.tsx): the
    allow-list read from the environment, the redirect its effect issues
    and whether the protected children render. */
module AdminAccess {
  import opened Optional
  import Text

  /** `NEXT_PUBLIC_ADMIN_EMAILS?.split(",") ?? []`: no trimming, and an
      unset variable gives the empty list. */
  function AllowList(env: Option<string>): (r: seq<string>)
    ensures env.None? ==> r == []
    ensures env.Some? ==> |r| > 0 && forall e :: e in r ==> ',' !in e
  {
    if env.None? then []
    else
      Text.SplitPiecesHaveNoSeparator(env.value, ',');
      Text.Split(env.value, ',')
  }

  /** The allow-list is exactly the variable cut at its commas: joining it
      back gives the variable's text. */
  lemma AllowListRoundTrip(env: string)
    ensures Text.Join(AllowList(Some(env)), ',') == env
  {
    Text.JoinSplit(env, ',');
  }

  /** A set but empty variable lists the empty address, which is what a
      user without a primary e-mail address is checked as. */
  lemma EmptyVariableAdmitsNoEmail()
    ensures AllowList(Some("")) == [""]
  {
  }

  /** What the gate does on one render: the route its effect pushes, if
      any, and whether it renders its children. */
  datatype Decision = Decision(redirect: Option<string>, render: bool)

  /** The effect's redirect and the render guard. The e-mail is the user's
      primary address, with a missing one read as "". */
  function Decide(isLoaded: bool, isSignedIn: bool, email: Option<string>, allow: seq<string>): (d: Decision)
    ensures !isLoaded ==> d == Decision(None, false)
    ensures isLoaded && !isSignedIn ==> d == Decision(Some("/sign-in"), false)
    ensures isLoaded && isSignedIn ==>
      d.redirect == (if (if email.None? then "" else email.value) in allow then None else Some("/"))
    ensures d.render <==> isLoaded && isSignedIn
  {
    var redirect :=
      if !isLoaded then None
      else if !isSignedIn then Some("/sign-in")
      else if (if email.None? then "" else email.value) !in allow then Some("/")
      else None;
    Decision(redirect, isSignedIn && isLoaded)
  }

  /** The children render whatever the e-mail: a signed-in user who is not
      on the list is sent to "/" by the effect, but the same render shows
      the protected page. */
  lemma RenderIgnoresEmail(isLoaded: bool, isSignedIn: bool, e1: Option<string>, e2: Option<string>,
                           allow: seq<string>)
    ensures Decide(isLoaded, isSignedIn, e1, allow).render == Decide(isLoaded, isSignedIn, e2, allow).render
    ensures isLoaded && isSignedIn && "" !in allow ==>
      Decide(isLoaded, isSignedIn, None, allow) == Decision(Some("/"), true)
  {
  }

  /** An allow-listed, signed-in user stays and sees the page. */
  lemma AdminAdmitted(email: string, allow: seq<string>)
    requires email in allow
    ensures Decide(true, true, Some(email), allow) == Decision(None, true)
  {
  }
}
