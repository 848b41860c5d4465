/**
 * The password gate `authenticate`: a per-session boolean that starts false
 * and turns true only on a submission of the configured credential pair.
 */
module Auth {

  /** The configured credential pair. */
  const Username: string := "peterparker"
  const Password: string := "withgreatpower"

  /** Both fields equal the configured pair. */
  predicate Matches(username: string, password: string)
  {
    username == Username && password == Password
  }

  /** How one run of `authenticate` ends. */
  datatype Outcome =
    | Proceed   // already authenticated: the rest of the page runs
    | ShowForm  // not authenticated, nothing submitted: the form is shown and the run stops
    | Rejected  // wrong credentials: the rejection message is shown and the run stops
    | Rerun     // right credentials: the flag is set and the page restarts

  /** One run of the page as the gate sees it: was the form submitted, and with what. */
  datatype Run = Run(submitted: bool, username: string, password: string)

  /** The flag after one run, given the flag before it. */
  function NextFlag(flag: bool, run: Run): bool
  {
    if flag then true
    else run.submitted && Matches(run.username, run.password)
  }

  /** The flag of a new session after the given runs, oldest first. */
  function FlagAfter(runs: seq<Run>): bool
  {
    if runs == [] then false
    else NextFlag(FlagAfter(runs[..|runs| - 1]), runs[|runs| - 1])
  }

  /** Some run in the history submitted the configured pair. */
  predicate SomeRunMatched(runs: seq<Run>)
  {
    exists i :: 0 <= i < |runs| && runs[i].submitted && Matches(runs[i].username, runs[i].password)
  }

  /** A session is authenticated exactly when some earlier run submitted the right pair. */
  lemma {:induction false} FlagAfterIff(runs: seq<Run>)
    ensures FlagAfter(runs) <==> SomeRunMatched(runs)
  {
    if runs != [] {
      var init, last := runs[..|runs| - 1], runs[|runs| - 1];
      FlagAfterIff(init);
      assert forall i :: 0 <= i < |init| ==> init[i] == runs[i];
      if SomeRunMatched(init) {
        var i :| 0 <= i < |init| && init[i].submitted && Matches(init[i].username, init[i].password);
        assert runs[i] == init[i];
      }
    }
  }

  /** Once authenticated, later runs never clear the flag. */
  lemma {:induction false} FlagStaysSet(runs: seq<Run>, more: seq<Run>)
    requires FlagAfter(runs)
    ensures FlagAfter(runs + more)
  {
    if more == [] {
      assert runs + more == runs;
    } else {
      var init := more[..|more| - 1];
      FlagStaysSet(runs, init);
      var all := runs + more;
      assert all[..|all| - 1] == runs + init;
    }
  }

  /** The session state of one browser session. */
  class Session {
    var authenticated: bool

    /** A new session: the flag is initialised to false before it is first read. */
    constructor ()
      ensures !authenticated
    {
      authenticated := false;
    }

    /**
     * One run of `authenticate`. An authenticated session passes through;
     * otherwise the form is shown, a matching submission sets the flag and
     * restarts the page, a mismatching one is rejected, and the run stops.
     */
    method Authenticate(run: Run) returns (outcome: Outcome)
      modifies this
      ensures authenticated == NextFlag(old(authenticated), run)
      ensures outcome == Proceed <==> old(authenticated)
      ensures outcome == ShowForm <==> !old(authenticated) && !run.submitted
      ensures outcome == Rerun <==>
        !old(authenticated) && run.submitted && Matches(run.username, run.password)
      ensures outcome == Rejected <==>
        !old(authenticated) && run.submitted && !Matches(run.username, run.password)
    {
      if !authenticated {
        if run.submitted {
          if run.username == Username && run.password == Password {
            authenticated := true;
            return Rerun;
          } else {
            return Rejected;
          }
        }
        return ShowForm;
      }
      return Proceed;
    }
  }

  /**
   * A session that first submits a wrong password, then the right pair, and
   * then reloads: rejected, restarted, and let through.
   */
  method WrongThenRight() returns (first: Outcome, second: Outcome, third: Outcome, flag: bool)
    ensures first == Rejected && second == Rerun && third == Proceed && flag
  {
    var session := new Session();
    first := session.Authenticate(Run(true, Username, "withgreatresponsibility"));
    second := session.Authenticate(Run(true, Username, Password));
    third := session.Authenticate(Run(false, "", ""));
    flag := session.authenticated;
  }

  /**
   * A new session taken through the given page runs, oldest first: its flag
   * ends up as `FlagAfter` says, so it is set exactly when some run
   * submitted the configured pair.
   */
  method SessionAfter(runs: seq<Run>) returns (flag: bool)
    ensures flag == FlagAfter(runs)
    ensures flag <==> SomeRunMatched(runs)
  {
    var session := new Session();
    var i := 0;
    while i < |runs|
      invariant 0 <= i <= |runs|
      invariant session.authenticated == FlagAfter(runs[..i])
    {
      var _ := session.Authenticate(runs[i]);
      assert runs[..i + 1][..i] == runs[..i];
      i := i + 1;
    }
    assert runs[..i] == runs;
    flag := session.authenticated;
    FlagAfterIff(runs);
  }
}
