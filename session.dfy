/**
 * The blog page as a whole: its authentication flag, its configuration, and
 * the password prompt it mounts while gated, whose grant callback sets the
 * flag. `State`, `Step` and `Run` give the page's behaviour as values; the
 * `Blog` class is the page's component, updated in place, and each of its
 * handlers is specified by `Step`.
 */
module Session {

  import opened Wrappers
  import opened Prompt
  import opened Routing

  /** The two build-time environment entries the page reads. */
  datatype Config = Config(developerFlag: Option<string>, accessPassword: Option<string>)

  /** The page's state together with the state of its mounted prompt. */
  datatype State = State(mode: Mode, authenticated: bool, prompt: PromptState)

  /** The user's inputs to the gate: typing into the field, submitting the form. */
  datatype Event = Typed(value: string) | Submitted

  /** The state when the page is first mounted. */
  function Init(cfg: Config): (s: State)
    ensures !s.authenticated
    ensures s.mode == Developer <==> cfg.developerFlag == Some("true")
    ensures s.prompt == InitialPrompt
  {
    State(ModeFromFlag(cfg.developerFlag), false, InitialPrompt)
  }

  /**
   * One gate event. The prompt is mounted only while gated, so otherwise the
   * event has no effect; a submission that is accepted invokes the grant
   * callback, which sets the authentication flag.
   */
  function Step(s: State, expected: Option<string>, e: Event): (r: State)
    ensures r.mode == s.mode
    ensures s.authenticated ==> r.authenticated
    ensures !Gated(s.mode, s.authenticated) ==> r == s
    ensures !s.authenticated && r.authenticated ==> e == Submitted && Accepts(s.prompt.password, expected)
    ensures e.Typed? ==> r.authenticated == s.authenticated
  {
    if !Gated(s.mode, s.authenticated) then s
    else match e
      case Typed(value) => s.(prompt := Change(s.prompt, value))
      case Submitted =>
        var r := Submit(s.prompt, expected);
        s.(authenticated := if r.granted then true else s.authenticated, prompt := r.after)
  }

  /** A sequence of gate events, in order. */
  function Run(s: State, expected: Option<string>, events: seq<Event>): (r: State)
    ensures r.mode == s.mode
    ensures s.authenticated ==> r.authenticated
    decreases |events|
  {
    if events == [] then s else Run(Step(s, expected, events[0]), expected, events[1..])
  }

  /** The view rendered for a path in a given state. */
  function ViewOf(s: State, path: Path): View
  {
    Select(s.mode, s.authenticated, path)
  }

  /** A submission while gated authenticates exactly when the password matches. */
  lemma SubmitGrantsIffMatch(s: State, expected: Option<string>)
    requires Gated(s.mode, s.authenticated)
    ensures Step(s, expected, Submitted).authenticated <==> Accepts(s.prompt.password, expected)
    ensures Step(s, expected, Submitted).prompt.password == s.prompt.password
  {
  }

  /** Once past the gate (or in user mode) no event changes anything. */
  lemma {:induction false} RunPastGateIsIdle(s: State, expected: Option<string>, events: seq<Event>)
    requires !Gated(s.mode, s.authenticated)
    ensures Run(s, expected, events) == s
    decreases |events|
  {
    if events != [] {
      RunPastGateIsIdle(Step(s, expected, events[0]), expected, events[1..]);
    }
  }

  /** User mode never shows the gate, after any events, on any path. */
  lemma UserModeNeverGated(cfg: Config, events: seq<Event>, path: Path)
    requires cfg.developerFlag != Some("true")
    ensures ViewOf(Run(Init(cfg), cfg.accessPassword, events), path) != Gate
  {
  }

  /** With the password unset, no sequence of events gets past the gate. */
  lemma {:induction false} UnsetPasswordKeepsGate(s: State, events: seq<Event>)
    requires !s.authenticated
    ensures !Run(s, None, events).authenticated
    decreases |events|
  {
    if events != [] {
      UnsetPasswordNeverAccepts(s.prompt.password);
      UnsetPasswordKeepsGate(Step(s, None, events[0]), events[1..]);
    }
  }

  /** The error is always "" or the fixed message, after any events. */
  lemma {:induction false} RunKeepsErrorWellFormed(s: State, expected: Option<string>, events: seq<Event>)
    requires ErrorWellFormed(s.prompt)
    ensures ErrorWellFormed(Run(s, expected, events).prompt)
    decreases |events|
  {
    if events != [] {
      var e := events[0];
      if e.Typed? {
        ErrorNeverCleared(s.prompt, e.value, expected);
      } else {
        ErrorNeverCleared(s.prompt, "", expected);
      }
      RunKeepsErrorWellFormed(Step(s, expected, e), expected, events[1..]);
    }
  }

  /**
   * Authentication only ever comes from a submission whose typed password
   * matched: if a run ends authenticated, some event was a submission made
   * while the typed password was accepted.
   */
  lemma {:induction false} AuthenticationNeedsMatchingSubmit(s: State, expected: Option<string>, events: seq<Event>)
    requires !s.authenticated
    requires Run(s, expected, events).authenticated
    ensures exists k ::
              0 <= k < |events| && events[k] == Submitted
              && Accepts(Run(s, expected, events[..k]).prompt.password, expected)
    decreases |events|
  {
    var s1 := Step(s, expected, events[0]);
    if s1.authenticated {
      assert events[..0] == [];
      assert 0 < |events| && events[0] == Submitted
        && Accepts(Run(s, expected, events[..0]).prompt.password, expected);
    } else {
      AuthenticationNeedsMatchingSubmit(s1, expected, events[1..]);
      var k :| 0 <= k < |events[1..]| && events[1..][k] == Submitted
        && Accepts(Run(s1, expected, events[1..][..k]).prompt.password, expected);
      assert events[..k + 1][0] == events[0];
      assert events[..k + 1][1..] == events[1..][..k];
      assert Run(s, expected, events[..k + 1]) == Run(s1, expected, events[1..][..k]);
      assert events[k + 1] == Submitted
        && Accepts(Run(s, expected, events[..k + 1]).prompt.password, expected);
    }
  }

  /** Developer mode, correct password submitted, then "/create" shows the form. */
  lemma ScenarioCorrectPassword()
    ensures var cfg := Config(Some("true"), Some("pw"));
      var s := Run(Init(cfg), cfg.accessPassword, [Typed("pw"), Submitted]);
      s.authenticated && ViewOf(s, CreatePath) == Create
  {
  }

  /** Developer mode, wrong password: still gated, with the fixed message shown. */
  lemma ScenarioWrongPassword()
    ensures var cfg := Config(Some("true"), Some("pw"));
      var s := Run(Init(cfg), cfg.accessPassword, [Typed("nope"), Submitted]);
      !s.authenticated && s.prompt == PromptState("nope", IncorrectPassword)
      && ViewOf(s, PostPath("7")) == Gate
  {
  }

  /** The blog page component. */
  class Blog {
    /** Developer mode, fixed when the page is built. */
    const mode: Mode
    var authenticated: bool
    /** The prompt the page mounts while gated; its grant callback is HandleAccessGranted. */
    const prompt: PasswordPrompt

    function Snapshot(): State
      reads this, prompt
    {
      State(mode, authenticated, prompt.State())
    }

    constructor (cfg: Config)
      ensures fresh(prompt)
      ensures Snapshot() == Init(cfg)
      ensures prompt.expected == cfg.accessPassword
    {
      mode := ModeFromFlag(cfg.developerFlag);
      authenticated := false;
      prompt := new PasswordPrompt(cfg.accessPassword);
    }

    /** The grant callback: authentication becomes true and nothing else changes. */
    method HandleAccessGranted()
      modifies this
      ensures authenticated
    {
      authenticated := true;
    }

    /** One render for a path; it changes no state. */
    method Render(path: Path) returns (v: View)
      ensures v == Select(mode, authenticated, path)
      ensures v == Gate <==> Gated(mode, authenticated)
    {
      v := Select(mode, authenticated, path);
    }

    /** Typing into the mounted prompt's field. */
    method EnterPassword(value: string)
      modifies prompt
      ensures Snapshot() == Step(old(Snapshot()), prompt.expected, Typed(value))
    {
      if Gated(mode, authenticated) {
        prompt.OnChange(value);
      }
    }

    /** Submitting the mounted prompt's form; an accepted password fires the callback. */
    method SubmitPassword()
      modifies this, prompt
      ensures Snapshot() == Step(old(Snapshot()), prompt.expected, Submitted)
    {
      if Gated(mode, authenticated) {
        var granted := prompt.HandleSubmit();
        if granted {
          HandleAccessGranted();
        }
      }
    }
  }
}
