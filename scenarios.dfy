/**
 * Client runs of the command against the contracts alone: the parameters
 * resolved in a working copy with nothing configured, a first pull request,
 * and a second one after it.
 */
module Scenarios {
  import opened Wrappers
  import RubyString
  import opened GitConfig
  import opened Effects
  import C = Configuration
  import Tracker
  import PR = PullRequest

  const FixBug := Tracker.Story(77, "Fix bug")
  const Alpha := Tracker.Project(1, "Alpha", [FixBug])
  const Beta := Tracker.Project(2, "Beta", [])
  const Url := "https://github.com/o/r"

  /** The store after the token is stored. */
  const TokenOnly: Store := Set(map[], C.KEY_API_TOKEN, "tok", Global)

  /** The store after the first resolutions and the story association. */
  const Started: Store :=
    map[(Global, C.KEY_API_TOKEN) := "tok", (Local, C.KEY_PROJECT_ID) := "1", (Branch, C.KEY_STORY_ID) := "77"]

  /** The store after the login, then the password, then the URL are stored. */
  const WithLogin: Store := Set(Started, C.ASSUMED_GITHUB_LOGIN_KEY, "octocat", Global)
  const WithPassword: Store := Set(WithLogin, C.KEY_GITHUB_PASSWORD, "secret", Global)
  const Configured: Store := Set(WithPassword, C.KEY_GITHUB_REPO_URL, Url, Local)

  lemma NothingConfigured()
    ensures GetInherited(map[], C.KEY_API_TOKEN) == ""
  {
    InheritedPrecedence(map[], C.KEY_API_TOKEN);
  }

  lemma OnlyTokenConfigured()
    ensures GetInherited(TokenOnly, C.KEY_PROJECT_ID) == ""
  {
    assert C.KEY_PROJECT_ID != C.KEY_API_TOKEN;
    InheritedPrecedence(TokenOnly, C.KEY_PROJECT_ID);
  }

  lemma TokenIsTrimmed()
    ensures RubyString.Strip("tok") == "tok"
  {
    RubyString.StripKeepsTrimmed("tok");
  }

  lemma IdNumerals()
    ensures RubyString.Decimal(1) == "1" && RubyString.Decimal(77) == "77"
  {
    assert RubyString.Decimal(7) == "7";
  }

  lemma ProjectPicked()
    ensures C.ProjectIdResolved(TokenOnly, [Beta, Alpha], 0)
      == Ok(C.Resolution("1", Set(TokenOnly, C.KEY_PROJECT_ID, "1", Local), true))
    ensures C.ProjectIdTrace(TokenOnly, [Beta, Alpha], 0)
      == [Offered(C.PROJECT_PROMPT, ["Alpha", "Beta"]), Stored(Local, C.KEY_PROJECT_ID, "1")]
  {
    OnlyTokenConfigured();
    C.ProjectMenuScenario([], [FixBug]);
    IdNumerals();
    var chosen := Set(TokenOnly, C.KEY_PROJECT_ID, "1", Local);
    assert C.ProjectIdResolved(TokenOnly, [Beta, Alpha], 0) == Ok(C.Resolution("1", chosen, true));
    assert C.ProjectIdTrace(TokenOnly, [Beta, Alpha], 0)
      == [Offered(C.PROJECT_PROMPT, C.MenuLabels(Tracker.SortByName([Beta, Alpha])))] + [Stored(Local, C.KEY_PROJECT_ID, "1")];
  }

  lemma TokenAskedFor()
    ensures C.Resolved(map[], C.KEY_API_TOKEN, Global, "tok") == C.Resolution("tok", TokenOnly, true)
    ensures C.ResolutionTrace(C.Resolution("tok", TokenOnly, true), C.API_TOKEN_QUESTION, C.KEY_API_TOKEN, Global)
      == [Asked(C.API_TOKEN_QUESTION), Stored(Global, C.KEY_API_TOKEN, "tok")]
  {
    NothingConfigured();
    TokenIsTrimmed();
  }

  /** The story written at branch scope completes the started store. */
  lemma StoryAssociated()
    ensures Set(Set(TokenOnly, C.KEY_PROJECT_ID, "1", Local), C.KEY_STORY_ID, RubyString.Decimal(77), Branch) == Started
  {
    IdNumerals();
  }

  /** A pair, a pair and one more event make a trace of five. The sequence
      concatenation steps of the scenarios are stated over abstract events so
      that the solver never unfolds the traces they are applied to. */
  lemma FiveEvents(first: seq<Event>, second: seq<Event>, a: Event, b: Event, c: Event, d: Event, e: Event)
    requires first == [a, b] && second == [c, d]
    ensures [] + first + second + [e] == [a, b, c, d, e]
  {
  }

  /** Nothing configured: one prompt for the token, one menu for the project. */
  method ResolveInEmptyWorkingCopy()
  {
    var ws := new Workspace(map[], "feature");
    var config := new C.Configuration(ws);
    TokenAskedFor();
    var token := config.ApiToken("tok");
    assert token == "tok" && ws.config == TokenOnly;
    ProjectPicked();
    var projectId := config.ProjectId([Beta, Alpha], 0);
    assert projectId == Ok("1");
    IdNumerals();
    StoryAssociated();
    config.SetStory(FixBug);
    assert ws.config == Started;
    FiveEvents(
      C.ResolutionTrace(C.Resolution("tok", TokenOnly, true), C.API_TOKEN_QUESTION, C.KEY_API_TOKEN, Global),
      C.ProjectIdTrace(TokenOnly, [Beta, Alpha], 0),
      Asked(C.API_TOKEN_QUESTION), Stored(Global, C.KEY_API_TOKEN, "tok"),
      Offered(C.PROJECT_PROMPT, ["Alpha", "Beta"]), Stored(Local, C.KEY_PROJECT_ID, "1"),
      Stored(Branch, C.KEY_STORY_ID, "77"));
    assert ws.trace == [
      Asked(C.API_TOKEN_QUESTION), Stored(Global, C.KEY_API_TOKEN, "tok"),
      Offered(C.PROJECT_PROMPT, ["Alpha", "Beta"]), Stored(Local, C.KEY_PROJECT_ID, "1"),
      Stored(Branch, C.KEY_STORY_ID, "77")];
  }

  lemma GithubUnset()
    ensures GetInherited(Started, C.ASSUMED_GITHUB_LOGIN_KEY) == ""
    ensures GetInherited(WithLogin, C.KEY_GITHUB_PASSWORD) == ""
    ensures GetInherited(WithPassword, C.KEY_GITHUB_REPO_URL) == ""
  {
    InheritedPrecedence(Started, C.ASSUMED_GITHUB_LOGIN_KEY);
    InheritedPrecedence(WithLogin, C.KEY_GITHUB_PASSWORD);
    InheritedPrecedence(WithPassword, C.KEY_GITHUB_REPO_URL);
  }

  lemma LoginIsTrimmed()
    ensures RubyString.Strip("octocat") == "octocat"
  {
    RubyString.StripKeepsTrimmed("octocat");
  }

  lemma PasswordIsTrimmed()
    ensures RubyString.Strip("secret") == "secret"
  {
    RubyString.StripKeepsTrimmed("secret");
  }

  lemma UrlIsTrimmed()
    ensures RubyString.Strip(Url) == Url
  {
    RubyString.StripKeepsTrimmed(Url);
  }

  lemma StoryOfBranch()
    ensures C.StoryId(Configured) == 77
    ensures Tracker.FindStory(Alpha.stories, 77) == Some(FixBug)
  {
    IdNumerals();
    assert Get(Configured, C.KEY_STORY_ID, Branch) == "77";
    C.StoryIdAfterAssociate(map[], FixBug);
  }

  lemma PrefixesFor77()
    ensures PR.TitlePrefix(77, false) == "[Completes #77]"
    ensures PR.TitlePrefix(77, true) == "[#77]"
  {
    IdNumerals();
  }

  lemma TitlesFor77()
    ensures PR.PullRequestTitle(77, false, "Fix it") == "[Completes #77]Fix it"
    ensures PR.PullRequestTitle(77, true, "Again") == "[#77]Again"
  {
    PrefixesFor77();
  }

  lemma LoginAskedFor()
    ensures C.Resolved(Started, C.ASSUMED_GITHUB_LOGIN_KEY, Global, "octocat") == C.Resolution("octocat", WithLogin, true)
  {
    GithubUnset();
    LoginIsTrimmed();
  }

  lemma PasswordAskedFor()
    ensures C.Resolved(WithLogin, C.KEY_GITHUB_PASSWORD, Global, "secret") == C.Resolution("secret", WithPassword, true)
  {
    GithubUnset();
    PasswordIsTrimmed();
  }

  lemma UrlAskedFor()
    ensures C.Resolved(WithPassword, C.KEY_GITHUB_REPO_URL, Local, Url) == C.Resolution(Url, Configured, true)
  {
    GithubUnset();
    UrlIsTrimmed();
  }

  /** The trace of building the command on the started store: the login,
      then the password, each asked for and stored account-wide. */
  lemma CommandBuilt()
    ensures var login := C.Resolved(Started, C.ASSUMED_GITHUB_LOGIN_KEY, Global, "octocat");
      var password := C.Resolved(login.store, C.KEY_GITHUB_PASSWORD, Global, "secret");
      && Credentials(login.value, password.value) == Credentials("octocat", "secret")
      && password.store == WithPassword
      && [] + C.ResolutionTrace(login, C.GITHUB_LOGIN_QUESTION, C.ASSUMED_GITHUB_LOGIN_KEY, Global)
         + C.ResolutionTrace(password, C.GITHUB_PASSWORD_QUESTION, C.KEY_GITHUB_PASSWORD, Global)
        == [Asked(C.GITHUB_LOGIN_QUESTION), Stored(Global, C.ASSUMED_GITHUB_LOGIN_KEY, "octocat"),
            Asked(C.GITHUB_PASSWORD_QUESTION), Stored(Global, C.KEY_GITHUB_PASSWORD, "secret")]
  {
    LoginAskedFor();
    PasswordAskedFor();
    var login, password := C.Resolution("octocat", WithLogin, true), C.Resolution("secret", WithPassword, true);
    PairsAppended(C.ResolutionTrace(login, C.GITHUB_LOGIN_QUESTION, C.ASSUMED_GITHUB_LOGIN_KEY, Global),
      C.ResolutionTrace(password, C.GITHUB_PASSWORD_QUESTION, C.KEY_GITHUB_PASSWORD, Global),
      Asked(C.GITHUB_LOGIN_QUESTION), Stored(Global, C.ASSUMED_GITHUB_LOGIN_KEY, "octocat"),
      Asked(C.GITHUB_PASSWORD_QUESTION), Stored(Global, C.KEY_GITHUB_PASSWORD, "secret"));
  }

  /** Two pairs of events make a trace of four. */
  lemma PairsAppended(first: seq<Event>, second: seq<Event>, a: Event, b: Event, c: Event, d: Event)
    requires first == [a, b] && second == [c, d]
    ensures [] + first + second == [a, b, c, d]
  {
  }

  /** The trace of a run on the store with the credentials: the URL is asked
      for and stored locally, then title and body, then the pull request. */
  lemma FirstRunTrace(built: seq<Event>, client: Credentials)
    ensures var url := C.Resolved(WithPassword, C.KEY_GITHUB_REPO_URL, Local, Url);
      var story := Tracker.FindStory(Alpha.stories, C.StoryId(url.store));
      && url.store == Configured
      && story == Some(FixBug)
      && built + C.ResolutionTrace(url, C.GITHUB_REPO_URL_QUESTION, C.KEY_GITHUB_REPO_URL, Local)
         + [ Asked(PR.TitleQuestion(PR.TitlePrefix(story.value.id, PR.NoComplete("")))),
             Asked(PR.BODY_QUESTION),
             PullRequestOpened(client, url.value, "feature",
                               PR.PullRequestTitle(story.value.id, PR.NoComplete(""), "Fix it"), "Body") ]
        == built + [
             Asked(C.GITHUB_REPO_URL_QUESTION), Stored(Local, C.KEY_GITHUB_REPO_URL, Url),
             Asked(PR.TitleQuestion("[Completes #77]")), Asked(PR.BODY_QUESTION),
             PullRequestOpened(client, Url, "feature", "[Completes #77]Fix it", "Body")]
  {
    UrlAskedFor();
    StoryOfBranch();
    TitlesFor77();
    PR.NoCompleteExamples();
    var url := C.Resolution(Url, Configured, true);
    assert C.Resolved(WithPassword, C.KEY_GITHUB_REPO_URL, Local, Url) == url;
    var story := Tracker.FindStory(Alpha.stories, C.StoryId(url.store));
    assert story.value.id == 77 && !PR.NoComplete("");
    assert PR.TitlePrefix(story.value.id, PR.NoComplete("")) == "[Completes #77]" by {
      PrefixesFor77();
    }
    EventsAppended(built, C.ResolutionTrace(url, C.GITHUB_REPO_URL_QUESTION, C.KEY_GITHUB_REPO_URL, Local),
      Asked(C.GITHUB_REPO_URL_QUESTION), Stored(Local, C.KEY_GITHUB_REPO_URL, Url),
      Asked(PR.TitleQuestion("[Completes #77]")), Asked(PR.BODY_QUESTION),
      PullRequestOpened(client, Url, "feature", "[Completes #77]Fix it", "Body"));
  }

  /** Two events, then three more, appended to a trace. */
  lemma EventsAppended(built: seq<Event>, pair: seq<Event>, a: Event, b: Event, c: Event, d: Event, e: Event)
    requires pair == [a, b]
    ensures built + pair + [c, d, e] == built + [a, b, c, d, e]
  {
  }

  /** No events, then three, make a trace of three. */
  lemma NothingBefore(none: seq<Event>, c: Event, d: Event, e: Event)
    requires none == []
    ensures [] + none + [c, d, e] == [c, d, e]
  {
  }

  /** First pull request: login and password are asked for and stored when
      the command is built, then the URL, the title and the body, then one
      pull request is opened. */
  method FirstPullRequest()
  {
    var ws := new Workspace(Started, "feature");
    var config := new C.Configuration(ws);
    LoginAskedFor();
    PasswordAskedFor();
    CommandBuilt();
    var pr := new PR.PullRequest(config, Alpha, "octocat", "secret");
    assert pr.client == Credentials("octocat", "secret") && ws.config == WithPassword;
    ghost var built := ws.trace;
    assert built == [
      Asked(C.GITHUB_LOGIN_QUESTION), Stored(Global, C.ASSUMED_GITHUB_LOGIN_KEY, "octocat"),
      Asked(C.GITHUB_PASSWORD_QUESTION), Stored(Global, C.KEY_GITHUB_PASSWORD, "secret")];
    FirstRunTrace(built, pr.client);
    var outcome := pr.Run("", Url, "Fix it", "Body");
    assert outcome == Pass;
    assert ws.trace == built + [
      Asked(C.GITHUB_REPO_URL_QUESTION), Stored(Local, C.KEY_GITHUB_REPO_URL, Url),
      Asked(PR.TitleQuestion("[Completes #77]")), Asked(PR.BODY_QUESTION),
      PullRequestOpened(Credentials("octocat", "secret"), Url, "feature", "[Completes #77]Fix it", "Body")];
  }

  /** The values configured by the first pull request, read back. */
  lemma ConfiguredValues()
    ensures GetInherited(Configured, C.ASSUMED_GITHUB_LOGIN_KEY) == "octocat"
    ensures GetInherited(Configured, C.KEY_GITHUB_PASSWORD) == "secret"
    ensures GetInherited(Configured, C.KEY_GITHUB_REPO_URL) == Url
  {
    InheritedPrecedence(Configured, C.ASSUMED_GITHUB_LOGIN_KEY);
    InheritedPrecedence(Configured, C.KEY_GITHUB_PASSWORD);
    InheritedPrecedence(Configured, C.KEY_GITHUB_REPO_URL);
  }

  /** On the configured store the credentials are read back, not asked for. */
  lemma SecondCommandBuilt()
    ensures var login := C.Resolved(Configured, C.ASSUMED_GITHUB_LOGIN_KEY, Global, "ignored");
      var password := C.Resolved(login.store, C.KEY_GITHUB_PASSWORD, Global, "ignored");
      && Credentials(login.value, password.value) == Credentials("octocat", "secret")
      && password.store == Configured
      && [] + C.ResolutionTrace(login, C.GITHUB_LOGIN_QUESTION, C.ASSUMED_GITHUB_LOGIN_KEY, Global)
         + C.ResolutionTrace(password, C.GITHUB_PASSWORD_QUESTION, C.KEY_GITHUB_PASSWORD, Global) == []
  {
    ConfiguredValues();
    C.ResolvedWhenConfigured(Configured, C.ASSUMED_GITHUB_LOGIN_KEY, Global, "ignored");
    C.ResolvedWhenConfigured(Configured, C.KEY_GITHUB_PASSWORD, Global, "ignored");
  }

  /** On the configured store the URL is read back too, and the flag drops
      "Completes" from the prefix. */
  lemma SecondRunTrace(client: Credentials)
    ensures var url := C.Resolved(Configured, C.KEY_GITHUB_REPO_URL, Local, "ignored");
      var story := Tracker.FindStory(Alpha.stories, C.StoryId(url.store));
      && url.store == Configured
      && story == Some(FixBug)
      && [] + C.ResolutionTrace(url, C.GITHUB_REPO_URL_QUESTION, C.KEY_GITHUB_REPO_URL, Local)
         + [ Asked(PR.TitleQuestion(PR.TitlePrefix(story.value.id, PR.NoComplete("--no-complete")))),
             Asked(PR.BODY_QUESTION),
             PullRequestOpened(client, url.value, "feature",
                               PR.PullRequestTitle(story.value.id, PR.NoComplete("--no-complete"), "Again"), "More") ]
        == [ Asked(PR.TitleQuestion("[#77]")), Asked(PR.BODY_QUESTION),
             PullRequestOpened(client, Url, "feature", "[#77]Again", "More")]
  {
    ConfiguredValues();
    C.ResolvedWhenConfigured(Configured, C.KEY_GITHUB_REPO_URL, Local, "ignored");
    var url := C.Resolution(Url, Configured, false);
    assert C.Resolved(Configured, C.KEY_GITHUB_REPO_URL, Local, "ignored") == url;
    StoryOfBranch();
    TitlesFor77();
    PR.NoCompleteExamples();
    var story := Tracker.FindStory(Alpha.stories, C.StoryId(url.store));
    assert story.value.id == 77 && PR.NoComplete("--no-complete");
    assert PR.TitlePrefix(story.value.id, PR.NoComplete("--no-complete")) == "[#77]" by {
      PrefixesFor77();
    }
    NothingBefore(C.ResolutionTrace(url, C.GITHUB_REPO_URL_QUESTION, C.KEY_GITHUB_REPO_URL, Local),
      Asked(PR.TitleQuestion("[#77]")), Asked(PR.BODY_QUESTION),
      PullRequestOpened(client, Url, "feature", "[#77]Again", "More"));
  }

  /** Second pull request on the same branch with the flag: only the title
      and the body are asked for, and the store is left as it was. */
  method SecondPullRequest()
  {
    var ws := new Workspace(Configured, "feature");
    var config := new C.Configuration(ws);
    SecondCommandBuilt();
    SecondRunTrace(Credentials("octocat", "secret"));
    var pr := new PR.PullRequest(config, Alpha, "ignored", "ignored");
    assert pr.client == Credentials("octocat", "secret") && ws.config == Configured && ws.trace == [];
    var outcome := pr.Run("--no-complete", "ignored", "Again", "More");
    assert outcome == Pass && ws.config == Configured;
    assert ws.trace == [
      Asked(PR.TitleQuestion("[#77]")), Asked(PR.BODY_QUESTION),
      PullRequestOpened(Credentials("octocat", "secret"), Url, "feature", "[#77]Again", "More")];
  }
}
