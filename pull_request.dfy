/**
 * The pull-request command (class Command::PullRequest): at construction it
 * resolves the GitHub login and then the password for its client; `run`
 * resolves the repository URL, finds the branch's story, asks for a title
 * (after a prefix naming the story) and a body, and opens one pull request
 * from the checked-out branch.
 */
module PullRequest {
  import opened Wrappers
  import opened RubyString
  import opened GitConfig
  import opened Effects
  import C = Configuration
  import Tracker

  const NO_COMPLETE_FLAG: string := "--no-complete"
  const BODY_QUESTION: string := "Enter pull request body: "

  /** argument =~ /--no-complete/ taken as a condition: the flag text occurs
      anywhere in the argument. */
  function NoComplete(argument: string): bool {
    MatchIndex(argument, NO_COMPLETE_FLAG).Some?
  }

  /** The flag is detected exactly when its text occurs somewhere in the
      argument, also inside a longer word. */
  lemma NoCompleteIff(argument: string)
    ensures NoComplete(argument) <==> exists i: nat :: OccursAt(argument, NO_COMPLETE_FLAG, i)
  {
    var m := MatchIndex(argument, NO_COMPLETE_FLAG);
    if m.Some? {
      assert OccursAt(argument, NO_COMPLETE_FLAG, m.value);
    }
  }

  lemma NoCompleteExamples()
    ensures NoComplete("--no-complete")
    ensures NoComplete("--no-completely")
    ensures !NoComplete("--no-complet")
    ensures !NoComplete("")
  {
    assert OccursAt("--no-completely", NO_COMPLETE_FLAG, 0);
    NoCompleteIff("--no-completely");
    assert OccursAt("--no-complete", NO_COMPLETE_FLAG, 0);
    NoCompleteIff("--no-complete");
  }

  /** The title prefix "[Completes #<id>]", or "[#<id>]" with the flag. */
  function TitlePrefix(id: nat, noComplete: bool): string {
    "[" + (if noComplete then "" else "Completes ") + "#" + Decimal(id) + "]"
  }

  lemma TitlePrefixExamples()
    ensures TitlePrefix(123, false) == "[Completes #123]"
    ensures TitlePrefix(123, true) == "[#123]"
  {
    assert Decimal(1) == "1";
    assert Decimal(12) == "12";
    assert Decimal(123) == "123";
  }

  /** The prefix names the story and the flag unambiguously: two prefixes
      are equal only for the same id and the same flag. */
  lemma {:induction false} TitlePrefixDetermines(id1: nat, nc1: bool, id2: nat, nc2: bool)
    requires TitlePrefix(id1, nc1) == TitlePrefix(id2, nc2)
    ensures id1 == id2 && nc1 == nc2
  {
    var p1, p2 := TitlePrefix(id1, nc1), TitlePrefix(id2, nc2);
    assert p1[1] == (if nc1 then '#' else 'C');
    assert p2[1] == (if nc2 then '#' else 'C');
    var k := if nc1 then 2 else 12;
    assert p1[k..|p1| - 1] == Decimal(id1);
    assert p2[k..|p2| - 1] == Decimal(id2);
    DecimalInjective(id1, id2);
  }

  function TitleQuestion(prefix: string): string {
    "Enter pull request title (" + prefix + " <title>): "
  }

  /** pull_request_title: the prefix followed directly by the typed text. */
  function PullRequestTitle(storyId: nat, noComplete: bool, typed: string): string {
    TitlePrefix(storyId, noComplete) + typed
  }

  /** The title starts with the prefix, and what follows it is exactly the
      typed text: no separator is added and nothing is trimmed. */
  lemma PullRequestTitleSplits(storyId: nat, noComplete: bool, typed: string)
    ensures var prefix, title := TitlePrefix(storyId, noComplete), PullRequestTitle(storyId, noComplete, typed);
      && |title| == |prefix| + |typed|
      && title[..|prefix|] == prefix
      && title[|prefix|..] == typed
      && title[|prefix| - 1] == ']'
  {
  }

  class PullRequest {
    const configuration: C.Configuration
    const project: Tracker.Project
    /** The credentials the GitHub client is built with. */
    const client: Credentials

    /** initialize: the login is resolved, then the password, before any run.
        As written, initialize raises NameError when it asks for the login,
        because github_login refers to the undefined KEY_GITHUB_LOGIN (see
        Configuration.GithubLoginAsWritten). This constructor is built on the
        corrected Configuration.GithubLogin, which reads the assumed key
        Configuration.ASSUMED_GITHUB_LOGIN_KEY. */
    constructor (configuration: C.Configuration, project: Tracker.Project, loginReply: string, passwordReply: string)
      modifies configuration.workspace`config, configuration.workspace`trace
      ensures this.configuration == configuration && this.project == project
      ensures var login := C.Resolved(old(configuration.workspace.config), C.ASSUMED_GITHUB_LOGIN_KEY, Global, loginReply);
        var password := C.Resolved(login.store, C.KEY_GITHUB_PASSWORD, Global, passwordReply);
        && client == Credentials(login.value, password.value)
        && configuration.workspace.config == password.store
        && configuration.workspace.trace == old(configuration.workspace.trace)
             + C.ResolutionTrace(login, C.GITHUB_LOGIN_QUESTION, C.ASSUMED_GITHUB_LOGIN_KEY, Global)
             + C.ResolutionTrace(password, C.GITHUB_PASSWORD_QUESTION, C.KEY_GITHUB_PASSWORD, Global)
    {
      var login := configuration.GithubLogin(loginReply);
      var password := configuration.GithubPassword(passwordReply);
      this.configuration := configuration;
      this.project := project;
      client := Credentials(login, password);
    }

    /** run: repository URL, then the story and the title, then the body, then
        exactly one pull request; without a story for the branch's id it stops
        before asking for the title. */
    method Run(argument: string, urlReply: string, titleReply: string, bodyReply: string) returns (r: Outcome<C.ConfigError>)
      modifies configuration.workspace`config, configuration.workspace`trace
      ensures var url := C.Resolved(old(configuration.workspace.config), C.KEY_GITHUB_REPO_URL, Local, urlReply);
        var urlTrace := C.ResolutionTrace(url, C.GITHUB_REPO_URL_QUESTION, C.KEY_GITHUB_REPO_URL, Local);
        var id := C.StoryId(url.store);
        var story := Tracker.FindStory(project.stories, id);
        && configuration.workspace.config == url.store
        && (story.None? ==>
              r == Fail(C.StoryNotFound(id))
              && configuration.workspace.trace == old(configuration.workspace.trace) + urlTrace)
        && (story.Some? ==>
              var prefix := TitlePrefix(story.value.id, NoComplete(argument));
              && r == Pass
              && configuration.workspace.trace == old(configuration.workspace.trace) + urlTrace
                   + [ Asked(TitleQuestion(prefix)),
                       Asked(BODY_QUESTION),
                       PullRequestOpened(client, url.value, configuration.workspace.branch,
                                         PullRequestTitle(story.value.id, NoComplete(argument), titleReply), bodyReply) ])
    {
      var workspace := configuration.workspace;
      var noComplete := NoComplete(argument);
      var url := configuration.GithubRepoUrl(urlReply);
      ghost var resolved := C.Resolved(old(workspace.config), C.KEY_GITHUB_REPO_URL, Local, urlReply);
      ghost var afterUrl := workspace.trace;
      assert url == resolved.value && workspace.config == resolved.store;
      assert afterUrl == old(workspace.trace)
        + C.ResolutionTrace(resolved, C.GITHUB_REPO_URL_QUESTION, C.KEY_GITHUB_REPO_URL, Local);
      var story := configuration.Story(project);
      assert story == Tracker.FindStory(project.stories, C.StoryId(resolved.store));
      if story.None? {
        return Fail(C.StoryNotFound(C.StoryId(workspace.config)));
      }
      var title := PullRequestTitleFor(story.value, noComplete, titleReply);
      var body := PullRequestBody(bodyReply);
      workspace.CreatePullRequest(client, url, title, body);
      assert workspace.trace == afterUrl
        + [Asked(TitleQuestion(TitlePrefix(story.value.id, noComplete))), Asked(BODY_QUESTION),
           PullRequestOpened(client, url, workspace.branch, title, body)];
      r := Pass;
    }

    /** pull_request_title: the prefix for the story, shown in the question,
        followed directly by the typed text. */
    method PullRequestTitleFor(story: Tracker.Story, noComplete: bool, titleReply: string) returns (title: string)
      modifies configuration.workspace`trace
      ensures title == PullRequestTitle(story.id, noComplete, titleReply)
      ensures configuration.workspace.trace
        == old(configuration.workspace.trace) + [Asked(TitleQuestion(TitlePrefix(story.id, noComplete)))]
    {
      var prefix := TitlePrefix(story.id, noComplete);
      var typed := configuration.workspace.Ask(TitleQuestion(prefix), titleReply);
      title := prefix + typed;
    }

    /** pull_request_body: the typed text as it is, with no default and no
        trimming. */
    method PullRequestBody(bodyReply: string) returns (body: string)
      modifies configuration.workspace`trace
      ensures body == bodyReply
      ensures configuration.workspace.trace == old(configuration.workspace.trace) + [Asked(BODY_QUESTION)]
    {
      body := configuration.workspace.Ask(BODY_QUESTION, bodyReply);
    }
  }
}
