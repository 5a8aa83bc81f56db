/**
 * The world outside the program that a command acts on: the git
 * configuration of the working copy, the branch checked out in it, the
 * user's terminal and the hosting service. Every effect is appended to a
 * trace, so that the order of prompts, configuration writes and the pull
 * request can be stated. Replies to prompts are given by the caller.
 */
module Effects {
  import opened GitConfig

  /** Username and password the Octokit client authenticates with. */
  datatype Credentials = Credentials(login: string, password: string)

  datatype Event =
    | Asked(question: string)                          // HighLine ask
    | Offered(prompt: string, labels: seq<string>)     // HighLine choose
    | Stored(scope: Scope, key: string, value: string) // Util::Git.set_config
    | PullRequestOpened(client: Credentials, repoUrl: string, head: string, title: string, body: string)

  class Workspace {
    var config: Store
    var trace: seq<Event>
    /** The branch checked out in the working copy (Util::Git.branch_name). */
    const branch: string

    constructor (config: Store, branch: string)
      ensures this.config == config && this.branch == branch && trace == []
    {
      this.config := config;
      this.branch := branch;
      trace := [];
    }

    /** Asks question on the terminal; the user's reply is reply. */
    method Ask(question: string, reply: string) returns (answer: string)
      modifies this`trace
      ensures answer == reply
      ensures trace == old(trace) + [Asked(question)]
    {
      answer := reply;
      trace := trace + [Asked(question)];
    }

    /** Shows a menu of labels under prompt. */
    method Offer(prompt: string, labels: seq<string>)
      modifies this`trace
      ensures trace == old(trace) + [Offered(prompt, labels)]
    {
      trace := trace + [Offered(prompt, labels)];
    }

    method SetConfig(key: string, value: string, scope: Scope)
      modifies this`config, this`trace
      ensures config == Set(old(config), key, value, scope)
      ensures trace == old(trace) + [Stored(scope, key, value)]
    {
      config := Set(config, key, value, scope);
      trace := trace + [Stored(scope, key, value)];
    }

    /** Util::Github.create_pull_request: one pull request whose head is the
        branch checked out. */
    method CreatePullRequest(client: Credentials, repoUrl: string, title: string, body: string)
      modifies this`trace
      ensures trace == old(trace) + [PullRequestOpened(client, repoUrl, branch, title, body)]
    {
      trace := trace + [PullRequestOpened(client, repoUrl, branch, title, body)];
    }
  }
}
