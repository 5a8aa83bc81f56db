# Configuration resolver and pull-request command of git-pivotal-tracker-integration

This project models two parts of the command-line helper that links git branches
to Pivotal Tracker stories.

- **The configuration resolver** (`Command::Configuration`). Each account-wide
  or repository-wide parameter is read from git configuration with an
  inherited lookup. The parameters are the Pivotal API token, the project id,
  the GitHub login, the GitHub password and the GitHub repository URL. For the
  token, the login, the password and the URL, when the lookup gives the empty
  string, the user is asked, and the stripped answer is written at the
  parameter's destination scope and returned. The project id is instead picked
  from a menu of the projects sorted by name, and the picked project's id is
  written at local scope. The story of the current branch is read and written
  at branch scope only.
- **The pull-request command** (`Command::PullRequest`). Building it resolves
  the GitHub login and then the password. As written, the login step raises
  NameError (see "## Findings"); the model builds the command on the corrected
  login resolution, which reads an assumed key `github.login`. `run` resolves the repository URL,
  finds the branch's story, asks for a title after a prefix naming the story,
  asks for a body, and opens exactly one pull request.

Modules:

- `GitConfig`: the scoped store, a map from (scope, key) to text. It has
  single-scope reads and writes and the inherited read.
- `RubyString`: the parts of Ruby the code relies on: `String#strip`,
  `Integer#to_s`, `String#to_i`, `String#<=>` as used by `sort_by`, and `=~`
  with a literal pattern.
- `Tracker`: projects and stories as given lists. It has the story lookup by id
  and the sort by name.
- `Effects`: the working copy as a class. It holds the git configuration map,
  the checked-out branch and a trace of effects: prompts, menus,
  configuration writes and pull requests.
- `Configuration`: the key constants, the resolution protocol on values
  (`Resolved`, `ResolutionTrace`), and the class `Configuration`. Its methods
  update the working copy in place and are proved against those functions.
- `PullRequest`: the flag test, the title prefix and the title, and the class
  `PullRequest` with its constructor, `Run`, and the title and body prompts.
- `Scenarios`: three client runs checked against the contracts alone:
  - in an empty working copy, resolving the token and the project id, then
    associating the branch with a story;
  - a first pull request, where the credentials and the URL are asked for;
  - a second pull request with `--no-complete`, where only the title and the
    body are asked for.

The inherited read is an ASSUMPTION of this model. `Util::Git` is not part of
this model. The read is taken to search the branch scope, then the
repository-local scope, then the global scope, and to return the first
non-empty value, or "" when there is none.

## Model

| member | source | states |
|---|---|---|
| GitConfig.Get | lib/git-pivotal-tracker-integration/command/configuration.rb:72 | get_config at one scope: the value stored at (scope, key), or "" when none is; SetThenGet, LocalWriteIsolation and StoryIdBranchOnly pin it down |
| GitConfig.Set | lib/git-pivotal-tracker-integration/command/configuration.rb:35 | set_config: SetThenGet shows it overwrites exactly one (scope, key) entry and leaves every other entry as it was |
| GitConfig.GetInherited | lib/git-pivotal-tracker-integration/command/configuration.rb:31 | get_config with :inherited: InheritedPrecedence gives its result for every combination of scopes, and InheritedAfterSet how it sees a write |
| GitConfig.InheritedPrecedence | lib/git-pivotal-tracker-integration/command/configuration.rb:31 | the inherited read returns the branch value if it is non-empty, else the local value if non-empty, else the global value; it is "" exactly when all three are "" (assumed order) |
| GitConfig.SetThenGet | lib/git-pivotal-tracker-integration/command/configuration.rb:35 | a write is read back at its own (scope, key), and every other (scope, key) entry reads as before |
| GitConfig.LocalWriteIsolation | lib/git-pivotal-tracker-integration/command/configuration.rb:60 | a repository-local write is invisible to a branch-only read, and visible to an inherited read when the branch scope is empty |
| GitConfig.InheritedAfterSet | lib/git-pivotal-tracker-integration/command/configuration.rb:31-35 | writing a non-empty value, at any scope, where the inherited read found nothing makes that read return the value |
| RubyString.LStrip | lib/git-pivotal-tracker-integration/command/configuration.rb:34 | the result is a suffix of the input, everything dropped is whitespace, and the result does not start with whitespace |
| RubyString.RStrip | lib/git-pivotal-tracker-integration/command/configuration.rb:34 | the result is a prefix of the input, everything dropped is whitespace, and the result does not end with whitespace |
| RubyString.Strip | lib/git-pivotal-tracker-integration/command/configuration.rb:34 | the stripped answer neither starts nor ends with whitespace |
| RubyString.StripCutsOnlySpace | lib/git-pivotal-tracker-integration/command/configuration.rb:34 | the input is whitespace, then the stripped answer, then whitespace: strip removes nothing else |
| RubyString.StripEmptyIff | lib/git-pivotal-tracker-integration/command/configuration.rb:34 | an answer strips to "" exactly when it is all whitespace |
| RubyString.StripIdempotent | lib/git-pivotal-tracker-integration/command/configuration.rb:34 | stripping a stripped answer changes nothing |
| RubyString.StripKeepsTrimmed | lib/git-pivotal-tracker-integration/command/configuration.rb:34 | text with no whitespace at either end is stored as typed |
| RubyString.Decimal | lib/git-pivotal-tracker-integration/command/configuration.rb:81 | the text written for an id is a non-empty run of digits, with a leading zero only for 0 |
| RubyString.DecimalValue | lib/git-pivotal-tracker-integration/command/configuration.rb:81 | the digits written for an id have that id as their value |
| RubyString.SkipLeadingSpace | lib/git-pivotal-tracker-integration/command/configuration.rb:73 | to_i starts reading at a suffix of the text that does not start with whitespace, and every character it skips is whitespace to_i ignores (NUL excluded) |
| RubyString.NumeralEnd | lib/git-pivotal-tracker-integration/command/configuration.rb:73 | to_i reads the longest leading numeral: digits with single underscores between digits; it is empty exactly when the text does not start with a digit, and it ends at the end of the text or at a character that is neither a digit nor an underscore followed by a digit |
| RubyString.DigitRun | lib/git-pivotal-tracker-integration/command/configuration.rb:73 | the digits to_i reads are digits only, no more than the text's length, and there are none exactly when the text does not start with a digit |
| RubyString.DigitRunIsNumeral | lib/git-pivotal-tracker-integration/command/configuration.rb:73 | the digits to_i reads are exactly the leading numeral of the text (see NumeralEnd) with its underscores removed |
| RubyString.DigitRunOfDigits | lib/git-pivotal-tracker-integration/command/configuration.rb:73 | a run of digits followed by nothing, or by a character that is neither a digit nor an underscore, is read in full and no further |
| RubyString.DecimalToI | lib/git-pivotal-tracker-integration/command/configuration.rb:72-81 | reading back with to_i the id that was written with to_s gives the id |
| RubyString.DecimalInjective | lib/git-pivotal-tracker-integration/command/configuration.rb:81 | different ids are written as different texts |
| RubyString.ToIWithoutNumeral | lib/git-pivotal-tracker-integration/command/configuration.rb:73 | a story id that, after leading whitespace and at most one sign, does not start with a digit (the unset id "" among them) reads as 0 |
| RubyString.ToILeadingNumeral | lib/git-pivotal-tracker-integration/command/configuration.rb:73 | a story id that is a positive id's decimal text, followed by anything that does not continue the numeral, reads as that id |
| RubyString.ToI | lib/git-pivotal-tracker-integration/command/configuration.rb:73 | String#to_i: DecimalToI, ToIWithoutNumeral, ToILeadingNumeral and DigitRunIsNumeral fix its value on the ids the code writes, on text without a numeral, and on a numeral followed by other text |
| RubyString.NameLeTotal | lib/git-pivotal-tracker-integration/command/configuration.rb:55 | any two project names are ordered one way or the other |
| RubyString.NameLeTransitive | lib/git-pivotal-tracker-integration/command/configuration.rb:55 | the name order is transitive |
| RubyString.NameLeAntisymmetric | lib/git-pivotal-tracker-integration/command/configuration.rb:55 | names ordered both ways are equal |
| RubyString.MatchIndex | lib/git-pivotal-tracker-integration/command/pull_request.rb:33 | the match is the first position where the pattern occurs, and there is none exactly when it occurs nowhere |
| Tracker.FindStory | lib/git-pivotal-tracker-integration/command/configuration.rb:73 | a found story is one of the project's stories and has the id; none is found exactly when no story has it |
| Tracker.InsertPermutes | lib/git-pivotal-tracker-integration/command/configuration.rb:55 | inserting a project into the menu adds it and keeps every other project |
| Tracker.InsertSorted | lib/git-pivotal-tracker-integration/command/configuration.rb:55 | inserting into a menu sorted by name keeps it sorted by name |
| Tracker.SortByName | lib/git-pivotal-tracker-integration/command/configuration.rb:55 | the menu holds the same projects, in ascending order of name |
| Configuration.LookupConstant | lib/git-pivotal-tracker-integration/command/configuration.rb:140-148 | a constant reference gives the value declared for that name, and a NameError exactly when no such constant is declared |
| Configuration.KeysDistinct | lib/git-pivotal-tracker-integration/command/configuration.rb:140-148 | the declared keys are pairwise distinct, and the key assumed for the login equals none of them |
| Configuration.GithubLoginConstantUndefined | lib/git-pivotal-tracker-integration/command/configuration.rb:92 | evaluating KEY_GITHUB_LOGIN raises NameError |
| Configuration.Resolved | lib/git-pivotal-tracker-integration/command/configuration.rb:30-40 | the protocol shared by api_token and the GitHub parameters: ResolvedWhenConfigured, ResolvedWhenUnset, ResolvedIdempotent and ResolvedBlankAsksAgain give its value and new store in each case |
| Configuration.ResolvedWhenConfigured | lib/git-pivotal-tracker-integration/command/configuration.rb:31-39 | a configured value is returned unchanged, with no prompt and no write |
| Configuration.ResolvedWhenUnset | lib/git-pivotal-tracker-integration/command/configuration.rb:33-39 | an unconfigured value is asked for; the stripped answer is returned and written at exactly (destination, key); every other entry is unchanged; the store gains only that entry |
| Configuration.ResolvedIdempotent | lib/git-pivotal-tracker-integration/command/configuration.rb:31-39 | once a non-empty value is obtained, the next resolution returns it with no prompt and no write, whatever the reply |
| Configuration.ResolvedBlankAsksAgain | lib/git-pivotal-tracker-integration/command/configuration.rb:33-35 | a blank answer is stored as "", so the next resolution asks again |
| Configuration.ProjectMenuAscending | lib/git-pivotal-tracker-integration/command/configuration.rb:55-56 | the menu lists every project once, labelled with its name, in ascending order of name |
| Configuration.MenuPick | lib/git-pivotal-tracker-integration/command/configuration.rb:52-58 | a pick inside the menu yields the id of a project whose name is the label at that position; a pick outside it yields nothing |
| Configuration.ProjectMenuScenario | lib/git-pivotal-tracker-integration/command/configuration.rb:55-56 | projects Beta (2) and Alpha (1) are offered as Alpha, Beta, and the first entry yields 1 |
| Configuration.ProjectIdResolved | lib/git-pivotal-tracker-integration/command/configuration.rb:48-65 | project_id on values: ProjectIdWhenChosen and ProjectIdWhenNothingChosen give its value and store when the id is unset, with MenuPick and ProjectMenuAscending for the menu |
| Configuration.ProjectIdWhenChosen | lib/git-pivotal-tracker-integration/command/configuration.rb:49-64 | with no project id configured and an entry picked, the picked project's id is written at local scope; nothing else changes; the next resolution returns it without a menu |
| Configuration.ProjectIdWhenNothingChosen | lib/git-pivotal-tracker-integration/command/configuration.rb:51-58 | with no project id configured and nothing picked, resolution fails after the menu and writes nothing |
| Configuration.StoryId | lib/git-pivotal-tracker-integration/command/configuration.rb:72-73 | the story id story reads: StoryIdBranchOnly and StoryIdAfterAssociate show it is read at branch scope only, reads as 0 when unset, and gives back what story= wrote |
| Configuration.StoryIdBranchOnly | lib/git-pivotal-tracker-integration/command/configuration.rb:72-73 | the story id is read at branch scope only: local or global writes do not affect it, and an unset id reads as 0 |
| Configuration.StoryIdAfterAssociate | lib/git-pivotal-tracker-integration/command/configuration.rb:72-81 | after story= the story id read back is that story's id |
| Configuration.StoryScenario | lib/git-pivotal-tracker-integration/command/configuration.rb:72-73 | branch story id "77" finds story 77, and finds nothing in a project without it |
| Configuration.Configuration.ResolveByPrompt | lib/git-pivotal-tracker-integration/command/configuration.rb:30-40 | the shared protocol: returns and stores exactly what Resolved gives, and appends exactly its prompt and write to the trace |
| Configuration.Configuration.ApiToken | lib/git-pivotal-tracker-integration/command/configuration.rb:30-40 | api_token: inherited read of pivotal.api-token; when unset, the stripped answer is written at global scope |
| Configuration.Configuration.ProjectId | lib/git-pivotal-tracker-integration/command/configuration.rb:48-65 | project_id: inherited read of pivotal.project-id; when unset, a menu of projects sorted by name, and the picked id is written at local scope; a failed pick writes nothing |
| Configuration.Configuration.Story | lib/git-pivotal-tracker-integration/command/configuration.rb:71-74 | story: the project's story whose id is the branch-scope id read with to_i, or none exactly when no story has that id |
| Configuration.Configuration.SetStory | lib/git-pivotal-tracker-integration/command/configuration.rb:80-82 | story=: the story's id is written at branch scope, overwriting any earlier value |
| Configuration.Configuration.ResolveNamed | lib/git-pivotal-tracker-integration/command/configuration.rb:91-101 | the key constant is evaluated first: an undefined constant fails with no read, prompt or write; otherwise the shared protocol runs with its value |
| Configuration.Configuration.GithubLoginAsWritten | lib/git-pivotal-tracker-integration/command/configuration.rb:91-101 | github_login as written fails with NameError for KEY_GITHUB_LOGIN, and leaves the store and the trace unchanged |
| Configuration.Configuration.GithubLogin | lib/git-pivotal-tracker-integration/command/configuration.rb:91-101 | github_login with the key defined: inherited read; when unset, the stripped answer is written at global scope |
| Configuration.Configuration.GithubPassword | lib/git-pivotal-tracker-integration/command/configuration.rb:109-119 | github_password: inherited read of github.password; when unset, the stripped answer is written at global scope |
| Configuration.Configuration.GithubRepoUrl | lib/git-pivotal-tracker-integration/command/configuration.rb:127-137 | github_repo_url: inherited read of github.repo_url; when unset, the stripped answer is written at local scope |
| Effects.Workspace.Ask | lib/git-pivotal-tracker-integration/command/configuration.rb:34 | a prompt returns the user's reply unchanged and is recorded once |
| Effects.Workspace.Offer | lib/git-pivotal-tracker-integration/command/configuration.rb:52-58 | the menu is recorded with its prompt and labels |
| Effects.Workspace.SetConfig | lib/git-pivotal-tracker-integration/command/configuration.rb:35 | set_config changes exactly one (scope, key) entry and is recorded |
| Effects.Workspace.CreatePullRequest | lib/git-pivotal-tracker-integration/command/pull_request.rb:34-38 | one pull request is recorded with the client, the URL, the checked-out branch as head, the title and the body |
| PullRequest.NoComplete | lib/git-pivotal-tracker-integration/command/pull_request.rb:33 | the flag test: NoCompleteIff shows it holds exactly when "--no-complete" occurs in the argument |
| PullRequest.NoCompleteIff | lib/git-pivotal-tracker-integration/command/pull_request.rb:33 | the flag is set exactly when "--no-complete" occurs somewhere in the argument |
| PullRequest.NoCompleteExamples | lib/git-pivotal-tracker-integration/command/pull_request.rb:33 | "--no-complete" and "--no-completely" set the flag; "--no-complet" and "" do not |
| PullRequest.TitlePrefix | lib/git-pivotal-tracker-integration/command/pull_request.rb:43 | the title prefix: TitlePrefixExamples and TitlePrefixDetermines give its text and show it is determined by, and determines, the id and the flag |
| PullRequest.TitlePrefixExamples | lib/git-pivotal-tracker-integration/command/pull_request.rb:43 | the prefix for story 123 is "[Completes #123]", or "[#123]" with the flag |
| PullRequest.TitlePrefixDetermines | lib/git-pivotal-tracker-integration/command/pull_request.rb:43 | two prefixes are equal only for the same story id and the same flag |
| PullRequest.PullRequestTitle | lib/git-pivotal-tracker-integration/command/pull_request.rb:43-44 | the title: PullRequestTitleSplits shows it is the prefix followed by exactly the typed text |
| PullRequest.PullRequestTitleSplits | lib/git-pivotal-tracker-integration/command/pull_request.rb:43-44 | the title is the prefix followed by exactly the typed text: nothing inserted and nothing trimmed |
| PullRequest.PullRequest.constructor | lib/git-pivotal-tracker-integration/command/pull_request.rb:25-30 | with the corrected login resolution (the assumed key `github.login`): the login is resolved, then the password, and the client is built from the two values; as written this step raises NameError |
| PullRequest.PullRequest.Run | lib/git-pivotal-tracker-integration/command/pull_request.rb:32-39 | the repository URL is resolved first; without a story for the branch's id the run fails before any title prompt; otherwise the title prompt, the body prompt and exactly one pull request follow, and the title prefix names the found story |
| PullRequest.PullRequest.PullRequestTitleFor | lib/git-pivotal-tracker-integration/command/pull_request.rb:42-47 | pull_request_title: the question shows the prefix, and the title is the prefix followed by the reply |
| PullRequest.PullRequest.PullRequestBody | lib/git-pivotal-tracker-integration/command/pull_request.rb:49-53 | pull_request_body: the body is the reply unchanged, after one prompt |
| Scenarios.TokenAskedFor | lib/git-pivotal-tracker-integration/command/configuration.rb:31-39 | with nothing configured, token "tok" is asked for and stored globally |
| Scenarios.ProjectPicked | lib/git-pivotal-tracker-integration/command/configuration.rb:49-64 | with only the token configured, the menu shows Alpha, Beta, and picking Alpha stores "1" locally |
| Scenarios.StoryOfBranch | lib/git-pivotal-tracker-integration/command/configuration.rb:72-73 | the configured branch reads story id 77, which finds the story "Fix bug" |
| Scenarios.PrefixesFor77 | lib/git-pivotal-tracker-integration/command/pull_request.rb:43 | the prefixes for story 77 are "[Completes #77]" and "[#77]" |
| Scenarios.TitlesFor77 | lib/git-pivotal-tracker-integration/command/pull_request.rb:43-44 | typed "Fix it" gives "[Completes #77]Fix it", and with the flag "Again" gives "[#77]Again" |
| Scenarios.CommandBuilt | lib/git-pivotal-tracker-integration/command/pull_request.rb:25-30 | building the command on a working copy without credentials asks for the login, stores it, then asks for the password and stores it, both globally |
| Scenarios.FirstRunTrace | lib/git-pivotal-tracker-integration/command/pull_request.rb:32-53 | the first run asks for the URL and stores it locally, then asks for the title and the body, then opens "[Completes #77]Fix it" from branch feature |
| Scenarios.SecondCommandBuilt | lib/git-pivotal-tracker-integration/command/pull_request.rb:25-30 | on a configured working copy building the command asks nothing and writes nothing |
| Scenarios.SecondRunTrace | lib/git-pivotal-tracker-integration/command/pull_request.rb:32-53 | with "--no-complete" on a configured working copy only the title and the body are asked for, and "[#77]Again" is opened |

## Left out

- Terminal I/O (HighLine `ask`, `choose`, `puts`): prompts take the user's reply as a parameter and are recorded in the trace; the blank lines printed after prompts are not modelled.
- HighLine's own handling of typed answers is not modelled: by default `ask` strips the answer at both ends, and it offers line editing. A reply parameter is the text `ask` returns. So the pull-request title and body are that already-stripped text, and the `strip` in the configuration resolver changes nothing on such a reply; the model still applies it, as the code does.
- Configuration.Configuration.ProjectId: the menu choice is an index given by the caller; an index outside the menu, which includes every index when there are no projects, is modelled as a failure that writes nothing, where HighLine would ask again.
- Configuration.Configuration.ProjectId: returns the decimal text of the chosen id, where Ruby returns the Integer on the prompt path; the stored value is the same text.
- `Util::Git.get_config` / `set_config` are not part of this model: the inherited search order is assumed, and the branch scope stands for the configuration section of the branch checked out.
- `PivotalTracker::Project.all` and `project.stories.find` are remote calls: they are given lists, and network failures are not modelled.
- `Util::Github.create_pull_request`, `Octokit::Repository.from_url` and the Octokit client are not part of this model: opening a pull request is one recorded event, and authentication or submission failures are not modelled.
- The `Base` superclass that supplies `@configuration` and `@project` is not part of this model: the configuration and the project are constructor parameters.
- PullRequest.PullRequest.Run: when no story has the branch's id, Ruby fails inside the tracker library or on `nil.id`; the model returns `StoryNotFound` at that same point, after the URL resolution and before any title prompt.
- PullRequest.PullRequest.Run: a nil argument is not modelled; the argument is a string. In Ruby `nil =~ /--no-complete/` gives nil, so a nil argument behaves like "" (no flag).
- PullRequest.PullRequest.constructor: as written, construction raises NameError (pull_request.rb:28 calls `github_login`, whose body refers to the undefined KEY_GITHUB_LOGIN at configuration.rb:92); the model builds on the corrected `Configuration.Configuration.GithubLogin`, which reads the assumed key `Configuration.ASSUMED_GITHUB_LOGIN_KEY`.
- The recorded pull request has the checked-out branch as its head, as the comment on `Util::Github.create_pull_request` intends; the call itself passes the branch in Octokit's base position and the title in the head position, and that argument order is not modelled.
- Tracker.SortByName: `sort_by` is not stable in Ruby; the model inserts equal names in a fixed order, so only the order of names is promised, not the order among equal names.
- Story and project ids are non-negative integers; Ruby integers of any sign are not modelled.
- RubyString.Strip: uses the whitespace set of current Ruby versions, which includes NUL at both ends; older versions only strip NUL at the end.

## Findings

| source | as written | input that shows it | evidently intended | confidence | as-written member | corrected member |
|---|---|---|---|---|---|---|
| lib/git-pivotal-tracker-integration/command/configuration.rb:92 | `github_login` reads `KEY_GITHUB_LOGIN`, but the class defines only the five keys at lines 140-148, so the reference raises NameError (see `Configuration.GithubLoginConstantUndefined`); building the pull-request command therefore always fails | any call of `github_login`, for example constructing `Command::PullRequest` | a login key read with an inherited lookup and stored globally like the password; the model assumes the key `github.login` | high; not executed | Configuration.Configuration.GithubLoginAsWritten | Configuration.Configuration.GithubLogin |
