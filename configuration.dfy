/**
 * The configuration resolver of the command-line helper (class
 * Command::Configuration). Each account-wide or repository-wide parameter is
 * read with an inherited lookup; when that finds nothing the user is asked,
 * and the answer is written to the parameter's one destination scope and
 * returned. The story id of the branch is read and written at branch scope
 * only.
 */
module Configuration {
  import opened Wrappers
  import opened RubyString
  import opened GitConfig
  import opened Effects
  import Tracker

  // ---------------------------------------------------------------------------
  // Keys

  const KEY_API_TOKEN: string := "pivotal.api-token"
  const KEY_PROJECT_ID: string := "pivotal.project-id"
  const KEY_STORY_ID: string := "pivotal-story-id"
  const KEY_GITHUB_PASSWORD: string := "github.password"
  const KEY_GITHUB_REPO_URL: string := "github.repo_url"
  /** The key the corrected github_login reads. The class defines no
      KEY_GITHUB_LOGIN (see ConstantValue); this value is an assumption of the
      model, named like the password key. */
  const ASSUMED_GITHUB_LOGIN_KEY: string := "github.login"

  /** The key constants the class defines, by name, in declaration order. */
  const DefinedConstants: seq<(string, string)> := [
    ("KEY_API_TOKEN", KEY_API_TOKEN),
    ("KEY_PROJECT_ID", KEY_PROJECT_ID),
    ("KEY_STORY_ID", KEY_STORY_ID),
    ("KEY_GITHUB_PASSWORD", KEY_GITHUB_PASSWORD),
    ("KEY_GITHUB_REPO_URL", KEY_GITHUB_REPO_URL)
  ]

  datatype ConfigError =
    | NameError(constant: string)   // reference to an undefined constant
    | NoProjectChosen               // the project menu offered nothing to pick
    | StoryNotFound(id: int)        // no story of the project has the branch's story id

  /** Ruby's evaluation of a reference to a constant in a table of defined
      constants: its value, or a NameError when the table lacks it. */
  function LookupConstant(table: seq<(string, string)>, name: string): (r: Result<string, ConfigError>)
    ensures r.Ok? <==> exists i :: 0 <= i < |table| && table[i].0 == name
    ensures r.Ok? ==> exists i :: 0 <= i < |table| && table[i] == (name, r.value)
    ensures r.Err? ==> r.error == NameError(name)
  {
    if table == [] then Err(NameError(name))
    else if table[0].0 == name then Ok(table[0].1)
    else
      var r := LookupConstant(table[1..], name);
      assert forall i :: 1 <= i < |table| ==> table[i] == table[1..][i - 1];
      r
  }

  /** A reference to a key constant of the class. */
  function ConstantValue(name: string): Result<string, ConfigError> {
    LookupConstant(DefinedConstants, name)
  }

  /** The defined keys are pairwise distinct, so no two parameters share a
      configuration entry, and the key assumed for the GitHub login clashes
      with none of them. */
  lemma KeysDistinct()
    ensures forall i, j :: 0 <= i < j < |DefinedConstants| ==> DefinedConstants[i].1 != DefinedConstants[j].1
    ensures forall i :: 0 <= i < |DefinedConstants| ==> DefinedConstants[i].1 != ASSUMED_GITHUB_LOGIN_KEY
  {
  }

  /** KEY_GITHUB_LOGIN is referenced by github_login but is not among the
      defined constants: evaluating it raises NameError. */
  lemma GithubLoginConstantUndefined()
    ensures ConstantValue("KEY_GITHUB_LOGIN") == Err(NameError("KEY_GITHUB_LOGIN"))
  {
  }

  // ---------------------------------------------------------------------------
  // Prompts

  const API_TOKEN_QUESTION: string := "Pivotal API Token (found at https://www.pivotaltracker.com/profile): "
  const PROJECT_PROMPT: string := "Choose project associated with this repository: "
  const GITHUB_LOGIN_QUESTION: string := "Github login: "
  const GITHUB_PASSWORD_QUESTION: string := "Github password: "
  const GITHUB_REPO_URL_QUESTION: string := "Github repo url: "

  // ---------------------------------------------------------------------------
  // The resolution protocol, on values

  /** Outcome of resolving one parameter: the value returned, the store
      afterwards, and whether the user was asked. */
  datatype Resolution = Resolution(value: string, store: Store, prompted: bool)

  /** Inherited read; when it gives "", the stripped reply, written at dest. */
  function Resolved(store: Store, key: string, dest: Scope, reply: string): Resolution {
    var found := GetInherited(store, key);
    if found != "" then Resolution(found, store, false)
    else
      var value := Strip(reply);
      Resolution(value, Set(store, key, value, dest), true)
  }

  /** The effects of a resolution on the trace: a prompt and a write, or none. */
  function ResolutionTrace(r: Resolution, question: string, key: string, dest: Scope): seq<Event> {
    if r.prompted then [Asked(question), Stored(dest, key, r.value)] else []
  }

  /** A configured value is returned unchanged, with no prompt and no write. */
  lemma ResolvedWhenConfigured(store: Store, key: string, dest: Scope, reply: string)
    requires GetInherited(store, key) != ""
    ensures var r := Resolved(store, key, dest, reply);
      r.value == GetInherited(store, key) && r.store == store && !r.prompted
  {
  }

  /** An unconfigured value is asked for; the stripped answer is returned and
      written to exactly (dest, key), and every other entry stays as it was. */
  lemma ResolvedWhenUnset(store: Store, key: string, dest: Scope, reply: string)
    requires GetInherited(store, key) == ""
    ensures var r := Resolved(store, key, dest, reply);
      && r.prompted
      && r.value == Strip(reply)
      && Get(r.store, key, dest) == r.value
      && (forall s, k :: (s, k) != (dest, key) ==> Get(r.store, k, s) == Get(store, k, s))
      && r.store.Keys == store.Keys + {(dest, key)}
  {
    var value := Strip(reply);
    var after := Set(store, key, value, dest);
    assert Resolved(store, key, dest, reply) == Resolution(value, after, true);
    SetThenGet(store, key, value, dest);
    assert after.Keys == store.Keys + {(dest, key)};
  }

  /** Once a non-empty value has been obtained, resolving again returns it
      with no prompt and no write, whatever the user would reply. */
  lemma {:induction false} ResolvedIdempotent(store: Store, key: string, dest: Scope, reply: string, reply2: string)
    requires Resolved(store, key, dest, reply).value != ""
    ensures var r := Resolved(store, key, dest, reply);
      Resolved(r.store, key, dest, reply2) == Resolution(r.value, r.store, false)
  {
    var r := Resolved(store, key, dest, reply);
    if GetInherited(store, key) == "" {
      InheritedAfterSet(store, key, r.value, dest);
    }
  }

  /** A blank answer is stored as "", so the next resolution asks again. */
  lemma {:induction false} ResolvedBlankAsksAgain(store: Store, key: string, dest: Scope, reply: string, reply2: string)
    requires GetInherited(store, key) == "" && AllStripSpace(reply)
    ensures var r := Resolved(store, key, dest, reply);
      r.value == "" && Get(r.store, key, dest) == "" && Resolved(r.store, key, dest, reply2).prompted
  {
    StripEmptyIff(reply);
    var after := Set(store, key, "", dest);
    InheritedPrecedence(store, key);
    SetThenGet(store, key, "", dest);
    assert Get(after, key, Branch) == "" && Get(after, key, Local) == "" && Get(after, key, Global) == "";
    InheritedPrecedence(after, key);
  }

  // ---------------------------------------------------------------------------
  // The project menu

  function MenuLabels(menu: seq<Tracker.Project>): seq<string> {
    seq(|menu|, i requires 0 <= i < |menu| => menu[i].name)
  }

  /** The menu lists every project once, labelled with its name, in
      ascending order of name. */
  lemma ProjectMenuAscending(projects: seq<Tracker.Project>)
    ensures var menu := Tracker.SortByName(projects);
      && multiset(menu) == multiset(projects)
      && |MenuLabels(menu)| == |projects|
      && forall i, j :: 0 <= i < j < |projects| ==> NameLe(MenuLabels(menu)[i], MenuLabels(menu)[j])
  {
    var menu := Tracker.SortByName(projects);
    assert |menu| == |multiset(menu)| == |projects|;
  }

  /** The id the menu yields for the entry at position pick: the id of a
      project whose name is the label shown there. */
  function MenuPick(projects: seq<Tracker.Project>, pick: nat): (r: Option<nat>)
    ensures r.Some? <==> pick < |projects|
    ensures r.Some? ==> exists p :: p in projects && p.id == r.value && p.name == MenuLabels(Tracker.SortByName(projects))[pick]
  {
    var menu := Tracker.SortByName(projects);
    assert |menu| == |multiset(menu)| == |projects|;
    if pick < |menu| then
      assert menu[pick] in multiset(projects);
      Some(menu[pick].id)
    else None
  }

  /** Projects Beta (id 2) and Alpha (id 1) are offered as Alpha, Beta, and
      the first entry yields id 1. */
  lemma ProjectMenuScenario(betaStories: seq<Tracker.Story>, alphaStories: seq<Tracker.Story>)
    ensures var projects := [Tracker.Project(2, "Beta", betaStories), Tracker.Project(1, "Alpha", alphaStories)];
      MenuLabels(Tracker.SortByName(projects)) == ["Alpha", "Beta"] && MenuPick(projects, 0) == Some(1)
  {
    var beta, alpha := Tracker.Project(2, "Beta", betaStories), Tracker.Project(1, "Alpha", alphaStories);
    assert !NameLe(beta.name, alpha.name);
    assert Tracker.SortByName([alpha]) == [alpha];
    assert Tracker.SortByName([beta, alpha]) == Tracker.InsertByName(beta, [alpha]) == [alpha, beta];
  }

  /** Inherited read of the project id; when unset, the id of the picked
      project, written at local scope as its decimal text. */
  function ProjectIdResolved(store: Store, projects: seq<Tracker.Project>, pick: nat): Result<Resolution, ConfigError> {
    var found := GetInherited(store, KEY_PROJECT_ID);
    if found != "" then Ok(Resolution(found, store, false))
    else
      match MenuPick(projects, pick)
      case None => Err(NoProjectChosen)
      case Some(id) => Ok(Resolution(Decimal(id), Set(store, KEY_PROJECT_ID, Decimal(id), Local), true))
  }

  function ProjectIdTrace(store: Store, projects: seq<Tracker.Project>, pick: nat): seq<Event> {
    if GetInherited(store, KEY_PROJECT_ID) != "" then []
    else
      [Offered(PROJECT_PROMPT, MenuLabels(Tracker.SortByName(projects)))] +
      match ProjectIdResolved(store, projects, pick)
      case Ok(r) => [Stored(Local, KEY_PROJECT_ID, r.value)]
      case Err(_) => []
  }

  /** When the project id is unset and an entry is picked, the id of the
      project shown there is written at local scope, never global, nothing
      else changes, and the next resolution finds it without a menu. */
  lemma {:induction false} ProjectIdWhenChosen(store: Store, projects: seq<Tracker.Project>, pick: nat,
                                               projects2: seq<Tracker.Project>, pick2: nat)
    requires GetInherited(store, KEY_PROJECT_ID) == "" && pick < |projects|
    ensures var r := ProjectIdResolved(store, projects, pick);
      && r.Ok? && r.value.prompted
      && (exists p :: p in projects && ToI(r.value.value) == p.id && p.name == MenuLabels(Tracker.SortByName(projects))[pick])
      && Get(r.value.store, KEY_PROJECT_ID, Local) == r.value.value
      && (forall s, k :: (s, k) != (Local, KEY_PROJECT_ID) ==> Get(r.value.store, k, s) == Get(store, k, s))
      && ProjectIdResolved(r.value.store, projects2, pick2) == Ok(Resolution(r.value.value, r.value.store, false))
  {
    var id := MenuPick(projects, pick).value;
    var value := Decimal(id);
    var after := Set(store, KEY_PROJECT_ID, value, Local);
    assert ProjectIdResolved(store, projects, pick) == Ok(Resolution(value, after, true));
    DecimalToI(id);
    SetThenGet(store, KEY_PROJECT_ID, value, Local);
    InheritedAfterSet(store, KEY_PROJECT_ID, value, Local);
    assert ProjectIdResolved(after, projects2, pick2) == Ok(Resolution(value, after, false));
  }

  /** With nothing configured and no entry picked (always so when there are
      no projects), resolution fails and writes nothing. */
  lemma ProjectIdWhenNothingChosen(store: Store, projects: seq<Tracker.Project>, pick: nat)
    requires GetInherited(store, KEY_PROJECT_ID) == "" && pick >= |projects|
    ensures ProjectIdResolved(store, projects, pick) == Err(NoProjectChosen)
    ensures ProjectIdTrace(store, projects, pick) == [Offered(PROJECT_PROMPT, MenuLabels(Tracker.SortByName(projects)))]
  {
  }

  // ---------------------------------------------------------------------------
  // The story of the branch

  /** The branch's story id as `story` reads it: the branch-scope entry only,
      through String#to_i. */
  function StoryId(store: Store): int {
    ToI(Get(store, KEY_STORY_ID, Branch))
  }

  /** The story id is read at branch scope alone: values at the local or
      global scope never affect it, and an unset id reads as 0. */
  lemma StoryIdBranchOnly(store: Store, scope: Scope, value: string)
    requires scope != Branch
    ensures StoryId(Set(store, KEY_STORY_ID, value, scope)) == StoryId(store)
    ensures (Branch, KEY_STORY_ID) !in store ==> StoryId(store) == 0
  {
    assert Get(Set(store, KEY_STORY_ID, value, scope), KEY_STORY_ID, Branch) == Get(store, KEY_STORY_ID, Branch);
    if (Branch, KEY_STORY_ID) !in store {
      ToIWithoutNumeral("");
    }
  }

  /** What `story=` writes, `story` reads back: the id of the story. */
  lemma {:induction false} StoryIdAfterAssociate(store: Store, story: Tracker.Story)
    ensures StoryId(Set(store, KEY_STORY_ID, Decimal(story.id), Branch)) == story.id
  {
    DecimalToI(story.id);
  }

  /** Story id "77" at branch scope finds story 77 of the project, and no
      story when the project has none with that id. */
  lemma StoryScenario(store: Store)
    requires Get(store, KEY_STORY_ID, Branch) == "77"
    ensures Tracker.FindStory([Tracker.Story(77, "Fix bug")], StoryId(store)) == Some(Tracker.Story(77, "Fix bug"))
    ensures Tracker.FindStory([Tracker.Story(78, "Other")], StoryId(store)).None?
  {
    assert StoryId(store) == 77 by {
      assert Decimal(77) == "77" by {
        assert Decimal(7) == "7";
      }
      DecimalToI(77);
    }
    var fix, other := Tracker.Story(77, "Fix bug"), Tracker.Story(78, "Other");
    assert Tracker.FindStory([fix], 77) == Some(fix);
    assert Tracker.FindStory([other], 77) == Tracker.FindStory([], 77);
  }

  // ---------------------------------------------------------------------------
  // The resolver object

  class Configuration {
    const workspace: Workspace

    constructor (workspace: Workspace)
      ensures this.workspace == workspace
    {
      this.workspace := workspace;
    }

    /** The protocol shared by api_token, github_login, github_password and
        github_repo_url. */
    method ResolveByPrompt(key: string, question: string, dest: Scope, reply: string) returns (value: string)
      modifies workspace`config, workspace`trace
      ensures var r := Resolved(old(workspace.config), key, dest, reply);
        && value == r.value
        && workspace.config == r.store
        && workspace.trace == old(workspace.trace) + ResolutionTrace(r, question, key, dest)
    {
      value := GetInherited(workspace.config, key);
      if value == "" {
        var answer := workspace.Ask(question, reply);
        value := Strip(answer);
        workspace.SetConfig(key, value, dest);
      }
    }

    /** api_token: the Pivotal Tracker token, stored globally when asked for. */
    method ApiToken(reply: string) returns (token: string)
      modifies workspace`config, workspace`trace
      ensures var r := Resolved(old(workspace.config), KEY_API_TOKEN, Global, reply);
        && token == r.value
        && workspace.config == r.store
        && workspace.trace == old(workspace.trace) + ResolutionTrace(r, API_TOKEN_QUESTION, KEY_API_TOKEN, Global)
    {
      token := ResolveByPrompt(KEY_API_TOKEN, API_TOKEN_QUESTION, Global, reply);
    }

    /** project_id: the repository's project, stored locally when picked from
        the menu of projects sorted by name. */
    method ProjectId(projects: seq<Tracker.Project>, pick: nat) returns (r: Result<string, ConfigError>)
      modifies workspace`config, workspace`trace
      ensures var res := ProjectIdResolved(old(workspace.config), projects, pick);
        && (res.Ok? ==> r == Ok(res.value.value) && workspace.config == res.value.store)
        && (res.Err? ==> r == Err(res.error) && workspace.config == old(workspace.config))
        && workspace.trace == old(workspace.trace) + ProjectIdTrace(old(workspace.config), projects, pick)
    {
      var found := GetInherited(workspace.config, KEY_PROJECT_ID);
      if found != "" {
        return Ok(found);
      }
      var menu := Tracker.SortByName(projects);
      workspace.Offer(PROJECT_PROMPT, MenuLabels(menu));
      var chosen := MenuPick(projects, pick);
      if chosen.None? {
        return Err(NoProjectChosen);
      }
      var id := Decimal(chosen.value);
      workspace.SetConfig(KEY_PROJECT_ID, id, Local);
      r := Ok(id);
    }

    /** story: the story of the project whose id is the branch's story id. */
    function Story(project: Tracker.Project): (r: Option<Tracker.Story>)
      reads workspace
      ensures r.Some? ==> r.value in project.stories && r.value.id == StoryId(workspace.config)
      ensures r.None? <==> forall i :: 0 <= i < |project.stories| ==> project.stories[i].id != StoryId(workspace.config)
    {
      Tracker.FindStory(project.stories, StoryId(workspace.config))
    }

    /** story=: associates the story with the branch, overwriting any id
        stored there before. */
    method SetStory(story: Tracker.Story)
      modifies workspace`config, workspace`trace
      ensures workspace.config == Set(old(workspace.config), KEY_STORY_ID, Decimal(story.id), Branch)
      ensures workspace.trace == old(workspace.trace) + [Stored(Branch, KEY_STORY_ID, Decimal(story.id))]
    {
      workspace.SetConfig(KEY_STORY_ID, Decimal(story.id), Branch);
    }

    /** Resolution of the key that the constant named name holds, evaluating
        the constant first as Ruby does. */
    method ResolveNamed(name: string, question: string, dest: Scope, reply: string) returns (r: Result<string, ConfigError>)
      modifies workspace`config, workspace`trace
      ensures ConstantValue(name).Err? ==>
        r == Err(ConstantValue(name).error) && workspace.config == old(workspace.config) && workspace.trace == old(workspace.trace)
      ensures ConstantValue(name).Ok? ==>
        var res := Resolved(old(workspace.config), ConstantValue(name).value, dest, reply);
        && r == Ok(res.value)
        && workspace.config == res.store
        && workspace.trace == old(workspace.trace) + ResolutionTrace(res, question, ConstantValue(name).value, dest)
    {
      var key := ConstantValue(name);
      if key.Err? {
        return Err(key.error);
      }
      var value := ResolveByPrompt(key.value, question, dest, reply);
      r := Ok(value);
    }

    /** github_login as written: the reference to KEY_GITHUB_LOGIN raises
        NameError before anything is read, asked or written. */
    method GithubLoginAsWritten(reply: string) returns (r: Result<string, ConfigError>)
      modifies workspace`config, workspace`trace
      ensures r == Err(NameError("KEY_GITHUB_LOGIN"))
      ensures workspace.config == old(workspace.config) && workspace.trace == old(workspace.trace)
    {
      GithubLoginConstantUndefined();
      r := ResolveNamed("KEY_GITHUB_LOGIN", GITHUB_LOGIN_QUESTION, Global, reply);
    }

    /** github_login with the key defined: stored globally when asked for. */
    method GithubLogin(reply: string) returns (login: string)
      modifies workspace`config, workspace`trace
      ensures var r := Resolved(old(workspace.config), ASSUMED_GITHUB_LOGIN_KEY, Global, reply);
        && login == r.value
        && workspace.config == r.store
        && workspace.trace == old(workspace.trace) + ResolutionTrace(r, GITHUB_LOGIN_QUESTION, ASSUMED_GITHUB_LOGIN_KEY, Global)
    {
      login := ResolveByPrompt(ASSUMED_GITHUB_LOGIN_KEY, GITHUB_LOGIN_QUESTION, Global, reply);
    }

    /** github_password: stored globally when asked for. */
    method GithubPassword(reply: string) returns (password: string)
      modifies workspace`config, workspace`trace
      ensures var r := Resolved(old(workspace.config), KEY_GITHUB_PASSWORD, Global, reply);
        && password == r.value
        && workspace.config == r.store
        && workspace.trace == old(workspace.trace) + ResolutionTrace(r, GITHUB_PASSWORD_QUESTION, KEY_GITHUB_PASSWORD, Global)
    {
      password := ResolveByPrompt(KEY_GITHUB_PASSWORD, GITHUB_PASSWORD_QUESTION, Global, reply);
    }

    /** github_repo_url: stored locally when asked for. */
    method GithubRepoUrl(reply: string) returns (url: string)
      modifies workspace`config, workspace`trace
      ensures var r := Resolved(old(workspace.config), KEY_GITHUB_REPO_URL, Local, reply);
        && url == r.value
        && workspace.config == r.store
        && workspace.trace == old(workspace.trace) + ResolutionTrace(r, GITHUB_REPO_URL_QUESTION, KEY_GITHUB_REPO_URL, Local)
    {
      url := ResolveByPrompt(KEY_GITHUB_REPO_URL, GITHUB_REPO_URL_QUESTION, Local, reply);
    }
  }
}
