/**
 * The project's git working copy as the back end drives it through the `git` executable
 * (src-tauri/src/commands/simple_git.rs). The repository is a class whose fields are the state the
 * commands read and change; every process the back end spawns is appended to `log`, so the order
 * of side effects can be stated. Three environment constants decide how commands fail:
 * `canSpawn` (the executable starts at all), `writable` (commands that write exit with 0) and
 * `stashWorks` (`stash save -u` exits with 0). The working copy's changes are two flags, because
 * `reset --hard` discards changes to tracked files and leaves untracked ones.
 */
module SimpleGit {
  import opened Base
  import opened Text

  datatype GitCommand =
    | Init
    | ConfigName
    | ConfigEmail
    | InitialCommit
    | RevParseHead
    | ResetHard(target: string)
    | Status
    | StashSave(message: string)
    | CommitChanges(message: string)

  predicate IsHexDigit(c: char) {
    '0' <= c <= '9' || 'a' <= c <= 'f'
  }

  /** What `git rev-parse HEAD` prints before its newline: a non-empty run of hex digits. */
  predicate IsCommitId(c: string) {
    |c| > 0 && forall i :: 0 <= i < |c| ==> IsHexDigit(c[i])
  }

  /** The id the model gives the `n`-th commit it creates (git would print a hash). */
  function NewCommitId(n: nat): (c: string)
    ensures IsCommitId(c)
  {
    NatToString(n)
  }

  lemma HexIsNotSpace(c: char)
    requires IsHexDigit(c)
    ensures !IsRustSpace(c)
  {
  }

  /** Trimming the output of `rev-parse` gives back the commit id. */
  lemma TrimRevParseOutput(c: string)
    requires IsCommitId(c)
    ensures RustTrim(c + "\n") == c
  {
    var s := c + "\n";
    HexIsNotSpace(c[0]);
    HexIsNotSpace(c[|c| - 1]);
    assert s[0] == c[0] && s[|s| - 1] == '\n' && s[..|s| - 1] == c;
    assert TrimStart(s, IsRustSpace) == s;
    assert TrimEnd(c, IsRustSpace) == c;
    assert TrimEnd(s, IsRustSpace) == TrimEnd(c, IsRustSpace);
  }

  class Repo {
    /** The `git` executable can be started. */
    const canSpawn: bool
    /** `init`, `commit` and `reset --hard` exit with 0 (given a repository and a known target). */
    const writable: bool
    /** `stash save -u` exits with 0; its failure is only logged, so it is independent of the above. */
    const stashWorks: bool
    /** `.git` exists in the project directory. */
    var hasGitDir: bool
    /** The commit HEAD resolves to; None before the first commit. */
    var head: Option<string>
    /** The commits `reset --hard` can move to. */
    var commits: set<string>
    /** Tracked files differ from HEAD. */
    var modified: bool
    /** Files git does not track are present. */
    var untracked: bool
    /** Stash entries, newest first. */
    var stash: seq<string>
    /** Commits created through the model so far; names the next one. */
    var created: nat
    /** The git processes spawned so far, oldest first. */
    var log: seq<GitCommand>

    ghost predicate Valid()
      reads this
    {
      (head.Some? ==> hasGitDir && head.value in commits)
      && (forall c :: c in commits ==> IsCommitId(c))
    }

    constructor (canSpawn: bool, writable: bool, stashWorks: bool, hasGitDir: bool, head: Option<string>,
                 commits: set<string>, modified: bool, untracked: bool)
      requires head.Some? ==> hasGitDir && head.value in commits
      requires forall c :: c in commits ==> IsCommitId(c)
      ensures Valid()
      ensures this.canSpawn == canSpawn && this.writable == writable && this.stashWorks == stashWorks
      ensures this.hasGitDir == hasGitDir && this.head == head && this.commits == commits
      ensures this.modified == modified && this.untracked == untracked && stash == [] && log == []
    {
      this.canSpawn := canSpawn;
      this.writable := writable;
      this.stashWorks := stashWorks;
      this.hasGitDir := hasGitDir;
      this.head := head;
      this.commits := commits;
      this.modified := modified;
      this.untracked := untracked;
      stash := [];
      created := 0;
      log := [];
    }

    /** `status --porcelain` prints something: a repository with modified or untracked files. */
    predicate HasChanges()
      reads this
    {
      hasGitDir && (modified || untracked)
    }

    /** `reset --hard target` would exit with 0. */
    predicate CanReset(target: string)
      reads this
    {
      canSpawn && writable && hasGitDir && target in commits
    }

    /** `is_git_repo`: `.git` exists. */
    predicate IsGitRepo()
      reads this
    {
      hasGitDir
    }

    /** `git rev-parse HEAD` would succeed. */
    predicate HeadResolves()
      reads this
    {
      canSpawn && head.Some?
    }

    /** `git_current_commit`: runs `rev-parse HEAD` and returns its trimmed output. */
    method CurrentCommit() returns (r: Result<string, string>)
      requires Valid()
      modifies this`log
      ensures log == old(log) + [RevParseHead]
      ensures r.Ok? <==> HeadResolves()
      ensures r.Ok? ==> r.value == head.value && IsCommitId(r.value)
    {
      log := log + [RevParseHead];
      if !canSpawn {
        return Err("Failed to get current commit");
      }
      if head.None? {
        return Err("Git rev-parse failed");
      }
      var stdout := head.value + "\n";
      TrimRevParseOutput(head.value);
      r := Ok(RustTrim(stdout));
    }

    /** Makes a new commit on top of HEAD and moves HEAD to it. */
    method MakeCommit()
      requires Valid() && hasGitDir
      modifies this`head, this`commits, this`created
      ensures Valid()
      ensures head == Some(NewCommitId(old(created))) && created == old(created) + 1
      ensures commits == old(commits) + {NewCommitId(old(created))}
    {
      var id := NewCommitId(created);
      head := Some(id);
      commits := commits + {id};
      created := created + 1;
    }

    /**
     * `ensure_git_repo`: nothing but the HEAD probe when HEAD already resolves; otherwise `init`
     * when `.git` is missing (whose failure ends the call), the two identity settings (whose
     * results are ignored), then an empty initial commit (whose failure is an error).
     */
    method EnsureGitRepo() returns (r: Result<(), string>)
      requires Valid()
      modifies this
      ensures Valid()
      ensures stash == old(stash) && modified == old(modified) && untracked == old(untracked)
      ensures old(hasGitDir && HeadResolves()) ==>
        r.Ok? && log == old(log) + [RevParseHead] && head == old(head) && commits == old(commits)
        && hasGitDir
      ensures !old(hasGitDir) ==> |log| > |old(log)| && log[|old(log)|] == Init
      ensures !old(hasGitDir) && !(canSpawn && writable) ==>
        r.Err? && log == old(log) + [Init] && !hasGitDir && head == old(head)
      ensures old(hasGitDir) && !old(HeadResolves()) ==>
        log == old(log) + [RevParseHead, ConfigName, ConfigEmail, InitialCommit]
      ensures r.Ok? <==> old(hasGitDir && HeadResolves()) || (canSpawn && writable)
      ensures r.Ok? ==> hasGitDir && HeadResolves()
    {
      var hasCommits := false;
      if hasGitDir {
        var probe := CurrentCommit();
        hasCommits := probe.Ok?;
      }
      if hasCommits {
        return Ok(());
      }
      if !hasGitDir {
        log := log + [Init];
        if !canSpawn {
          return Err("Failed to init git");
        }
        if !writable {
          return Err("Git init failed");
        }
        hasGitDir := true;
      }
      log := log + [ConfigName, ConfigEmail];
      log := log + [InitialCommit];
      if !canSpawn {
        return Err("Failed to create initial commit");
      }
      if !writable {
        return Err("Failed to create initial commit");
      }
      MakeCommit();
      r := Ok(());
    }

    /**
     * `git_reset_hard`: moves HEAD to `target` and discards the changes to tracked files; untracked
     * files are left where they are.
     */
    method ResetHardTo(target: string) returns (r: Result<(), string>)
      requires Valid()
      modifies this
      ensures Valid()
      ensures log == old(log) + [ResetHard(target)]
      ensures r.Ok? <==> old(CanReset(target))
      ensures r.Ok? ==> head == Some(target) && !modified
      ensures r.Err? ==> head == old(head) && modified == old(modified)
      ensures untracked == old(untracked)
      ensures hasGitDir == old(hasGitDir) && commits == old(commits) && stash == old(stash)
      ensures created == old(created)
    {
      log := log + [ResetHard(target)];
      if !canSpawn {
        return Err("Failed to reset");
      }
      if !(writable && hasGitDir && target in commits) {
        return Err("Git reset failed");
      }
      head := Some(target);
      modified := false;
      r := Ok(());
    }

    /**
     * `git_stash_save`: asks `status --porcelain` first and stops when it prints nothing; otherwise
     * runs `stash save -u`, which takes tracked and untracked changes, and whose non-zero exit is
     * only logged.
     */
    method StashSaveChanges(message: string) returns (r: Result<(), string>)
      requires Valid()
      modifies this
      ensures Valid()
      ensures r.Err? <==> !canSpawn
      ensures !canSpawn || !old(HasChanges()) ==> log == old(log) + [Status]
      ensures canSpawn && old(HasChanges()) ==> log == old(log) + [Status, StashSave(message)]
      ensures canSpawn && old(HasChanges()) && stashWorks ==>
        stash == [message] + old(stash) && !modified && !untracked
      ensures !(canSpawn && old(HasChanges()) && stashWorks) ==>
        stash == old(stash) && modified == old(modified) && untracked == old(untracked)
      ensures hasGitDir == old(hasGitDir) && head == old(head) && commits == old(commits)
      ensures created == old(created)
    {
      log := log + [Status];
      if !canSpawn {
        return Err("Failed to check status");
      }
      var porcelainEmpty := !HasChanges();
      if porcelainEmpty {
        return Ok(());
      }
      log := log + [StashSave(message)];
      if stashWorks {
        stash := [message] + stash;
        modified, untracked := false, false;
      }
      r := Ok(());
    }

    /**
     * The auto-commit the tracker asks for after a prompt completes: commits every pending change,
     * untracked files included, and reports whether a commit was made. Its implementation is not
     * part of this model; this is the effect the tracker relies on.
     */
    method CommitChangesNow(message: string) returns (r: Result<bool, string>)
      requires Valid()
      modifies this
      ensures Valid()
      ensures log == old(log) + [CommitChanges(message)]
      ensures r == Ok(true) <==> canSpawn && writable && old(HasChanges())
      ensures r == Ok(true) ==> head == Some(NewCommitId(old(created))) && !modified && !untracked
      ensures r != Ok(true) ==>
        head == old(head) && modified == old(modified) && untracked == old(untracked) && commits == old(commits)
      ensures r.Ok? <==> canSpawn && hasGitDir && (!old(HasChanges()) || writable)
      ensures hasGitDir == old(hasGitDir) && stash == old(stash)
    {
      log := log + [CommitChanges(message)];
      if !canSpawn || !hasGitDir {
        return Err("Failed to commit changes");
      }
      if !HasChanges() {
        return Ok(false);
      }
      if !writable {
        return Err("Failed to commit changes");
      }
      MakeCommit();
      modified, untracked := false, false;
      r := Ok(true);
    }

    /** `check_and_init_git`: whether `.git` was missing before, after making sure the repository is ready. */
    method CheckAndInitGit() returns (r: Result<bool, string>)
      requires Valid()
      modifies this
      ensures Valid()
      ensures r.Ok? ==> r.value == !old(hasGitDir) && hasGitDir && HeadResolves()
      ensures r.Err? <==> !old(hasGitDir && HeadResolves()) && !(canSpawn && writable)
    {
      var wasNotInitialized := !IsGitRepo();
      var ensured := EnsureGitRepo();
      if ensured.Err? {
        return Err(ensured.error);
      }
      r := Ok(wasNotInitialized);
    }
  }
}
