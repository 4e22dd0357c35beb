/**
  The repository fetcher, `checkout_repo`: make a revision of a remote git
  repository available in a directory. Every git subprocess is an input
  outcome; the result is the reported outcome and the actions issued.
*/
module Fetcher {
  import opened Base
  import opened Paths
  import opened Outcomes

  /** The outcomes of the steps of one fetch, as the outside world would produce them. */
  datatype GitOutcomes = GitOutcomes(createDirOk: bool, init: Proc, remoteAdd: Proc, fetch: Proc, checkout: Proc)

  function GitDir(dir: Path): Path {
    dir + [".git"]
  }

  function GitInit(dir: Path): Command {
    Command(Lit("git"), [Lit("init")], [], Some(dir))
  }

  function GitRemoteAdd(dir: Path, url: string): Command {
    Command(Lit("git"), [Lit("--git-dir"), PathArg(GitDir(dir)), Lit("remote"), Lit("add"), Lit("origin"), Lit(url)], [], None)
  }

  function GitFetch(dir: Path, rev: string): Command {
    Command(Lit("git"), [Lit("--git-dir"), PathArg(GitDir(dir)), Lit("fetch"), Lit("--depth"), Lit("1"), Lit("origin"), Lit(rev)], [], None)
  }

  function GitCheckout(dir: Path, rev: string): Command {
    Command(Lit("git"), [Lit("--git-dir"), PathArg(GitDir(dir)), Lit("checkout"), Lit(rev)], [], Some(dir))
  }

  /** Every action a fetch into a fresh directory can issue, in order. */
  function FullFetch(dir: Path, url: string, rev: string): seq<Action> {
    [MakeDir(dir), Exec(GitInit(dir)), Exec(GitRemoteAdd(dir, url)), Exec(GitFetch(dir, rev)), Exec(GitCheckout(dir, rev))]
  }

  /**
    `checkout_repo(directory, url, rev)`: an existing directory is trusted as
    is; otherwise create it, `git init`, add `url` as `origin`, fetch `rev`
    at depth 1 and check it out. A failed fetch exit status is only looked at
    once the checkout has failed.
  */
  function CheckoutRepo(dir: Path, url: string, rev: string, dirExists: bool, git: GitOutcomes): (r: Run)
    ensures r.trace <= FullFetch(dir, url, rev)
    ensures r.outcome.Pass? ==> r.trace == [] || r.trace == FullFetch(dir, url, rev)
  {
    var actions := FullFetch(dir, url, rev);
    if dirExists then Run(Pass, [])
    else if !git.createDirOk then Run(Fail(GrammarDirCreateFailed(dir)), actions[..1])
    else if git.init.SpawnFailed? then Run(Fail(CommandNotRun("git init")), actions[..2])
    else if !git.init.success then Run(Fail(GitInitFailed(dir)), actions[..2])
    else if git.remoteAdd.SpawnFailed? then Run(Fail(CommandNotRun("git remote add")), actions[..3])
    else if !git.remoteAdd.success then Run(Fail(RemoteAddFailed(url, GitDir(dir))), actions[..3])
    else if git.fetch.SpawnFailed? then Run(Fail(CommandNotRun("git fetch")), actions[..4])
    else if git.checkout.SpawnFailed? then Run(Fail(CommandNotRun("git checkout")), actions)
    else if !git.checkout.success then
      if !git.fetch.success then Run(Fail(FetchFailed(rev, dir)), actions)
      else Run(Fail(CheckoutFailed(rev, dir, git.checkout.stderr)), actions)
    else Run(Pass, actions)
  }

  /** Trust the cache: an existing directory is a success and issues nothing, so fetching twice is idempotent. */
  lemma ExistingDirectoryShortCircuits(dir: Path, url: string, rev: string, git: GitOutcomes)
    ensures CheckoutRepo(dir, url, rev, true, git) == Run(Pass, [])
  {
  }

  /**
    Once every git step could be started and init and remote-add succeeded,
    the checkout decides: it succeeding means success even if the fetch
    failed; it failing is reported as the fetch failure when the fetch
    failed and otherwise as a checkout failure carrying its stderr.
  */
  lemma CheckoutDecides(dir: Path, url: string, rev: string, git: GitOutcomes)
    requires git.createDirOk
    requires git.init.Succeeded() && git.remoteAdd.Succeeded()
    requires git.fetch.Exited? && git.checkout.Exited?
    ensures var r := CheckoutRepo(dir, url, rev, false, git);
      && r.trace == FullFetch(dir, url, rev)
      && (r.outcome.Pass? <==> git.checkout.success)
      && (!git.checkout.success && !git.fetch.success ==> r.outcome == Fail(FetchFailed(rev, dir)))
      && (!git.checkout.success && git.fetch.success ==> r.outcome == Fail(CheckoutFailed(rev, dir, git.checkout.stderr)))
  {
  }

  /** A failed `git init` or `git remote add` aborts before anything is fetched. */
  lemma EarlyStageAborts(dir: Path, url: string, rev: string, git: GitOutcomes)
    requires git.createDirOk
    requires git.init.SpawnFailed? || !git.init.success || git.remoteAdd.SpawnFailed? || !git.remoteAdd.success
    ensures var r := CheckoutRepo(dir, url, rev, false, git);
      && r.outcome.Fail?
      && Exec(GitFetch(dir, rev)) !in r.trace
      && (git.init.ExitedWithFailure() ==> r.outcome == Fail(GitInitFailed(dir)))
      && (git.init.Succeeded() && git.remoteAdd.ExitedWithFailure()
          ==> r.outcome == Fail(RemoteAddFailed(url, GitDir(dir))))
  {
    var r := CheckoutRepo(dir, url, rev, false, git);
    var full := FullFetch(dir, url, rev);
    assert |r.trace| <= 3;
    assert full[3] == Exec(GitFetch(dir, rev));
    assert forall k :: 0 <= k < |r.trace| ==> r.trace[k] == full[k] && full[k] != full[3];
  }
}
