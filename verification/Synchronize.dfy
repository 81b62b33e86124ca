/** internal/dashboard/service.go: `Sync`, which waits for the synchronization of all matching accounts and reports what failed. */
module Synchronize {
  import opened Text
  import opened Usage
  import opened SyncKey
  import opened SharedSync
  import opened SyncRuns
  import opened Discovery
  import opened Gathering

  /** A failure of discovery, of an account that was synchronized, or for a login that no account has. */
  datatype Failure = Undiscovered(target: string) | Failed(target: string, outcome: Outcome) | Unavailable(login: string)

  function IdentityOf(account: Resolved): Identity {
    var e := account.endpoint;
    Identity(e.source, e.name, e.url, account.login, e.apiKey)
  }

  /** The failure of the account at a place, if it matches the login and failed. */
  function FailureAt(accounts: seq<Resolved>, login: string, results: seq<Outcome>): int -> Option<Failure>
    requires |accounts| == |results|
  {
    i => if 0 <= i < |accounts| && (login == "" || SameLetters(login, accounts[i].login)) && results[i] != Success
         then Some(Failed(accounts[i].endpoint.name, results[i])) else None
  }

  function AccountFailures(accounts: seq<Resolved>, login: string, results: seq<Outcome>): seq<Failure>
    requires |accounts| == |results|
  {
    Gathered(FailureAt(accounts, login, results), |accounts|)
  }

  /** The part of `Sync` after all callers have returned; `results` are what they returned, and of no interest for other accounts. */
  method Report(accounts: seq<Resolved>, login: string, discovered: seq<Failure>, results: seq<Outcome>)
    returns (failures: seq<Failure>, found: bool)
    requires |accounts| == |results|
    ensures found <==> login == "" || exists a :: a in accounts && SameLetters(login, a.login)
    ensures failures == discovered + AccountFailures(accounts, login, results) + (if found then [] else [Unavailable(login)])
    ensures failures == [] <==>
      discovered == [] && found && forall i | 0 <= i < |accounts| && (login == "" || SameLetters(login, accounts[i].login)) :: results[i] == Success
  {
    failures, found := discovered, login == "";
    for n := 0 to |accounts|
      invariant found <==> login == "" || exists i :: 0 <= i < n && SameLetters(login, accounts[i].login)
      invariant failures == discovered + Gathered(FailureAt(accounts, login, results), n)
    {
      LowerExactly(login, accounts[n].login);
      if login != "" && Lower(login) != Lower(accounts[n].login) {
        continue;
      }
      found := true;
      if results[n] != Success {
        failures := failures + [Failed(accounts[n].endpoint.name, results[n])];
      }
    }
    NothingGathered(FailureAt(accounts, login, results), |accounts|);
    assert forall i | 0 <= i < |accounts| :: FailureAt(accounts, login, results)(i).None? <==>
      ((login == "" || SameLetters(login, accounts[i].login)) ==> results[i] == Success);
    if !found {
      failures := failures + [Unavailable(login)];
    }
  }

  /** Each matching account whose synchronization failed is reported once, with its outcome, in the order of the accounts, and no other is. */
  lemma FailuresExactly(accounts: seq<Resolved>, login: string, results: seq<Outcome>) returns (places: seq<int>)
    requires |accounts| == |results|
    ensures |places| == |AccountFailures(accounts, login, results)|
    ensures forall k | 0 <= k < |places| ::
      && 0 <= places[k] < |accounts| && results[places[k]] != Success && (login == "" || SameLetters(login, accounts[places[k]].login))
      && AccountFailures(accounts, login, results)[k] == Failed(accounts[places[k]].endpoint.name, results[places[k]])
    ensures forall j, k | 0 <= j < k < |places| :: places[j] < places[k]
    ensures forall i | 0 <= i < |accounts| && results[i] != Success && (login == "" || SameLetters(login, accounts[i].login)) :: i in places
  {
    hide SameLetters;
    places := GatheredExactly(FailureAt(accounts, login, results), |accounts|);
  }

  /** Each matching account had a caller of its own, which returned the result. */
  ghost predicate Asked(s: State, callers: seq<int>, accounts: seq<Resolved>, login: string, results: seq<Outcome>)
    requires |callers| == |accounts| == |results|
  {
    forall i | 0 <= i < |accounts| && (login == "" || SameLetters(login, accounts[i].login)) ::
      callers[i] in s.callers && s.callers[callers[i]].job == Sync(IdentityOf(accounts[i]))
      && s.callers[callers[i]].status == Returned(results[i])
  }

  /** When a synchronization reports no failure, the snapshot fetched for each account it was for, by a task that may have been shared, is in the history of that account, whatever else has been saved since. */
  lemma SyncComplete(hash: string -> string, steps: seq<Step>, s: State, callers: seq<int>, accounts: seq<Resolved>, login: string,
                     results: seq<Outcome>, i: int)
    requires Digest(hash) && Leads(Start(hash), steps, s)
    requires |callers| == |accounts| == |results| && Asked(s, callers, accounts, login, results)
    requires AccountFailures(accounts, login, results) == []
    requires 0 <= i < |accounts| && (login == "" || SameLetters(login, accounts[i].login)) && PartsNulFree(IdentityOf(accounts[i]))
    ensures callers[i] in s.callers && s.callers[callers[i]].task in s.tasks
    ensures var e := accounts[i].endpoint;
      InHistory(s.requests, Identity(e.source, e.name, e.url, accounts[i].login, e.apiKey), s.tasks[s.callers[callers[i]].task].daily)
  {
    hide SameLetters, PartsNulFree, InHistory, Leads, Digest;
    NothingGathered(FailureAt(accounts, login, results), |accounts|);
    assert FailureAt(accounts, login, results)(i).None?;
    SuccessIsStored(hash, steps, s, callers[i]);
  }
}
