/**
 * The dashboard's start-up: `fetchWithRetry`, which retries a request with
 * exponential back-off, and `init`, which tries the whole start-up sequence
 * (open the local cache, load it, fetch the status, fetch the conversation
 * summaries) up to three times before falling back to offline mode. What
 * each fetch and each start-up step yields is given as a parameter, indexed
 * by attempt; the waits are returned instead of slept.
 */
module App {
  import opened Js
  import opened ClientState

  // ---------------------------------------------------------------------
  // fetchWithRetry
  // ---------------------------------------------------------------------

  /** What one `fetch` call does: resolve with a response, or reject. */
  datatype FetchOutcome = Response(ok: bool, status: int) | NetworkError(message: string)

  /** What `fetchWithRetry` does: resolve with an ok response, or reject with the last error. */
  datatype Fetched = Resolved(status: int) | Rejected(message: string)

  predicate IsOk(o: FetchOutcome) {
    o.Response? && o.ok
  }

  /** The error an attempt ends with: `HTTP <status>` for a response that is not ok. */
  function ErrorOf(o: FetchOutcome): (message: string)
    ensures o.Response? ==> |message| > 5 && StartsWith(message, "HTTP ") && message[5..] == IntToString(o.status)
    ensures o.NetworkError? ==> message == o.message
  {
    if o.Response? then "HTTP " + IntToString(o.status) else o.message
  }

  function Pow2(i: nat): (p: nat)
    ensures p >= 1
  {
    if i == 0 then 1 else 2 * Pow2(i - 1)
  }

  /** `Math.min(baseDelayMs * 2 ** i, maxDelayMs)`: the wait after failed attempt `i`. */
  function Backoff(i: nat): (ms: nat)
    ensures ms <= MaxDelayMs
  {
    if BaseDelayMs * Pow2(i) < MaxDelayMs then BaseDelayMs * Pow2(i) else MaxDelayMs
  }

  /**
   * The waits never decrease and never pass the cap; with the default
   * settings the first three are 1, 2 and 4 seconds, and every wait from the
   * fifth on is the cap.
   */
  lemma {:induction false} BackoffSchedule(i: nat, j: nat)
    requires i <= j
    ensures Backoff(i) <= Backoff(j) <= MaxDelayMs
    ensures Backoff(0) == 1000 && Backoff(1) == 2000 && Backoff(2) == 4000
    ensures j >= 4 ==> Backoff(j) == MaxDelayMs
    decreases j - i
  {
    if i < j {
      BackoffSchedule(i + 1, j);
      assert Pow2(i + 1) == 2 * Pow2(i);
    }
    if j >= 4 {
      Pow2AtLeast(j);
    }
  }

  lemma {:induction false} Pow2AtLeast(i: nat)
    requires i >= 4
    ensures Pow2(i) >= 16
  {
    if i > 4 {
      Pow2AtLeast(i - 1);
    } else {
      assert Pow2(4) == 16;
    }
  }

  /**
   * `fetchWithRetry(url, options, retries)`: tries attempts 0, 1, ... and
   * resolves with the first ok response; a response that is not ok counts as
   * a failure like a network error. After `retries` failed retries the last
   * error is rethrown. `waits` are the delays slept between attempts.
   */
  method FetchWithRetry(attempt: nat -> FetchOutcome, retries: nat) returns (r: Fetched, waits: seq<nat>)
    ensures |waits| <= retries
    ensures forall i | 0 <= i < |waits| :: !IsOk(attempt(i)) && waits[i] == Backoff(i)
    ensures r.Resolved? ==> IsOk(attempt(|waits|)) && r.status == attempt(|waits|).status
    ensures r.Rejected? ==> |waits| == retries && !IsOk(attempt(retries)) && r.message == ErrorOf(attempt(retries))
  {
    var i := 0;
    waits := [];
    while true
      invariant i <= retries && |waits| == i
      invariant forall j | 0 <= j < i :: !IsOk(attempt(j)) && waits[j] == Backoff(j)
      decreases retries - i
    {
      var o := attempt(i);
      if IsOk(o) {
        return Resolved(o.status), waits;
      }
      if i == retries {
        return Rejected(ErrorOf(o)), waits;
      }
      waits := waits + [Backoff(i)];
      i := i + 1;
    }
  }

  /** With the default three retries there are at most four attempts, so at most 7 seconds of waiting. */
  lemma DefaultRetriesWaitAtMostSevenSeconds(waits: seq<nat>)
    requires |waits| <= MaxRetries
    requires forall i | 0 <= i < |waits| :: waits[i] == Backoff(i)
    ensures |waits| + 1 <= 4
    ensures forall i | 0 <= i < |waits| :: waits[i] == [1000, 2000, 4000][i]
    ensures TotalWait(waits) <= 7000
  {
    BackoffSchedule(0, 0);
    var w := waits;
    if |w| > 0 {
      assert TotalWait(w) == w[0] + TotalWait(w[1..]);
      if |w| > 1 {
        assert TotalWait(w[1..]) == w[1] + TotalWait(w[2..]);
        if |w| > 2 {
          assert TotalWait(w[2..]) == w[2] + TotalWait(w[3..]);
          assert w[3..] == [];
        }
      }
    }
  }

  /** The time spent waiting, all waits together. */
  function TotalWait(waits: seq<nat>): nat {
    if waits == [] then 0 else waits[0] + TotalWait(waits[1..])
  }

  /**
   * Each wait doubles the previous one until the cap is reached, and then
   * stays at the cap.
   */
  lemma BackoffDoubles(i: nat)
    ensures Backoff(i + 1) == if 2 * Backoff(i) < MaxDelayMs then 2 * Backoff(i) else MaxDelayMs
  {
    assert Pow2(i + 1) == 2 * Pow2(i);
  }

  // ---------------------------------------------------------------------
  // init
  // ---------------------------------------------------------------------

  const MaxInitAttempts: nat := 3
  const InitRetryDelayMs: nat := 2000

  /**
   * What one start-up attempt's steps yield, None where that step throws:
   * the cached conversations (opening and reading the local database), the
   * `pausedChats` list of the status (None inside when the field is absent),
   * and the conversation summaries.
   */
  datatype InitAttempt = InitAttempt(
    cache: Option<seq<ClientConversation>>,
    status: Option<Option<seq<string>>>,
    conversations: Option<seq<ClientConversation>>)

  /** Every step of the attempt succeeded. */
  predicate Completes(a: InitAttempt) {
    a.cache.Some? && a.status.Some? && a.conversations.Some?
  }

  /** The cached conversations and the pause set: the parts of the state start-up writes. */
  datatype Snapshot = Snapshot(convs: map<string, ClientConversation>, paused: set<string>)

  /** The elements of a list as a set. */
  function SetOf(list: seq<string>): (s: set<string>)
    ensures forall x :: x in s <==> x in list
  {
    set x | x in list
  }

  /** `new Set(statusData.pausedChats || [])`. */
  function PausedSet(list: Option<seq<string>>): set<string> {
    if list.Some? then SetOf(list.value) else {}
  }

  /** The state after one attempt: each step that succeeds writes its part before the next step runs. */
  function AfterAttempt(s: Snapshot, a: InitAttempt): (r: Snapshot)
    ensures a.cache.None? ==> r == s
    ensures r.paused == (if a.cache.Some? && a.status.Some? then PausedSet(a.status.value) else s.paused)
  {
    if a.cache.None? then s
    else
      var s1 := s.(convs := OverwriteAll(s.convs, a.cache.value));
      if a.status.None? then s1
      else
        var s2 := s1.(paused := PausedSet(a.status.value));
        if a.conversations.None? then s2 else s2.(convs := OverwriteAll(s2.convs, a.conversations.value))
  }

  /** The state after the first `n` attempts. */
  function AfterAttempts(s: Snapshot, attempt: nat -> InitAttempt, n: nat): Snapshot {
    if n == 0 then s else AfterAttempt(AfterAttempts(s, attempt, n - 1), attempt(n - 1))
  }

  /** One pass through the start-up steps, stopping at the first that throws. */
  method RunAttempt(st: State, a: InitAttempt) returns (ok: bool)
    requires st.Valid()
    modifies st
    ensures st.Valid()
    ensures ok == Completes(a)
    ensures Snapshot(st.conversations, st.pausedChats) == AfterAttempt(Snapshot(old(st.conversations), old(st.pausedChats)), a)
    ensures ViewUnchanged(st)
  {
    if a.cache.None? {
      return false;
    }
    StoreAll(st, a.cache.value);
    if a.status.None? {
      return false;
    }
    st.SetPausedChats(PausedSet(a.status.value));
    if a.conversations.None? {
      return false;
    }
    StoreAll(st, a.conversations.value);
    ok := true;
  }

  /**
   * `init`: runs attempts until one completes, at most three, waiting two
   * seconds after each failed attempt but the last; when all fail it gives
   * up quietly, keeping whatever the failed attempts wrote.
   */
  method Init(st: State, attempt: nat -> InitAttempt) returns (succeeded: bool, attempts: nat, waits: seq<nat>)
    requires st.Valid()
    modifies st
    ensures st.Valid()
    ensures 1 <= attempts <= MaxInitAttempts
    ensures succeeded <==> Completes(attempt(attempts - 1))
    ensures forall j | 0 <= j < attempts - 1 :: !Completes(attempt(j))
    ensures !succeeded ==> attempts == MaxInitAttempts
    ensures |waits| == attempts - 1 && forall k | 0 <= k < |waits| :: waits[k] == InitRetryDelayMs
    ensures Snapshot(st.conversations, st.pausedChats) == AfterAttempts(Snapshot(old(st.conversations), old(st.pausedChats)), attempt, attempts)
    ensures ViewUnchanged(st)
  {
    attempts := 0;
    waits := [];
    while true
      invariant st.Valid()
      invariant attempts < MaxInitAttempts && |waits| == attempts
      invariant forall j | 0 <= j < attempts :: !Completes(attempt(j))
      invariant forall k | 0 <= k < |waits| :: waits[k] == InitRetryDelayMs
      invariant Snapshot(st.conversations, st.pausedChats) == AfterAttempts(Snapshot(old(st.conversations), old(st.pausedChats)), attempt, attempts)
      invariant ViewUnchanged(st)
      decreases MaxInitAttempts - attempts
    {
      var ok := RunAttempt(st, attempt(attempts));
      attempts := attempts + 1;
      if ok {
        return true, attempts, waits;
      }
      if attempts >= MaxInitAttempts {
        return false, attempts, waits;
      }
      waits := waits + [InitRetryDelayMs];
    }
  }

  /**
   * A completed attempt leaves the server's pause list as the pause set, and
   * each listed summary overwrites the entry for its jid (the last listing
   * of a jid winning); entries neither the cache nor the server lists stay.
   */
  lemma CompletedAttemptTakesServerState(s: Snapshot, a: InitAttempt, k: string)
    requires Completes(a)
    ensures AfterAttempt(s, a).paused == PausedSet(a.status.value)
    ensures forall i | 0 <= i < |a.conversations.value|
                     && (forall j | i < j < |a.conversations.value| :: a.conversations.value[j].jid != a.conversations.value[i].jid) ::
              && a.conversations.value[i].jid in AfterAttempt(s, a).convs
              && AfterAttempt(s, a).convs[a.conversations.value[i].jid] == a.conversations.value[i]
    ensures k in s.convs && (forall i | 0 <= i < |a.cache.value| :: a.cache.value[i].jid != k)
                         && (forall i | 0 <= i < |a.conversations.value| :: a.conversations.value[i].jid != k) ==>
              k in AfterAttempt(s, a).convs && AfterAttempt(s, a).convs[k] == s.convs[k]
  {
    var list := a.conversations.value;
    var mid := OverwriteAll(s.convs, a.cache.value);
    forall i | 0 <= i < |list| && (forall j | i < j < |list| :: list[j].jid != list[i].jid)
      ensures list[i].jid in AfterAttempt(s, a).convs && AfterAttempt(s, a).convs[list[i].jid] == list[i]
    {
      OverwriteAllLastWins(mid, list, i);
    }
    if k in s.convs && (forall i | 0 <= i < |a.cache.value| :: a.cache.value[i].jid != k)
                    && (forall i | 0 <= i < |list| :: list[i].jid != k) {
      OverwriteAllUntouched(s.convs, a.cache.value, k);
      OverwriteAllUntouched(mid, list, k);
    }
  }

  /** An attempt that fails before the status step leaves the pause set as it was. */
  lemma FailedEarlyKeepsPauses(s: Snapshot, a: InitAttempt)
    requires a.cache.None? || a.status.None?
    ensures AfterAttempt(s, a).paused == s.paused
    ensures a.cache.None? ==> AfterAttempt(s, a) == s
  {
  }
}
