/**
 * In-chat message search: which rendered message rows match a query, moving
 * between the matches, the "i of n" counter, and resetting the search when
 * the search bar is opened or closed. The rows are the texts of the message
 * bubbles in display order.
 */
module Search {
  import opened Js
  import opened Messages
  import opened ClientState
  import opened Chat

  /** Queries shorter than this (in UTF-16 code units) do not search. */
  const MinQueryLength: nat := 2

  /** `text.toLowerCase().includes(query.toLowerCase())`. */
  predicate RowMatches(text: string, query: string) {
    Contains(Lower(text), Lower(query))
  }

  /** The text of each rendered message row, in display order. */
  function RowsOf(msgs: seq<Message>): (rows: seq<string>)
    ensures |rows| == |msgs|
    ensures forall i | 0 <= i < |msgs| :: rows[i] == MessageBody(msgs[i])
  {
    seq(|msgs|, i requires 0 <= i < |msgs| => MessageBody(msgs[i]))
  }

  /** The matches among the first `n` rows, in display order. */
  function MatchingRows(rows: seq<string>, query: string, n: nat): seq<SearchResult>
    requires n <= |rows|
  {
    if n == 0 then []
    else MatchingRows(rows, query, n - 1) + (if RowMatches(rows[n - 1], query) then [SearchResult(n - 1, rows[n - 1])] else [])
  }

  /**
   * The matches among the first `n` rows are exactly the rows below `n` whose
   * text contains the query, each with its own text, in increasing row order.
   */
  lemma {:induction false} MatchingRowsSpec(rows: seq<string>, query: string, n: nat)
    requires n <= |rows|
    ensures var r := MatchingRows(rows, query, n);
            && (forall k | 0 <= k < |r| :: r[k].index < n && r[k].text == rows[r[k].index] && RowMatches(r[k].text, query))
            && (forall k, l | 0 <= k < l < |r| :: r[k].index < r[l].index)
            && (forall i | 0 <= i < n && RowMatches(rows[i], query) :: exists k | 0 <= k < |r| :: r[k].index == i)
  {
    if n > 0 {
      MatchingRowsSpec(rows, query, n - 1);
      var before := MatchingRows(rows, query, n - 1);
      var r := MatchingRows(rows, query, n);
      assert forall k | 0 <= k < |before| :: r[k] == before[k];
      if RowMatches(rows[n - 1], query) {
        assert r[|before|].index == n - 1;
      }
    }
  }

  /**
   * `searchMessages`: a query shorter than two code units clears the search;
   * otherwise the results are exactly the matching rows, in display order,
   * with the first one active.
   */
  method SearchMessages(st: State, query: string, rows: seq<string>)
    requires st.Valid()
    modifies st
    ensures st.Valid()
    ensures Utf16Length(query) < MinQueryLength ==> st.searchResults == [] && st.searchQuery == ""
    ensures Utf16Length(query) >= MinQueryLength ==> st.searchQuery == query && st.searchResults == MatchingRows(rows, query, |rows|)
    ensures forall k | 0 <= k < |st.searchResults| ::
              && st.searchResults[k].index < |rows|
              && st.searchResults[k].text == rows[st.searchResults[k].index]
              && RowMatches(st.searchResults[k].text, query)
    ensures forall k, l | 0 <= k < l < |st.searchResults| :: st.searchResults[k].index < st.searchResults[l].index
    ensures Utf16Length(query) >= MinQueryLength ==>
              forall i | 0 <= i < |rows| && RowMatches(rows[i], query) ::
                exists k | 0 <= k < |st.searchResults| :: st.searchResults[k].index == i
    ensures st.currentSearchIndex == (if st.searchResults == [] then -1 else 0)
    ensures st.conversations == old(st.conversations) && st.pausedChats == old(st.pausedChats)
    ensures st.currentJid == old(st.currentJid) && st.contextMenuJid == old(st.contextMenuJid)
    ensures st.isSocketConnected == old(st.isSocketConnected)
  {
    st.SetSearchResults([]);
    st.SetCurrentSearchIndex(-1);
    if Utf16Length(query) < MinQueryLength {
      st.SetSearchQuery("");
      return;
    }
    st.SetSearchQuery(query);
    for i := 0 to |rows|
      invariant st.searchQuery == query && st.currentSearchIndex == -1
      invariant st.searchResults == MatchingRows(rows, query, i)
      invariant st.conversations == old(st.conversations) && st.pausedChats == old(st.pausedChats)
      invariant st.currentJid == old(st.currentJid) && st.contextMenuJid == old(st.contextMenuJid)
      invariant st.isSocketConnected == old(st.isSocketConnected)
    {
      ghost var step := if RowMatches(rows[i], query) then [SearchResult(i, rows[i])] else [];
      assert MatchingRows(rows, query, i + 1) == MatchingRows(rows, query, i) + step;
      if RowMatches(rows[i], query) {
        st.SetSearchResults(st.searchResults + [SearchResult(i, rows[i])]);
      }
    }
    MatchingRowsSpec(rows, query, |rows|);
    if st.searchResults != [] {
      st.SetCurrentSearchIndex(0);
    }
  }

  /** JavaScript's `%`, whose result takes the sign of the dividend. */
  function JsRemainder(a: int, n: int): (r: int)
    requires n > 0
    ensures a >= 0 ==> 0 <= r < n && r == a % n
    ensures a < 0 ==> -n < r <= 0
  {
    if a >= 0 then a % n else -((-a) % n)
  }

  /** `(i + 1) % n`. */
  function NextIndex(i: int, n: int): int
    requires n > 0
  {
    JsRemainder(i + 1, n)
  }

  /** `(i - 1 + n) % n`. */
  function PrevIndex(i: int, n: int): int
    requires n > 0
  {
    JsRemainder(i - 1 + n, n)
  }

  /** A value below the divisor is its own remainder, also after adding one divisor. */
  lemma SmallRemainder(a: int, n: int)
    requires 0 <= a < n
    ensures a % n == a && (a + n) % n == a
  {
    assert a == 0 * n + a;
    assert a + n == 1 * n + a;
  }

  /**
   * From a valid position both moves land on a valid position, wrap around
   * at the ends, and undo each other.
   */
  lemma NavigationWrapsAndUndoes(i: int, n: int)
    requires 0 <= i < n
    ensures 0 <= NextIndex(i, n) < n && 0 <= PrevIndex(i, n) < n
    ensures NextIndex(i, n) == (if i == n - 1 then 0 else i + 1)
    ensures PrevIndex(i, n) == (if i == 0 then n - 1 else i - 1)
    ensures PrevIndex(NextIndex(i, n), n) == i && NextIndex(PrevIndex(i, n), n) == i
  {
    if i < n - 1 {
      SmallRemainder(i + 1, n);
      SmallRemainder(i, n);
    } else {
      SmallRemainder(0, n);
      SmallRemainder(n - 1, n);
    }
    if i > 0 {
      SmallRemainder(i - 1, n);
      SmallRemainder(i, n);
    } else {
      SmallRemainder(n - 1, n);
      SmallRemainder(0, n);
    }
  }

  /** `navigateSearchResult`: nothing without results; otherwise the next or previous match, cyclically. */
  method NavigateSearchResult(st: State, next: bool)
    requires st.Valid()
    modifies st
    ensures st.Valid()
    ensures old(st.searchResults) == [] ==> st.currentSearchIndex == old(st.currentSearchIndex)
    ensures old(st.searchResults) != [] ==>
              st.currentSearchIndex == (if next then NextIndex(old(st.currentSearchIndex), |old(st.searchResults)|)
                                        else PrevIndex(old(st.currentSearchIndex), |old(st.searchResults)|))
    ensures st.searchResults == old(st.searchResults) && st.searchQuery == old(st.searchQuery)
    ensures st.conversations == old(st.conversations) && st.pausedChats == old(st.pausedChats)
    ensures st.currentJid == old(st.currentJid) && st.contextMenuJid == old(st.contextMenuJid)
    ensures st.isSocketConnected == old(st.isSocketConnected)
  {
    var n := |st.searchResults|;
    if n == 0 {
      return;
    }
    NavigationWrapsAndUndoes(st.currentSearchIndex, n);
    if next {
      st.SetCurrentSearchIndex(NextIndex(st.currentSearchIndex, n));
    } else {
      st.SetCurrentSearchIndex(PrevIndex(st.currentSearchIndex, n));
    }
  }

  /** `updateSearchCounter`'s text. */
  function CounterText(count: nat, index: int, query: string): (text: string)
    ensures text == "" <==> count == 0 && Utf16Length(query) < MinQueryLength
    ensures count == 0 && Utf16Length(query) >= MinQueryLength ==> text == "0 results"
    ensures count > 0 ==> text == IntToString(index + 1) + " of " + Decimal(count)
  {
    if count == 0 then (if query != "" && Utf16Length(query) >= MinQueryLength then "0 results" else "")
    else IntToString(index + 1) + " of " + Decimal(count)
  }

  /**
   * After a search the counter is blank for a short query, reads '0 results'
   * when a searchable query matched nothing, and '1 of n' for n matches.
   */
  lemma CounterAfterSearch(query: string, count: nat)
    ensures Utf16Length(query) < MinQueryLength ==> CounterText(0, -1, "") == ""
    ensures Utf16Length(query) >= MinQueryLength ==> CounterText(0, -1, query) == "0 results"
    ensures count > 0 ==> CounterText(count, 0, query) == "1 of " + Decimal(count)
  {
    if Utf16Length(query) >= MinQueryLength {
      assert query != "";
    }
  }

  /**
   * After a move through n matches the counter reads the new position out of
   * n: 'Next' from 'n of n' wraps to '1 of n', 'Previous' from '1 of n' wraps
   * to 'n of n'.
   */
  lemma CounterAfterNavigation(i: int, n: nat, query: string, next: bool)
    requires 0 <= i < n
    ensures var j := if next then NextIndex(i, n) else PrevIndex(i, n);
            var shown := if next then (if i == n - 1 then 1 else i + 2) else (if i == 0 then n else i);
            1 <= shown <= n && CounterText(n, j, query) == Decimal(shown) + " of " + Decimal(n)
  {
    NavigationWrapsAndUndoes(i, n);
  }

  /**
   * `toggleMessageSearch`: opening or closing the search bar clears the
   * results, the active match and the query.
   */
  method ToggleMessageSearch(st: State, barHidden: bool) returns (nowHidden: bool)
    requires st.Valid()
    modifies st
    ensures st.Valid()
    ensures nowHidden == !barHidden
    ensures st.searchResults == [] && st.currentSearchIndex == -1 && st.searchQuery == ""
    ensures st.conversations == old(st.conversations) && st.pausedChats == old(st.pausedChats)
    ensures st.currentJid == old(st.currentJid) && st.contextMenuJid == old(st.contextMenuJid)
    ensures st.isSocketConnected == old(st.isSocketConnected)
  {
    st.SetSearchResults([]);
    st.SetCurrentSearchIndex(-1);
    st.SetSearchQuery("");
    nowHidden := !barHidden;
  }
}
