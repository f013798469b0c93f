// The useTaskSearch hook (src/hooks/useTaskSearch.ts): the raw search term, the
// list of matches shown, and the debounced search call, which lodash keeps as
// one pending slot that each new call overwrites.

module UseTaskSearch {
  import opened Types

  /** The characters String.prototype.trim removes: white space and line terminators. */
  predicate IsJsWhitespace(c: char)
  {
    || c == '\t' || c == '\n' || c == '\U{000B}' || c == '\U{000C}' || c == '\r' || c == ' '
    || c == '\U{00A0}' || c == '\U{1680}' || ('\U{2000}' <= c <= '\U{200A}')
    || c == '\U{2028}' || c == '\U{2029}' || c == '\U{202F}' || c == '\U{205F}'
    || c == '\U{3000}' || c == '\U{FEFF}'
  }

  predicate IsBlank(s: string)
  {
    forall i :: 0 <= i < |s| ==> IsJsWhitespace(s[i])
  }

  /** Drop leading white space: a blank prefix goes, and what is left does not start with white space. */
  function TrimStart(s: string): (r: string)
    ensures |r| <= |s| && r == s[|s| - |r|..] && IsBlank(s[..|s| - |r|])
    ensures r != [] ==> !IsJsWhitespace(r[0])
  {
    if s != [] && IsJsWhitespace(s[0]) then
      var r := TrimStart(s[1..]);
      assert s[..|s| - |r|] == [s[0]] + s[1..][..|s[1..]| - |r|];
      assert s[1..][|s[1..]| - |r|..] == s[|s| - |r|..];
      r
    else
      s
  }

  /** Drop trailing white space: a blank suffix goes, and what is left does not end with white space. */
  function TrimEnd(s: string): (r: string)
    ensures |r| <= |s| && r == s[..|r|] && IsBlank(s[|r|..])
    ensures r != [] ==> !IsJsWhitespace(r[|r| - 1])
  {
    if s != [] && IsJsWhitespace(s[|s| - 1]) then
      var r := TrimEnd(s[..|s| - 1]);
      assert s[|r|..] == s[..|s| - 1][|r|..] + [s[|s| - 1]];
      r
    else
      s
  }

  /**
   * The string with white space removed at both ends: what is left is a
   * stretch of `s` with blanks on either side, and neither starts nor ends
   * with white space.
   */
  function Trim(s: string): (r: string)
    ensures |r| <= |s|
    ensures exists i :: 0 <= i <= |s| - |r| && r == s[i..i + |r|] && IsBlank(s[..i]) && IsBlank(s[i + |r|..])
    ensures r != [] ==> !IsJsWhitespace(r[0]) && !IsJsWhitespace(r[|r| - 1])
  {
    var t := TrimStart(s);
    var r := TrimEnd(t);
    var i := |s| - |t|;
    assert t == s[i..];
    assert r == s[i..i + |r|] by {
      assert r == t[..|r|];
    }
    assert s[i + |r|..] == t[|r|..];
    assert 0 <= i <= |s| - |r| && r == s[i..i + |r|] && IsBlank(s[..i]) && IsBlank(s[i + |r|..]);
    r
  }

  /** `query.trim()` is falsy exactly for a query made only of white space. */
  lemma TrimEmptyIffBlank(s: string)
    ensures Trim(s) == "" <==> IsBlank(s)
  {
    var t := TrimStart(s);
    if t != [] {
      assert !IsJsWhitespace(s[|s| - |t|]);
      assert TrimEnd(t) != [] by {
        assert t[0] == s[|s| - |t|];
      }
    } else {
      assert s == s[..|s|];
    }
  }

  /** The hook's state; `pending` is the debounced call not yet made. */
  class TaskSearch {
    var searchTerm: string
    var filteredTasks: seq<Task>
    var pending: Option<string>

    constructor ()
      ensures searchTerm == "" && filteredTasks == [] && pending == None
    {
      searchTerm := "";
      filteredTasks := [];
      pending := None;
    }

    /**
     * handleSearch: keep the raw input; a blank query empties the matches at
     * once and leaves a pending search in place; any other query, untrimmed,
     * takes the pending slot, replacing what was there.
     */
    method HandleSearch(query: string)
      modifies this
      ensures searchTerm == query
      ensures !IsBlank(query) ==> pending == Some(query) && filteredTasks == old(filteredTasks)
      ensures IsBlank(query) ==> filteredTasks == [] && pending == old(pending)
    {
      searchTerm := query;
      TrimEmptyIffBlank(query);
      if Trim(query) != "" {
        pending := Some(query);
      } else {
        filteredTasks := [];
      }
    }

    /** The 300 ms pass: the pending query, if any, is searched and the slot empties. */
    method DebounceElapsed() returns (searched: Option<string>)
      modifies this`pending
      ensures searched == old(pending) && pending == None
    {
      searched := pending;
      pending := None;
    }

    /** searchTasks' response: only an ok response replaces the matches, wholesale. */
    method SearchCompleted(response: Response<seq<Task>>)
      modifies this`filteredTasks
      ensures filteredTasks == if response.Ok? then response.data else old(filteredTasks)
    {
      if response.Ok? {
        filteredTasks := response.data;
      }
    }
  }

  /**
   * Typing "milk" one key at a time before the delay passes leaves one search,
   * for "milk": the first time the delay passes it is made, the next time
   * there is nothing left to make.
   */
  method TypingCoalesces() returns (first: Option<string>, second: Option<string>)
    ensures first == Some("milk") && second == None
  {
    assert "m"[0] == "mi"[0] == "mil"[0] == "milk"[0] == 'm';
    var s := new TaskSearch();
    s.HandleSearch("m");
    s.HandleSearch("mi");
    s.HandleSearch("mil");
    s.HandleSearch("milk");
    first := s.DebounceElapsed();
    second := s.DebounceElapsed();
  }

  /**
   * Clearing the box does not cancel a search already pending: its response
   * fills the matches again while the term is empty.
   */
  method ClearingKeepsPendingSearch(found: seq<Task>) returns (term: string, searched: Option<string>, shown: seq<Task>)
    ensures term == "" && searched == Some("milk") && shown == found
  {
    assert "milk"[0] == 'm';
    var s := new TaskSearch();
    s.HandleSearch("milk");
    s.HandleSearch("");
    searched := s.DebounceElapsed();
    s.SearchCompleted(Ok(found));
    term, shown := s.searchTerm, s.filteredTasks;
  }
}
