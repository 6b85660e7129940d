/** The two orders in which the store lists its records: contacts by name
    (`a.name.localeCompare(b.name)`), call logs newest first
    (`b.timestamp - a.timestamp`). Each is an insertion sort that places a
    new element after every element it does not strictly precede, so, like
    JavaScript's sort, it is stable. */
module Listing {
  import opened Schema
  import Text

  // ---------------------------------------------------------------------
  // Contacts by name
  // ---------------------------------------------------------------------

  /** No contact sorts after a later one. */
  ghost predicate SortedByName(s: seq<Contact>) {
    forall i, j :: 0 <= i < j < |s| ==> Text.Le(s[i].name, s[j].name)
  }

  lemma PrependByName(c: Contact, s: seq<Contact>)
    requires SortedByName(s)
    requires forall y :: y in s ==> Text.Le(c.name, y.name)
    ensures SortedByName([c] + s)
  {
    var r := [c] + s;
    forall i, j | 0 <= i < j < |r| ensures Text.Le(r[i].name, r[j].name) {
      if i > 0 { assert r[i] == s[i - 1] && r[j] == s[j - 1]; }
      else { assert r[j] in s; }
    }
  }

  /** A contact that sorts strictly before the head of a sorted sequence
      sorts no later than all of it. */
  lemma BeforeHeadBeforeAll(c: Contact, s: seq<Contact>)
    requires SortedByName(s) && s != [] && !Text.Le(s[0].name, c.name)
    ensures forall y :: y in s ==> Text.Le(c.name, y.name)
  {
    Text.LeTotal(s[0].name, c.name);
    forall y | y in s ensures Text.Le(c.name, y.name) {
      var j :| 0 <= j < |s| && s[j] == y;
      if j > 0 { Text.LeTransitive(c.name, s[0].name, s[j].name); }
    }
  }

  lemma SortedTail(s: seq<Contact>)
    requires SortedByName(s) && s != []
    ensures SortedByName(s[1..])
  {
    forall i, j | 0 <= i < j < |s[1..]| ensures Text.Le(s[1..][i].name, s[1..][j].name) {
      assert s[1..][i] == s[i + 1] && s[1..][j] == s[j + 1];
    }
  }

  /** Putting the head back in front of the tail with `c` inserted. */
  lemma AfterHeadByName(s: seq<Contact>, c: Contact, tail: seq<Contact>)
    requires SortedByName(s) && s != [] && Text.Le(s[0].name, c.name)
    requires SortedByName(tail) && multiset(tail) == multiset(s[1..]) + multiset{c}
    ensures SortedByName([s[0]] + tail)
    ensures multiset([s[0]] + tail) == multiset(s) + multiset{c}
  {
    assert s == [s[0]] + s[1..];
    forall y | y in tail ensures Text.Le(s[0].name, y.name) {
      assert y in multiset(s[1..]) + multiset{c};
      if y != c {
        assert y in s[1..];
        var j :| 0 <= j < |s[1..]| && s[1..][j] == y;
        assert s[j + 1] == y;
      }
    }
    PrependByName(s[0], tail);
  }

  /** `c` placed into the sorted `s` after every contact whose name does not
      sort after its own. */
  function InsertByName(s: seq<Contact>, c: Contact): (r: seq<Contact>)
    requires SortedByName(s)
    ensures SortedByName(r)
    ensures multiset(r) == multiset(s) + multiset{c}
  {
    if s == [] then [c]
    else if !Text.Le(s[0].name, c.name) then
      BeforeHeadBeforeAll(c, s);
      PrependByName(c, s);
      [c] + s
    else
      SortedTail(s);
      var tail := InsertByName(s[1..], c);
      AfterHeadByName(s, c, tail);
      [s[0]] + tail
  }

  /** `s.sort((a, b) => a.name.localeCompare(b.name))`: the same contacts,
      ordered by name. */
  function SortByName(s: seq<Contact>): (r: seq<Contact>)
    ensures SortedByName(r)
    ensures multiset(r) == multiset(s)
  {
    if s == [] then []
    else
      assert s == s[..|s| - 1] + [s[|s| - 1]];
      InsertByName(SortByName(s[..|s| - 1]), s[|s| - 1])
  }

  // ---------------------------------------------------------------------
  // Call logs, newest first
  // ---------------------------------------------------------------------

  /** No call log is older than a later one. */
  ghost predicate NewestFirst(s: seq<CallLog>) {
    forall i, j :: 0 <= i < j < |s| ==> s[i].timestamp >= s[j].timestamp
  }

  /** Putting the newest log back in front of the tail with `l` inserted. */
  lemma AfterHeadNewestFirst(s: seq<CallLog>, l: CallLog, tail: seq<CallLog>)
    requires NewestFirst(s) && s != [] && l.timestamp <= s[0].timestamp
    requires NewestFirst(tail) && multiset(tail) == multiset(s[1..]) + multiset{l}
    ensures NewestFirst([s[0]] + tail)
    ensures multiset([s[0]] + tail) == multiset(s) + multiset{l}
  {
    assert s == [s[0]] + s[1..];
    forall y | y in tail ensures s[0].timestamp >= y.timestamp {
      assert y in multiset(s[1..]) + multiset{l};
      if y != l {
        assert y in s[1..];
        var j :| 0 <= j < |s[1..]| && s[1..][j] == y;
        assert s[j + 1] == y;
      }
    }
    var r := [s[0]] + tail;
    forall i, j | 0 <= i < j < |r| ensures r[i].timestamp >= r[j].timestamp {
      if i > 0 { assert r[i] == tail[i - 1] && r[j] == tail[j - 1]; }
      else { assert r[j] in tail; }
    }
  }

  /** `l` placed into the newest-first `s` after every log at least as
      recent. */
  function InsertNewestFirst(s: seq<CallLog>, l: CallLog): (r: seq<CallLog>)
    requires NewestFirst(s)
    ensures NewestFirst(r)
    ensures multiset(r) == multiset(s) + multiset{l}
  {
    if s == [] then [l]
    else if l.timestamp > s[0].timestamp then [l] + s
    else
      var tail := InsertNewestFirst(s[1..], l);
      AfterHeadNewestFirst(s, l, tail);
      [s[0]] + tail
  }

  /** `s.sort((a, b) => b.timestamp - a.timestamp)`: the same call logs,
      most recent first. */
  function SortNewestFirst(s: seq<CallLog>): (r: seq<CallLog>)
    ensures NewestFirst(r)
    ensures multiset(r) == multiset(s)
  {
    if s == [] then []
    else
      assert s == s[..|s| - 1] + [s[|s| - 1]];
      InsertNewestFirst(SortNewestFirst(s[..|s| - 1]), s[|s| - 1])
  }

  /** Two call logs at different times are listed later one first, whatever
      order they come in. */
  lemma NewerListedFirst(s: seq<CallLog>, newer: CallLog, older: CallLog)
    requires NewestFirst(s) && multiset(s) == multiset{newer, older}
    requires newer.timestamp > older.timestamp
    ensures s == [newer, older]
  {
    assert |s| == 2 by { assert |multiset(s)| == 2; }
    assert s[0] in multiset(s) && s[1] in multiset(s);
  }
}
