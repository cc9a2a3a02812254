/**
 * The alert queue: an ordered list of message strings, appended to by
 * `alert` and shortened by `dismissAlert`, which removes a message by value.
 */
module Alerts {

  /** `Array.prototype.indexOf` with strict equality: the least index holding
      `x`, or -1 when there is none. */
  function IndexOf(s: seq<string>, x: string): (i: int)
    ensures -1 <= i < |s|
    ensures i == -1 <==> x !in s
    ensures 0 <= i ==> s[i] == x && x !in s[..i]
    decreases |s|
  {
    if s == [] then -1
    else if s[0] == x then 0
    else
      var j := IndexOf(s[1..], x);
      assert j >= 0 ==> s[..j + 1] == [s[0]] + s[1..][..j];
      if j == -1 then -1 else j + 1
  }

  /** The queue after `dismissAlert(m)`: the `splice(index, 1)` of the first
      occurrence, when `indexOf` finds one. */
  function Dismissed(s: seq<string>, m: string): (r: seq<string>)
    ensures m !in s ==> r == s
    ensures m in s ==> exists i :: 0 <= i < |s| && s[i] == m && m !in s[..i] && r == s[..i] + s[i + 1..]
    ensures multiset(r) == multiset(s) - multiset{m}
    ensures |r| == if m in s then |s| - 1 else |s|
  {
    var index := IndexOf(s, m);
    if index > -1 then
      assert s == s[..index] + [s[index]] + s[index + 1..];
      s[..index] + s[index + 1..]
    else
      assert multiset(s)[m] == 0;
      s
  }

  /** The first occurrence is the one removed: knowing the least index holding
      `m` determines the result. */
  lemma {:induction false} DismissedAtFirst(s: seq<string>, m: string, i: nat)
    requires i < |s| && s[i] == m && m !in s[..i]
    ensures Dismissed(s, m) == s[..i] + s[i + 1..]
  {
  }

  /** Alerting a message that is not queued and then dismissing it restores
      the queue; on an empty queue this is "alert then dismiss leaves it empty". */
  lemma {:induction false} AlertThenDismissFresh(s: seq<string>, m: string)
    requires m !in s
    ensures Dismissed(s + [m], m) == s
  {
    assert (s + [m])[..|s|] == s;
    DismissedAtFirst(s + [m], m, |s|);
  }

  /** With duplicates, dismissing takes the oldest copy: a message alerted
      again while already queued leaves its new copy at the end. */
  lemma {:induction false} AlertThenDismissDuplicate(s: seq<string>, m: string)
    requires m in s
    ensures Dismissed(s + [m], m) == Dismissed(s, m) + [m]
  {
    var i := IndexOf(s, m);
    assert (s + [m])[..i] == s[..i];
    DismissedAtFirst(s + [m], m, i);
    assert (s + [m])[i + 1..] == s[i + 1..] + [m];
  }
}
