/** Shared helper types and sequence facts. */
module Basics {

  datatype Option<+T> = None | Some(value: T)

  /** The members of a sequence, as a set. */
  function Members<T>(s: seq<T>): set<T> {
    set x | x in s
  }

  ghost predicate Distinct<T>(s: seq<T>) {
    forall i, j :: 0 <= i < j < |s| ==> s[i] != s[j]
  }

  lemma MembersHead<T>(s: seq<T>)
    requires s != []
    ensures Members(s) == {s[0]} + Members(s[1..])
  {
    assert s == [s[0]] + s[1..];
  }

  lemma NonEmptyMembers<T>(s: seq<T>)
    ensures s == [] <==> Members(s) == {}
  {
    if s != [] { assert s[0] in Members(s); }
  }
}
