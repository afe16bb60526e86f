/** Small helpers shared by the game modules: an optional value (JavaScript's
    `undefined`/`null` results) and the two array operations the game code
    uses on card arrays that are not plain `push`/`pop`. */
module Options {

  datatype Option<+T> = None | Some(value: T)

  /** `a.splice(i, 1)`: removes the element at index `i`; an index past the
      end removes nothing. */
  function RemoveAt<T>(s: seq<T>, i: nat): (r: seq<T>)
    ensures i < |s| ==> |r| == |s| - 1 && multiset(r) == multiset(s) - multiset{s[i]}
    ensures i >= |s| ==> r == s
  {
    if i < |s| then
      var r := s[..i] + s[i + 1..];
      assert s == s[..i] + [s[i]] + s[i + 1..];
      r
    else
      s
  }

  /** The elements after the removed one move down one place, the others
      stay. */
  lemma RemoveAtShifts<T>(s: seq<T>, i: nat)
    requires i < |s|
    ensures forall k :: 0 <= k < |RemoveAt(s, i)| ==>
      RemoveAt(s, i)[k] == (if k < i then s[k] else s[k + 1])
  {
    assert RemoveAt(s, i) == s[..i] + s[i + 1..];
  }

  /** `a[a.length - 1]`: the last element, or nothing for an empty array. */
  function Last<T>(s: seq<T>): (r: Option<T>)
    ensures r.None? <==> s == []
    ensures r.Some? ==> r.value == s[|s| - 1]
  {
    if s == [] then None else Some(s[|s| - 1])
  }
}
