/** The one helper of pkg/util.go the relay uses. */
module Util {

  /** `StringInSlice`: a left-to-right scan that stops at the first equal element. */
  function StringInSlice(str: string, list: seq<string>): (found: bool)
    ensures found <==> exists i :: 0 <= i < |list| && list[i] == str
  {
    if list == [] then false
    else if list[0] == str then true
    else
      var found := StringInSlice(str, list[1..]);
      assert forall i :: 0 < i < |list| ==> list[i] == list[1..][i - 1];
      found
  }

  lemma StringInSliceEmpty(str: string)
    ensures !StringInSlice(str, [])
  {
  }

  /** Appending `str` to any list makes the scan succeed. */
  lemma StringInSliceAppended(str: string, list: seq<string>)
    ensures StringInSlice(str, list + [str])
  {
    assert (list + [str])[|list|] == str;
  }

  /** The scan agrees with sequence membership. */
  lemma StringInSliceMember(str: string, list: seq<string>)
    ensures StringInSlice(str, list) <==> str in list
  {
  }

  /** A list without repeated elements. */
  predicate NoDuplicates(list: seq<string>)
  {
    forall i, j :: 0 <= i < j < |list| ==> list[i] != list[j]
  }

  /** Appending only what the scan did not find keeps a list duplicate-free. */
  lemma AppendAbsentKeepsNoDuplicates(str: string, list: seq<string>)
    requires !StringInSlice(str, list)
    ensures NoDuplicates(list) ==> NoDuplicates(list + [str])
  {
  }
}
