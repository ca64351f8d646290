/** Small value types shared by every module of the model. */
module Support {

  datatype Option<+T> = None | Some(value: T)

  /** What the modelled JavaScript throws. */
  datatype Failure =
    | TypeError(what: string)         // a property read or call on `undefined`
    | LineItemMissing(code: string)   // an explicit `throw new Error(...)` naming a line-item code

  datatype Result<+T> = Ok(value: T) | Err(error: Failure)

  /** `Array.prototype.findIndex` / `Array.prototype.find`: the index of the first
      element satisfying `p`, or None when no element does. */
  function FindIndex<T>(s: seq<T>, p: T -> bool): (r: Option<nat>)
    ensures r.Some? ==> r.value < |s| && p(s[r.value])
    ensures r.Some? ==> forall j :: 0 <= j < r.value ==> !p(s[j])
    ensures r.None? <==> forall j :: 0 <= j < |s| ==> !p(s[j])
  {
    if |s| == 0 then None
    else if p(s[0]) then Some(0)
    else match FindIndex(s[1..], p)
      case None => None
      case Some(k) => Some(k + 1)
  }

  /** The first index satisfying `p` is unique: whatever index has `p` and no
      earlier index with `p` is the one FindIndex returns. */
  lemma FindIndexIsFirst<T>(s: seq<T>, p: T -> bool, i: nat)
    requires i < |s| && p(s[i])
    requires forall j :: 0 <= j < i ==> !p(s[j])
    ensures FindIndex(s, p) == Some(i)
  {
  }
}
