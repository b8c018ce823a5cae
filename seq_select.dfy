/**
 * The shape both filtering loops share: walk a list in order and append
 * `f(x)` for every element `x` that `keep` accepts.
 */
module SeqSelect {

  /** `[f(x) for x in s if keep(x)]`, built by appending at the end. */
  function KeepMap<A, B>(s: seq<A>, keep: A -> bool, f: A -> B): seq<B>
  {
    if s == [] then []
    else
      var last := s[|s| - 1];
      KeepMap(s[..|s| - 1], keep, f) + (if keep(last) then [f(last)] else [])
  }

  /** An output element is the image of some kept input element, and every such image is output. */
  lemma {:induction false} KeepMapExactly<A, B>(s: seq<A>, keep: A -> bool, f: A -> B, y: B)
    ensures y in KeepMap(s, keep, f) <==> exists i :: 0 <= i < |s| && keep(s[i]) && f(s[i]) == y
  {
    if s != [] {
      var n := |s| - 1;
      KeepMapExactly(s[..n], keep, f, y);
      if exists i :: 0 <= i < |s| && keep(s[i]) && f(s[i]) == y {
        var i :| 0 <= i < |s| && keep(s[i]) && f(s[i]) == y;
        if i < n {
          assert s[..n][i] == s[i];
        }
      }
    }
  }
}
