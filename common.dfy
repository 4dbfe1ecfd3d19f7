/** Small shared vocabulary of the debate game: optional oracle answers,
    chat messages, Python's two-argument `max`, counting, and floored damage. */
module Common {

  /** An answer from an external oracle (a language-model call or an HTTP
      request): `None` stands for the call raising or returning a non-200
      status, `Some(v)` for the value it produced. */
  datatype Option<T> = None | Some(value: T) {

    /** The value, or `default` when the call failed. */
    function GetOr(default: T): (r: T)
      ensures Some? ==> r == value
      ensures None? ==> r == default
    {
      match this
      case Some(v) => v
      case None => default
    }
  }

  /** One entry of a session's `messages` list: `{"role": ..., "content": ...}`. */
  datatype Message = Message(role: string, content: string)

  /** Python's `max(a, b)` on integers. */
  function Max(a: int, b: int): (r: int)
    ensures r >= a && r >= b
    ensures r == a || r == b
  {
    if a >= b then a else b
  }

  /** How many elements of `xs` satisfy `p`: the number of chat inputs a
      page's submission gate lets through. */
  function Count<T>(xs: seq<T>, p: T -> bool): (n: nat)
    ensures n <= |xs|
    ensures n == 0 <==> forall i :: 0 <= i < |xs| ==> !p(xs[i])
    ensures n == |xs| <==> forall i :: 0 <= i < |xs| ==> p(xs[i])
    decreases |xs|
  {
    if xs == [] then 0 else (if p(xs[0]) then 1 else 0) + Count(xs[1..], p)
  }

  /** A health value after `damage` is subtracted with a floor at 0,
      the `max(0, hp - dmg)` both front ends use. */
  function Hit(hp: int, damage: int): (r: int)
    ensures r >= 0
    ensures r == 0 <==> hp <= damage
    ensures r > 0 ==> r == hp - damage
    ensures 0 <= damage && 0 <= hp ==> r <= hp
  {
    Max(0, hp - damage)
  }
}
