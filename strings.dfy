/** `Array.prototype.join` on sequences of strings. */
module Strings {

  /** `parts.join(sep)`: the parts with `sep` between neighbours. */
  function Join(parts: seq<string>, sep: string): string
  {
    if |parts| == 0 then ""
    else if |parts| == 1 then parts[0]
    else parts[0] + sep + Join(parts[1..], sep)
  }

  /** Joining is compatible with concatenation of non-empty part lists. */
  lemma {:induction false} JoinAppend(xs: seq<string>, ys: seq<string>, sep: string)
    requires xs != [] && ys != []
    ensures Join(xs + ys, sep) == Join(xs, sep) + sep + Join(ys, sep)
  {
    if |xs| == 1 {
      assert (xs + ys)[1..] == ys;
    } else {
      assert (xs + ys)[1..] == xs[1..] + ys;
      JoinAppend(xs[1..], ys, sep);
    }
  }

  /** The length of a join: every part plus one separator between neighbours. */
  function TotalLength(parts: seq<string>): nat
  {
    if parts == [] then 0 else |parts[0]| + TotalLength(parts[1..])
  }

  lemma {:induction false} JoinLength(parts: seq<string>, sep: string)
    requires parts != []
    ensures |Join(parts, sep)| == TotalLength(parts) + (|parts| - 1) * |sep|
  {
    if |parts| > 1 {
      JoinLength(parts[1..], sep);
    }
  }
}
