/** Small shared vocabulary: optional values, thrown errors, and the few string
    operations (Array.join, number formatting) the compiler relies on. */
module Common {

  datatype Option<+T> = None | Some(value: T)

  /** A value, or the message of the Error the source throws. */
  datatype Result<+T> = Ok(value: T) | Err(msg: string)

  /** Completion of a statement that returns nothing but may throw. */
  datatype Status = Pass | Fail(msg: string)

  /** `${x}` in a template literal: an absent optional renders as "undefined". */
  function Str(o: Option<string>): string
  {
    if o.Some? then o.value else "undefined"
  }

  /** `xs.join(sep)`; defined on the last element so that a loop appending
      one element at a time unfolds it directly. */
  function Join(xs: seq<string>, sep: string): string
  {
    if |xs| == 0 then ""
    else if |xs| == 1 then xs[0]
    else Join(xs[..|xs| - 1], sep) + sep + xs[|xs| - 1]
  }

  /** Decimal rendering of a natural number, as `${n}` does. */
  function NatToString(n: nat): (s: string)
    ensures |s| > 0
  {
    var d := ["0", "1", "2", "3", "4", "5", "6", "7", "8", "9"][n % 10];
    if n < 10 then d else NatToString(n / 10) + d
  }

  /** No element is empty and none contains the separator character. */
  predicate Separable(xs: seq<string>, sep: char)
  {
    forall i :: 0 <= i < |xs| ==> |xs[i]| > 0 && sep !in xs[i]
  }

  /** The element that comes first in a join is exactly the text before the first separator. */
  lemma {:induction false} JoinHead(xs: seq<string>, sep: char)
    requires |xs| > 0 && Separable(xs, sep)
    ensures |xs[0]| <= |Join(xs, [sep])| && Join(xs, [sep])[..|xs[0]|] == xs[0]
    ensures |xs| == 1 ==> Join(xs, [sep]) == xs[0]
    ensures |xs| > 1 ==> Join(xs, [sep]) == xs[0] + [sep] + Join(xs[1..], [sep])
  {
    if |xs| > 2 {
      JoinHead(xs[..|xs| - 1], sep);
      JoinHead(xs[1..], sep);
      assert xs[..|xs| - 1][1..] == xs[1..][..|xs[1..]| - 1];
    } else if |xs| == 2 {
      assert xs[..1] == [xs[0]];
      assert xs[1..] == [xs[1]];
    }
  }

  /** The first separator of a join stands right after its first element. */
  lemma SeparatorAt(xs: seq<string>, sep: char)
    requires |xs| > 0 && Separable(xs, sep)
    ensures |xs[0]| <= |Join(xs, [sep])|
    ensures forall k :: 0 <= k < |xs[0]| ==> Join(xs, [sep])[k] != sep
    ensures |xs| == 1 <==> |Join(xs, [sep])| == |xs[0]|
    ensures |xs| > 1 ==> Join(xs, [sep])[|xs[0]|] == sep
  {
    JoinHead(xs, sep);
    var j := Join(xs, [sep]);
    forall k | 0 <= k < |xs[0]| ensures j[k] != sep {
      assert j[k] == j[..|xs[0]|][k] == xs[0][k];
    }
  }

  /** Joining separator-free, non-empty strings loses no information. */
  lemma {:induction false} JoinInjective(xs: seq<string>, ys: seq<string>, sep: char)
    requires Separable(xs, sep) && Separable(ys, sep)
    requires Join(xs, [sep]) == Join(ys, [sep])
    ensures xs == ys
  {
    if |xs| == 0 || |ys| == 0 {
      if |xs| > 0 { JoinHead(xs, sep); }
      if |ys| > 0 { JoinHead(ys, sep); }
    } else {
      JoinHead(xs, sep);
      JoinHead(ys, sep);
      var j := Join(xs, [sep]);
      SeparatorAt(xs, sep);
      SeparatorAt(ys, sep);
      assert xs[0] == ys[0];
      if |xs| > 1 && |ys| > 1 {
        var tx, ty := Join(xs[1..], [sep]), Join(ys[1..], [sep]);
        assert j == xs[0] + [sep] + tx == ys[0] + [sep] + ty;
        assert tx == j[|xs[0]| + 1..] == ty;
        JoinInjective(xs[1..], ys[1..], sep);
        assert xs == [xs[0]] + xs[1..];
        assert ys == [ys[0]] + ys[1..];
      }
    }
  }
}
