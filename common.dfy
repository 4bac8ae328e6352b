/** Small value types and text helpers shared by every module of the model. */
module Common {

  datatype Option<+T> = None | Some(value: T)

  /** The outcome of an operation whose Python original may raise: `Err` stands for the
      exception that escapes it. */
  datatype Result<+T, +E> = Ok(value: T) | Err(error: E)

  function Digit(d: nat): (c: char)
    requires d < 10
    ensures '0' <= c <= '9'
  {
    "0123456789"[d]
  }

  /** Python's `str(n)` for a non-negative integer: its decimal digits, most significant first. */
  function NatToString(n: nat): (s: string)
    ensures 1 <= |s|
    ensures forall i :: 0 <= i < |s| ==> '0' <= s[i] <= '9'
    ensures n < 10 <==> |s| == 1
  {
    if n < 10 then [Digit(n)] else NatToString(n / 10) + [Digit(n % 10)]
  }

  /** Python's `sep.join(xs)`. */
  function Join(sep: string, xs: seq<string>): (r: string)
    ensures |xs| == 0 ==> r == ""
    ensures |xs| == 1 ==> r == xs[0]
  {
    if |xs| == 0 then ""
    else if |xs| == 1 then xs[0]
    else xs[0] + sep + Join(sep, xs[1..])
  }

  /** Joining a list grown by one element adds the separator and that element at the end. */
  lemma {:induction false} JoinSnoc(sep: string, xs: seq<string>, x: string)
    requires |xs| > 0
    ensures Join(sep, xs + [x]) == Join(sep, xs) + sep + x
  {
    if |xs| == 1 {
      assert xs + [x] == [xs[0], x];
      assert (xs + [x])[1..] == [x];
    } else {
      assert (xs + [x])[1..] == xs[1..] + [x];
      JoinSnoc(sep, xs[1..], x);
    }
  }

  /** Python's `s[1:]`: everything after the first character, and "" for "". */
  function DropFirst(s: string): (r: string)
    ensures |s| > 0 ==> [s[0]] + r == s
    ensures |s| == 0 ==> r == ""
  {
    if |s| == 0 then "" else s[1..]
  }

  /** The index of the first item whose provider call raises, or the number of items when none
      does; `succeeds` tells whether the call for an item returns normally. */
  function FirstRefused(ids: seq<string>, succeeds: string -> bool): (n: nat)
    ensures n <= |ids|
    ensures forall k :: 0 <= k < n ==> succeeds(ids[k])
    ensures n < |ids| ==> !succeeds(ids[n])
  {
    if |ids| == 0 || !succeeds(ids[0]) then 0 else 1 + FirstRefused(ids[1..], succeeds)
  }

  /** `str` of a running total that starts as the integer `0` and becomes a float at its first
      addition: `"0"` while nothing was added, `show` (the float rendering) afterwards. */
  function SavingsText(total: real, added: bool, show: real -> string): (s: string)
    ensures !added ==> s == "0"
  {
    if added then show(total) else "0"
  }

  /** The verbose report of a batch of deletes that returned: one line `<what><id> deleted` per id,
      in order. */
  function DeletedLines(what: string, ids: seq<string>): (lines: seq<string>)
    ensures |lines| == |ids|
  {
    if |ids| == 0 then [] else DeletedLines(what, ids[..|ids| - 1]) + [what + ids[|ids| - 1] + " deleted"]
  }

  /** The distinct elements of `xs` in order of first appearance. */
  function FirstSeen(xs: seq<string>): (r: seq<string>)
    ensures forall x :: x in r <==> x in xs
  {
    if |xs| == 0 then []
    else
      var rest := FirstSeen(xs[..|xs| - 1]);
      var x := xs[|xs| - 1];
      assert xs == xs[..|xs| - 1] + [x];
      if x in rest then rest else rest + [x]
  }
}
