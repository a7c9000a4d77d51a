/** pkg/utils/invite_code.go: random invite codes over a 62-character alphabet. The random
    source is a function from draw position to a drawn index, or to the source's error. */
module InviteCode {
  import opened Wrappers

  /** The alphabet of invite codes: upper-case letters, lower-case letters, digits. */
  const InviteChars := "ABCDEFGHIJKLMNOPQRSTUVWXYZabcdefghijklmnopqrstuvwxyz0123456789"

  /** An index `rand.Int` can return for the bound 62. */
  type CharIndex = i: int | 0 <= i < 62

  /** Draw `i` of the random source. */
  type Draws = nat -> Result<CharIndex>

  /** The first of the first `n` draws that fails, if any. */
  function FirstFailure(draw: Draws, n: nat): (f: Option<nat>)
    ensures f.Some? ==> f.value < n && draw(f.value).Err?
    ensures f.None? <==> forall i :: 0 <= i < n ==> draw(i).Ok?
  {
    if n == 0 then None
    else match FirstFailure(draw, n - 1)
      case Some(i) => Some(i)
      case None => if draw(n - 1).Err? then Some(n - 1) else None
  }

  lemma {:induction false} FirstFailureIsFirst(draw: Draws, n: nat)
    ensures FirstFailure(draw, n).Some? ==>
      var f := FirstFailure(draw, n).value;
      f < n && draw(f).Err? && forall i :: 0 <= i < f ==> draw(i).Ok?
  {
    if n > 0 {
      FirstFailureIsFirst(draw, n - 1);
    }
  }

  /** The code the first `n` draws spell when none of them fails. */
  function CodeOf(draw: Draws, n: nat): (code: string)
    requires forall i :: 0 <= i < n ==> draw(i).Ok?
    ensures |code| == n
    ensures forall k :: 0 <= k < n ==> code[k] in InviteChars
  {
    seq(n, i requires 0 <= i < n => InviteChars[draw(i).value])
  }

  /** Lines 10-20: a code of `length` characters, or "" and the error of the first draw
      that fails. A length of 0 draws nothing. */
  method GenerateInviteCode(length: nat, draw: Draws) returns (code: string, err: Option<string>)
    ensures FirstFailure(draw, length).Some? ==>
      code == "" && err == Some(draw(FirstFailure(draw, length).value).error)
    ensures FirstFailure(draw, length).None? ==>
      err == None && |code| == length && (forall i :: 0 <= i < length ==> draw(i).Ok?)
      && code == CodeOf(draw, length)
    ensures err.None? ==> forall k :: 0 <= k < |code| ==> code[k] in InviteChars
  {
    var result := new char[length](_ => 'A');
    var i := 0;
    while i < length
      invariant 0 <= i <= length
      invariant FirstFailure(draw, i).None?
      invariant forall k :: 0 <= k < i ==> draw(k).Ok? && result[k] == InviteChars[draw(k).value]
    {
      var num := draw(i);
      if num.Err? {
        assert FirstFailure(draw, i + 1) == Some(i);
        FirstFailureLater(draw, i + 1, length);
        return "", Some(num.error);
      }
      result[i] := InviteChars[num.value];
      i := i + 1;
    }
    code, err := result[..], None;
  }

  /** Once a failure is among the first `n` draws, it stays the first failure. */
  lemma {:induction false} FirstFailureLater(draw: Draws, n: nat, m: nat)
    requires n <= m && FirstFailure(draw, n).Some?
    ensures FirstFailure(draw, m) == FirstFailure(draw, n)
  {
    if n < m {
      FirstFailureLater(draw, n, m - 1);
    }
  }
}
