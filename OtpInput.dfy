/**
 * The string edits of the six-box OTP input component: typing a digit into
 * box `index`, Backspace in box `index`, and pasting. Each handler either
 * calls `onChange` with a new value (Some) or does not call it (None).
 * Focus moves are not part of the model.
 */
module OtpInputModel {
  import opened Wrappers
  import opened Strings

  /** `value.split('')`: one single-character string per character. */
  function Split(s: string): (cells: seq<string>)
    ensures |cells| == |s|
    ensures forall i :: 0 <= i < |s| ==> cells[i] == [s[i]]
  {
    seq(|s|, i requires 0 <= i < |s| => [s[i]])
  }

  /**
   * `cells[index] = x` on a JavaScript array. Writing past the end grows the
   * array; the slots skipped over are holes, which `join` prints as "".
   */
  function Assign(cells: seq<string>, index: nat, x: string): (r: seq<string>)
    ensures |r| == if index < |cells| then |cells| else index + 1
    ensures r[index] == x
    ensures forall i :: 0 <= i < |r| && i != index ==> r[i] == (if i < |cells| then cells[i] else "")
  {
    if index < |cells| then cells[index := x] else cells + seq(index - |cells|, _ => "") + [x]
  }

  /** `cells.join('')`. */
  function Join(cells: seq<string>): string {
    if cells == [] then "" else cells[0] + Join(cells[1..])
  }

  lemma {:induction false} JoinAppend(a: seq<string>, b: seq<string>)
    ensures Join(a + b) == Join(a) + Join(b)
  {
    if a == [] {
      assert a + b == b;
    } else {
      assert (a + b)[1..] == a[1..] + b;
      JoinAppend(a[1..], b);
    }
  }

  /** Joining the characters of a split string gives the string back. */
  lemma {:induction false} JoinSplit(s: string)
    ensures Join(Split(s)) == s
  {
    if s != [] {
      assert Split(s)[1..] == Split(s[1..]);
      JoinSplit(s[1..]);
    }
  }

  /** Holes and empty strings contribute nothing to a join. */
  lemma {:induction false} JoinEmpties(cells: seq<string>)
    requires forall i :: 0 <= i < |cells| ==> cells[i] == ""
    ensures Join(cells) == ""
  {
    if cells != [] {
      JoinEmpties(cells[1..]);
    }
  }

  /** Writing x over the character at i and joining splices x in place of that character. */
  lemma JoinReplace(s: string, i: nat, x: string)
    requires i < |s|
    ensures Join(Assign(Split(s), i, x)) == s[..i] + x + s[i + 1..]
  {
    var cells := Assign(Split(s), i, x);
    assert cells == Split(s[..i]) + [x] + Split(s[i + 1..]);
    JoinAppend(Split(s[..i]) + [x], Split(s[i + 1..]));
    JoinAppend(Split(s[..i]), [x]);
    JoinSplit(s[..i]);
    JoinSplit(s[i + 1..]);
    assert [x][1..] == [];
  }

  /** Writing x at or past the end and joining appends x. */
  lemma JoinPastEnd(s: string, i: nat, x: string)
    requires i >= |s|
    ensures Join(Assign(Split(s), i, x)) == s + x
  {
    var holes := seq(i - |s|, _ => "");
    assert Assign(Split(s), i, x) == Split(s) + (holes + [x]);
    JoinAppend(Split(s), holes + [x]);
    JoinAppend(holes, [x]);
    JoinEmpties(holes);
    JoinSplit(s);
    assert [x][1..] == [];
  }

  /** Truncating the character array is splitting the truncated string. */
  lemma TakeSplit(s: string, n: nat)
    ensures Take(Split(s), n) == Split(Take(s, n))
  {
  }

  /** `handleChange(index, e)` with `e.target.value == typed`. */
  function HandleChange(value: string, length: nat, index: nat, typed: string): (r: Option<string>)
    ensures r.None? <==> forall i :: 0 <= i < |typed| ==> !IsDigit(typed[i])
  {
    var newValue := DigitsOnly(typed);
    if newValue == [] then None
    else
      var otpArray := Assign(Take(Split(value), length), index, [newValue[0]]);
      Some(Join(otpArray))
  }

  /** `typed[k]` is the first digit of typed. */
  predicate FirstDigitAt(typed: string, k: nat) {
    k < |typed| && IsDigit(typed[k]) && forall j :: 0 <= j < k ==> !IsDigit(typed[j])
  }

  /** The digit filter of typed starts with its first digit. */
  lemma FirstDigitLeads(typed: string, k: nat)
    requires FirstDigitAt(typed, k)
    ensures DigitsOnly(typed) != [] && DigitsOnly(typed)[0] == typed[k]
  {
    assert typed == typed[..k] + typed[k..];
    DigitsOnlyAppend(typed[..k], typed[k..]);
    assert DigitsOnly(typed[..k]) == [];
    assert typed[k..][0] == typed[k];
  }

  /**
   * Only the first digit typed is used: the value is cut to `length`, then
   * that digit replaces position index, or is appended when index is at or
   * past the cut end.
   */
  lemma HandleChangeWritesFirstDigit(value: string, length: nat, index: nat, typed: string, k: nat)
    requires FirstDigitAt(typed, k)
    ensures var t := Take(value, length);
            HandleChange(value, length, index, typed)
              == Some(if index < |t| then t[..index] + [typed[k]] + t[index + 1..] else t + [typed[k]])
  {
    FirstDigitLeads(typed, k);
    var t := Take(value, length);
    var d := typed[k];
    TakeSplit(value, length);
    if index < |t| {
      JoinReplace(t, index, [d]);
    } else {
      JoinPastEnd(t, index, [d]);
    }
  }

  /** For a box that exists, the new value has at most `length` characters and keeps being all digits. */
  lemma HandleChangeStaysInBounds(value: string, length: nat, index: nat, typed: string)
    requires index < length
    requires HandleChange(value, length, index, typed).Some?
    ensures |HandleChange(value, length, index, typed).value| <= length
    ensures AllDigits(value) ==> AllDigits(HandleChange(value, length, index, typed).value)
  {
    DigitsOnlyHead(typed);
    var k :| 0 <= k < |typed| && typed[k] == DigitsOnly(typed)[0] && forall j :: 0 <= j < k ==> !IsDigit(typed[j]);
    HandleChangeWritesFirstDigit(value, length, index, typed, k);
    var t := Take(value, length);
    var d := typed[k];
    var r := HandleChange(value, length, index, typed).value;
    if AllDigits(value) {
      assert AllDigits(t);
      assert IsDigit(d);
      if index < |t| {
        assert forall i :: 0 <= i < |r| ==> r[i] == (if i == index then d else t[i]);
      } else {
        assert forall i :: 0 <= i < |r| ==> r[i] == (if i == |t| then d else t[i]);
      }
    }
  }

  /** `handleKeyDown(index, e)` with `e.key == key`. */
  function HandleKeyDown(value: string, index: nat, key: string): (r: Option<string>)
    ensures r.None? <==> key != "Backspace"
  {
    if key == "Backspace" then
      var otpArray := Assign(Split(value), index, "");
      Some(Join(otpArray))
    else None
  }

  /**
   * Backspace deletes the character at index and shifts the later ones
   * left; at or past the end the value comes back unchanged.
   */
  lemma BackspaceDeletesAt(value: string, index: nat)
    ensures HandleKeyDown(value, index, "Backspace")
            == Some(if index < |value| then value[..index] + value[index + 1..] else value)
  {
    if index < |value| {
      JoinReplace(value, index, "");
      assert value[..index] + "" == value[..index];
    } else {
      JoinPastEnd(value, index, "");
      assert value + "" == value;
    }
  }

  datatype Pasted = Pasted(value: string, focus: nat)

  function Min(a: nat, b: nat): nat {
    if a < b then a else b
  }

  /** `handlePaste(e)` with clipboard text clip: the new value and the box that gets focus. */
  function HandlePaste(clip: string, length: nat): (r: Option<Pasted>)
    ensures r.None? <==> length == 0 || forall i :: 0 <= i < |clip| ==> !IsDigit(clip[i])
    ensures r.Some? ==> && AllDigits(r.value.value)
                        && 1 <= |r.value.value| <= length
                        && |r.value.value| <= |DigitsOnly(clip)|
                        && r.value.value == DigitsOnly(clip)[..|r.value.value|]
                        && (|r.value.value| == length || |r.value.value| == |DigitsOnly(clip)|)
                        && r.value.focus == |r.value.value| - 1
                        && r.value.focus < length
  {
    var pastedData := Take(DigitsOnly(clip), length);
    if pastedData == [] then None
    else Some(Pasted(pastedData, Min(|pastedData|, length) - 1))
  }
}
