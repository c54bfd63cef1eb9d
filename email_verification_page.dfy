/** The six-cell code entry of the verification page
    (frontend/src/pages/EmailVerificationPage.jsx): the `code` state, the
    input that has focus, and where a successful submission navigates. */
module EmailVerificationPage {
  import opened Base
  import opened JsText
  import UserModel
  import AuthStore

  const CELLS: nat := 6

  /** `code.join('')`. */
  function Join(cells: seq<string>): string
  {
    if cells == [] then "" else cells[0] + Join(cells[1..])
  }

  /** Joining cells of at most one character: the result is as long as the
      number of cells exactly when no cell is empty. */
  lemma {:induction false} JoinLength(cells: seq<string>)
    requires forall i :: 0 <= i < |cells| ==> |cells[i]| <= 1
    ensures |Join(cells)| <= |cells|
    ensures |Join(cells)| == |cells| <==> forall i :: 0 <= i < |cells| ==> cells[i] != ""
  {
    if cells != [] {
      JoinLength(cells[1..]);
      assert forall i :: 1 <= i < |cells| ==> cells[i] == cells[1..][i - 1];
    }
  }

  /** Joining one-character cells gives back their characters in order. */
  lemma {:induction false} JoinOfSingletons(s: string)
    ensures Join(seq(|s|, i requires 0 <= i < |s| => [s[i]])) == s
  {
    if s != [] {
      var cells := seq(|s|, i requires 0 <= i < |s| => [s[i]]);
      assert cells[1..] == seq(|s[1..]|, i requires 0 <= i < |s[1..]| => [s[1..][i]]);
      JoinOfSingletons(s[1..]);
      assert s == [s[0]] + s[1..];
    }
  }

  /** What `handleChange` lets into a cell: at most one character, and
      `isNaN` false, which admits a digit, white space or nothing. */
  predicate Accepted(value: string)
  {
    |value| <= 1 && !IsNaNShort(value)
  }

  lemma AcceptedValues(value: string)
    ensures Accepted(value) <==> value == "" || (|value| == 1 && (IsAsciiDigit(value[0]) || IsJsWhitespace(value[0])))
  {
  }

  /** `/^\d{6}$/` on the first six characters of the clipboard. */
  predicate IsSixDigits(s: string)
  {
    |s| == CELLS && forall i :: 0 <= i < |s| ==> IsAsciiDigit(s[i])
  }

  class VerificationPage {
    var code: seq<string>
    /** The input `inputRefs` last focused. */
    var focus: nat
    var navigatedTo: Option<string>

    ghost predicate Valid()
      reads this
    {
      |code| == CELLS && focus < CELLS && forall i :: 0 <= i < |code| ==> Accepted(code[i])
    }

    /** Six empty cells; the effect on mount focuses the first. */
    constructor ()
      ensures Valid()
      ensures code == seq(CELLS, _ => "") && focus == 0 && navigatedTo == None
    {
      code := seq(CELLS, _ => "");
      focus := 0;
      navigatedTo := None;
    }

    /** `handleChange(index, value)`. */
    method HandleChange(index: nat, value: string)
      requires Valid() && index < CELLS
      modifies this
      ensures Valid() && navigatedTo == old(navigatedTo)
      ensures !Accepted(value) ==> code == old(code) && focus == old(focus)
      ensures Accepted(value) ==> code == old(code)[index := value]
      ensures Accepted(value) && value != "" && index < CELLS - 1 ==> focus == index + 1
      ensures !(Accepted(value) && value != "" && index < CELLS - 1) ==> focus == old(focus)
    {
      if |value| > 1 || IsNaNShort(value) {
        return;
      }
      code := code[index := value];
      if value != "" && index < CELLS - 1 {
        focus := index + 1;
      }
    }

    /** `handleKeyDown(index, e)`: backspace on an empty cell steps back. */
    method HandleKeyDown(index: nat, key: string)
      requires Valid() && index < CELLS
      modifies this
      ensures Valid() && code == old(code) && navigatedTo == old(navigatedTo)
      ensures key == "Backspace" && code[index] == "" && index > 0 ==> focus == index - 1
      ensures !(key == "Backspace" && code[index] == "" && index > 0) ==> focus == old(focus)
    {
      if key == "Backspace" && code[index] == "" && index > 0 {
        focus := index - 1;
      }
    }

    /** `handlePaste(e)`: six digits replace the whole code, anything else
        is ignored. */
    method HandlePaste(clipboard: string)
      requires Valid()
      modifies this
      ensures Valid() && navigatedTo == old(navigatedTo)
      ensures var pasted := clipboard[..if |clipboard| < CELLS then |clipboard| else CELLS];
              && (IsSixDigits(pasted) ==> Join(code) == pasted && focus == CELLS - 1 &&
                                          forall i :: 0 <= i < CELLS ==> code[i] == [pasted[i]])
              && (!IsSixDigits(pasted) ==> code == old(code) && focus == old(focus))
    {
      var pasteData := clipboard[..if |clipboard| < CELLS then |clipboard| else CELLS];
      if IsSixDigits(pasteData) {
        code := seq(|pasteData|, i requires 0 <= i < |pasteData| => [pasteData[i]]);
        JoinOfSingletons(pasteData);
        focus := CELLS - 1;
      }
    }

    /** `handleSubmit(e)` with the verification request ending as
        `outcome`: a complete code is sent unless a request is in flight,
        and only success navigates home. */
    method HandleSubmit(store: AuthStore.AuthStore, outcome: Outcome<Option<UserModel.PublicUser>>)
      returns (sent: Option<string>)
      requires Valid()
      modifies this, store
      ensures Valid() && code == old(code) && focus == old(focus)
      ensures sent.Some? <==> (forall i :: 0 <= i < CELLS ==> code[i] != "") && !old(store.isLoading)
      ensures sent.Some? ==> sent.value == Join(code) && |sent.value| == CELLS
      ensures sent.None? ==> unchanged(store) && navigatedTo == old(navigatedTo)
      ensures sent.Some? ==> store.error == (if outcome.Ok? then None
                                               else Some(OrElse(outcome.serverMessage, AuthStore.VERIFICATION_FAILED)))
      ensures sent.Some? && outcome.Ok? ==> navigatedTo == Some("/")
      ensures sent.Some? && outcome.Failed? ==> navigatedTo == old(navigatedTo)
    {
      var verificationCode := Join(code);
      JoinLength(code);
      if |verificationCode| != CELLS || store.isLoading {
        return None;
      }
      var success := store.VerifyEmail(outcome);
      sent := Some(verificationCode);
      if success {
        navigatedTo := Some("/");
      }
    }
  }
}
