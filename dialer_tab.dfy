/** The dialer: a number built up key by key, a backspace, and the call
    button, which logs an outgoing call for any non-empty number. The
    vibration on a key press, the `tel:` navigation and the toasts are not
    part of this model. */
module DialerTab {
  import opened Wrappers
  import opened Schema

  datatype Key = Key(number: string, letters: string)

  /** `keypadData`: the twelve keys, in the order they are drawn. */
  const Keypad: seq<Key> := [
    Key("1", ""), Key("2", "ABC"), Key("3", "DEF"),
    Key("4", "GHI"), Key("5", "JKL"), Key("6", "MNO"),
    Key("7", "PQRS"), Key("8", "TUV"), Key("9", "WXYZ"),
    Key("*", ""), Key("0", "+"), Key("#", "")]

  /** Twelve keys, each labelled with one character, no label twice. */
  lemma KeypadLabels()
    ensures |Keypad| == 12
    ensures forall i :: 0 <= i < |Keypad| ==> |Keypad[i].number| == 1
    ensures forall i, j :: 0 <= i < j < |Keypad| ==> Keypad[i].number != Keypad[j].number
  {
  }

  /** `s.slice(0, -1)`: everything but the last character; the empty string
      stays empty. */
  function DropLast(s: string): (r: string)
    ensures s == [] ==> r == []
    ensures s != [] ==> r + [s[|s| - 1]] == s
  {
    if s == [] then [] else s[..|s| - 1]
  }

  /** A key press undone by a backspace leaves the number as it was. */
  lemma PressThenBackspace(s: string, k: Key)
    requires k in Keypad
    ensures DropLast(s + k.number) == s
  {
    KeypadLabels();
    assert (s + k.number)[..|s|] == s;
  }

  /** The backspace button is enabled exactly when pressing it would change
      the number. */
  function BackspaceEnabled(dialed: string): (r: bool)
    ensures r <==> DropLast(dialed) != dialed
  {
    if dialed == [] then false
    else
      assert |DropLast(dialed)| < |dialed|;
      true
  }

  /** The body `handleCall` posts to `/api/call-logs`: nothing for an empty
      number, otherwise the number as an outgoing call. */
  function CallRequest(dialed: string): (r: Option<Body>)
    ensures r.None? <==> dialed == []
    ensures r.Some? ==> ParseInsertCallLog(r.value) == Ok(InsertCallLog(None, dialed, None, Outgoing, None))
  {
    if dialed == [] then None
    else Some(Fields(map["phoneNumber" := Str(dialed), "type" := Str("outgoing")]))
  }

  /** The number on the display. */
  class Dialer {
    var dialed: string

    constructor()
      ensures dialed == []
    {
      dialed := [];
    }

    /** `handleNumberPress(number)`: the key's label goes on the end. */
    method Press(k: Key)
      modifies this
      ensures dialed == old(dialed) + k.number
    {
      dialed := dialed + k.number;
    }

    /** `handleBackspace()` */
    method Backspace()
      modifies this
      ensures dialed == DropLast(old(dialed))
    {
      dialed := DropLast(dialed);
    }

    /** `handleCall()`: the request it sends, if any; the number itself
        stays on the display. */
    method Call() returns (request: Option<Body>)
      ensures request.None? <==> dialed == []
      ensures request.Some? ==>
        ParseInsertCallLog(request.value) == Ok(InsertCallLog(None, dialed, None, Outgoing, None))
    {
      request := CallRequest(dialed);
    }
  }
}
