/**
 * ILogger: an append-only list of text lines. Every Log overload appends
 * exactly one line; Clear empties the list. The line formats are given by
 * the functions below, so that the parsers' specifications can say which
 * lines a parse appends.
 */
module Logging {
  import opened Wrappers
  import opened Json

  function Digit(d: nat): (c: char)
    requires d < 10
    ensures '0' <= c <= '9'
  {
    "0123456789"[d]
  }

  function DigitValue(c: char): nat
  {
    if '0' <= c <= '9' then (c as int - '0' as int) as nat else 0
  }

  /** The decimal text of a number, as an output stream writes a size_t or an enum. */
  function NatToString(n: nat): (s: string)
    decreases n
    ensures 1 <= |s|
    ensures forall i | 0 <= i < |s| :: '0' <= s[i] <= '9'
  {
    if n < 10 then [Digit(n)] else NatToString(n / 10) + [Digit(n % 10)]
  }

  /** Reads a string of decimal digits back as a number. */
  function DecimalValue(s: string): nat
    decreases |s|
  {
    if s == [] then 0 else 10 * DecimalValue(s[..|s| - 1]) + DigitValue(s[|s| - 1])
  }

  /** A digit reads back as its value. */
  lemma DigitRoundTrip(d: nat)
    requires d < 10
    ensures DigitValue(Digit(d)) == d
  {
  }

  lemma {:induction false} DecimalRoundTrip(n: nat)
    ensures DecimalValue(NatToString(n)) == n
    decreases n
  {
    var s := NatToString(n);
    if n < 10 {
      DigitRoundTrip(n);
      assert s[..0] == [];
    } else {
      var q, d := n / 10, n % 10;
      assert n == 10 * q + d;
      DecimalRoundTrip(q);
      DigitRoundTrip(d);
      assert s[..|s| - 1] == NatToString(q) && s[|s| - 1] == Digit(d);
    }
  }

  /** The line of Log(message, value). */
  function ValueLine(message: string, value: nat): string {
    message + " - " + NatToString(value)
  }

  /** The text Log(pJson, message) writes after the message for a named node. */
  function JsonSuffix(key: string, v: JsonValue): string {
    if key != "" then " - json - key - " + key + " - type - " + NatToString(TypeCode(v))
    else " - json - type - " + NatToString(TypeCode(v))
  }

  /**
   * The line of Log(pJson, message): for a named node, the message with the
   * key (when not empty) and the type code; for an unnamed node, nothing at
   * all; for a missing node, the message alone.
   */
  function JsonLine(j: Option<Json>, message: string): string {
    match j
    case None => message
    case Some(n) =>
      match n.name
      case None => ""
      case Some(key) => message + JsonSuffix(key, n.value)
  }

  /** The line of Log(pJson, message, value): as JsonLine, with " - value" after the message. */
  function JsonValueLine(j: Option<Json>, message: string, value: nat): string {
    match j
    case None => ValueLine(message, value)
    case Some(n) =>
      match n.name
      case None => ""
      case Some(key) => ValueLine(message, value) + JsonSuffix(key, n.value)
  }

  lemma JsonLineShapes(j: Json, message: string, value: nat)
    ensures j.name.None? ==> JsonLine(Some(j), message) == "" && JsonValueLine(Some(j), message, value) == ""
    ensures j.name.Some? ==> JsonLine(Some(j), message)[..|message|] == message
    ensures j.name.Some? ==> JsonValueLine(Some(j), message, value)[..|message|] == message
    ensures JsonLine(None, message) == message
    ensures JsonValueLine(None, message, value) == ValueLine(message, value)
  {
  }

  class Logger {
    var lines: seq<string>

    constructor ()
      ensures lines == []
    {
      lines := [];
    }

    method Clear()
      modifies this
      ensures lines == []
    {
      lines := [];
    }

    method Log(message: string)
      modifies this
      ensures lines == old(lines) + [message]
    {
      lines := lines + [message];
    }

    method LogValue(message: string, value: nat)
      modifies this
      ensures lines == old(lines) + [ValueLine(message, value)]
    {
      lines := lines + [message + " - " + NatToString(value)];
    }

    method LogJson(j: Option<Json>, message: string)
      modifies this
      ensures lines == old(lines) + [JsonLine(j, message)]
    {
      var line := "";
      if j.Some? {
        if j.value.name.Some? {
          var key := j.value.name.value;
          if key != "" {
            line := message + (" - json - key - " + key + " - type - " + NatToString(TypeCode(j.value.value)));
          } else {
            line := message + (" - json - type - " + NatToString(TypeCode(j.value.value)));
          }
        }
      } else {
        line := message;
      }
      lines := lines + [line];
    }

    method LogJsonValue(j: Option<Json>, message: string, value: nat)
      modifies this
      ensures lines == old(lines) + [JsonValueLine(j, message, value)]
    {
      var line := "";
      var head := message + " - " + NatToString(value);
      if j.Some? {
        if j.value.name.Some? {
          var key := j.value.name.value;
          if key != "" {
            line := head + (" - json - key - " + key + " - type - " + NatToString(TypeCode(j.value.value)));
          } else {
            line := head + (" - json - type - " + NatToString(TypeCode(j.value.value)));
          }
        }
      } else {
        line := head;
      }
      lines := lines + [line];
    }
  }
}
