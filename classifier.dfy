/**
 * The diagnostic callback handed to SQLite's `config_log`: it maps the
 * engine's result code to a severity and prints one tagged line that ends
 * with the engine's message.
 */
module Classifier {
  import opened Results
  import Decimal

  datatype Severity = Info | Debug | Warn

  /** SQLITE_NOTICE_RECOVER_WAL and SQLITE_NOTICE_RECOVER_ROLLBACK. */
  const RecoverWal: int := 283
  const RecoverRollback: int := 539

  const SourceTag := " [sqlite] "
  const InfoLead := "INFO" + SourceTag
  const DebugLead := "DEBUG" + SourceTag + "code="
  const Separator := ": "
  const RecoveredText := Separator + "sqlite successfully recovered from a previous abnormal shutdown: "
  const WarnLead := "WARN" + SourceTag + "error_code="

  /** A delivered diagnostic: the engine's code and message. */
  datatype Event = Event(code: int, message: string)

  /**
   * Exactly one severity per code, decided in priority order: the "no error"
   * code, then the two recovery notices, then everything else (negative
   * codes included).
   */
  function Classify(code: int): (s: Severity)
    ensures s == Info <==> code == 0
    ensures s == Debug <==> code == RecoverWal || code == RecoverRollback
    ensures s == Warn <==> code != 0 && code != RecoverWal && code != RecoverRollback
  {
    match code
    case 0 => Info
    case 283 | 539 => Debug
    case _ => Warn
  }

  function Tag(s: Severity): string {
    match s
    case Info => "INFO"
    case Debug => "DEBUG"
    case Warn => "WARN"
  }

  /** The line the callback prints for one event (terminal colours dropped). */
  function LogLine(code: int, message: string): (line: string)
    ensures Tag(Classify(code)) + SourceTag <= line
    ensures |message| <= |line| && line[|line| - |message|..] == message
    ensures Classify(code) == Info ==> line == InfoLead + message
    ensures Classify(code) == Debug ==> DebugLead + Decimal.IntToString(code) + RecoveredText <= line
    ensures Classify(code) == Warn ==> WarnLead + Decimal.IntToString(code) + Separator <= line
  {
    match Classify(code)
    case Info => InfoLead + message
    case Debug => DebugLead + Decimal.IntToString(code) + RecoveredText + message
    case Warn => WarnLead + Decimal.IntToString(code) + Separator + message
  }

  lemma Concat(a: string, b: string)
    ensures a <= a + b
    ensures (a + b)[..|a|] == a && (a + b)[|a|..] == b
  {
  }

  /** Index of the first ':' in `s`, or |s| when there is none. */
  function ColonIndex(s: string): (k: nat)
    ensures k <= |s|
    ensures forall i :: 0 <= i < k ==> s[i] != ':'
    ensures k < |s| ==> s[k] == ':'
  {
    if s == [] || s[0] == ':' then 0 else 1 + ColonIndex(s[1..])
  }

  /** Splits `rest` into a decimal code and what follows `text` after it. */
  function ParseCoded(rest: string, text: string): Option<Event> {
    var k := ColonIndex(rest);
    match Decimal.ParseInt(rest[..k])
    case None => None
    case Some(c) =>
      if text <= rest[k..] then Some(Event(c, rest[k + |text|..])) else None
  }

  /**
   * Recovers the event from a printed line: the reading a person does on the
   * transcript. None for a line the callback cannot have printed in that shape.
   */
  function ParseLogLine(line: string): Option<Event> {
    if InfoLead <= line then Some(Event(0, line[|InfoLead|..]))
    else if DebugLead <= line then ParseCoded(line[|DebugLead|..], RecoveredText)
    else if WarnLead <= line then ParseCoded(line[|WarnLead|..], Separator)
    else None
  }

  lemma {:induction false} ColonIndexAfterDigits(a: string, b: string)
    requires forall i :: 0 <= i < |a| ==> a[i] != ':'
    requires |b| > 0 && b[0] == ':'
    ensures ColonIndex(a + b) == |a|
  {
    if a != [] {
      assert (a + b)[1..] == a[1..] + b;
      ColonIndexAfterDigits(a[1..], b);
    }
  }

  lemma CodedRoundTrip(code: int, text: string, message: string)
    requires |text| > 0 && text[0] == ':'
    ensures ParseCoded(Decimal.IntToString(code) + text + message, text) == Some(Event(code, message))
  {
    var digits := Decimal.IntToString(code);
    var rest := digits + text + message;
    Decimal.IntToStringDigits(code);
    assert forall i :: 0 <= i < |digits| ==> digits[i] != ':' by {
      forall i | 0 <= i < |digits| ensures digits[i] != ':' {
        if i > 0 || code >= 0 {
          assert Decimal.IsDigit(digits[i]);
        }
      }
    }
    assert rest == digits + (text + message);
    ColonIndexAfterDigits(digits, text + message);
    assert rest[..|digits|] == digits;
    assert rest[|digits|..] == text + message;
    Decimal.IntToStringRoundTrip(code);
  }

  lemma LeadMismatch(lead: string, line: string)
    requires |lead| > 0 && |line| > 0 && lead[0] != line[0]
    ensures !(lead <= line)
  {
  }

  lemma CodedLineParses(lead: string, code: int, text: string, message: string)
    requires |text| > 0 && text[0] == ':'
    ensures var line := lead + Decimal.IntToString(code) + text + message;
      lead <= line && ParseCoded(line[|lead|..], text) == Some(Event(code, message))
  {
    var rest := Decimal.IntToString(code) + text + message;
    assert lead + Decimal.IntToString(code) + text + message == lead + rest;
    Concat(lead, rest);
    CodedRoundTrip(code, text, message);
  }

  /** The printed line determines the event: severity, code and message. */
  lemma LogLineRoundTrip(code: int, message: string)
    ensures ParseLogLine(LogLine(code, message)) == Some(Event(code, message))
  {
    var line := LogLine(code, message);
    match Classify(code)
    case Info =>
      Concat(InfoLead, message);
    case Debug =>
      CodedLineParses(DebugLead, code, RecoveredText, message);
      LeadMismatch(InfoLead, line);
    case Warn =>
      CodedLineParses(WarnLead, code, Separator, message);
      LeadMismatch(InfoLead, line);
      LeadMismatch(DebugLead, line);
  }

  /** So the classifier never prints the same line for two different events. */
  lemma LogLineInjective(a: Event, b: Event)
    ensures LogLine(a.code, a.message) == LogLine(b.code, b.message) ==> a == b
  {
    LogLineRoundTrip(a.code, a.message);
    LogLineRoundTrip(b.code, b.message);
  }
}
