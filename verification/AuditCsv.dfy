/**
 The CSV export of audit logs (backend/src/audit/audit.service.ts) and its inverse: a parser for the quoted-field
 rules of section 2 of RFC 4180, with LF between records as the export writes them.
 */
module AuditCsv {
  import opened Wrappers

  /** `metadata` and `createdAt` are the JSON and ISO texts of those columns. */
  datatype AuditLog = AuditLog(
    id: string, actorType: string, actorIdentifier: Option<string>, action: string, entityType: string,
    entityId: string, summary: Option<string>, metadata: string, createdAt: string)

  const HEADER: seq<string> := [
    "id", "actorType", "actorIdentifier", "action", "entityType", "entityId", "summary", "metadata", "createdAt"]

  function OrEmpty(value: Option<string>): string {
    match value case Some(s) => s case None => ""
  }

  function FieldsOf(log: AuditLog): (fields: seq<string>)
    ensures |fields| == |HEADER|
  {
    [log.id, log.actorType, OrEmpty(log.actorIdentifier), log.action, log.entityType, log.entityId,
     OrEmpty(log.summary), log.metadata, log.createdAt]
  }

  /** Every column holds what its name says. */
  lemma ColumnsAreNamed(log: AuditLog, i: nat)
    requires i < |HEADER|
    ensures FieldsOf(log)[i] ==
      (match HEADER[i]
       case "id" => log.id
       case "actorType" => log.actorType
       case "actorIdentifier" => if log.actorIdentifier.Some? then log.actorIdentifier.value else ""
       case "action" => log.action
       case "entityType" => log.entityType
       case "entityId" => log.entityId
       case "summary" => if log.summary.Some? then log.summary.value else ""
       case "metadata" => log.metadata
       case _ => log.createdAt)
    ensures |HEADER| == 9 && HEADER[8] == "createdAt"
  {
  }

  // ---- the printer ----

  /** Every quote doubled. */
  function DoubleQuotes(s: string): string {
    if s == [] then [] else (if s[0] == '"' then ['"', '"'] else [s[0]]) + DoubleQuotes(s[1..])
  }

  function Quote(s: string): string {
    ['"'] + DoubleQuotes(s) + ['"']
  }

  function QuoteAll(fields: seq<string>): seq<string> {
    if fields == [] then [] else [Quote(fields[0])] + QuoteAll(fields[1..])
  }

  function Join(parts: seq<string>, separator: char): string {
    if parts == [] then []
    else if |parts| == 1 then parts[0]
    else parts[0] + [separator] + Join(parts[1..], separator)
  }

  function Lines(logs: seq<AuditLog>): seq<string> {
    if logs == [] then [] else [Join(QuoteAll(FieldsOf(logs[0])), ',')] + Lines(logs[1..])
  }

  function SerializeAuditLogsCsv(logs: seq<AuditLog>): string {
    Join([Join(HEADER, ',')] + Lines(logs), '\n')
  }

  // ---- the parser ----

  /** The rest of an escaped field after its opening quote: its value and what follows the closing quote. */
  function ParseEscaped(s: string): (r: Option<(string, string)>)
    ensures r.Some? ==> |r.value.1| < |s|
  {
    if s == [] then None
    else if s[0] != '"' then
      (match ParseEscaped(s[1..])
       case None => None
       case Some((value, rest)) => Some(([s[0]] + value, rest)))
    else if |s| >= 2 && s[1] == '"' then
      (match ParseEscaped(s[2..])
       case None => None
       case Some((value, rest)) => Some((['"'] + value, rest)))
    else Some(([], s[1..]))
  }

  predicate IsTextData(ch: char) {
    ch != '"' && ch != ',' && ch != '\n' && ch != '\r'
  }

  function ParsePlain(s: string): (r: (string, string))
    ensures |r.1| <= |s|
  {
    if s != [] && IsTextData(s[0]) then
      var (value, rest) := ParsePlain(s[1..]);
      ([s[0]] + value, rest)
    else ([], s)
  }

  function ParseField(s: string): (r: Option<(string, string)>)
    ensures r.Some? ==> |r.value.1| <= |s|
  {
    if s != [] && s[0] == '"' then ParseEscaped(s[1..]) else Some(ParsePlain(s))
  }

  /** One record and what follows it. */
  function ParseRecord(s: string): (r: Option<(seq<string>, string)>)
    ensures r.Some? ==> |r.value.1| <= |s|
    decreases |s|
  {
    match ParseField(s)
    case None => None
    case Some((field, rest)) =>
      if rest != [] && rest[0] == ',' then
        (match ParseRecord(rest[1..])
         case None => None
         case Some((fields, rest')) => Some(([field] + fields, rest')))
      else Some(([field], rest))
  }

  /** A whole file; the line break after the last record is optional. */
  function ParseFile(s: string): Option<seq<seq<string>>>
    decreases |s|
  {
    match ParseRecord(s)
    case None => None
    case Some((record, rest)) =>
      if rest == [] || rest == ['\n'] then Some([record])
      else if rest[0] != '\n' then None
      else
        match ParseFile(rest[1..])
        case None => None
        case Some(records) => Some([record] + records)
  }

  // ---- the round trip ----

  lemma {:induction false} ParseEscapedInvertsDoubling(s: string, rest: string)
    requires rest == [] || rest[0] != '"'
    ensures ParseEscaped(DoubleQuotes(s) + ['"'] + rest) == Some((s, rest))
  {
    var printed := DoubleQuotes(s) + ['"'] + rest;
    if s == [] {
      assert printed == ['"'] + rest;
      assert printed[1..] == rest;
    } else {
      ParseEscapedInvertsDoubling(s[1..], rest);
      var tail := DoubleQuotes(s[1..]) + ['"'] + rest;
      if s[0] == '"' {
        assert printed == ['"', '"'] + tail;
        assert printed[2..] == tail;
      } else {
        assert printed == [s[0]] + tail;
        assert printed[1..] == tail;
      }
      assert s == [s[0]] + s[1..];
    }
  }

  lemma ParseFieldInvertsQuote(s: string, rest: string)
    requires rest == [] || rest[0] != '"'
    ensures ParseField(Quote(s) + rest) == Some((s, rest))
  {
    ParseEscapedInvertsDoubling(s, rest);
    assert (Quote(s) + rest)[1..] == DoubleQuotes(s) + ['"'] + rest;
  }

  /** What may follow a record. */
  predicate RecordEnd(rest: string) {
    rest == [] || rest[0] == '\n'
  }

  lemma {:induction false} ParseRecordInvertsJoin(fields: seq<string>, rest: string)
    requires fields != [] && RecordEnd(rest)
    ensures ParseRecord(Join(QuoteAll(fields), ',') + rest) == Some((fields, rest))
  {
    var line := Join(QuoteAll(fields), ',') + rest;
    if |fields| == 1 {
      assert QuoteAll(fields) == [Quote(fields[0])];
      ParseFieldInvertsQuote(fields[0], rest);
      assert fields == [fields[0]];
    } else {
      var tail := Join(QuoteAll(fields[1..]), ',') + rest;
      assert QuoteAll(fields)[1..] == QuoteAll(fields[1..]) && QuoteAll(fields[1..]) != [];
      assert line == Quote(fields[0]) + ([','] + tail);
      ParseFieldInvertsQuote(fields[0], [','] + tail);
      assert ([','] + tail)[1..] == tail;
      ParseRecordInvertsJoin(fields[1..], rest);
      assert fields == [fields[0]] + fields[1..];
    }
  }

  predicate IsPlain(s: string) {
    forall i :: 0 <= i < |s| ==> IsTextData(s[i])
  }

  lemma {:induction false} ParsePlainInvertsText(s: string, rest: string)
    requires IsPlain(s) && (rest == [] || !IsTextData(rest[0]))
    ensures ParsePlain(s + rest) == (s, rest)
  {
    if s == [] {
      assert s + rest == rest;
    } else {
      assert (s + rest)[1..] == s[1..] + rest;
      ParsePlainInvertsText(s[1..], rest);
      assert s == [s[0]] + s[1..];
    }
  }

  lemma {:induction false} ParseRecordInvertsPlainJoin(fields: seq<string>, rest: string)
    requires fields != [] && RecordEnd(rest) && forall i :: 0 <= i < |fields| ==> IsPlain(fields[i]) && fields[i] != []
    ensures ParseRecord(Join(fields, ',') + rest) == Some((fields, rest))
  {
    var line := Join(fields, ',') + rest;
    if |fields| == 1 {
      ParsePlainInvertsText(fields[0], rest);
      assert fields == [fields[0]];
    } else {
      var tail := Join(fields[1..], ',') + rest;
      assert line == fields[0] + ([','] + tail);
      ParsePlainInvertsText(fields[0], [','] + tail);
      assert ([','] + tail)[1..] == tail;
      ParseRecordInvertsPlainJoin(fields[1..], rest);
      assert fields == [fields[0]] + fields[1..];
    }
  }

  function AllFields(logs: seq<AuditLog>): seq<seq<string>> {
    if logs == [] then [] else [FieldsOf(logs[0])] + AllFields(logs[1..])
  }

  lemma {:induction false} ParseFileInvertsLines(logs: seq<AuditLog>)
    requires logs != []
    ensures ParseFile(Join(Lines(logs), '\n')) == Some(AllFields(logs))
  {
    var first := Join(QuoteAll(FieldsOf(logs[0])), ',');
    if |logs| == 1 {
      assert Lines(logs) == [first] && first + [] == first;
      ParseRecordInvertsJoin(FieldsOf(logs[0]), []);
      assert AllFields(logs) == [FieldsOf(logs[0])];
    } else {
      var tail := Join(Lines(logs[1..]), '\n');
      assert Lines(logs)[1..] == Lines(logs[1..]) && Lines(logs[1..]) != [];
      assert Join(Lines(logs), '\n') == first + (['\n'] + tail);
      ParseRecordInvertsJoin(FieldsOf(logs[0]), ['\n'] + tail);
      assert (['\n'] + tail)[1..] == tail;
      ParseFileInvertsLines(logs[1..]);
      LinesNotEmpty(logs[1..]);
    }
  }

  /** A printed record starts with a quote, so it is never empty. */
  lemma LinesNotEmpty(logs: seq<AuditLog>)
    requires logs != []
    ensures Join(Lines(logs), '\n') != []
  {
    var fields := FieldsOf(logs[0]);
    assert QuoteAll(fields) != [] && QuoteAll(fields)[0] == Quote(fields[0]);
    assert Join(QuoteAll(fields), ',') != [];
    assert Lines(logs) != [] && Lines(logs)[0] == Join(QuoteAll(fields), ',');
  }

  lemma FileRoundTrip(header: seq<string>, logs: seq<AuditLog>)
    requires header != [] && forall i :: 0 <= i < |header| ==> IsPlain(header[i]) && header[i] != []
    ensures ParseFile(Join([Join(header, ',')] + Lines(logs), '\n')) == Some([header] + AllFields(logs))
  {
    var first := Join(header, ',');
    if logs == [] {
      assert [first] + Lines(logs) == [first] && first + [] == first;
      ParseRecordInvertsPlainJoin(header, []);
      assert [header] + AllFields(logs) == [header];
    } else {
      var tail := Join(Lines(logs), '\n');
      assert ([first] + Lines(logs))[1..] == Lines(logs) && Lines(logs) != [];
      assert Join([first] + Lines(logs), '\n') == first + (['\n'] + tail);
      ParseRecordInvertsPlainJoin(header, ['\n'] + tail);
      assert (['\n'] + tail)[1..] == tail;
      ParseFileInvertsLines(logs);
      LinesNotEmpty(logs);
    }
  }

  /** Parsing an export gives back exactly the header and, in order, the fields of every log record, whatever
      quotes, commas and line breaks they contain. */
  lemma CsvRoundTrip(logs: seq<AuditLog>)
    ensures ParseFile(SerializeAuditLogsCsv(logs)) == Some([HEADER] + AllFields(logs))
  {
    FileRoundTrip(HEADER, logs);
  }

  lemma {:induction false} AllFieldsAt(logs: seq<AuditLog>, i: nat)
    requires i < |logs|
    ensures |AllFields(logs)| == |logs| && AllFields(logs)[i] == FieldsOf(logs[i])
  {
    if |logs| > 1 {
      AllFieldsAt(logs[1..], if i == 0 then 0 else i - 1);
    }
  }

  /** Two exports are the same text only if they list the same field values; a null is told apart from an
      empty text by nothing else. */
  lemma ExportIsInjective(logs: seq<AuditLog>, logs': seq<AuditLog>)
    requires SerializeAuditLogsCsv(logs) == SerializeAuditLogsCsv(logs')
    ensures |logs| == |logs'| && forall i :: 0 <= i < |logs| ==> FieldsOf(logs[i]) == FieldsOf(logs'[i])
  {
    CsvRoundTrip(logs);
    CsvRoundTrip(logs');
    assert ([HEADER] + AllFields(logs))[1..] == AllFields(logs);
    assert ([HEADER] + AllFields(logs'))[1..] == AllFields(logs');
    if logs != [] { AllFieldsAt(logs, 0); }
    if logs' != [] { AllFieldsAt(logs', 0); }
    forall i | 0 <= i < |logs| ensures FieldsOf(logs[i]) == FieldsOf(logs'[i]) {
      AllFieldsAt(logs, i);
      AllFieldsAt(logs', i);
    }
  }
}
