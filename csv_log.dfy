/** The submission log of src/app/api/generate-fortune/route.ts: the row format
    (quoted fields, the name field's inner quotes doubled, rows ended by a line
    feed), the header row, and the effect of one logging call on the file.

    The row reader ParseRecord reads quoted fields the way section 2 of
    RFC 4180 describes them (rules 5 to 7: a field is enclosed in double quotes
    and an inner double quote is written twice); it is the reference reader
    for the rows the log writes. It reads only quoted fields, so it does not
    accept the unquoted header row. */
module CsvLog {
  import opened FortuneTypes

  /** The header row (route.ts:15). */
  const Header: string := "Timestamp,Name,Gender,DOB\n"

  predicate QuoteFree(s: string) {
    forall i :: 0 <= i < |s| ==> s[i] != '"'
  }

  /** `name.replace(/"/g, '""')`: every double quote is doubled. */
  function Escape(s: string): (r: string)
    ensures |s| <= |r| <= 2 * |s|
    ensures r == [] <==> s == []
    decreases |s|
  {
    if s == [] then []
    else (if s[0] == '"' then "\"\"" else [s[0]]) + Escape(s[1..])
  }

  /** Collapses every doubled quote back into one. */
  function Unescape(r: string): (s: string)
    decreases |r|
  {
    if r == [] then []
    else if |r| >= 2 && r[0] == '"' && r[1] == '"' then "\"" + Unescape(r[2..])
    else [r[0]] + Unescape(r[1..])
  }

  /** Collapsing each doubled quote of the escaped name gives the name back. */
  lemma {:induction false} UnescapeEscape(s: string)
    ensures Unescape(Escape(s)) == s
  {
    if s != [] {
      var e := Escape(s[1..]);
      UnescapeEscape(s[1..]);
      if s[0] == '"' {
        assert Escape(s) == "\"\"" + e;
        assert ("\"\"" + e)[2..] == e;
      } else {
        assert Escape(s) == [s[0]] + e;
        assert ([s[0]] + e)[1..] == e;
      }
    }
  }

  /** Escaping leaves a text without double quotes as it is. */
  lemma {:induction false} EscapeQuoteFree(s: string)
    requires QuoteFree(s)
    ensures Escape(s) == s
  {
    if s != [] {
      assert QuoteFree(s[1..]) by {
        forall i | 0 <= i < |s[1..]| ensures s[1..][i] != '"' {
          assert s[1..][i] == s[i + 1];
        }
      }
      EscapeQuoteFree(s[1..]);
      assert s == [s[0]] + s[1..];
    }
  }

  /** The row `logUserToCSV` appends (route.ts:11): four quoted fields, only the
      name escaped, gender and date of birth inserted as they are. */
  function CsvLine(timestamp: string, name: string, gender: string, dob: string): (line: string)
    ensures |line| == |timestamp| + |Escape(name)| + |gender| + |dob| + 12
    ensures line[0] == '"' && line[|line| - 2..] == "\"\n"
  {
    "\"" + timestamp + "\",\"" + Escape(name) + "\",\"" + gender + "\",\"" + dob + "\"\n"
  }

  /** A record in which EVERY field is quoted and escaped, ended by a line feed:
      the reference writer for RFC 4180 style rows. */
  function Record(fields: seq<string>): (r: string)
    requires fields != []
    decreases |fields|
  {
    "\"" + Escape(fields[0]) + "\"" + (if |fields| == 1 then "\n" else "," + Record(fields[1..]))
  }

  /** Reads the inside of a quoted field, starting just after its opening quote:
      a doubled quote stands for one quote, a lone quote closes the field.
      Gives the field and what follows the closing quote. */
  function ParseQuotedBody(r: string): (res: Option<(string, string)>)
    ensures res.Some? ==> |res.value.1| < |r|
    decreases |r|
  {
    if r == [] then None
    else if r[0] == '"' then
      if |r| >= 2 && r[1] == '"' then
        match ParseQuotedBody(r[2..])
        case None => None
        case Some(p) => Some(("\"" + p.0, p.1))
      else Some(("", r[1..]))
    else
      match ParseQuotedBody(r[1..])
      case None => None
      case Some(p) => Some(([r[0]] + p.0, p.1))
  }

  /** Reads one record: quoted fields separated by commas and ended by a line feed. */
  function ParseRecord(r: string): (fields: Option<seq<string>>)
    decreases |r|
  {
    if r == [] || r[0] != '"' then None
    else
      match ParseQuotedBody(r[1..])
      case None => None
      case Some(p) =>
        if p.1 == "\n" then Some([p.0])
        else if p.1 != [] && p.1[0] == ',' then
          match ParseRecord(p.1[1..])
          case None => None
          case Some(fs) => Some([p.0] + fs)
        else None
  }

  /** An escaped field followed by a closing quote reads back as the field,
      provided what follows cannot be taken for a second quote. */
  lemma {:induction false} ParseEscaped(s: string, rest: string)
    requires rest == [] || rest[0] != '"'
    ensures ParseQuotedBody(Escape(s) + "\"" + rest) == Some((s, rest))
  {
    var r := Escape(s) + "\"" + rest;
    if s == [] {
      assert r == "\"" + rest;
      assert r[1..] == rest;
    } else {
      var e := Escape(s[1..]);
      ParseEscaped(s[1..], rest);
      if s[0] == '"' {
        assert r == "\"\"" + (e + "\"" + rest);
        assert r[2..] == e + "\"" + rest;
        assert "\"" + s[1..] == s;
      } else {
        assert r == [s[0]] + (e + "\"" + rest);
        assert r[1..] == e + "\"" + rest;
        assert [s[0]] + s[1..] == s;
      }
    }
  }

  /** Reading a record written by Record gives back exactly its fields. */
  lemma {:induction false} RecordRoundTrip(fields: seq<string>)
    requires fields != []
    ensures ParseRecord(Record(fields)) == Some(fields)
  {
    var tail := if |fields| == 1 then "\n" else "," + Record(fields[1..]);
    var r := Record(fields);
    assert r == "\"" + (Escape(fields[0]) + "\"" + tail);
    assert r[0] == '"' && r[1..] == Escape(fields[0]) + "\"" + tail;
    ParseEscaped(fields[0], tail);
    if |fields| > 1 {
      RecordRoundTrip(fields[1..]);
      assert tail[0] == ',' && tail != "\n";
      assert tail[1..] == Record(fields[1..]);
      assert [fields[0]] + fields[1..] == fields;
    } else {
      assert fields == [fields[0]];
    }
  }

  /** When the timestamp, gender and date of birth hold no double quote, the
      logged row is the fully escaped record of the four fields. */
  lemma CsvLineIsRecord(timestamp: string, name: string, gender: string, dob: string)
    requires QuoteFree(timestamp) && QuoteFree(gender) && QuoteFree(dob)
    ensures CsvLine(timestamp, name, gender, dob) == Record([timestamp, name, gender, dob])
  {
    EscapeQuoteFree(timestamp);
    EscapeQuoteFree(gender);
    EscapeQuoteFree(dob);
    var fs := [timestamp, name, gender, dob];
    assert fs[1..] == [name, gender, dob] && fs[1..][1..] == [gender, dob] && fs[1..][1..][1..] == [dob];
    RecordLast(dob);
    RecordStep([gender, dob]);
    RecordStep([name, gender, dob]);
    RecordStep(fs);
    Reassociate(timestamp, Escape(name), gender, dob);
  }

  /** Hence the logged row reads back as exactly (timestamp, name, gender, dob). */
  lemma CsvLineRoundTrip(timestamp: string, name: string, gender: string, dob: string)
    requires QuoteFree(timestamp) && QuoteFree(gender) && QuoteFree(dob)
    ensures ParseRecord(CsvLine(timestamp, name, gender, dob)) == Some([timestamp, name, gender, dob])
  {
    CsvLineIsRecord(timestamp, name, gender, dob);
    RecordRoundTrip([timestamp, name, gender, dob]);
  }

  /** A record is an opening quote followed by the rest of the record. */
  lemma RecordStep(fs: seq<string>)
    requires |fs| > 1
    ensures Record(fs) == "\"" + Record(fs)[1..]
    ensures Record(fs)[1..] == Escape(fs[0]) + ("\",\"" + Record(fs[1..])[1..])
  {
    var rest := Record(fs[1..]);
    assert rest[0] == '"';
    QuotedThenComma(Escape(fs[0]), rest);
  }

  lemma QuotedThenComma(e: string, rest: string)
    requires rest != [] && rest[0] == '"'
    ensures "\"" + e + "\"" + ("," + rest) == "\"" + (e + ("\",\"" + rest[1..]))
    ensures ("\"" + (e + ("\",\"" + rest[1..])))[1..] == e + ("\",\"" + rest[1..])
  {
    assert rest == "\"" + rest[1..];
    JoinQuoted(e, rest[1..]);
  }

  lemma JoinQuoted(a: string, x: string)
    ensures "\"" + a + "\"" + ("," + ("\"" + x)) == "\"" + a + "\",\"" + x
  {
    assert "\"" + "," + "\"" == "\",\"";
    calc {
      "\"" + a + "\"" + ("," + ("\"" + x));
      == "\"" + a + ("\"" + "," + "\"") + x;
    }
  }

  lemma RecordLast(f: string)
    ensures Record([f]) == "\"" + Record([f])[1..]
    ensures Record([f])[1..] == Escape(f) + "\"\n"
  {
    assert "\"" + "\n" == "\"\n";
    assert Record([f]) == "\"" + (Escape(f) + ("\"" + "\n"));
  }

  lemma Reassociate(ts: string, en: string, g: string, d: string)
    ensures "\"" + ts + "\",\"" + en + "\",\"" + g + "\",\"" + d + "\"\n"
         == "\"" + (ts + ("\",\"" + (en + ("\",\"" + (g + ("\",\"" + (d + "\"\n")))))))
  {
    var q, sep, e := "\"", "\",\"", "\"\n";
    calc {
      q + ts + sep + en + sep + g + sep + d + e;
      == q + ts + sep + en + sep + g + (sep + (d + e));
      == q + ts + sep + en + (sep + (g + (sep + (d + e))));
      == q + ts + (sep + (en + (sep + (g + (sep + (d + e))))));
      == q + (ts + (sep + (en + (sep + (g + (sep + (d + e)))))));
    }
  }

  /** Gender and date of birth are not escaped: a date of birth that is a lone
      double quote yields a row that no longer reads as a record at all. */
  lemma UnescapedDobBreaksRow()
    ensures ParseRecord(CsvLine("", "", "", "\"")) == None
  {
    var line := CsvLine("", "", "", "\"");
    assert Escape("") == "";
    assert line == "\"\",\"\",\"\",\"\"\"\n";
    assert ParseQuotedBody(line[12..]) == None by {
      assert line[12..] == "\n" && line[12..][1..] == "";
    }
    assert ParseQuotedBody(line[10..]) == None by {
      assert line[10..][2..] == line[12..];
    }
    assert ParseRecord(line[9..]) == None by {
      assert line[9..][1..] == line[10..];
    }
    assert ParseRecord(line[6..]) == None by {
      assert line[6..][1..] == line[7..] && ParseQuotedBody(line[7..]) == Some(("", line[8..]));
      assert line[8..][1..] == line[9..];
    }
    assert ParseRecord(line[3..]) == None by {
      assert line[3..][1..] == line[4..] && ParseQuotedBody(line[4..]) == Some(("", line[5..]));
      assert line[5..][1..] == line[6..];
    }
    assert line[1..] == line[1..] && ParseQuotedBody(line[1..]) == Some(("", line[2..]));
    assert line[2..][1..] == line[3..];
  }

  // ---------------------------------------------------------------------------
  // The log file and the effect of one logging call on it.

  /** Whether the file exists, and what it holds (nothing when it does not exist). */
  datatype FileState = FileState(present: bool, contents: string)

  predicate WellFormed(f: FileState) {
    f.present || f.contents == ""
  }

  /** The file after one call of `logUserToCSV` with a well-formed row: the header
      is written only when the file is absent, then the row is appended; a failed
      write or append is swallowed (route.ts:13-20). `writeOk` and `appendOk` are
      the file system's verdicts on the header write and the append. */
  function LogStep(f: FileState, line: string, writeOk: bool, appendOk: bool): (g: FileState)
    requires WellFormed(f)
    ensures WellFormed(g)
    ensures f.contents <= g.contents
    ensures f.present ==> g.present && (g.contents == f.contents || g.contents == f.contents + line)
    ensures !f.present ==> g == f || g == FileState(true, Header) || g == FileState(true, Header + line)
  {
    if f.present then
      if appendOk then FileState(true, f.contents + line) else f
    else if !writeOk then f
    else FileState(true, Header + (if appendOk then line else ""))
  }

  /** One logging call: the row it appends and the file system's two verdicts. */
  datatype Attempt = Attempt(line: string, writeOk: bool, appendOk: bool)

  function Lines(attempts: seq<Attempt>): (lines: seq<string>)
    ensures |lines| == |attempts|
    decreases |attempts|
  {
    if attempts == [] then [] else [attempts[0].line] + Lines(attempts[1..])
  }

  /** The file after a series of logging calls, in order. */
  function LogAll(f: FileState, attempts: seq<Attempt>): (g: FileState)
    requires WellFormed(f)
    decreases |attempts|
  {
    if attempts == [] then f
    else LogAll(LogStep(f, attempts[0].line, attempts[0].writeOk, attempts[0].appendOk), attempts[1..])
  }

  /** `s` is the concatenation of some of `lines`, kept in their order. */
  ghost predicate RowsFrom(s: string, lines: seq<string>)
    decreases |lines|
  {
    if lines == [] then s == []
    else RowsFrom(s, lines[1..]) || (lines[0] <= s && RowsFrom(s[|lines[0]|..], lines[1..]))
  }

  lemma RowsFromCons(s: string, a: Attempt, rest: seq<Attempt>, appended: bool)
    requires RowsFrom(s, Lines(rest))
    ensures RowsFrom(if appended then a.line + s else s, Lines([a] + rest))
  {
    var all := Lines([a] + rest);
    assert ([a] + rest)[1..] == rest;
    assert all[0] == a.line && all[1..] == Lines(rest);
    if appended {
      var t := a.line + s;
      assert a.line <= t && t[|a.line|..] == s;
    }
  }

  /** On a file that exists, any series of logging calls only appends: the old
      contents stay as they were, and what follows them is made of the attempted
      rows, in order, with no header. */
  lemma {:induction false} LogAllOnPresentFile(c: string, attempts: seq<Attempt>)
    ensures LogAll(FileState(true, c), attempts).present
    ensures c <= LogAll(FileState(true, c), attempts).contents
    ensures RowsFrom(LogAll(FileState(true, c), attempts).contents[|c|..], Lines(attempts))
    decreases |attempts|
  {
    if attempts != [] {
      var a, rest := attempts[0], attempts[1..];
      assert attempts == [a] + rest;
      var c' := if a.appendOk then c + a.line else c;
      assert LogStep(FileState(true, c), a.line, a.writeOk, a.appendOk) == FileState(true, c');
      LogAllOnPresentFile(c', rest);
      var g := LogAll(FileState(true, c'), rest);
      assert g.contents[|c|..] == (if a.appendOk then a.line else "") + g.contents[|c'|..];
      RowsFromCons(g.contents[|c'|..], a, rest, a.appendOk);
    }
  }

  /** Starting from no file, any series of logging calls leaves either no file
      or a file that starts with exactly one header, followed only by attempted
      rows in order: the header is never written twice. */
  lemma {:induction false} LogAllFromAbsentFile(attempts: seq<Attempt>)
    ensures var g := LogAll(FileState(false, ""), attempts);
      (!g.present && g.contents == "") ||
      (g.present && Header <= g.contents && RowsFrom(g.contents[|Header|..], Lines(attempts)))
  {
    if attempts != [] {
      var a, rest := attempts[0], attempts[1..];
      assert attempts == [a] + rest;
      if !a.writeOk {
        LogAllFromAbsentFile(rest);
        var g := LogAll(FileState(false, ""), rest);
        if g.present {
          RowsFromCons(g.contents[|Header|..], a, rest, false);
        }
      } else {
        var c' := Header + (if a.appendOk then a.line else "");
        LogAllOnPresentFile(c', rest);
        var g := LogAll(FileState(true, c'), rest);
        assert g.contents[|Header|..] == (if a.appendOk then a.line else "") + g.contents[|c'|..];
        RowsFromCons(g.contents[|c'|..], a, rest, a.appendOk);
      }
    }
  }

  /** The log file on disk. `present` is `fs.existsSync`; the two write methods
      take the file system's verdict as a parameter, since the model does not
      simulate disks. */
  class CsvFile {
    var present: bool
    var contents: string

    ghost predicate Valid()
      reads this
    {
      WellFormed(FileState(present, contents))
    }

    function State(): (f: FileState)
      reads this
      ensures f.present == present && f.contents == contents
    {
      FileState(present, contents)
    }

    constructor (initial: FileState)
      requires WellFormed(initial)
      ensures Valid() && State() == initial
    {
      present := initial.present;
      contents := initial.contents;
    }

    /** `fs.writeFileSync`: creates or replaces the file, unless the write fails. */
    method WriteFile(data: string, ok: bool) returns (success: bool)
      requires Valid()
      modifies this
      ensures Valid()
      ensures success == ok
      ensures State() == if ok then FileState(true, data) else old(State())
    {
      success := ok;
      if ok {
        present, contents := true, data;
      }
    }

    /** `fs.appendFileSync`: appends to the file, creating it when it is absent,
        unless the append fails. */
    method AppendFile(data: string, ok: bool) returns (success: bool)
      requires Valid()
      modifies this
      ensures Valid()
      ensures success == ok
      ensures State() == if ok then FileState(true, old(contents) + data) else old(State())
    {
      success := ok;
      if ok {
        present, contents := true, contents + data;
      }
    }
  }
}
