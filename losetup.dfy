/**
 * `_losetup_list_parse`: reading the loop-device table that `losetup --all`
 * prints, one `DEVICE: [DEVNO]:INODE (BACKING-FILE)` line per loop device,
 * into (device file, backing file) pairs.  The backing file is the text
 * between the first `(` after the second `:` and the last `)` of the line,
 * with a trailing ` (deleted)` marker removed; the device number and inode
 * are shown only to root and are empty otherwise.
 *
 * The formatter below writes such a table; the round trip of the two is the
 * parser's specification.
 */
module Losetup {
  import opened Wrappers

  /** A loop device and the file backing it. */
  datatype LoopDevice = LoopDevice(deviceFile: string, backingFile: string)

  /** What `losetup` appends to a backing file that has been unlinked. */
  const DELETED_SUFFIX: string := " (deleted)"

  /** The first position of `c` in `s`. */
  function IndexOf(s: string, c: char): (r: Option<nat>)
    ensures r.None? <==> c !in s
    ensures r.Some? ==> r.value < |s| && s[r.value] == c && c !in s[..r.value]
  {
    if s == [] then None
    else if s[0] == c then Some(0)
    else match IndexOf(s[1..], c)
      case None => None
      case Some(i) =>
        assert s[..i + 1] == [s[0]] + s[1..][..i];
        Some(i + 1)
  }

  /** The last position of `c` in `s`. */
  function LastIndexOf(s: string, c: char): (r: Option<nat>)
    ensures r.None? <==> c !in s
    ensures r.Some? ==> r.value < |s| && s[r.value] == c && c !in s[r.value + 1..]
  {
    if s == [] then None
    else if s[|s| - 1] == c then Some(|s| - 1)
    else
      var r := LastIndexOf(s[..|s| - 1], c);
      assert r.None? ==> s == s[..|s| - 1] + [s[|s| - 1]];
      assert r.Some? ==> s[r.value + 1..] == s[..|s| - 1][r.value + 1..] + [s[|s| - 1]];
      r
  }

  predicate EndsWith(s: string, suffix: string)
  {
    |suffix| <= |s| && s[|s| - |suffix|..] == suffix
  }

  /** The path with a trailing ` (deleted)` marker removed, if it has one. */
  function StripDeleted(path: string): (r: string)
    ensures r <= path
    ensures r == path <==> !EndsWith(path, DELETED_SUFFIX)
    ensures r != path ==> r + DELETED_SUFFIX == path
  {
    if EndsWith(path, DELETED_SUFFIX) then path[..|path| - |DELETED_SUFFIX|] else path
  }

  /**
   * The lines of `s`, split at each `\n`, without a final empty line, as
   * Python's `splitlines` gives them for text whose only line break is `\n`
   * (`splitlines` also breaks at `\r` and other separators; this does not).
   */
  function Lines(s: string): (lines: seq<string>)
    ensures lines == [] <==> s == []
    ensures forall line :: line in lines ==> '\n' !in line
    decreases |s|
  {
    match IndexOf(s, '\n')
    case None => if s == [] then [] else [s]
    case Some(i) => [s[..i]] + Lines(s[i + 1..])
  }

  /**
   * One line of the listing: `DEVICE: ATTRIBUTES: ... (BACKING)`, or None
   * when the line does not have that shape.  The device file runs up to the
   * first colon.
   */
  function ParseLine(line: string): (r: Option<LoopDevice>)
    ensures ':' !in line ==> r.None?
    ensures r.Some? ==> var n := |r.value.deviceFile|;
      n < |line| && line[..n] == r.value.deviceFile && line[n] == ':' && ':' !in r.value.deviceFile
  {
    match IndexOf(line, ':')
    case None => None
    case Some(i) => ParseAfterDevice(line[..i], line[i + 1..])
  }

  /** The part after the device file: skip the attributes up to the next colon. */
  function ParseAfterDevice(deviceFile: string, attributes: string): Option<LoopDevice>
  {
    match IndexOf(attributes, ':')
    case None => None
    case Some(j) => ParseAfterAttributes(deviceFile, attributes[j + 1..])
  }

  /** Skip a possible inode number up to the first opening parenthesis. */
  function ParseAfterAttributes(deviceFile: string, rest: string): Option<LoopDevice>
  {
    match IndexOf(rest, '(')
    case None => None
    case Some(k) => ParseBacking(deviceFile, rest[k + 1..])
  }

  /** The backing file runs up to the last closing parenthesis. */
  function ParseBacking(deviceFile: string, inner: string): Option<LoopDevice>
  {
    match LastIndexOf(inner, ')')
    case None => None
    case Some(m) => Some(LoopDevice(deviceFile, StripDeleted(inner[..m])))
  }

  /** The devices on the given lines, in order; other lines are skipped. */
  function ParseLines(lines: seq<string>): (devices: seq<LoopDevice>)
    ensures |devices| <= |lines|
    ensures forall i :: 0 <= i < |devices| ==> ':' !in devices[i].deviceFile
  {
    if lines == [] then []
    else match ParseLine(lines[0])
      case None => ParseLines(lines[1..])
      case Some(device) => [device] + ParseLines(lines[1..])
  }

  /** `_losetup_list_parse`: every loop device of a listing, in input order. */
  function Parse(output: string): (devices: seq<LoopDevice>)
    ensures |devices| <= |Lines(output)|
    ensures forall i :: 0 <= i < |devices| ==> ':' !in devices[i].deviceFile
  {
    ParseLines(Lines(output))
  }

  // ---------------------------------------------------------------------
  // The listing format
  // ---------------------------------------------------------------------

  /** One row of the listing as `losetup` prints it. */
  datatype ListingRow = ListingRow(
    deviceFile: string,
    deviceNumber: string,
    inode: string,
    backingFile: string,
    deleted: bool)

  /** `DEVICE: [DEVNO]:INODE (BACKING)`, with the deleted marker inside the parentheses. */
  function FormatRow(row: ListingRow): string
  {
    row.deviceFile + [':'] + (" [" + row.deviceNumber + "]" + [':'] + (row.inode + " " + ['('] +
      (row.backingFile + (if row.deleted then DELETED_SUFFIX else "") + [')'])))
  }

  /** The listing of `rows`, each line ended by a newline. */
  function Format(rows: seq<ListingRow>): string
  {
    if rows == [] then "" else FormatRow(rows[0]) + "\n" + Format(rows[1..])
  }

  /**
   * Rows the listing can carry unambiguously: no newline anywhere, no colon
   * in the device file or device number, no parenthesis in the inode, and a
   * backing file that does not itself end with the deleted marker.
   */
  predicate WellFormedRow(row: ListingRow)
  {
    && ':' !in row.deviceFile && '\n' !in row.deviceFile
    && ':' !in row.deviceNumber && '\n' !in row.deviceNumber
    && '(' !in row.inode && '\n' !in row.inode
    && '\n' !in row.backingFile && !EndsWith(row.backingFile, DELETED_SUFFIX)
  }

  /** The (device, backing file) pairs a listing of `rows` reports. */
  function Reported(rows: seq<ListingRow>): seq<LoopDevice>
  {
    seq(|rows|, i requires 0 <= i < |rows| => LoopDevice(rows[i].deviceFile, rows[i].backingFile))
  }

  /** The lines a listing of `rows` consists of. */
  function FormattedLines(rows: seq<ListingRow>): seq<string>
  {
    seq(|rows|, i requires 0 <= i < |rows| => FormatRow(rows[i]))
  }

  // ---------------------------------------------------------------------
  // Lemmas
  // ---------------------------------------------------------------------

  lemma {:induction false} IndexOfAfter(a: string, c: char, b: string)
    requires c !in a
    ensures IndexOf(a + [c] + b, c) == Some(|a|)
  {
    if a != [] {
      assert (a + [c] + b)[1..] == a[1..] + [c] + b;
      IndexOfAfter(a[1..], c, b);
    }
  }

  /** Splitting `a + [c] + b` at its first `c` gives back `a` and `b`. */
  lemma SplitAtFirst(a: string, c: char, b: string)
    requires c !in a
    ensures IndexOf(a + [c] + b, c) == Some(|a|)
    ensures (a + [c] + b)[..|a|] == a && (a + [c] + b)[|a| + 1..] == b
  {
    IndexOfAfter(a, c, b);
  }

  lemma FormatRowNoNewline(row: ListingRow)
    requires WellFormedRow(row)
    ensures '\n' !in FormatRow(row)
  {
  }

  // Each layer of the line parser, applied to the text a row is formatted as.
  lemma ParseLineAtDevice(deviceFile: string, attributes: string)
    requires ':' !in deviceFile
    ensures ParseLine(deviceFile + [':'] + attributes) == ParseAfterDevice(deviceFile, attributes)
  {
    SplitAtFirst(deviceFile, ':', attributes);
  }

  lemma ParseAfterDeviceNumber(deviceFile: string, deviceNumber: string, rest: string)
    requires ':' !in deviceNumber
    ensures ParseAfterDevice(deviceFile, " [" + deviceNumber + "]" + [':'] + rest)
         == ParseAfterAttributes(deviceFile, rest)
  {
    SplitAtFirst(" [" + deviceNumber + "]", ':', rest);
  }

  lemma ParseAfterInode(deviceFile: string, inode: string, inner: string)
    requires '(' !in inode
    ensures ParseAfterAttributes(deviceFile, inode + " " + ['('] + inner) == ParseBacking(deviceFile, inner)
  {
    SplitAtFirst(inode + " ", '(', inner);
  }

  /** Removing the deleted marker undoes appending it, and leaves an unmarked path alone. */
  lemma StripDeletedOf(backingFile: string, deleted: bool)
    requires !EndsWith(backingFile, DELETED_SUFFIX)
    ensures StripDeleted(backingFile + (if deleted then DELETED_SUFFIX else "")) == backingFile
  {
    if deleted {
      var body := backingFile + DELETED_SUFFIX;
      assert body[|body| - |DELETED_SUFFIX|..] == DELETED_SUFFIX;
      assert EndsWith(body, DELETED_SUFFIX);
      assert body[..|backingFile|] == backingFile;
    } else {
      assert backingFile + "" == backingFile;
    }
  }

  lemma ParseBackingOf(deviceFile: string, backingFile: string, deleted: bool)
    requires !EndsWith(backingFile, DELETED_SUFFIX)
    ensures ParseBacking(deviceFile, backingFile + (if deleted then DELETED_SUFFIX else "") + [')'])
         == Some(LoopDevice(deviceFile, backingFile))
  {
    var body := backingFile + (if deleted then DELETED_SUFFIX else "");
    assert LastIndexOf(body + [')'], ')') == Some(|body|);
    assert (body + [')'])[..|body|] == body;
    StripDeletedOf(backingFile, deleted);
  }

  /** A well-formed row is read back as its device file and backing file. */
  lemma ParseLineOfFormatRow(row: ListingRow)
    requires WellFormedRow(row)
    ensures ParseLine(FormatRow(row)) == Some(LoopDevice(row.deviceFile, row.backingFile))
  {
    var inner := row.backingFile + (if row.deleted then DELETED_SUFFIX else "") + [')'];
    var rest := row.inode + " " + ['('] + inner;
    ParseLineAtDevice(row.deviceFile, " [" + row.deviceNumber + "]" + [':'] + rest);
    ParseAfterDeviceNumber(row.deviceFile, row.deviceNumber, rest);
    ParseAfterInode(row.deviceFile, row.inode, inner);
    ParseBackingOf(row.deviceFile, row.backingFile, row.deleted);
  }

  /** A line without a newline, followed by a newline, is the first line of the text. */
  lemma LinesOfLine(line: string, rest: string)
    requires '\n' !in line
    ensures Lines(line + ['\n'] + rest) == [line] + Lines(rest)
  {
    SplitAtFirst(line, '\n', rest);
  }

  lemma FormattedLinesOfCons(rows: seq<ListingRow>)
    requires rows != []
    ensures FormattedLines(rows) == [FormatRow(rows[0])] + FormattedLines(rows[1..])
  {
    assert forall i :: 0 <= i < |rows| - 1 ==> FormattedLines(rows[1..])[i] == FormatRow(rows[i + 1]);
  }

  /** A listing splits into exactly the formatted rows, in order. */
  lemma {:induction false} LinesOfFormat(rows: seq<ListingRow>)
    requires forall i :: 0 <= i < |rows| ==> WellFormedRow(rows[i])
    ensures Lines(Format(rows)) == FormattedLines(rows)
  {
    if rows != [] {
      FormatRowNoNewline(rows[0]);
      LinesOfLine(FormatRow(rows[0]), Format(rows[1..]));
      assert Format(rows) == FormatRow(rows[0]) + ['\n'] + Format(rows[1..]);
      LinesOfFormat(rows[1..]);
      FormattedLinesOfCons(rows);
    }
  }

  /** Lines that each parse to a device yield those devices, in order. */
  lemma {:induction false} ParseLinesOfDevices(lines: seq<string>, devices: seq<LoopDevice>)
    requires |lines| == |devices|
    requires forall i :: 0 <= i < |lines| ==> ParseLine(lines[i]) == Some(devices[i])
    ensures ParseLines(lines) == devices
  {
    if lines != [] {
      ParseLinesOfDevices(lines[1..], devices[1..]);
      assert devices == [devices[0]] + devices[1..];
    }
  }

  /**
   * Round trip: parsing a listing of well-formed rows yields one
   * (device, backing file) pair per row, in input order, whether or not the
   * rows carry the device number and inode shown to root or the deleted
   * marker.
   */
  lemma ParseFormat(rows: seq<ListingRow>)
    requires forall i :: 0 <= i < |rows| ==> WellFormedRow(rows[i])
    ensures Parse(Format(rows)) == Reported(rows)
  {
    LinesOfFormat(rows);
    forall i | 0 <= i < |rows|
      ensures ParseLine(FormattedLines(rows)[i]) == Some(Reported(rows)[i])
    {
      ParseLineOfFormatRow(rows[i]);
    }
    ParseLinesOfDevices(FormattedLines(rows), Reported(rows));
  }

  lemma LinesWithoutNewline(s: string)
    requires s != [] && '\n' !in s
    ensures Lines(s) == [s]
  {
  }

  /** Text of one line and no newline is parsed as that line. */
  lemma ParseSingleLine(line: string, device: LoopDevice)
    requires line != [] && '\n' !in line && ParseLine(line) == Some(device)
    ensures Parse(line) == [device]
  {
    LinesWithoutNewline(line);
    ParseLinesOfDevices([line], [device]);
  }

  /** A single row printed without a final newline is read the same way. */
  lemma ParseUnterminatedRow(row: ListingRow)
    requires WellFormedRow(row)
    ensures Parse(FormatRow(row)) == [LoopDevice(row.deviceFile, row.backingFile)]
  {
    FormatRowNoNewline(row);
    ParseLineOfFormatRow(row);
    assert |FormatRow(row)| > |row.deviceFile|;
    ParseSingleLine(FormatRow(row), LoopDevice(row.deviceFile, row.backingFile));
  }

  lemma {:induction false} NoCharInLines(s: string, c: char)
    requires c !in s
    ensures forall line :: line in Lines(s) ==> c !in line
    decreases |s|
  {
    match IndexOf(s, '\n')
    case None =>
    case Some(i) =>
      assert forall k :: 0 <= k < i ==> s[..i][k] == s[k];
      NoCharInLines(s[i + 1..], c);
  }

  lemma {:induction false} ParseLinesWithoutColon(lines: seq<string>)
    requires forall line :: line in lines ==> ':' !in line
    ensures ParseLines(lines) == []
  {
    if lines != [] {
      assert lines[0] in lines;
      ParseLinesWithoutColon(lines[1..]);
    }
  }

  /** Text with no device line, such as a lone newline, lists no devices. */
  lemma ParseWithoutDevices(output: string)
    requires ':' !in output
    ensures Parse(output) == []
  {
    NoCharInLines(output, ':');
    ParseLinesWithoutColon(Lines(output));
  }
}
