/**
 * The `losetup --all` listings the parser is exercised on, each shown to
 * parse to the devices it lists.  Each listing is joined from its lines as
 * the listing itself is, with the backing-file paths named by parameters.
 * Three listings are first shown to be the `Format` of explicit well-formed
 * rows, so that the round trip `ParseFormat` applies; the root listing
 * without a final newline is one `FormatRow`, read by
 * `ParseUnterminatedRow`; the empty listing has no colon, so
 * `ParseWithoutDevices` applies.
 */
module LosetupExamples {
  import opened Losetup

  /** A row spelled out the way `losetup` prints it. */
  lemma FormatRowSpelled(row: ListingRow)
    ensures FormatRow(row) == row.deviceFile + ": [" + row.deviceNumber + "]:" + row.inode + " ("
                              + row.backingFile + (if row.deleted then DELETED_SUFFIX else "") + ")"
  {
  }

  /** A row as a non-root user sees it: device number and inode left blank. */
  lemma UnprivilegedRow(deviceFile: string, backingFile: string, deleted: bool)
    requires ':' !in deviceFile && '\n' !in deviceFile
    requires '\n' !in backingFile && !EndsWith(backingFile, DELETED_SUFFIX)
    ensures WellFormedRow(ListingRow(deviceFile, "", "", backingFile, deleted))
  {
  }

  /** How such a row is printed, given the text before its backing file. */
  lemma UnprivilegedLine(deviceFile: string, prefix: string, backingFile: string)
    requires prefix == deviceFile + ": []: ("
    ensures FormatRow(ListingRow(deviceFile, "", "", backingFile, false)) == prefix + backingFile + ")"
    ensures FormatRow(ListingRow(deviceFile, "", "", backingFile, true)) == prefix + backingFile + " (deleted))"
  {
    FormatRowSpelled(ListingRow(deviceFile, "", "", backingFile, false));
    FormatRowSpelled(ListingRow(deviceFile, "", "", backingFile, true));
    assert backingFile + "" == backingFile;
  }

  lemma Loop0Line(backingFile: string)
    ensures FormatRow(ListingRow("/dev/loop0", "", "", backingFile, false)) == "/dev/loop0: []: (" + backingFile + ")"
    ensures FormatRow(ListingRow("/dev/loop0", "", "", backingFile, true)) == "/dev/loop0: []: (" + backingFile + " (deleted))"
  {
    UnprivilegedLine("/dev/loop0", "/dev/loop0: []: (", backingFile);
  }

  lemma Loop1Line(backingFile: string)
    ensures FormatRow(ListingRow("/dev/loop1", "", "", backingFile, false)) == "/dev/loop1: []: (" + backingFile + ")"
  {
    UnprivilegedLine("/dev/loop1", "/dev/loop1: []: (", backingFile);
  }

  /** The listing of one row and of two rows, each line ended by a newline. */
  lemma FormatShort(r0: ListingRow, r1: ListingRow)
    ensures Format([r0]) == FormatRow(r0) + "\n"
    ensures Format([r0, r1]) == FormatRow(r0) + "\n" + FormatRow(r1) + "\n"
  {
    assert [r0][1..] == [] && [r0, r1][1..] == [r1];
    assert Format([r1]) == FormatRow(r1) + "\n" + "";
  }

  lemma ParseEmptyListing(text: string)
    requires text == "\n"
    ensures Parse(text) == []
  {
    ParseWithoutDevices(text);
  }

  lemma RjwPath(rjw: string)
    requires rjw == "/tmp/rjw"
    ensures '\n' !in rjw && !EndsWith(rjw, DELETED_SUFFIX)
  {
  }

  lemma IsoPath(iso: string)
    requires iso == "/usr/share/virtualbox/VBoxGuestAdditions.iso"
    ensures '\n' !in iso && !EndsWith(iso, DELETED_SUFFIX)
  {
  }

  lemma ParseOneLine(text: string, rjw: string)
    requires rjw == "/tmp/rjw"
    requires text == "/dev/loop0: []: (" + rjw + ")" + "\n"
    ensures Parse(text) == [LoopDevice("/dev/loop0", rjw)]
  {
    var row := ListingRow("/dev/loop0", "", "", rjw, false);
    RjwPath(rjw);
    UnprivilegedRow("/dev/loop0", rjw, false);
    Loop0Line(rjw);
    FormatShort(row, row);
    ParseFormat([row]);
  }

  /** The two-line listing as the `Format` of its rows. */
  lemma TwoLines(text: string, rjw: string, iso: string)
    requires rjw == "/tmp/rjw" && iso == "/usr/share/virtualbox/VBoxGuestAdditions.iso"
    requires text == "/dev/loop0: []: (" + rjw + ")" + "\n" + "/dev/loop1: []: (" + iso + ")" + "\n"
    ensures text == Format([ListingRow("/dev/loop0", "", "", rjw, false), ListingRow("/dev/loop1", "", "", iso, false)])
  {
    var r0 := ListingRow("/dev/loop0", "", "", rjw, false);
    var r1 := ListingRow("/dev/loop1", "", "", iso, false);
    Loop0Line(rjw);
    Loop1Line(iso);
    FormatShort(r0, r1);
  }

  lemma ParseMultipleLines(text: string, rjw: string, iso: string)
    requires rjw == "/tmp/rjw" && iso == "/usr/share/virtualbox/VBoxGuestAdditions.iso"
    requires text == "/dev/loop0: []: (" + rjw + ")" + "\n" + "/dev/loop1: []: (" + iso + ")" + "\n"
    ensures Parse(text) == [LoopDevice("/dev/loop0", rjw), LoopDevice("/dev/loop1", iso)]
  {
    var r0 := ListingRow("/dev/loop0", "", "", rjw, false);
    var r1 := ListingRow("/dev/loop1", "", "", iso, false);
    RjwPath(rjw);
    IsoPath(iso);
    UnprivilegedRow("/dev/loop0", rjw, false);
    UnprivilegedRow("/dev/loop1", iso, false);
    TwoLines(text, rjw, iso);
    ParseFormat([r0, r1]);
  }

  lemma ParseRemovesDeletedSuffix(text: string, rjw: string)
    requires rjw == "/tmp/rjw"
    requires text == "/dev/loop0: []: (" + rjw + " (deleted))" + "\n"
    ensures Parse(text) == [LoopDevice("/dev/loop0", rjw)]
  {
    var row := ListingRow("/dev/loop0", "", "", rjw, true);
    RjwPath(rjw);
    UnprivilegedRow("/dev/loop0", rjw, true);
    Loop0Line(rjw);
    FormatShort(row, row);
    ParseFormat([row]);
  }

  /** A row as root sees it, with the device number and inode filled in. */
  lemma RootedRow(rjw: string)
    requires rjw == "/tmp/rjw"
    ensures WellFormedRow(ListingRow("/dev/loop0", "0038", "723801", rjw, false))
  {
    RjwPath(rjw);
  }

  lemma RootedLine(backingFile: string)
    ensures FormatRow(ListingRow("/dev/loop0", "0038", "723801", backingFile, false))
         == "/dev/loop0: [0038]:723801 (" + backingFile + ")"
  {
    FormatRowSpelled(ListingRow("/dev/loop0", "0038", "723801", backingFile, false));
    assert "/dev/loop0" + ": [" + "0038" + "]:" + "723801" + " (" == "/dev/loop0: [0038]:723801 (";
    assert backingFile + "" == backingFile;
  }

  lemma ParseRemovesInode(text: string, rjw: string)
    requires rjw == "/tmp/rjw"
    requires text == "/dev/loop0: [0038]:723801 (" + rjw + ")"
    ensures Parse(text) == [LoopDevice("/dev/loop0", rjw)]
  {
    RootedRow(rjw);
    RootedLine(rjw);
    ParseUnterminatedRow(ListingRow("/dev/loop0", "0038", "723801", rjw, false));
  }
}
