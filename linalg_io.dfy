/**
 * The text headers that EigenLinalg::LinalgIO writes beside a binary dense
 * vector or matrix, the way its readers parse them back, and the resolution
 * of the header's DataFile entry against the header's own directory.
 */
module LinalgIO {
  import opened Text

  datatype Error = NotVectorHeader | NotMatrixHeader | ElementSizeMismatch

  datatype Result<T> = Ok(value: T) | Err(error: Error)

  /** What a vector header announces: the length and the data file to read. */
  datatype VectorHeader = VectorHeader(size: int, dataFile: string)

  /** What a matrix header announces. */
  datatype MatrixHeader = MatrixHeader(rows: int, cols: int, rowMajor: bool, dataFile: string)

  /** A header file: where it is written and its text. */
  datatype HeaderFile = HeaderFile(path: string, text: string)

  predicate IsSeparator(c: char) {
    c == '/' || c == '\\'
  }

  /** find_last_of("/\\"): the index of the last separator, or -1 (npos). */
  function LastSeparator(s: string): (r: int)
    ensures -1 <= r < |s|
    ensures r >= 0 ==> IsSeparator(s[r])
    ensures forall i :: r < i < |s| ==> !IsSeparator(s[i])
  {
    if s == [] then -1
    else if IsSeparator(s[|s| - 1]) then |s| - 1
    else LastSeparator(s[..|s| - 1])
  }

  /** The name written into DataFile: the part after the last separator. */
  function LocalFile(filename: string): string {
    var start := LastSeparator(filename);
    if start >= 0 then filename[start + 1..] else filename
  }

  /** The header is written next to the data file, with ".hdr" appended. */
  function HeaderPath(filename: string): string {
    filename + ".hdr"
  }

  /** The readers open the DataFile token relative to the header's directory. */
  function ResolveDataFile(headerPath: string, token: string): string {
    var start := LastSeparator(headerPath);
    (if start >= 0 then headerPath[..start + 1] else "") + token
  }

  lemma HeaderPathKeepsSeparator(filename: string)
    ensures LastSeparator(HeaderPath(filename)) == LastSeparator(filename)
  {
    var h := HeaderPath(filename);
    var r := LastSeparator(filename);
    var rh := LastSeparator(h);
    assert forall i :: |filename| <= i < |h| ==> !IsSeparator(h[i]);
    assert forall i :: 0 <= i < |filename| ==> h[i] == filename[i];
    if rh > r {
    }
    if r >= 0 {
      assert IsSeparator(h[r]);
    }
  }

  /** Resolving the written DataFile against the written header path gives back the data file. */
  lemma ResolveLocalFile(filename: string)
    ensures ResolveDataFile(HeaderPath(filename), LocalFile(filename)) == filename
  {
    HeaderPathKeepsSeparator(filename);
    var start := LastSeparator(filename);
    if start >= 0 {
      assert HeaderPath(filename)[..start + 1] == filename[..start + 1];
      assert filename[..start + 1] + filename[start + 1..] == filename;
    }
  }

  /** Index of the first delim in s, or |s| when there is none. */
  function FindDelim(s: string, delim: char): (k: nat)
    ensures k <= |s|
  {
    if s == [] || s[0] == delim then 0 else 1 + FindDelim(s[1..], delim)
  }

  /**
   * std::getline on a stream whose unread characters are s: the characters
   * up to the next delim (or the end), and what remains after the delim.
   */
  function GetLine(s: string, delim: char): (r: (string, string))
  {
    var k := FindDelim(s, delim);
    if k < |s| then (s[..k], s[k + 1..]) else (s, [])
  }

  /**
   * The readers' idiom for a "Key: value" line: getline up to the blank
   * (the key, discarded), then getline up to the end of the line.
   */
  function ReadFieldValue(s: string): (string, string) {
    var (_, s2) := GetLine(s, ' ');
    GetLine(s2, '\n')
  }

  /** c does not occur in s. */
  predicate Avoids(s: string, c: char) {
    forall i :: 0 <= i < |s| ==> s[i] != c
  }

  /** getline over a token followed by its delimiter reads exactly that token. */
  lemma GetLineOf(tok: string, delim: char, rest: string)
    requires Avoids(tok, delim)
    ensures GetLine(tok + [delim] + rest, delim) == (tok, rest)
  {
    var s := tok + [delim] + rest;
    FindDelimOf(tok, delim, rest);
    assert s[..|tok|] == tok;
    assert s[|tok| + 1..] == rest;
  }

  lemma {:induction false} FindDelimOf(tok: string, delim: char, rest: string)
    requires Avoids(tok, delim)
    ensures FindDelim(tok + [delim] + rest, delim) == |tok|
    decreases |tok|
  {
    var s := tok + [delim] + rest;
    if tok != [] {
      assert s[0] == tok[0];
      assert s[1..] == tok[1..] + [delim] + rest;
      FindDelimOf(tok[1..], delim, rest);
    }
  }

  /** A line written with std::endl, followed by the rest of the text. */
  function Line(line: string, rest: string): string {
    line + "\n" + rest
  }

  /** A field line "key: value" as the writers emit it. */
  function Field(key: string, value: string): string {
    key + " " + value
  }

  /** Reading the first line of written text gives that line and the rest. */
  lemma ReadLine(line: string, rest: string)
    requires Avoids(line, '\n')
    ensures GetLine(Line(line, rest), '\n') == (line, rest)
  {
    GetLineOf(line, '\n', rest);
  }

  /** Reading a field line as the readers do gives its value and the following text. */
  lemma ReadField(key: string, value: string, rest: string)
    requires Avoids(key, ' ') && Avoids(value, '\n')
    ensures ReadFieldValue(Line(Field(key, value), rest)) == (value, rest)
  {
    assert Line(Field(key, value), rest) == key + [' '] + (value + "\n" + rest);
    GetLineOf(key, ' ', value + "\n" + rest);
    GetLineOf(value, '\n', rest);
  }

  /** The header keys contain no blank, so the readers' first getline stops right after them. */
  lemma KeysAvoidBlank()
    ensures Avoids("Size:", ' ') && Avoids("ElementSize:", ' ')
    ensures Avoids("RowMajor:", ' ') && Avoids("DataFile:", ' ')
    ensures Avoids("DenseVector", '\n') && Avoids("DenseMatrix", '\n')
  {
  }

  /** The header text writeVector produces when asked to write one. */
  function VectorHeaderText(filename: string, size: nat, elemWidth: nat): string {
    VectorLines("DenseVector", NatToString(size), NatToString(elemWidth), LocalFile(filename))
  }

  datatype Option<T> = None | Some(value: T)

  /** writeVector's header: written to filename.hdr, or not at all. */
  function WriteVectorHeader(filename: string, size: nat, elemWidth: nat, writeHeader: bool): (r: Option<HeaderFile>)
    ensures writeHeader <==> r.Some?
    ensures r.Some? ==> r.value.path == HeaderPath(filename)
  {
    if writeHeader then Some(HeaderFile(HeaderPath(filename), VectorHeaderText(filename, size, elemWidth)))
    else None
  }

  /** readVector(filename): parses the header and resolves its data file. */
  function ReadVectorHeader(filename: string, text: string, elemWidth: nat): (r: Result<VectorHeader>)
    ensures GetLine(text, '\n').0 != "DenseVector" ==> r == Err(NotVectorHeader)
  {
    var (magic, s1) := GetLine(text, '\n');
    if magic != "DenseVector" then Err(NotVectorHeader)
    else
      var (sizeText, s3) := ReadFieldValue(s1);
      var (elemText, s5) := ReadFieldValue(s3);
      if Atoi(elemText) != elemWidth then Err(ElementSizeMismatch)
      else
        var (dataText, _) := ReadFieldValue(s5);
        Ok(VectorHeader(Atoi(sizeText), ResolveDataFile(filename, dataText)))
  }

  lemma DigitsAvoid(n: nat)
    ensures Avoids(NatToString(n), '\n') && Avoids(NatToString(n), ' ')
  {
  }

  lemma LocalFileAvoids(filename: string)
    requires Avoids(filename, '\n')
    ensures Avoids(LocalFile(filename), '\n')
  {
  }

  /** The four lines of a vector header, as text. */
  function VectorLines(magic: string, sizeText: string, elemText: string, dataText: string): string {
    Line(magic, Line(Field("Size:", sizeText), Line(Field("ElementSize:", elemText), Line(Field("DataFile:", dataText), ""))))
  }

  /** Reading the four lines gives back their tokens, whatever the values. */
  lemma ReadVectorLines(sizeText: string, elemText: string, dataText: string, s1: string, s3: string, s5: string)
    requires s5 == Line(Field("DataFile:", dataText), "")
    requires s3 == Line(Field("ElementSize:", elemText), s5)
    requires s1 == Line(Field("Size:", sizeText), s3)
    requires Avoids(sizeText, '\n') && Avoids(elemText, '\n') && Avoids(dataText, '\n')
    ensures ReadFieldValue(s1) == (sizeText, s3) && ReadFieldValue(s3) == (elemText, s5)
    ensures ReadFieldValue(s5) == (dataText, "")
  {
    KeysAvoidBlank();
    ReadField("Size:", sizeText, s3);
    ReadField("ElementSize:", elemText, s5);
    ReadField("DataFile:", dataText, "");
  }

  /** readVector over a text whose first line is the vector magic and whose fields read as given. */
  lemma ReadVectorFields(filename: string, text: string, elemWidth: nat, s1: string, s3: string, s5: string,
                         sizeText: string, elemText: string, dataText: string)
    requires text == Line("DenseVector", s1)
    requires ReadFieldValue(s1) == (sizeText, s3) && ReadFieldValue(s3) == (elemText, s5)
    requires ReadFieldValue(s5).0 == dataText
    ensures ReadVectorHeader(filename, text, elemWidth)
         == if Atoi(elemText) != elemWidth then Err(ElementSizeMismatch)
            else Ok(VectorHeader(Atoi(sizeText), ResolveDataFile(filename, dataText)))
  {
    KeysAvoidBlank();
    ReadLine("DenseVector", s1);
  }

  /**
   * Reading the header that writeVector wrote, with the same element width,
   * gives back the vector length and the original data file.
   */
  lemma VectorHeaderRoundTrip(filename: string, size: nat, elemWidth: nat)
    requires Avoids(filename, '\n') && size <= IntMax && elemWidth <= IntMax
    ensures ReadVectorHeader(HeaderPath(filename), VectorHeaderText(filename, size, elemWidth), elemWidth)
         == Ok(VectorHeader(size, filename))
  {
    DigitsAvoid(size);
    DigitsAvoid(elemWidth);
    LocalFileAvoids(filename);
    var sz, ew, lf := NatToString(size), NatToString(elemWidth), LocalFile(filename);
    var s5 := Line(Field("DataFile:", lf), "");
    var s3 := Line(Field("ElementSize:", ew), s5);
    var s1 := Line(Field("Size:", sz), s3);
    ReadVectorLines(sz, ew, lf, s1, s3, s5);
    ReadVectorFields(HeaderPath(filename), VectorHeaderText(filename, size, elemWidth), elemWidth, s1, s3, s5, sz, ew, lf);
    AtoiNatToString(size);
    AtoiNatToString(elemWidth);
    ResolveLocalFile(filename);
  }

  /** A header whose element width differs from the reader's precision is refused. */
  lemma VectorElementSizeRefused(filename: string, size: nat, written: nat, expected: nat)
    requires Avoids(filename, '\n') && written != expected && written <= IntMax
    ensures ReadVectorHeader(HeaderPath(filename), VectorHeaderText(filename, size, written), expected)
         == Err(ElementSizeMismatch)
  {
    DigitsAvoid(size);
    DigitsAvoid(written);
    LocalFileAvoids(filename);
    var sz, ew, lf := NatToString(size), NatToString(written), LocalFile(filename);
    var s5 := Line(Field("DataFile:", lf), "");
    var s3 := Line(Field("ElementSize:", ew), s5);
    var s1 := Line(Field("Size:", sz), s3);
    ReadVectorLines(sz, ew, lf, s1, s3, s5);
    ReadVectorFields(HeaderPath(filename), VectorHeaderText(filename, size, written), expected, s1, s3, s5, sz, ew, lf);
    AtoiNatToString(written);
  }

  /** The five lines of a matrix header, as text. */
  function MatrixLines(magic: string, rowsText: string, colsText: string, elemText: string,
                       majorText: string, dataText: string): string
  {
    Line(magic,
    Line(Field("Size:", Field(rowsText, Field("x", colsText))),
    Line(Field("ElementSize:", elemText),
    Line(Field("RowMajor:", majorText),
    Line(Field("DataFile:", dataText), "")))))
  }

  /** The header text writeMatrix produces; the RowMajor flag is always written as 0. */
  function MatrixHeaderText(filename: string, rows: nat, cols: nat, elemWidth: nat): string {
    MatrixLines("DenseMatrix", NatToString(rows), NatToString(cols), NatToString(elemWidth), "0", LocalFile(filename))
  }

  function WriteMatrixHeader(filename: string, rows: nat, cols: nat, elemWidth: nat, writeHeader: bool): (r: Option<HeaderFile>)
    ensures writeHeader <==> r.Some?
    ensures r.Some? ==> r.value.path == HeaderPath(filename)
  {
    if writeHeader then Some(HeaderFile(HeaderPath(filename), MatrixHeaderText(filename, rows, cols, elemWidth)))
    else None
  }

  /**
   * readMatrix's Size line: the key, the row count and the "x" each up to a
   * blank, then the column count up to the end of the line.
   */
  function ReadSizeValues(s: string): (string, string, string) {
    var (_, s2) := GetLine(s, ' ');
    var (rowsText, s3) := GetLine(s2, ' ');
    var (_, s4) := GetLine(s3, ' ');
    var (colsText, s5) := GetLine(s4, '\n');
    (rowsText, colsText, s5)
  }

  /** readMatrix(filename): parses the header and resolves its data file. */
  function ReadMatrixHeader(filename: string, text: string, elemWidth: nat): (r: Result<MatrixHeader>)
    ensures GetLine(text, '\n').0 != "DenseMatrix" ==> r == Err(NotMatrixHeader)
  {
    var (magic, s1) := GetLine(text, '\n');
    if magic != "DenseMatrix" then Err(NotMatrixHeader) else ReadMatrixFieldLines(filename, s1, elemWidth)
  }

  /** The lines of a matrix header after its magic line. */
  function ReadMatrixFieldLines(filename: string, s1: string, elemWidth: nat): Result<MatrixHeader> {
    var (rowsText, colsText, s5) := ReadSizeValues(s1);
    var (elemText, s7) := ReadFieldValue(s5);
    if Atoi(elemText) != elemWidth then Err(ElementSizeMismatch)
    else
      var (majorText, s9) := ReadFieldValue(s7);
      var (dataText, _) := ReadFieldValue(s9);
      Ok(MatrixHeader(Atoi(rowsText), Atoi(colsText), Atoi(majorText) != 0, ResolveDataFile(filename, dataText)))
  }

  lemma ReadSize(rowsText: string, colsText: string, rest: string)
    requires Avoids(rowsText, ' ') && Avoids(colsText, '\n')
    ensures ReadSizeValues(Line(Field("Size:", Field(rowsText, Field("x", colsText))), rest))
         == (rowsText, colsText, rest)
  {
    var tail := colsText + "\n" + rest;
    assert Line(Field("Size:", Field(rowsText, Field("x", colsText))), rest)
        == "Size:" + [' '] + (rowsText + [' '] + ("x" + [' '] + tail));
    GetLineOf("Size:", ' ', rowsText + [' '] + ("x" + [' '] + tail));
    GetLineOf(rowsText, ' ', "x" + [' '] + tail);
    GetLineOf("x", ' ', tail);
    GetLineOf(colsText, '\n', rest);
  }

  /** Reading the field lines of a matrix header gives back their tokens. */
  lemma ReadMatrixLines(elemText: string, majorText: string, dataText: string, s5: string, s7: string, s9: string)
    requires s9 == Line(Field("DataFile:", dataText), "")
    requires s7 == Line(Field("RowMajor:", majorText), s9)
    requires s5 == Line(Field("ElementSize:", elemText), s7)
    requires Avoids(elemText, '\n') && Avoids(majorText, '\n') && Avoids(dataText, '\n')
    ensures ReadFieldValue(s5) == (elemText, s7) && ReadFieldValue(s7) == (majorText, s9)
    ensures ReadFieldValue(s9) == (dataText, "")
  {
    KeysAvoidBlank();
    ReadField("ElementSize:", elemText, s7);
    ReadField("RowMajor:", majorText, s9);
    ReadField("DataFile:", dataText, "");
  }

  /** readMatrix over a text whose first line is the matrix magic and whose fields read as given. */
  lemma ReadMatrixFields(filename: string, text: string, elemWidth: nat, s1: string, s5: string, s7: string, s9: string,
                         rowsText: string, colsText: string, elemText: string, majorText: string, dataText: string)
    requires text == Line("DenseMatrix", s1)
    requires ReadSizeValues(s1) == (rowsText, colsText, s5)
    requires ReadFieldValue(s5) == (elemText, s7) && ReadFieldValue(s7) == (majorText, s9)
    requires ReadFieldValue(s9).0 == dataText
    ensures ReadMatrixHeader(filename, text, elemWidth)
         == if Atoi(elemText) != elemWidth then Err(ElementSizeMismatch)
            else Ok(MatrixHeader(Atoi(rowsText), Atoi(colsText), Atoi(majorText) != 0, ResolveDataFile(filename, dataText)))
  {
    MatrixMagicLine(filename, s1, elemWidth);
    ReadMatrixFieldsOf(filename, elemWidth, s1, s5, s7, s9, rowsText, colsText, elemText, majorText, dataText);
  }

  /** After the magic line readMatrix goes on with the field lines. */
  lemma MatrixMagicLine(filename: string, s1: string, elemWidth: nat)
    ensures ReadMatrixHeader(filename, Line("DenseMatrix", s1), elemWidth) == ReadMatrixFieldLines(filename, s1, elemWidth)
  {
    ReadLine("DenseMatrix", s1);
  }

  lemma ReadMatrixFieldsOf(filename: string, elemWidth: nat, s1: string, s5: string, s7: string, s9: string,
                         rowsText: string, colsText: string, elemText: string, majorText: string, dataText: string)
    requires ReadSizeValues(s1) == (rowsText, colsText, s5)
    requires ReadFieldValue(s5) == (elemText, s7) && ReadFieldValue(s7) == (majorText, s9)
    requires ReadFieldValue(s9).0 == dataText
    ensures ReadMatrixFieldLines(filename, s1, elemWidth)
         == if Atoi(elemText) != elemWidth then Err(ElementSizeMismatch)
            else Ok(MatrixHeader(Atoi(rowsText), Atoi(colsText), Atoi(majorText) != 0, ResolveDataFile(filename, dataText)))
  {
  }

  /**
   * Reading the header that writeMatrix wrote gives back the dimensions, a
   * column-major flag and the original data file.
   */
  lemma MatrixHeaderRoundTrip(filename: string, rows: nat, cols: nat, elemWidth: nat)
    requires Avoids(filename, '\n') && rows <= IntMax && cols <= IntMax && elemWidth <= IntMax
    ensures ReadMatrixHeader(HeaderPath(filename), MatrixHeaderText(filename, rows, cols, elemWidth), elemWidth)
         == Ok(MatrixHeader(rows, cols, false, filename))
  {
    DigitsAvoid(rows);
    DigitsAvoid(cols);
    DigitsAvoid(elemWidth);
    LocalFileAvoids(filename);
    var rs, cs, ew, lf := NatToString(rows), NatToString(cols), NatToString(elemWidth), LocalFile(filename);
    var s9 := Line(Field("DataFile:", lf), "");
    var s7 := Line(Field("RowMajor:", "0"), s9);
    var s5 := Line(Field("ElementSize:", ew), s7);
    var s1 := Line(Field("Size:", Field(rs, Field("x", cs))), s5);
    ReadMatrixLines(ew, "0", lf, s5, s7, s9);
    ReadSize(rs, cs, s5);
    ReadMatrixFields(HeaderPath(filename), MatrixHeaderText(filename, rows, cols, elemWidth), elemWidth,
                     s1, s5, s7, s9, rs, cs, ew, "0", lf);
    AtoiNatToString(rows);
    AtoiNatToString(cols);
    AtoiNatToString(elemWidth);
    assert "0" == NatToString(0);
    AtoiNatToString(0);
    ResolveLocalFile(filename);
  }

  /** A matrix header whose element width differs from the reader's precision is refused. */
  lemma MatrixElementSizeRefused(filename: string, rows: nat, cols: nat, written: nat, expected: nat)
    requires Avoids(filename, '\n') && written != expected && written <= IntMax
    ensures ReadMatrixHeader(HeaderPath(filename), MatrixHeaderText(filename, rows, cols, written), expected)
         == Err(ElementSizeMismatch)
  {
    DigitsAvoid(rows);
    DigitsAvoid(cols);
    DigitsAvoid(written);
    LocalFileAvoids(filename);
    var rs, cs, ew, lf := NatToString(rows), NatToString(cols), NatToString(written), LocalFile(filename);
    var s9 := Line(Field("DataFile:", lf), "");
    var s7 := Line(Field("RowMajor:", "0"), s9);
    var s5 := Line(Field("ElementSize:", ew), s7);
    var s1 := Line(Field("Size:", Field(rs, Field("x", cs))), s5);
    ReadMatrixLines(ew, "0", lf, s5, s7, s9);
    ReadSize(rs, cs, s5);
    ReadMatrixFields(HeaderPath(filename), MatrixHeaderText(filename, rows, cols, written), expected,
                     s1, s5, s7, s9, rs, cs, ew, "0", lf);
    AtoiNatToString(written);
  }
}
