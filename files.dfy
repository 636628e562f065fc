/** The `TemplateFile` and `MailingListFile` constructors: where the name and
    bytes come from, the extension rules, and the attribute defaults. */
module Files {
  import opened Results
  import opened Strings

  datatype FileError =
    | AttributeError(name: string)   // a path that is not a file has no `.name`
    | ValueError(message: string)

  /** `s.rfind(c)`: the index of the last `c`, or -1. */
  function RFind(s: string, c: char): (i: int)
    ensures -1 <= i < |s|
    ensures i >= 0 ==> s[i] == c
    ensures forall j :: i < j < |s| ==> s[j] != c
  {
    if s == [] then -1
    else if s[|s| - 1] == c then |s| - 1
    else RFind(s[..|s| - 1], c)
  }

  /** `file_name[file_name.rfind('.')+1:].lower()`. */
  function Extension(name: string): (r: string)
    ensures |r| <= |name|
    ensures forall k :: 0 <= k < |r| ==> r[k] != '.' && !IsUpperChar(r[k])
  {
    Lower(name[RFind(name, '.') + 1..])
  }

  /** A name without a dot is its own extension. */
  lemma ExtensionOfDotless(name: string)
    requires '.' !in name
    ensures Extension(name) == Lower(name)
  {
    assert RFind(name, '.') == -1;
    assert name[0..] == name;
  }

  /** Otherwise the extension is what follows the last dot, lower-cased. */
  lemma ExtensionAfterLastDot(stem: string, tail: string)
    requires '.' !in tail
    ensures Extension(stem + "." + tail) == Lower(tail)
  {
    var name := stem + "." + tail;
    assert name[|stem|] == '.';
    assert name[|stem| + 1..] == tail;
  }

  /** Where the file name and contents come from. Bytes passed as `data` win;
      otherwise `file` is a path, opened when the file system (`disk`, from
      path to contents) holds a file there, and a bare string without `.name`
      when it does not. */
  function Source(file: string, data: string, disk: map<string, string>): (r: Result<(string, string), FileError>)
    ensures r.Failure? <==> data == "" && file !in disk
    ensures r.Success? ==> r.value.0 == file && r.value.1 == (if data != "" then data else disk[file])
  {
    if data != "" then Success((file, data))
    else if file in disk then Success((file, disk[file]))
    else Failure(AttributeError("name"))
  }

  predicate IsTemplateExtension(ext: string) {
    ext == "doc" || ext == "docx" || ext == "rtf"
  }

  const TemplateFormatMessage: string := "file_name incorrect format, must be .doc, .docx or .rtf"

  datatype TemplateFile = TemplateFile(
    fileName: string,
    fileData: string,
    guid: Option<string>,
    templateName: string,
    documentType: string,
    addressFontCode: string,
    templateType: string,
    backgroundName: string,
    protectedAreaPassword: string,
    encryptionPassword: string,
    instancePageNumbers: string,
    addressedDocument: bool,
    canBeginOnBack: bool,
    nextTemplateCanBeginOnBack: bool,
    bleedSupplied: bool,
    copies: int,
    instances: int,
    cycleInstancesOnCopies: bool)

  /** `TemplateFile(file, data)`. */
  function NewTemplateFile(file: string, data: string, disk: map<string, string>): (r: Result<TemplateFile, FileError>)
    ensures Source(file, data, disk).Failure? ==> r == Failure(Source(file, data, disk).error)
    ensures Source(file, data, disk).Success? && !IsTemplateExtension(Extension(file)) ==> r == Failure(ValueError(TemplateFormatMessage))
    ensures r.Success? ==> IsTemplateExtension(Extension(r.value.fileName))
    ensures r.Success? ==> (r.value.fileName, r.value.fileData) == Source(file, data, disk).value
  {
    var (name, contents) :- Source(file, data, disk);
    var ext := Extension(name);
    if !IsTemplateExtension(ext) then Failure(ValueError(TemplateFormatMessage))
    else
      Success(TemplateFile(
        fileName := name,
        fileData := contents,
        guid := None,
        templateName := "",
        documentType := "A4Letter",
        addressFontCode := "Arial10",
        templateType := if ext == "pdf" then "Preformatted Stream" else "Document",
        backgroundName := "",
        protectedAreaPassword := "",
        encryptionPassword := "",
        instancePageNumbers := "",
        addressedDocument := true,
        canBeginOnBack := false,
        nextTemplateCanBeginOnBack := false,
        bleedSupplied := true,
        copies := 1,
        instances := 1,
        cycleInstancesOnCopies := false))
  }

  /** A template whose bytes can be found is accepted exactly when its
      extension is doc, docx or rtf. */
  lemma TemplateAcceptedIff(file: string, data: string, disk: map<string, string>)
    requires data != "" || file in disk
    ensures NewTemplateFile(file, data, disk).Success? <==> IsTemplateExtension(Extension(file))
  {
  }

  /** The "pdf" branch of `template_type` is unreachable: an accepted
      template is always a "Document" and starts unsaved with one copy. */
  lemma TemplateIsDocument(file: string, data: string, disk: map<string, string>)
    requires NewTemplateFile(file, data, disk).Success?
    ensures NewTemplateFile(file, data, disk).value.templateType == "Document"
    ensures NewTemplateFile(file, data, disk).value.guid == None
    ensures NewTemplateFile(file, data, disk).value.copies == 1 && NewTemplateFile(file, data, disk).value.instances == 1
  {
  }

  /** Python's truthiness of an optional string argument. */
  predicate Truthy(o: Option<string>) {
    o.Some? && o.value != ""
  }

  /** `o or default`. */
  function OrDefault(o: Option<string>, default: string): (r: string)
    ensures Truthy(o) ==> r == o.value
    ensures !Truthy(o) ==> r == default
  {
    if Truthy(o) then o.value else default
  }

  predicate IsTextFormat(o: Option<string>) {
    o == Some("Tab separated") || o == Some("Delimited") || o == Some("Fixed width")
  }

  const TextFormatMessage: string := "data_format not supplied or not valid - must be \"Tab separated\", \"Delimited\", or \"Fixed width\" for txt files"
  const DelimiterMessage: string := "mapping_delimiter arg must be provided if data_format is Delimited"
  const FixedWidthMessage: string := "mapping_fixed_width_chars arg must be provided if data_format is Fixed Width"
  const DefaultDelimiter: string := "    "

  function SheetMessage(ext: string): string {
    "sheet_name argument must be provided for ." + ext + " files"
  }

  function UnsupportedMessage(ext: string): string {
    "Unsupported file - " + ext + ". Please provide a .txt, .csv, .xls or .xlsx file"
  }

  datatype MailingListFile = MailingListFile(
    fileName: string,
    fileData: string,
    headers: bool,
    mappingName: string,
    dataFormat: string,
    mappingDelimiter: string,
    sheetName: string,
    mappingFixedWidthChars: string)

  /** The extension rules: the data format a file of extension `ext` gets. */
  function ListFormat(ext: string, sheetName: Option<string>, dataFormat: Option<string>): (r: Result<string, FileError>)
    ensures r.Success? ==> r.value in {"CSV", "Excel", "Tab separated", "Delimited", "Fixed width"}
  {
    if ext == "csv" then Success("CSV")
    else if ext == "xls" || ext == "xlsx" then
      if !Truthy(sheetName) then Failure(ValueError(SheetMessage(ext))) else Success("Excel")
    else if ext == "txt" then
      if !IsTextFormat(dataFormat) then Failure(ValueError(TextFormatMessage)) else Success(dataFormat.value)
    else Failure(ValueError(UnsupportedMessage(ext)))
  }

  /** The attributes after validation: falsy options become the literal defaults. */
  function ListFileDefaults(name: string, contents: string, format: string, sheetName: Option<string>,
                            delimiter: Option<string>, fixedWidthChars: Option<string>): MailingListFile {
    MailingListFile(
      fileName := name,
      fileData := contents,
      headers := true,
      mappingName := "",
      dataFormat := format,
      mappingDelimiter := OrDefault(delimiter, DefaultDelimiter),
      sheetName := OrDefault(sheetName, ""),
      mappingFixedWidthChars := OrDefault(fixedWidthChars, ""))
  }

  /** `MailingListFile(file, data, sheet_name, data_format, mapping_delimiter,
      mapping_fixed_width_chars)` as written: the two option checks reject a
      supplied delimiter or column layout instead of a missing one. */
  function NewMailingListFile(file: string, data: string, disk: map<string, string>, sheetName: Option<string>,
                              dataFormat: Option<string>, delimiter: Option<string>, fixedWidthChars: Option<string>)
    : (r: Result<MailingListFile, FileError>)
    ensures Source(file, data, disk).Failure? ==> r == Failure(Source(file, data, disk).error)
    ensures r.Success? ==> (r.value.fileName, r.value.fileData) == Source(file, data, disk).value
    ensures r.Success? ==> r.value.mappingDelimiter != "" && r.value.headers && r.value.mappingName == ""
    ensures r.Success? ==>
      && ListFormat(Extension(file), sheetName, dataFormat).Success?
      && r.value.dataFormat == ListFormat(Extension(file), sheetName, dataFormat).value
    ensures r.Success? ==>
      && (Truthy(sheetName) ==> r.value.sheetName == sheetName.value)
      && (Truthy(delimiter) ==> r.value.mappingDelimiter == delimiter.value)
      && (Truthy(fixedWidthChars) ==> r.value.mappingFixedWidthChars == fixedWidthChars.value)
  {
    var (name, contents) :- Source(file, data, disk);
    ListChecks(name, contents, sheetName, dataFormat, delimiter, fixedWidthChars)
  }

  /** The checks that follow once the name and bytes are known, as written. */
  function ListChecks(name: string, contents: string, sheetName: Option<string>, dataFormat: Option<string>,
                      delimiter: Option<string>, fixedWidthChars: Option<string>): (r: Result<MailingListFile, FileError>)
    ensures r.Success? ==> r.value.fileName == name && r.value.fileData == contents
    ensures r.Success? ==>
      && ListFormat(Extension(name), sheetName, dataFormat).Success?
      && r.value.dataFormat == ListFormat(Extension(name), sheetName, dataFormat).value
    ensures r.Success? ==>
      && (Truthy(sheetName) ==> r.value.sheetName == sheetName.value)
      && (Truthy(delimiter) ==> r.value.mappingDelimiter == delimiter.value)
      && (Truthy(fixedWidthChars) ==> r.value.mappingFixedWidthChars == fixedWidthChars.value)
  {
    var format :- ListFormat(Extension(name), sheetName, dataFormat);
    if format == "Delimited" && Truthy(delimiter) then Failure(ValueError(DelimiterMessage))
    else if format == "Fixed width" && Truthy(fixedWidthChars) then Failure(ValueError(FixedWidthMessage))
    else Success(ListFileDefaults(name, contents, format, sheetName, delimiter, fixedWidthChars))
  }

  /** The file-type rules, stated flat: csv always; xls and xlsx with a sheet
      name; txt with one of the three text layouts. */
  predicate ExtensionAccepts(ext: string, sheetName: Option<string>, dataFormat: Option<string>) {
    || ext == "csv"
    || ((ext == "xls" || ext == "xlsx") && Truthy(sheetName))
    || (ext == "txt" && IsTextFormat(dataFormat))
  }

  /** The data format the rules force or keep. */
  lemma ListFormatRules(ext: string, sheetName: Option<string>, dataFormat: Option<string>)
    ensures ListFormat(ext, sheetName, dataFormat).Success? <==> ExtensionAccepts(ext, sheetName, dataFormat)
    ensures ext == "csv" ==> ListFormat(ext, sheetName, dataFormat) == Success("CSV")
    ensures (ext == "xls" || ext == "xlsx") && Truthy(sheetName) ==> ListFormat(ext, sheetName, dataFormat) == Success("Excel")
    ensures ext == "txt" && IsTextFormat(dataFormat) ==> ListFormat(ext, sheetName, dataFormat) == Success(dataFormat.value)
  {
  }

  /** A mailing list whose bytes can be found is accepted, as written, exactly
      when the extension rules accept it and the layout option that goes with
      the chosen text format was left out. */
  lemma MailingListAcceptedIff(file: string, data: string, disk: map<string, string>, sheetName: Option<string>,
                               dataFormat: Option<string>, delimiter: Option<string>, fixedWidthChars: Option<string>)
    requires data != "" || file in disk
    ensures NewMailingListFile(file, data, disk, sheetName, dataFormat, delimiter, fixedWidthChars).Success?
        <==> ExtensionAccepts(Extension(file), sheetName, dataFormat)
             && !(Extension(file) == "txt" && dataFormat == Some("Delimited") && Truthy(delimiter))
             && !(Extension(file) == "txt" && dataFormat == Some("Fixed width") && Truthy(fixedWidthChars))
  {
    var contents := Source(file, data, disk).value.1;
    ChecksAcceptedIff(file, contents, sheetName, dataFormat, delimiter, fixedWidthChars);
  }

  lemma ChecksAcceptedIff(name: string, contents: string, sheetName: Option<string>, dataFormat: Option<string>,
                          delimiter: Option<string>, fixedWidthChars: Option<string>)
    ensures ListChecks(name, contents, sheetName, dataFormat, delimiter, fixedWidthChars).Success?
        <==> ExtensionAccepts(Extension(name), sheetName, dataFormat)
             && !(Extension(name) == "txt" && dataFormat == Some("Delimited") && Truthy(delimiter))
             && !(Extension(name) == "txt" && dataFormat == Some("Fixed width") && Truthy(fixedWidthChars))
  {
    ListFormatRules(Extension(name), sheetName, dataFormat);
  }

  /** Every attribute of an accepted mailing list is a string: options left
      out read as empty, except the delimiter, which defaults to four spaces. */
  lemma MailingListDefaults(file: string, data: string, disk: map<string, string>, sheetName: Option<string>,
                            dataFormat: Option<string>, delimiter: Option<string>, fixedWidthChars: Option<string>)
    requires NewMailingListFile(file, data, disk, sheetName, dataFormat, delimiter, fixedWidthChars).Success?
    ensures var m := NewMailingListFile(file, data, disk, sheetName, dataFormat, delimiter, fixedWidthChars).value;
      && (m.sheetName == "" <==> !Truthy(sheetName))
      && (m.mappingDelimiter == DefaultDelimiter <==> !Truthy(delimiter) || delimiter.value == DefaultDelimiter)
      && (m.mappingFixedWidthChars == "" <==> !Truthy(fixedWidthChars))
      && m.dataFormat != ""
  {
  }

  /** The inverted check: a delimited text file given its delimiter is refused
      with the message that asks for that delimiter, and one given none is
      accepted with the four-space default. */
  lemma DelimiterCheckInverted(file: string, data: string, delimiter: string)
    requires data != "" && Extension(file) == "txt" && delimiter != ""
    ensures NewMailingListFile(file, data, map[], None, Some("Delimited"), Some(delimiter), None) == Failure(ValueError(DelimiterMessage))
    ensures NewMailingListFile(file, data, map[], None, Some("Delimited"), None, None).Success?
    ensures NewMailingListFile(file, data, map[], None, Some("Delimited"), None, None).value.mappingDelimiter == DefaultDelimiter
  {
  }

  /** `MailingListFile` with the option checks the messages describe: a
      delimited file must name its delimiter and a fixed-width file its
      column layout. */
  function NewMailingListFileIntended(file: string, data: string, disk: map<string, string>, sheetName: Option<string>,
                                      dataFormat: Option<string>, delimiter: Option<string>, fixedWidthChars: Option<string>)
    : (r: Result<MailingListFile, FileError>)
    ensures Source(file, data, disk).Failure? ==> r == Failure(Source(file, data, disk).error)
    ensures r.Success? ==> (r.value.fileName, r.value.fileData) == Source(file, data, disk).value
  {
    var (name, contents) :- Source(file, data, disk);
    ListChecksIntended(name, contents, sheetName, dataFormat, delimiter, fixedWidthChars)
  }

  /** The checks that follow once the name and bytes are known, as intended. */
  function ListChecksIntended(name: string, contents: string, sheetName: Option<string>, dataFormat: Option<string>,
                              delimiter: Option<string>, fixedWidthChars: Option<string>): (r: Result<MailingListFile, FileError>)
    ensures r.Success? ==> r.value.fileName == name && r.value.fileData == contents
    ensures r.Success? ==>
      && ListFormat(Extension(name), sheetName, dataFormat).Success?
      && r.value.dataFormat == ListFormat(Extension(name), sheetName, dataFormat).value
    ensures r.Success? ==>
      && (Truthy(sheetName) ==> r.value.sheetName == sheetName.value)
      && (Truthy(delimiter) ==> r.value.mappingDelimiter == delimiter.value)
      && (Truthy(fixedWidthChars) ==> r.value.mappingFixedWidthChars == fixedWidthChars.value)
  {
    var format :- ListFormat(Extension(name), sheetName, dataFormat);
    if format == "Delimited" && !Truthy(delimiter) then Failure(ValueError(DelimiterMessage))
    else if format == "Fixed width" && !Truthy(fixedWidthChars) then Failure(ValueError(FixedWidthMessage))
    else Success(ListFileDefaults(name, contents, format, sheetName, delimiter, fixedWidthChars))
  }

  /** With the intended checks an accepted delimited file carries the
      delimiter it was given and a fixed-width file its layout. */
  lemma IntendedKeepsLayout(file: string, data: string, disk: map<string, string>, sheetName: Option<string>,
                            dataFormat: Option<string>, delimiter: Option<string>, fixedWidthChars: Option<string>)
    ensures var r := NewMailingListFileIntended(file, data, disk, sheetName, dataFormat, delimiter, fixedWidthChars);
      && (r.Success? && r.value.dataFormat == "Delimited" ==> Truthy(delimiter) && r.value.mappingDelimiter == delimiter.value)
      && (r.Success? && r.value.dataFormat == "Fixed width" ==> Truthy(fixedWidthChars) && r.value.mappingFixedWidthChars == fixedWidthChars.value)
  {
    if Source(file, data, disk).Success? {
      var (name, contents) := Source(file, data, disk).value;
      ChecksKeepLayout(name, contents, sheetName, dataFormat, delimiter, fixedWidthChars);
    }
  }

  lemma ChecksKeepLayout(name: string, contents: string, sheetName: Option<string>, dataFormat: Option<string>,
                         delimiter: Option<string>, fixedWidthChars: Option<string>)
    ensures var r := ListChecksIntended(name, contents, sheetName, dataFormat, delimiter, fixedWidthChars);
      && (r.Success? && r.value.dataFormat == "Delimited" ==> Truthy(delimiter) && r.value.mappingDelimiter == delimiter.value)
      && (r.Success? && r.value.dataFormat == "Fixed width" ==> Truthy(fixedWidthChars) && r.value.mappingFixedWidthChars == fixedWidthChars.value)
  {
  }


  /** The two versions agree on every file that uses neither layout. */
  lemma IntendedAgreesElsewhere(file: string, data: string, disk: map<string, string>, sheetName: Option<string>,
                                dataFormat: Option<string>, delimiter: Option<string>, fixedWidthChars: Option<string>)
    ensures dataFormat != Some("Delimited") && dataFormat != Some("Fixed width") ==>
      NewMailingListFileIntended(file, data, disk, sheetName, dataFormat, delimiter, fixedWidthChars)
        == NewMailingListFile(file, data, disk, sheetName, dataFormat, delimiter, fixedWidthChars)
  {
    if dataFormat != Some("Delimited") && dataFormat != Some("Fixed width") && Source(file, data, disk).Success? {
      var (name, contents) := Source(file, data, disk).value;
      ChecksAgree(name, contents, sheetName, dataFormat, delimiter, fixedWidthChars);
    }
  }

  lemma ChecksAgree(name: string, contents: string, sheetName: Option<string>, dataFormat: Option<string>,
                    delimiter: Option<string>, fixedWidthChars: Option<string>)
    requires dataFormat != Some("Delimited") && dataFormat != Some("Fixed width")
    ensures ListChecksIntended(name, contents, sheetName, dataFormat, delimiter, fixedWidthChars)
        == ListChecks(name, contents, sheetName, dataFormat, delimiter, fixedWidthChars)
  {
  }

  lemma LowerOfLowercase(s: string)
    requires forall k :: 0 <= k < |s| ==> !IsUpperChar(s[k])
    ensures Lower(s) == s
  {
  }

  /** The sample document read from disk is accepted. */
  lemma ExampleSampleDocument(contents: string)
    ensures NewTemplateFile("sample.doc", "", map["sample.doc" := contents]).Success?
  {
    ExtensionAfterLastDot("sample", "doc");
    assert "sample" + "." + "doc" == "sample.doc";
    LowerOfLowercase("doc");
  }

  /** A bare name "docx" with no dot is its own extension, and is accepted. */
  lemma ExampleDotlessName()
    ensures NewTemplateFile("docx", "bytes", map[]).Success?
  {
    ExtensionOfDotless("docx");
    LowerOfLowercase("docx");
  }

  /** A PDF is refused, so `template_type` never becomes "Preformatted Stream". */
  lemma ExamplePdfRefused()
    ensures NewTemplateFile("report.pdf", "bytes", map[]) == Failure(ValueError(TemplateFormatMessage))
  {
    ExtensionAfterLastDot("report", "pdf");
    assert "report" + "." + "pdf" == "report.pdf";
    LowerOfLowercase("pdf");
  }

  /** The concrete input behind the inverted check: "list.txt" in the
      "Delimited" layout with "," as its delimiter is refused. */
  lemma DelimiterCounterexample()
    ensures NewMailingListFile("list.txt", "a,b", map[], None, Some("Delimited"), Some(","), None) == Failure(ValueError(DelimiterMessage))
    ensures NewMailingListFileIntended("list.txt", "a,b", map[], None, Some("Delimited"), Some(","), None).Success?
  {
    ExtensionAfterLastDot("list", "txt");
    assert "list" + "." + "txt" == "list.txt";
    LowerOfLowercase("txt");
    DelimiterCheckInverted("list.txt", "a,b", ",");
  }
}
