# Docmail client core in Dafny

This project models the core of the Python 2 client for the CFH Docmail SOAP
service. It covers the steps that turn a service response into Python objects:

- **Label splitting.** `util.split_caps` splits a CamelCase label at its capitals.
- **Key normalisation.** `Client._format_key` turns a response label into a Python attribute name.
- **Value coercion.** `Client._format_value` turns response text into a datetime, a boolean or text.
- **Response decoding.** `Client._parse` walks the field nodes of a response:
  - it sets one attribute per field on a `DocmailObject` or `Mailing`;
  - it raises `DocmailException` at an embedded `error_code` field;
  - it then runs the object's `_format_data` hook (`Mailing` rewrites the null guid and the "ASAP" despatch date).
- **File constructors.** The `TemplateFile` and `MailingListFile` constructors apply their file-type rules and defaults.
- **Mailing defaults.** `Client.process_mailing` merges the `PROCESS_MAILING` defaults into the caller's arguments.

Modules:

- `Results` (results.dfy) holds the `Option`, `Result` and `Outcome` wrappers.
- `Strings` (strings.dfy) models the Python 2 string methods used. Case is ASCII: `isupper` needs at least one `A`–`Z` and no `a`–`z`. `lower` maps only `A`–`Z`. `strip` removes characters of the set `\ / : * ? " < > |`.
- `Util` (util.dfy) models `split_caps`.
  - The loop is the method `ScanSplitCaps`.
  - It is specified by `SplitCaps`, the same scan written as a recursive function over the loop state `(lst, x, b)`.
- `Labels` (labels.dfy) models `_format_key`.
- `Values` (values.dfy) models `_format_value`.
  - `RE_DATETIME` and `strptime` are written out as digit predicates and a calendar check.
  - The model follows Python's `$`, which also matches before a final newline.
- `Decoder` (decoder.dfy) models `_parse`, `DocmailException`, `DocmailObject` and `Mailing`.
  - The object is the class `DocmailObject`. Its `attrs` map holds the instance attributes, and its methods are `setattr` and the `_format_data` hook.
  - `Parse` is the loop of `_parse`. It is proved against the function `Decode`.
- `Files` (files.dfy) models the `TemplateFile` and `MailingListFile` constructors. Both build records once, so they are functions returning a `Result`.
- `ProcessMailing` (process_mailing.dfy) models the defaults merge of `process_mailing`. The loop is the method `FillMissing`, proved equal to the map union; `MergeProcessArgs` sets `ReturnFormat` and calls it, and is proved against `Merged`.

Inputs the original takes from its environment are parameters of the model:

- **XML.** The parsed XML is a sequence of field nodes. Each node is the sequence of its children's texts; `None` marks a child without text.
- **Clock.** `datetime.datetime.now() + 2 days` is the parameter `despatchDate`.
- **File system.** It is a map `disk` from path to file contents.

## Model

| member | source | states |
|---|---|---|
| Util.SplitCaps | src/docmail/util.py:1-20 | concatenating the pieces gives back the label, there is at least one piece, and a non-empty label has no empty piece |
| Util.ScanSplitCaps | src/docmail/util.py:5-20 | the loop returns `SplitCaps(key)`; its invariant ties `b` to "i >= 2 and key[i-1] is upper case" and `(lst, x)` to the scan state |
| Util.ScanToKeeps | src/docmail/util.py:8-18 | after i characters the scan state keeps its invariant: the pieces concatenate to `key[:x]`, none is empty, and `x` is 0 or at least two behind i |
| Util.NoCapsSinglePiece | src/docmail/util.py:9-19 | a label with no capital after position 0 comes back as the single piece `[key]` |
| Util.TwoWords | src/docmail/util.py:9-19 | two capitalised words each without inner capitals split into exactly those two words |
| Util.ExampleString | src/docmail/util.py:2-3 | `split_caps('ExampleString')` is `['Example', 'String']` |
| Util.WordThenAcronym | src/docmail/util.py:9-19 | a lower-case word followed by a run of two or more capitals splits into the word and the run |
| Util.MailingGuid | src/docmail/util.py:9-19 | a run of capitals stays together: `'MailingGUID'` gives `['Mailing', 'GUID']` |
| Util.GetStatus | src/docmail/util.py:9-19 | `'GetStatus'` gives `['Get', 'Status']` |
| Util.TrailingCapitalKept | src/docmail/util.py:15-19 | a lone trailing capital is not split off: `'GetX'` gives `['GetX']` |
| Util.EmptyLabel | src/docmail/util.py:5-7 | the empty label gives `['']` |
| Labels.FormatKey | src/docmail/client.py:229-233 | a normalised key has no upper-case letter and no space, and neither starts nor ends with a stripped character |
| Labels.FormatKeyFixes | src/docmail/client.py:229-233 | a key without capitals or spaces and with clean ends is its own normal form |
| Labels.FormatKeyIdempotent | src/docmail/client.py:229-233 | normalising a normalised key changes nothing |
| Labels.SpacedLabelIgnoresCase | src/docmail/client.py:230-232 | a label containing a space normalises the same whatever its case |
| Labels.KeySpaced | src/docmail/client.py:230-232 | a label with a space is not split at capitals: it is stripped, spaces become underscores, then lower-cased |
| Labels.ExampleMailingGuid | src/docmail/client.py:229-233 | `'MailingGUID'` normalises to `mailing_guid` |
| Labels.ExampleGetStatus | src/docmail/client.py:229-233 | `'GetStatus'` normalises to `get_status` |
| Labels.ExampleErrorCode | src/docmail/client.py:229-233 | `'ErrorCode'` normalises to `error_code` |
| Labels.ExampleSpacedLabel | src/docmail/client.py:229-233 | `'Max Price Ex Vat'` normalises to `max_price_ex_vat` |
| Values.MatchesDateTime | src/docmail/client.py:52 | `re.match(RE_DATETIME, value)`: text it accepts is at least nineteen characters whose fields read as a year in 1900-2099, a month 1-12, a day 1-31, an hour 0-23 and minutes and seconds 0-59 |
| Values.StrpTime | src/docmail/client.py:237 | `strptime` with `PTN_DATETIME` on a value the pattern accepted: a date it reads is a real date that prints back, with `PTN_DATETIME`, as exactly that text; unconverted data is reported only for text ending in a newline |
| Values.FormatValue | src/docmail/client.py:235-242 | `_format_value` yields a boolean, a string or a timestamp, never `None` or an integer, and raises only for text the pattern accepted; the lemmas below give each outcome as an if-and-only-if |
| Values.TimestampRoundTrip | src/docmail/client.py:53-54 | the `%d/%m/%Y %H:%M:%S` text of any date and time the pattern can express decodes back to that timestamp |
| Values.TimestampFromText | src/docmail/client.py:235-237 | a value decodes to a timestamp only if it is exactly that timestamp's 19-character text |
| Values.YesNoBooleans | src/docmail/client.py:238-241 | a value decodes to True or False exactly when it lower-cases to `yes` or `no` |
| Values.OtherTextUnchanged | src/docmail/client.py:242 | a value is returned as unchanged text exactly when it is neither date-shaped nor yes/no |
| Values.PatternMatchFails | src/docmail/client.py:236-237 | decoding fails exactly for a value the pattern accepts that ends in a newline or names a day its month lacks; a value the pattern accepts never stays text |
| Values.ExampleTimestamp | src/docmail/client.py:236-237 | `25/12/2020 13:45:00` decodes to that timestamp |
| Values.ExampleNoSuchDay | src/docmail/client.py:236-237 | 31/02/2020 and 29/02/1900 match the pattern but `strptime` rejects them |
| Values.NewlineFails | src/docmail/client.py:52-54 | any date-shaped text followed by a newline matches the pattern and then fails in `strptime` with unconverted data |
| Values.ExampleTrailingNewline | src/docmail/client.py:52-54 | a date followed by a newline matches the pattern and then fails in `strptime` |
| Values.ExamplesPlainText | src/docmail/client.py:238-242 | `Yes`/`No` become booleans; `Standard` and an out-of-range date stay text |
| Decoder.Defaults | src/docmail/client.py:81-95 | the attributes `return_class()` starts with: none for DocmailObject, the thirteen Mailing defaults; its key set is `DefaultNames` |
| Decoder.ApplyFields | src/docmail/client.py:212-224 | the loop of `_parse`; it never loses an attribute, and the walk lemmas below state what it raises and what it stores |
| Decoder.FormatData | src/docmail/client.py:225-226 | the hook: not callable once a field has replaced it; otherwise it loses no attribute, a plain object comes back unchanged, and the result never names the hook |
| Decoder.Decode | src/docmail/client.py:209-227 | what `_parse` returns: an object that still has every constructor attribute and not the hook, and a Mailing that has its guid and `despatch_asap` |
| Decoder.FaultText | src/docmail/client.py:72-73 | `str(DocmailException)` is the error, `" ("`, the code, `"): "`, then the description, and nothing else |
| Decoder.DecodeField | src/docmail/client.py:213-222 | a node with fewer than two children is malformed; a decoded field is never `error_code`, and its key and value are the normalised label and coerced text; conversely a node with a label that does not normalise to `error_code` and a value that coerces decodes to exactly that pair |
| Decoder.ErrorCodeRaisesFault | src/docmail/client.py:219-222 | an `error_code` field raises the fault with code, error and description taken from children 1, 3 and 5 |
| Decoder.MailingFormatData | src/docmail/client.py:101-109 | fails exactly when `mailing_list_guid` was never set; the null guid becomes None; despatch "ASAP" becomes `despatch_asap` True with no date, anything else `despatch_asap` False with the date kept; no other attribute changes |
| Decoder.SuccessAppliesEveryField | src/docmail/client.py:212-224 | a completed walk decoded and stored every field |
| Decoder.EveryFieldAppliedCompletes | src/docmail/client.py:212-224 | conversely, a walk over fields that all decode and apply completes |
| Decoder.ReadOnlyStops | src/docmail/client.py:224 | a decoded field naming a read-only attribute, after fields that all apply, ends the walk with that attribute's error |
| Decoder.IsMonoRaises | src/docmail/client.py:224 | a Mailing response naming `is_mono` raises at that field, as `setattr` on a property without a setter does |
| Decoder.GenericDecodes | src/docmail/client.py:209-227 | a response whose fields all decode and do not name the hook gives a plain object |
| Decoder.MailingDecodes | src/docmail/client.py:209-227 | a response whose fields all decode, name neither the hook nor `is_mono`, and include the guid gives a Mailing |
| Decoder.FirstFailureStops | src/docmail/client.py:212-224 | the walk raises the first failing field's error, whatever comes after it |
| Decoder.UnnamedKeeps | src/docmail/client.py:212-224 | an attribute no field names keeps its value, or stays absent |
| Decoder.LaterFieldWins | src/docmail/client.py:212-224 | an attribute holds the value of the last field naming it |
| Decoder.WalkResult | src/docmail/client.py:212-224 | after a walk an attribute is present exactly when it was before or some field names it |
| Decoder.DecodedResponseHasNoError | src/docmail/client.py:212-226 | a decoded response had no malformed field and no `error_code` label |
| Decoder.GenericObjectFromFields | src/docmail/client.py:75-78 | a plain DocmailObject has exactly the attributes the response names, each with its last value |
| Decoder.FirstErrorRaises | src/docmail/client.py:219-227 | an embedded error is raised in place of any object, and the hook never runs |
| Decoder.MailingNeedsGuid | src/docmail/client.py:81-95 | a response that never names `mailing_list_guid` cannot be decoded into a Mailing |
| Decoder.MailingDefaultKept | src/docmail/client.py:81-95 | a Mailing attribute the response does not name keeps its constructor value |
| Decoder.MailingWithoutDespatchDate | src/docmail/client.py:90-109 | without a despatch date in the response, the Mailing keeps the constructor date and `despatch_asap` becomes False |
| Decoder.EmptyResponse | src/docmail/client.py:209-227 | an empty response gives a DocmailObject with no attributes and cannot give a Mailing |
| Decoder.ExampleFault | src/docmail/client.py:219-222 | an `ErrorCode` field with code 5, after fields that all apply, raises `InvalidGuid` / `The mailing guid was not found` |
| Decoder.DocmailObject.constructor | src/docmail/client.py:80-95 | a new object holds exactly the constructor's attributes: none for DocmailObject, thirteen for Mailing |
| Decoder.DocmailObject.SetAttr | src/docmail/client.py:97-99 | `setattr` stores the value, except on the read-only `is_mono` of a Mailing, where it raises and changes nothing |
| Decoder.DocmailObject.FormatDataHook | src/docmail/client.py:225-226 | the hook leaves the attributes `FormatData` describes, or raises its error without changing them |
| Decoder.Parse | src/docmail/client.py:209-227 | `_parse` returns a fresh object whose attributes are those `Decode` gives, or raises exactly `Decode`'s error |
| Files.RFind | src/docmail/client.py:130 | `rfind` gives the index of the last occurrence, or -1 when there is none |
| Files.Extension | src/docmail/client.py:170 | the extension is no longer than the name, has no dot and no capital letter; `ExtensionOfDotless` and `ExtensionAfterLastDot` say which text it is |
| Files.ExtensionOfDotless | src/docmail/client.py:130 | a name without a dot is its own extension, lower-cased |
| Files.ExtensionAfterLastDot | src/docmail/client.py:130 | otherwise the extension is the lower-cased text after the last dot |
| Files.Source | src/docmail/client.py:119-128 | data given wins; otherwise the path is read from disk, and a missing file has no `.name` |
| Files.NewTemplateFile | src/docmail/client.py:112-149 | an accepted template has extension doc, docx or rtf; any other raises the format ValueError; the name and bytes come from `Source` |
| Files.TemplateAcceptedIff | src/docmail/client.py:130-132 | a template whose bytes are found is accepted exactly when its extension is doc, docx or rtf |
| Files.TemplateIsDocument | src/docmail/client.py:134-149 | an accepted template is always a `Document`, starts with no guid and has one copy and one instance |
| Files.ExampleSampleDocument | src/docmail/client.py:119-132 | `sample.doc` read from disk is accepted |
| Files.ExampleDotlessName | src/docmail/client.py:130-132 | a bare name `docx` is its own extension and is accepted |
| Files.ExamplePdfRefused | src/docmail/client.py:130-138 | `report.pdf` is refused |
| Files.ListFormat | src/docmail/client.py:171-181 | the data format is always CSV, Excel or one of the three text layouts |
| Files.ListFormatRules | src/docmail/client.py:171-181 | csv is forced to CSV, xls/xlsx with a sheet name to Excel, txt keeps a valid layout, and nothing else is accepted |
| Files.NewMailingListFile | src/docmail/client.py:152-195 | as written: the name and bytes come from `Source`; an accepted list has headers on, an empty mapping name and a non-empty delimiter; it stores the data format the extension rules give, and any sheet name, delimiter or column layout that was supplied non-empty, as given |
| Files.ListChecks | src/docmail/client.py:170-195 | the checks once the name and bytes are known: an accepted list stores the name, the bytes, the data format the rules give and each option supplied non-empty |
| Files.MailingListAcceptedIff | src/docmail/client.py:171-187 | as written, a list is accepted exactly when the extension rules allow it and the layout option for its text format was left out |
| Files.MailingListDefaults | src/docmail/client.py:189-195 | falsy options read as empty strings, and the delimiter falls back to four spaces |
| Files.DelimiterCheckInverted | src/docmail/client.py:184-185 | a delimited txt file given a delimiter is refused, and one given none is accepted with four spaces |
| Files.DelimiterCounterexample | src/docmail/client.py:184-185 | `list.txt`, Delimited, delimiter `,` is refused as written and accepted by the intended version |
| Files.NewMailingListFileIntended | src/docmail/client.py:184-187 | with the checks the messages describe: the name and bytes come from `Source` |
| Files.IntendedKeepsLayout | src/docmail/client.py:184-195 | intended version: an accepted delimited list carries the delimiter it was given, and a fixed-width list its column layout |
| Files.IntendedAgreesElsewhere | src/docmail/client.py:171-195 | the intended and the as-written versions agree on every list whose data format is neither Delimited nor Fixed width |
| ProcessMailing.FillMissing | src/docmail/client.py:329-331 | the loop adds exactly the defaults whose names are not given, and keeps every given value |
| ProcessMailing.Merged | src/docmail/client.py:327-330 | the specification of the merge (the defaults, overridden by the caller's arguments, overridden by `ReturnFormat`): every `PROCESS_MAILING` name is present, and `ReturnFormat` is the client's |
| ProcessMailing.MergeProcessArgs | src/docmail/client.py:327-331 | the loop's result is the defaults overridden by the caller's arguments and `ReturnFormat` |
| ProcessMailing.CallerArgumentsWin | src/docmail/client.py:329-331 | a name the caller passed keeps the caller's value |
| ProcessMailing.MissingArgumentsFilled | src/docmail/client.py:57-64 | a default the caller left out is filled with its `PROCESS_MAILING` value |
| ProcessMailing.MergedNames | src/docmail/client.py:327-331 | the merged arguments hold exactly the caller's names, the defaults and `ReturnFormat`, which is the client's |
| ProcessMailing.MergeIdempotent | src/docmail/client.py:327-331 | merging a second time changes nothing |

## Left out

- `Client.__init__` and every method that calls the SOAP service (`get_mailing`, `create_mailing`, `add_template_file`, the balances, the deletes and the rest) are left out. They are network calls through suds; only the argument merge of `process_mailing` is modelled.
- src/docmail/appengine/client.py is not part of this model. It is App Engine transport and cache glue.
- src/example.py is not part of this model. It is a script of network calls.
- XML parsing with `xml.dom.minidom` is left out. The model starts from the children's texts of each field node. A missing child or a child without text is the single failure `Malformed`.
- `file` given as an open file object is left out, and so is `base64` encoding. Only a file name is modelled: with data, or read from the `disk` map.
- The clock is left out: `datetime.now()` is the parameter `despatchDate`.
- `float()` in the balance calls is left out (floating point).
- Labels and values are assumed to be ASCII. `_parse` reads them through `wholeText`, which is a Unicode string, so for non-ASCII text the source's `isupper` and `lower` apply Unicode case mapping, and `setattr` with a non-ASCII attribute name raises `UnicodeEncodeError`; neither is captured. File names in `Files` are byte strings, for which ASCII case is what Python 2 does in the C locale.
- Python's special attributes (`__class__`, `__dict__` and others) are left out. A field whose label normalises to one of them would change the object itself. Only `is_mono` and `_format_data` are modelled as attribute names that behave specially.
- Decoder.FaultText: models `str()` of the exception only when code, error and description are text. Only timestamps and booleans can be anything else, and Python's rendering of those is not modelled.
- An empty response: the source returns a plain object with no attributes, and a Mailing built from it fails in `_format_data` because `mailing_list_guid` was never set. The model follows the source (`Decoder.EmptyResponse`), not a reading in which an empty response is an error.

## Findings

| source | as written | input that shows it | evidently intended | confidence | as-written member | corrected member |
|---|---|---|---|---|---|---|
| src/docmail/client.py:184-187 | a Delimited list raises when `mapping_delimiter` is supplied, and a Fixed width list raises when `mapping_fixed_width_chars` is supplied | `MailingListFile('list.txt', data='a,b', data_format='Delimited', mapping_delimiter=',')` raises "mapping_delimiter arg must be provided"; leaving the delimiter out is accepted with four spaces | raise when the option is missing, as the messages say | high, not executed | Files.DelimiterCheckInverted | Files.IntendedKeepsLayout |
