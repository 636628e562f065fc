/** `Client._parse`: walk the field nodes of a response, build the target
    object, stop at an embedded error, and run the object's `_format_data` hook. */
module Decoder {
  import opened Results
  import opened Values
  import opened Labels

  /** The texts of a field element's children in document order; `None` is a
      child element without a text node. */
  type FieldNode = seq<Option<string>>

  /** Why `_parse` raises instead of returning an object. */
  datatype Failure =
    | Malformed                                             // a child the walk reads is missing or has no text
    | FormatError(cause: ParseError)                        // `strptime` refused a date-shaped value
    | Fault(code: Value, error: Value, description: Value)  // DocmailException
    | ReadOnlyAttribute(name: string)                       // `setattr` on a property without a setter
    | MissingAttribute(name: string)                        // `_format_data` read an attribute nobody set
    | NotCallable                                           // a response field replaced the `_format_data` hook

  /** `str(DocmailException)` for a fault whose parts are text: the error,
      the code in parentheses, then the description. */
  function FaultText(f: Failure): (text: string)
    requires f.Fault? && f.code.Str? && f.error.Str? && f.description.Str?
    ensures |text| == |f.error.s| + |f.code.s| + |f.description.s| + 5
    ensures text[|f.error.s| + 2 + |f.code.s|..|text| - |f.description.s|] == "): "
    ensures text[..|f.error.s|] == f.error.s
    ensures text[|f.error.s|..|f.error.s| + 2] == " ("
    ensures text[|f.error.s| + 2..|f.error.s| + 2 + |f.code.s|] == f.code.s
    ensures text[|text| - |f.description.s|..] == f.description.s
  {
    f.error.s + " (" + f.code.s + "): " + f.description.s
  }

  /** One field node, decoded: the attribute to set, or why the walk stops there. */
  type Field = Result<(string, Value), Failure>

  /** `return_class`: the plain DocmailObject or a Mailing. */
  datatype Kind = Generic | MailingKind

  const ErrorCodeKey: string := "error_code"
  const HookName: string := "_format_data"
  const NullGuid: string := "00000000-0000-0000-0000-000000000000"

  function ChildText(node: FieldNode, k: nat): Option<string> {
    if k < |node| then node[k] else None
  }

  /** `self._format_value(node.childNodes[k].firstChild.wholeText)`. */
  function FormatChild(node: FieldNode, k: nat): Result<Value, Failure> {
    match ChildText(node, k)
    case None => Failure(Malformed)
    case Some(text) =>
      match FormatValue(text)
      case Success(v) => Success(v)
      case Failure(e) => Failure(FormatError(e))
  }

  /** The body of the walk for one field node: child 0 is the label and child 1
      the value; an `error_code` field raises with its children 1, 3 and 5. */
  function DecodeField(node: FieldNode): (r: Field)
    ensures |node| < 2 ==> r == Failure(Malformed)
    ensures r.Success? ==> r.value.0 != ErrorCodeKey
    ensures r.Success? ==>
      && ChildText(node, 0).Some? && r.value.0 == FormatKey(ChildText(node, 0).value)
      && FormatChild(node, 1) == Success(r.value.1)
    ensures ChildText(node, 0).Some? && FormatKey(ChildText(node, 0).value) != ErrorCodeKey && FormatChild(node, 1).Success? ==>
      r == Success((FormatKey(ChildText(node, 0).value), FormatChild(node, 1).value))
  {
    match ChildText(node, 0)
    case None => Failure(Malformed)
    case Some(rawKey) =>
      if ChildText(node, 1).None? then Failure(Malformed)
      else
        var key := FormatKey(rawKey);
        var value :- FormatChild(node, 1);
        if key == ErrorCodeKey then
          var error :- FormatChild(node, 3);
          var description :- FormatChild(node, 5);
          Failure(Fault(value, error, description))
        else
          Success((key, value))
  }

  function DecodeFields(nodes: seq<FieldNode>): (fields: seq<Field>)
    ensures |fields| == |nodes|
    ensures forall j :: 0 <= j < |nodes| ==> fields[j] == DecodeField(nodes[j])
  {
    seq(|nodes|, j requires 0 <= j < |nodes| => DecodeField(nodes[j]))
  }

  /** The field sets attribute `key`. */
  predicate Names(field: Field, key: string) {
    field.Success? && field.value.0 == key
  }

  /** `setattr` raises on Mailing's read-only `is_mono` property. */
  predicate IsReadOnly(kind: Kind, key: string) {
    kind == MailingKind && key == "is_mono"
  }

  /** The field is set on the object without raising. */
  predicate Applies(kind: Kind, field: Field) {
    field.Success? && !IsReadOnly(kind, field.value.0)
  }

  function DefaultNames(kind: Kind): set<string> {
    match kind
    case Generic => {}
    case MailingKind =>
      {"product_type", "name", "mailing_description", "is_colour", "is_duplex", "delivery_type",
       "courier_delivery_to_self", "despatch_asap", "despatch_date", "address_name_prefix",
       "address_name_format", "discount_code", "min_envelope_size"}
  }

  /** The attributes `return_class()` starts with. `despatchDate` stands for
      the constructor's "now plus two days". */
  function Defaults(kind: Kind, despatchDate: DateTime): (attrs: map<string, Value>)
    ensures attrs.Keys == DefaultNames(kind)
  {
    match kind
    case Generic => map[]
    case MailingKind =>
      map[ "product_type" := Str("A4Letter"),
           "name" := Null,
           "mailing_description" := Null,
           "is_colour" := Bool(true),
           "is_duplex" := Bool(false),
           "delivery_type" := Str("Standard"),
           "courier_delivery_to_self" := Bool(false),
           "despatch_asap" := Bool(true),
           "despatch_date" := Timestamp(despatchDate),
           "address_name_prefix" := Null,
           "address_name_format" := Str("Full Name"),
           "discount_code" := Null,
           "min_envelope_size" := Str("C5") ]
  }

  /** Neither the hook nor the guid is among the constructor's attributes. */
  lemma DefaultNamesExclude(kind: Kind)
    ensures HookName !in DefaultNames(kind)
    ensures "mailing_list_guid" !in DefaultNames(kind)
  {
  }

  /** The constructor sets a date, not "ASAP". */
  lemma DefaultDespatchDate(despatchDate: DateTime)
    ensures Defaults(MailingKind, despatchDate)["despatch_date"] == Timestamp(despatchDate)
  {
  }

  /** The loop of `_parse`, from a given object state over the remaining fields. */
  function ApplyFields(kind: Kind, attrs: map<string, Value>, fields: seq<Field>): (r: Result<map<string, Value>, Failure>)
    ensures r.Success? ==> attrs.Keys <= r.value.Keys
    decreases |fields|
  {
    if fields == [] then Success(attrs)
    else if fields[0].Failure? then Failure(fields[0].error)
    else
      var (key, value) := fields[0].value;
      if IsReadOnly(kind, key) then Failure(ReadOnlyAttribute(key))
      else ApplyFields(kind, attrs[key := value], fields[1..])
  }

  /** `Mailing._format_data`. */
  function MailingFormatData(attrs: map<string, Value>): (r: Result<map<string, Value>, Failure>)
    requires "despatch_date" in attrs
    ensures r.Failure? <==> "mailing_list_guid" !in attrs
    ensures r.Success? ==> r.value.Keys == attrs.Keys + {"despatch_asap"}
    ensures r.Success? ==> forall k :: k in attrs && k != "mailing_list_guid" && k != "despatch_asap" && k != "despatch_date" ==> r.value[k] == attrs[k]
    ensures r.Success? ==> r.value["mailing_list_guid"] == (if attrs["mailing_list_guid"] == Str(NullGuid) then Null else attrs["mailing_list_guid"])
    ensures r.Success? ==> r.value["despatch_asap"] == Bool(attrs["despatch_date"] == Str("ASAP"))
    ensures r.Success? ==> r.value["despatch_date"] == (if attrs["despatch_date"] == Str("ASAP") then Null else attrs["despatch_date"])
  {
    if "mailing_list_guid" !in attrs then Failure(MissingAttribute("mailing_list_guid"))
    else
      var guid := attrs["mailing_list_guid"];
      var a := if guid == Str(NullGuid) then attrs["mailing_list_guid" := Null] else attrs;
      if a["despatch_date"] == Str("ASAP") then Success(a["despatch_asap" := Bool(true)]["despatch_date" := Null])
      else Success(a["despatch_asap" := Bool(false)])
  }

  /** `ob._format_data()`: a no-op for DocmailObject, Mailing's override for a
      Mailing; a response field named `_format_data` has replaced the method
      with a value, which cannot be called. */
  function FormatData(kind: Kind, attrs: map<string, Value>): (r: Result<map<string, Value>, Failure>)
    requires DefaultNames(kind) <= attrs.Keys
    ensures HookName in attrs ==> r == Failure(NotCallable)
    ensures r.Success? ==> attrs.Keys <= r.value.Keys && HookName !in r.value
    ensures kind == Generic && r.Success? ==> r.value == attrs
  {
    if HookName in attrs then Failure(NotCallable)
    else
      match kind
      case Generic => Success(attrs)
      case MailingKind => MailingFormatData(attrs)
  }

  /** `_parse` from a given object state: the walk, then the hook. */
  function DecodeFrom(kind: Kind, attrs: map<string, Value>, fields: seq<Field>): Result<map<string, Value>, Failure>
    requires DefaultNames(kind) <= attrs.Keys
  {
    var attrs' :- ApplyFields(kind, attrs, fields);
    FormatData(kind, attrs')
  }

  /** What `_parse(xml, return_class)` returns or raises. */
  function Decode(nodes: seq<FieldNode>, kind: Kind, despatchDate: DateTime): (r: Result<map<string, Value>, Failure>)
    ensures r.Success? ==> DefaultNames(kind) <= r.value.Keys && HookName !in r.value
    ensures r.Success? && kind == MailingKind ==> "mailing_list_guid" in r.value && "despatch_asap" in r.value
  {
    DecodeFrom(kind, Defaults(kind, despatchDate), DecodeFields(nodes))
  }

  /** A field whose key normalises to `error_code` raises the DocmailException
      built from its children 1, 3 and 5, each formatted. */
  lemma ErrorCodeRaisesFault(node: FieldNode, code: Value, error: Value, description: Value)
    requires ChildText(node, 0).Some? && FormatKey(ChildText(node, 0).value) == ErrorCodeKey
    ensures DecodeField(node) == Failure(Fault(code, error, description))
        <==> FormatChild(node, 1) == Success(code) && FormatChild(node, 3) == Success(error)
             && FormatChild(node, 5) == Success(description)
  {
  }

  /** A walk that completes applied every field: none was malformed, none was
      an `error_code` field, none hit a read-only attribute. */
  lemma {:induction false} SuccessAppliesEveryField(kind: Kind, attrs: map<string, Value>, fields: seq<Field>)
    requires ApplyFields(kind, attrs, fields).Success?
    ensures forall j :: 0 <= j < |fields| ==> Applies(kind, fields[j])
    decreases |fields|
  {
    if fields != [] {
      var (key, value) := fields[0].value;
      SuccessAppliesEveryField(kind, attrs[key := value], fields[1..]);
      forall j | 0 < j < |fields| ensures Applies(kind, fields[j]) {
        assert fields[j] == fields[1..][j - 1];
      }
    }
  }

  /** Conversely, a walk over fields that all apply completes. */
  lemma {:induction false} EveryFieldAppliedCompletes(kind: Kind, attrs: map<string, Value>, fields: seq<Field>)
    requires forall j :: 0 <= j < |fields| ==> Applies(kind, fields[j])
    ensures ApplyFields(kind, attrs, fields).Success?
    decreases |fields|
  {
    if fields != [] {
      var (key, value) := fields[0].value;
      forall j | 0 <= j < |fields| - 1 ensures Applies(kind, fields[1..][j]) {
        assert fields[1..][j] == fields[j + 1];
      }
      EveryFieldAppliedCompletes(kind, attrs[key := value], fields[1..]);
    }
  }

  /** A decoded field naming a read-only attribute ends the walk with that
      attribute's error, after fields that all apply. */
  lemma {:induction false} ReadOnlyStops(kind: Kind, attrs: map<string, Value>, fields: seq<Field>, j: nat)
    requires j < |fields|
    requires forall i :: 0 <= i < j ==> Applies(kind, fields[i])
    requires fields[j].Success? && IsReadOnly(kind, fields[j].value.0)
    ensures ApplyFields(kind, attrs, fields) == Failure(ReadOnlyAttribute(fields[j].value.0))
    decreases j
  {
    if j > 0 {
      var (key, value) := fields[0].value;
      forall i | 0 <= i < j - 1 ensures Applies(kind, fields[1..][i]) {
        assert fields[1..][i] == fields[i + 1];
      }
      assert fields[1..][j - 1] == fields[j];
      ReadOnlyStops(kind, attrs[key := value], fields[1..], j - 1);
    }
  }

  /** The walk stops at the first field that does not apply: what it raises
      depends on no later field. */
  lemma {:induction false} FirstFailureStops(kind: Kind, attrs: map<string, Value>, fields: seq<Field>, j: nat)
    requires j < |fields|
    requires forall i :: 0 <= i < j ==> Applies(kind, fields[i])
    requires fields[j].Failure?
    ensures ApplyFields(kind, attrs, fields) == Failure(fields[j].error)
    decreases j
  {
    if j > 0 {
      var (key, value) := fields[0].value;
      forall i | 0 <= i < j - 1 ensures Applies(kind, fields[1..][i]) {
        assert fields[1..][i] == fields[i + 1];
      }
      FirstFailureStops(kind, attrs[key := value], fields[1..], j - 1);
    }
  }

  /** An attribute no field names keeps the value it started with, or stays absent. */
  lemma {:induction false} UnnamedKeeps(kind: Kind, attrs: map<string, Value>, fields: seq<Field>, key: string)
    requires ApplyFields(kind, attrs, fields).Success?
    requires forall i :: 0 <= i < |fields| ==> !Names(fields[i], key)
    ensures key in ApplyFields(kind, attrs, fields).value <==> key in attrs
    ensures key in attrs ==> ApplyFields(kind, attrs, fields).value[key] == attrs[key]
    decreases |fields|
  {
    if fields != [] {
      var (k0, v0) := fields[0].value;
      assert !Names(fields[0], key);
      forall i | 0 <= i < |fields| - 1 ensures !Names(fields[1..][i], key) {
        assert fields[1..][i] == fields[i + 1];
      }
      UnnamedKeeps(kind, attrs[k0 := v0], fields[1..], key);
    }
  }

  /** Fields apply in document order: an attribute holds the value of the last field naming it. */
  lemma {:induction false} LaterFieldWins(kind: Kind, attrs: map<string, Value>, fields: seq<Field>, j: nat)
    requires ApplyFields(kind, attrs, fields).Success?
    requires j < |fields| && fields[j].Success?
    requires forall i :: j < i < |fields| ==> !Names(fields[i], fields[j].value.0)
    ensures fields[j].value.0 in ApplyFields(kind, attrs, fields).value
    ensures ApplyFields(kind, attrs, fields).value[fields[j].value.0] == fields[j].value.1
    decreases j
  {
    var (k0, v0) := fields[0].value;
    var key := fields[j].value.0;
    forall i | j - 1 < i < |fields| - 1 ensures !Names(fields[1..][i], key) {
      assert fields[1..][i] == fields[i + 1];
    }
    if j == 0 {
      UnnamedKeeps(kind, attrs[k0 := v0], fields[1..], key);
    } else {
      assert fields[1..][j - 1] == fields[j];
      LaterFieldWins(kind, attrs[k0 := v0], fields[1..], j - 1);
    }
  }

  /** If some field names `key`, one of them is the last. */
  lemma {:induction false} LastNaming(fields: seq<Field>, key: string, j: nat)
    requires j < |fields| && Names(fields[j], key)
    ensures exists l :: j <= l < |fields| && Names(fields[l], key) && forall i :: l < i < |fields| ==> !Names(fields[i], key)
    decreases |fields| - j
  {
    if exists i :: j < i < |fields| && Names(fields[i], key) {
      var i :| j < i < |fields| && Names(fields[i], key);
      LastNaming(fields, key, i);
    }
  }

  /** A successful decode read every field node; no label normalised to `error_code`. */
  lemma DecodedResponseHasNoError(nodes: seq<FieldNode>, kind: Kind, despatchDate: DateTime)
    requires Decode(nodes, kind, despatchDate).Success?
    ensures forall j :: 0 <= j < |nodes| ==>
      |nodes[j]| >= 2 && ChildText(nodes[j], 0).Some? && FormatKey(ChildText(nodes[j], 0).value) != ErrorCodeKey
  {
    SuccessAppliesEveryField(kind, Defaults(kind, despatchDate), DecodeFields(nodes));
  }

  /** After a completed walk an attribute is present exactly when it was
      before or some field names it, and holds the value of the last such field. */
  lemma {:induction false} WalkResult(kind: Kind, attrs: map<string, Value>, fields: seq<Field>, key: string)
    requires ApplyFields(kind, attrs, fields).Success?
    ensures key in ApplyFields(kind, attrs, fields).value <==> key in attrs || exists j :: 0 <= j < |fields| && Names(fields[j], key)
    ensures forall j :: 0 <= j < |fields| && Names(fields[j], key) && (forall i :: j < i < |fields| ==> !Names(fields[i], key)) ==>
      ApplyFields(kind, attrs, fields).value[key] == fields[j].value.1
  {
    if exists j :: 0 <= j < |fields| && Names(fields[j], key) {
      var j :| 0 <= j < |fields| && Names(fields[j], key);
      LastNaming(fields, key, j);
      var l :| j <= l < |fields| && Names(fields[l], key) && forall i :: l < i < |fields| ==> !Names(fields[i], key);
      LaterFieldWins(kind, attrs, fields, l);
    } else {
      UnnamedKeeps(kind, attrs, fields, key);
    }
    forall j | 0 <= j < |fields| && Names(fields[j], key) && (forall i :: j < i < |fields| ==> !Names(fields[i], key))
      ensures ApplyFields(kind, attrs, fields).value[key] == fields[j].value.1
    {
      LaterFieldWins(kind, attrs, fields, j);
    }
  }

  /** A plain DocmailObject carries exactly the attributes the response named,
      each with the value of the last field naming it. */
  lemma GenericObjectFromFields(nodes: seq<FieldNode>, despatchDate: DateTime, key: string)
    requires Decode(nodes, Generic, despatchDate).Success?
    ensures var fields := DecodeFields(nodes);
      key in Decode(nodes, Generic, despatchDate).value <==> exists j :: 0 <= j < |fields| && Names(fields[j], key)
    ensures var fields := DecodeFields(nodes);
      forall j :: 0 <= j < |fields| && Names(fields[j], key) && (forall i :: j < i < |fields| ==> !Names(fields[i], key)) ==>
        Decode(nodes, Generic, despatchDate).value[key] == fields[j].value.1
  {
    GenericWalk(DecodeFields(nodes), key);
  }

  /** `GenericObjectFromFields` over the decoded fields. */
  lemma GenericWalk(fields: seq<Field>, key: string)
    requires DecodeFrom(Generic, map[], fields).Success?
    ensures key in DecodeFrom(Generic, map[], fields).value <==> exists j :: 0 <= j < |fields| && Names(fields[j], key)
    ensures forall j :: 0 <= j < |fields| && Names(fields[j], key) && (forall i :: j < i < |fields| ==> !Names(fields[i], key)) ==>
      DecodeFrom(Generic, map[], fields).value[key] == fields[j].value.1
  {
    assert DecodeFrom(Generic, map[], fields) == ApplyFields(Generic, map[], fields);
    WalkResult(Generic, map[], fields, key);
  }

  /** An embedded error stops the walk: `_parse` raises it, returns no object
      and never runs `_format_data`, whatever follows in the response. */
  lemma FirstErrorRaises(nodes: seq<FieldNode>, kind: Kind, despatchDate: DateTime, j: nat)
    requires j < |nodes|
    requires forall i :: 0 <= i < j ==> Applies(kind, DecodeField(nodes[i]))
    requires DecodeField(nodes[j]).Failure?
    ensures Decode(nodes, kind, despatchDate) == Failure(DecodeField(nodes[j]).error)
  {
    FirstFailureStops(kind, Defaults(kind, despatchDate), DecodeFields(nodes), j);
  }

  /** A Mailing walk that never sets the guid finds it missing in the hook. */
  lemma {:induction false} GuidNeverSet(attrs: map<string, Value>, fields: seq<Field>)
    requires DefaultNames(MailingKind) <= attrs.Keys && "mailing_list_guid" !in attrs
    requires forall i :: 0 <= i < |fields| ==> !Names(fields[i], "mailing_list_guid")
    ensures DecodeFrom(MailingKind, attrs, fields).Failure?
  {
    if ApplyFields(MailingKind, attrs, fields).Success? {
      UnnamedKeeps(MailingKind, attrs, fields, "mailing_list_guid");
    }
  }

  /** A Mailing attribute no field names and the hook does not rewrite keeps its value. */
  lemma {:induction false} MailingKeeps(attrs: map<string, Value>, fields: seq<Field>, key: string)
    requires DefaultNames(MailingKind) <= attrs.Keys && key in attrs
    requires key != "mailing_list_guid" && key != "despatch_asap" && key != "despatch_date"
    requires DecodeFrom(MailingKind, attrs, fields).Success?
    requires forall i :: 0 <= i < |fields| ==> !Names(fields[i], key)
    ensures key in DecodeFrom(MailingKind, attrs, fields).value
    ensures DecodeFrom(MailingKind, attrs, fields).value[key] == attrs[key]
  {
    UnnamedKeeps(MailingKind, attrs, fields, key);
  }

  /** A despatch date no field names is not "ASAP" unless it started so. */
  lemma {:induction false} DespatchDateKept(attrs: map<string, Value>, fields: seq<Field>)
    requires DefaultNames(MailingKind) <= attrs.Keys && attrs["despatch_date"] != Str("ASAP")
    requires DecodeFrom(MailingKind, attrs, fields).Success?
    requires forall i :: 0 <= i < |fields| ==> !Names(fields[i], "despatch_date")
    ensures DecodeFrom(MailingKind, attrs, fields).value["despatch_asap"] == Bool(false)
    ensures DecodeFrom(MailingKind, attrs, fields).value["despatch_date"] == attrs["despatch_date"]
  {
    UnnamedKeeps(MailingKind, attrs, fields, "despatch_date");
  }

  /** The Mailing constructor gives `mailing_list_guid` no default, so a
      response that never names it cannot be decoded into a Mailing. */
  lemma MailingNeedsGuid(nodes: seq<FieldNode>, despatchDate: DateTime)
    requires forall j :: 0 <= j < |nodes| ==> !Names(DecodeFields(nodes)[j], "mailing_list_guid")
    ensures Decode(nodes, MailingKind, despatchDate).Failure?
  {
    DefaultNamesExclude(MailingKind);
    GuidNeverSet(Defaults(MailingKind, despatchDate), DecodeFields(nodes));
  }

  /** A Mailing attribute the response does not name keeps its constructor
      value, except the two `_format_data` rewrites. */
  lemma MailingDefaultKept(nodes: seq<FieldNode>, despatchDate: DateTime, key: string)
    requires Decode(nodes, MailingKind, despatchDate).Success?
    requires key in DefaultNames(MailingKind) && key != "despatch_asap" && key != "despatch_date"
    requires forall j :: 0 <= j < |nodes| ==> !Names(DecodeFields(nodes)[j], key)
    ensures key in Decode(nodes, MailingKind, despatchDate).value
    ensures Decode(nodes, MailingKind, despatchDate).value[key] == Defaults(MailingKind, despatchDate)[key]
  {
    DefaultNamesExclude(MailingKind);
    MailingKeeps(Defaults(MailingKind, despatchDate), DecodeFields(nodes), key);
  }

  /** Without a despatch date in the response a decoded Mailing keeps the
      constructor's date and is not ASAP, although the constructor says it is. */
  lemma MailingWithoutDespatchDate(nodes: seq<FieldNode>, despatchDate: DateTime)
    requires Decode(nodes, MailingKind, despatchDate).Success?
    requires forall j :: 0 <= j < |nodes| ==> !Names(DecodeFields(nodes)[j], "despatch_date")
    ensures Decode(nodes, MailingKind, despatchDate).value["despatch_asap"] == Bool(false)
    ensures Decode(nodes, MailingKind, despatchDate).value["despatch_date"] == Timestamp(despatchDate)
  {
    DefaultDespatchDate(despatchDate);
    DespatchDateKept(Defaults(MailingKind, despatchDate), DecodeFields(nodes));
  }

  /** An empty response gives a plain object with no attributes, and cannot
      give a Mailing. */
  lemma EmptyResponse(despatchDate: DateTime)
    ensures Decode([], Generic, despatchDate) == Success(map[])
    ensures Decode([], MailingKind, despatchDate) == Failure(MissingAttribute("mailing_list_guid"))
  {
    assert DecodeFields([]) == [];
    DefaultNamesExclude(MailingKind);
  }
  /** A response whose fields all decode, none of them naming the hook, gives a plain object. */
  lemma GenericDecodes(nodes: seq<FieldNode>, despatchDate: DateTime)
    requires var fields := DecodeFields(nodes);
      forall j :: 0 <= j < |fields| ==> fields[j].Success? && !Names(fields[j], HookName)
    ensures Decode(nodes, Generic, despatchDate).Success?
  {
    GenericWalkCompletes(DecodeFields(nodes));
  }

  lemma GenericWalkCompletes(fields: seq<Field>)
    requires forall j :: 0 <= j < |fields| ==> fields[j].Success? && !Names(fields[j], HookName)
    ensures DecodeFrom(Generic, map[], fields).Success?
  {
    EveryFieldAppliedCompletes(Generic, map[], fields);
    UnnamedKeeps(Generic, map[], fields, HookName);
  }

  /** A response whose fields all decode, none naming the hook or the
      read-only `is_mono`, and one of them naming the guid, gives a Mailing. */
  lemma MailingDecodes(nodes: seq<FieldNode>, despatchDate: DateTime, g: nat)
    requires var fields := DecodeFields(nodes);
      forall j :: 0 <= j < |fields| ==> fields[j].Success? && !Names(fields[j], HookName) && !Names(fields[j], "is_mono")
    requires g < |nodes| && Names(DecodeFields(nodes)[g], "mailing_list_guid")
    ensures Decode(nodes, MailingKind, despatchDate).Success?
  {
    DefaultNamesExclude(MailingKind);
    MailingWalkCompletes(Defaults(MailingKind, despatchDate), DecodeFields(nodes), g);
  }

  lemma MailingWalkCompletes(attrs: map<string, Value>, fields: seq<Field>, g: nat)
    requires DefaultNames(MailingKind) <= attrs.Keys && HookName !in attrs
    requires forall j :: 0 <= j < |fields| ==> fields[j].Success? && !Names(fields[j], HookName) && !Names(fields[j], "is_mono")
    requires g < |fields| && Names(fields[g], "mailing_list_guid")
    ensures DecodeFrom(MailingKind, attrs, fields).Success?
  {
    forall j | 0 <= j < |fields| ensures Applies(MailingKind, fields[j]) {
      assert !Names(fields[j], "is_mono");
    }
    EveryFieldAppliedCompletes(MailingKind, attrs, fields);
    UnnamedKeeps(MailingKind, attrs, fields, HookName);
    WalkResult(MailingKind, attrs, fields, "mailing_list_guid");
  }

  /** A Mailing response with a field naming `is_mono` raises there, as
      `setattr` on a property without a setter does. */
  lemma IsMonoRaises(nodes: seq<FieldNode>, despatchDate: DateTime, j: nat)
    requires j < |nodes| && forall i :: 0 <= i < j ==> Applies(MailingKind, DecodeFields(nodes)[i])
    requires Names(DecodeFields(nodes)[j], "is_mono")
    ensures Decode(nodes, MailingKind, despatchDate) == Failure(ReadOnlyAttribute("is_mono"))
  {
    ReadOnlyStops(MailingKind, Defaults(MailingKind, despatchDate), DecodeFields(nodes), j);
  }


  /** Text no rule rewrites: too short or too long for a date, a "yes" or a "no". */
  lemma PlainText(v: string)
    requires |v| != 2 && |v| != 3 && |v| != 19 && |v| != 20
    ensures FormatValue(v) == Success(Str(v))
  {
  }

  lemma PlainChild(node: FieldNode, k: nat, v: string)
    requires ChildText(node, k) == Some(v) && FormatValue(v) == Success(Str(v))
    ensures FormatChild(node, k) == Success(Str(v))
  {
  }

  /** The error field of a fault response: the `ErrorCode` label, then the
      code, with the error and description at children 3 and 5. */
  lemma FaultNode(node: FieldNode, code: string, error: string, description: string)
    requires |node| == 6 && node[0] == Some("ErrorCode")
    requires node[1] == Some(code) && node[3] == Some(error) && node[5] == Some(description)
    requires FormatValue(code) == Success(Str(code)) && FormatValue(error) == Success(Str(error))
    requires FormatValue(description) == Success(Str(description))
    ensures DecodeField(node) == Failure(Fault(Str(code), Str(error), Str(description)))
  {
    ExampleErrorCode();
    PlainChild(node, 1, code);
    PlainChild(node, 3, error);
    PlainChild(node, 5, description);
    ErrorCodeRaisesFault(node, Str(code), Str(error), Str(description));
  }

  /** A field decoding to a fault, after fields that all apply, raises that fault. */
  lemma FaultAt(nodes: seq<FieldNode>, kind: Kind, despatchDate: DateTime, j: nat, code: string, error: string, description: string)
    requires j < |nodes| && forall i :: 0 <= i < j ==> Applies(kind, DecodeField(nodes[i]))
    requires |nodes[j]| == 6 && nodes[j][0] == Some("ErrorCode")
    requires nodes[j][1] == Some(code) && nodes[j][3] == Some(error) && nodes[j][5] == Some(description)
    requires FormatValue(code) == Success(Str(code)) && FormatValue(error) == Success(Str(error))
    requires FormatValue(description) == Success(Str(description))
    ensures Decode(nodes, kind, despatchDate) == Failure(Fault(Str(code), Str(error), Str(description)))
  {
    FaultNode(nodes[j], code, error, description);
    FirstErrorRaises(nodes, kind, despatchDate, j);
  }

  lemma NodeParts(node: FieldNode, code: string, error: string, description: string)
    requires node == [Some("ErrorCode"), Some(code), Some(" "), Some(error), Some(" "), Some(description)]
    ensures |node| == 6 && node[0] == Some("ErrorCode")
    ensures node[1] == Some(code) && node[3] == Some(error) && node[5] == Some(description)
  {
  }

  lemma FaultTexts(code: string, error: string, description: string)
    requires code == "5" && error == "InvalidGuid" && description == "The mailing guid was not found"
    ensures FormatValue(code) == Success(Str(code)) && FormatValue(error) == Success(Str(error))
    ensures FormatValue(description) == Success(Str(description))
  {
    PlainText(code);
    PlainText(error);
    PlainText(description);
  }

  /** An `ErrorCode` field with code "5", error "InvalidGuid" and description
      "The mailing guid was not found" raises that fault, wherever it comes in
      the response, once the fields before it have all applied. */
  lemma ExampleFault(nodes: seq<FieldNode>, kind: Kind, despatchDate: DateTime, j: nat, code: string, error: string, description: string)
    requires code == "5" && error == "InvalidGuid" && description == "The mailing guid was not found"
    requires j < |nodes| && forall i :: 0 <= i < j ==> Applies(kind, DecodeField(nodes[i]))
    requires nodes[j] == [Some("ErrorCode"), Some(code), Some(" "), Some(error), Some(" "), Some(description)]
    ensures Decode(nodes, kind, despatchDate) == Failure(Fault(Str(code), Str(error), Str(description)))
  {
    FaultTexts(code, error, description);
    NodeParts(nodes[j], code, error, description);
    FaultAt(nodes, kind, despatchDate, j, code, error, description);
  }


  /** The object `_parse` builds; `attrs` holds its instance attributes. */
  class DocmailObject {
    const kind: Kind
    var attrs: map<string, Value>

    /** Attributes are only ever added or replaced, never removed. */
    ghost predicate Valid()
      reads this
    {
      DefaultNames(kind) <= attrs.Keys
    }

    /** `return_class()`. */
    constructor (kind: Kind, despatchDate: DateTime)
      ensures Valid() && this.kind == kind && attrs == Defaults(kind, despatchDate)
    {
      this.kind := kind;
      attrs := Defaults(kind, despatchDate);
    }

    /** `setattr(ob, key, value)`. */
    method SetAttr(key: string, value: Value) returns (r: Outcome<Failure>)
      requires Valid()
      modifies this
      ensures Valid()
      ensures r == if IsReadOnly(kind, key) then Fail(ReadOnlyAttribute(key)) else Pass
      ensures attrs == if r.Pass? then old(attrs)[key := value] else old(attrs)
    {
      if IsReadOnly(kind, key) {
        return Fail(ReadOnlyAttribute(key));
      }
      attrs := attrs[key := value];
      return Pass;
    }

    /** `ob._format_data()`. */
    method FormatDataHook() returns (r: Outcome<Failure>)
      requires Valid()
      modifies this
      ensures FormatData(kind, old(attrs)).Success? ==> r.Pass? && attrs == FormatData(kind, old(attrs)).value && Valid()
      ensures FormatData(kind, old(attrs)).Failure? ==> r == Fail(FormatData(kind, old(attrs)).error) && attrs == old(attrs)
    {
      if HookName in attrs {
        return Fail(NotCallable);
      }
      if kind == MailingKind {
        if "mailing_list_guid" !in attrs {
          return Fail(MissingAttribute("mailing_list_guid"));
        }
        if attrs["mailing_list_guid"] == Str(NullGuid) {
          attrs := attrs["mailing_list_guid" := Null];
        }
        if attrs["despatch_date"] == Str("ASAP") {
          attrs := attrs["despatch_asap" := Bool(true)];
          attrs := attrs["despatch_date" := Null];
        } else {
          attrs := attrs["despatch_asap" := Bool(false)];
        }
        assert attrs == MailingFormatData(old(attrs)).value;
      }
      return Pass;
    }
  }

  /** `Client._parse`: the object it returns, or what it raises. */
  method Parse(nodes: seq<FieldNode>, kind: Kind, despatchDate: DateTime) returns (r: Result<DocmailObject, Failure>)
    ensures Decode(nodes, kind, despatchDate).Success? ==>
      r.Success? && fresh(r.value) && r.value.kind == kind && r.value.attrs == Decode(nodes, kind, despatchDate).value
    ensures Decode(nodes, kind, despatchDate).Failure? ==> r == Failure(Decode(nodes, kind, despatchDate).error)
  {
    var ob := new DocmailObject(kind, despatchDate);
    ghost var fields := DecodeFields(nodes);
    for i := 0 to |nodes|
      invariant fresh(ob) && ob.Valid() && ob.kind == kind
      invariant ApplyFields(kind, Defaults(kind, despatchDate), fields) == ApplyFields(kind, ob.attrs, fields[i..])
    {
      assert fields[i..][1..] == fields[i + 1..];
      var field := DecodeField(nodes[i]);
      if field.Failure? {
        return Failure(field.error);
      }
      var (key, value) := field.value;
      var stored := ob.SetAttr(key, value);
      if stored.Fail? {
        return Failure(stored.error);
      }
    }
    assert fields[|nodes|..] == [];
    var hook := ob.FormatDataHook();
    if hook.Fail? {
      return Failure(hook.error);
    }
    return Success(ob);
  }
}
