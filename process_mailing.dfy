/** The argument defaults `Client.process_mailing` fills in before it calls
    the ProcessMailing service. */
module ProcessMailing {
  import opened Values

  const ReturnFormatKey: string := "ReturnFormat"

  /** `PROCESS_MAILING`. */
  const ProcessMailingDefaults: map<string, Value> :=
    map[ "po_reference" := Str(""),
         "payment_method" := Str("Topup"),
         "email_success_list" := Str(""),
         "email_error_list" := Str(""),
         "http_post_on_success" := Str(""),
         "http_post_on_error" := Str(""),
         "max_price_ex_vat" := Int(0),
         "skip_preview_image_generation" := Bool(false) ]

  /** The keyword arguments after the merge: the client's return format, then
      the caller's arguments, then a default for every name still missing. */
  ghost function Merged(args: map<string, Value>, returnFormat: string): (r: map<string, Value>)
    ensures forall k :: k in ProcessMailingDefaults ==> k in r
    ensures ReturnFormatKey in r && r[ReturnFormatKey] == Str(returnFormat)
  {
    ProcessMailingDefaults + args[ReturnFormatKey := Str(returnFormat)]
  }

  /** One turn of the loop moves one default name from still-to-visit to visited. */
  lemma MergeStep(defaults: map<string, Value>, given: map<string, Value>, remaining: set<string>, k: string)
    requires k in remaining && remaining <= defaults.Keys
    ensures var before := (defaults - remaining) + given;
      (if k !in before then before[k := defaults[k]] else before) == (defaults - (remaining - {k})) + given
  {
    var before := (defaults - remaining) + given;
    var after := if k !in before then before[k := defaults[k]] else before;
    assert after.Keys == ((defaults - (remaining - {k})) + given).Keys;
  }

  /** The loop of `process_mailing`: visits the defaults one by one and adds
      each whose name is not already given. */
  method FillMissing(given: map<string, Value>, defaults: map<string, Value>) returns (merged: map<string, Value>)
    ensures merged == defaults + given
  {
    merged := given;
    var remaining := defaults.Keys;
    while remaining != {}
      invariant remaining <= defaults.Keys
      invariant merged == (defaults - remaining) + given
      decreases |remaining|
    {
      var k :| k in remaining;
      MergeStep(defaults, given, remaining, k);
      if k !in merged {
        merged := merged[k := defaults[k]];
      }
      remaining := remaining - {k};
    }
  }

  /** `Client.process_mailing` up to the service call: sets `ReturnFormat`,
      then fills in the defaults the caller left out. */
  method MergeProcessArgs(args: map<string, Value>, returnFormat: string) returns (merged: map<string, Value>)
    ensures merged == Merged(args, returnFormat)
  {
    merged := FillMissing(args[ReturnFormatKey := Str(returnFormat)], ProcessMailingDefaults);
  }

  /** The merge keeps every name the caller passed, with the caller's value,
      except `ReturnFormat`, which is always the client's. */
  lemma CallerArgumentsWin(args: map<string, Value>, returnFormat: string, key: string)
    requires key in args && key != ReturnFormatKey
    ensures key in Merged(args, returnFormat) && Merged(args, returnFormat)[key] == args[key]
  {
  }

  /** Every default the caller left out is filled in with its value from `PROCESS_MAILING`. */
  lemma MissingArgumentsFilled(args: map<string, Value>, returnFormat: string, key: string)
    requires key in ProcessMailingDefaults && key !in args && key != ReturnFormatKey
    ensures key in Merged(args, returnFormat) && Merged(args, returnFormat)[key] == ProcessMailingDefaults[key]
  {
  }

  /** The merged arguments name exactly the caller's names, the defaults and
      `ReturnFormat`, so the service call can read every default name. */
  lemma MergedNames(args: map<string, Value>, returnFormat: string)
    ensures Merged(args, returnFormat).Keys == args.Keys + ProcessMailingDefaults.Keys + {ReturnFormatKey}
    ensures Merged(args, returnFormat)[ReturnFormatKey] == Str(returnFormat)
    ensures "max_price_ex_vat" in Merged(args, returnFormat)
  {
  }

  /** Merging twice changes nothing. */
  lemma MergeIdempotent(args: map<string, Value>, returnFormat: string)
    ensures Merged(Merged(args, returnFormat), returnFormat) == Merged(args, returnFormat)
  {
  }
}
