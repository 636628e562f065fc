/** `Client._format_key`: turn a response field name into an attribute name. */
module Labels {
  import opened Strings
  import opened Util

  /** The first half of `Client._format_key`: a name without a space is cut
      at its capitals and re-joined with `_`; a name with a space is kept. */
  function Joined(name: string): string {
    if ' ' in name then name else Join(SplitCaps(name), "_")
  }

  /** The second half: the strip characters go from both ends, spaces become
      `_` and letters become lower case. */
  function Normalise(t: string): (key: string)
    ensures forall k :: 0 <= k < |key| ==> !IsUpperChar(key[k]) && key[k] != ' '
    ensures key == [] || (!IsStripChar(key[0]) && !IsStripChar(key[|key| - 1]))
  {
    var u := Strip(t);
    CleanShape(u);
    Lower(SpacesToUnderscores(u))
  }

  /** What `Normalise` does to one character. */
  lemma NormaliseChar(c: char)
    ensures var r := LowerChar(if c == ' ' then '_' else c);
      !IsUpperChar(r) && r != ' ' && IsStripChar(r) == IsStripChar(c)
  {
  }

  /** Replacing spaces and lowering case keeps clean ends clean. */
  lemma CleanShape(u: string)
    requires u == [] || (!IsStripChar(u[0]) && !IsStripChar(u[|u| - 1]))
    ensures var key := Lower(SpacesToUnderscores(u));
      && (forall k :: 0 <= k < |key| ==> !IsUpperChar(key[k]) && key[k] != ' ')
      && (key == [] || (!IsStripChar(key[0]) && !IsStripChar(key[|key| - 1])))
  {
    var key := Lower(SpacesToUnderscores(u));
    forall k | 0 <= k < |key| ensures !IsUpperChar(key[k]) && key[k] != ' ' {
      NormaliseChar(u[k]);
    }
    if key != [] {
      NormaliseChar(u[0]);
      NormaliseChar(u[|u| - 1]);
    }
  }

  /** `Client._format_key`. */
  function FormatKey(name: string): (key: string)
    ensures forall k :: 0 <= k < |key| ==> !IsUpperChar(key[k]) && key[k] != ' '
    ensures key == [] || (!IsStripChar(key[0]) && !IsStripChar(key[|key| - 1]))
  {
    Normalise(Joined(name))
  }

  /** A name without spaces and capitals past its first character is not cut. */
  lemma JoinedPlain(key: string)
    requires forall k :: 0 <= k < |key| ==> !IsUpperChar(key[k]) && key[k] != ' '
    ensures Joined(key) == key
  {
    assert ' ' !in key;
    NoCapsSinglePiece(key);
    assert Join([key], "_") == key;
  }

  lemma NoSpaces(t: string)
    requires ' ' !in t
    ensures SpacesToUnderscores(t) == t
  {
    forall k | 0 <= k < |t| ensures SpacesToUnderscores(t)[k] == t[k] {
      assert t[k] != ' ';
    }
  }

  /** Text with clean ends and no spaces only changes case. */
  lemma NormaliseClean(t: string)
    requires ' ' !in t
    requires t == [] || (!IsStripChar(t[0]) && !IsStripChar(t[|t| - 1]))
    ensures Normalise(t) == Lower(t)
  {
    StripKeeps(t);
    NoSpaces(t);
  }

  lemma LowerKeeps(t: string)
    requires forall k :: 0 <= k < |t| ==> !IsUpperChar(t[k])
    ensures Lower(t) == t
  {
  }

  /** A name that is already lower case, without spaces and with clean ends is its own key. */
  lemma FormatKeyFixes(key: string)
    requires forall k :: 0 <= k < |key| ==> !IsUpperChar(key[k]) && key[k] != ' '
    requires key == [] || (!IsStripChar(key[0]) && !IsStripChar(key[|key| - 1]))
    ensures FormatKey(key) == key
  {
    JoinedPlain(key);
    NormaliseClean(key);
    LowerKeeps(key);
  }

  /** Normalising an attribute name again changes nothing. */
  lemma FormatKeyIdempotent(name: string)
    ensures FormatKey(FormatKey(name)) == FormatKey(name)
  {
    FormatKeyFixes(FormatKey(name));
  }

  lemma StripCharLower(c: char)
    ensures IsStripChar(LowerChar(c)) == IsStripChar(c)
  {
  }

  lemma {:induction false} StripLeftLower(s: string)
    ensures StripLeft(Lower(s)) == Lower(StripLeft(s))
  {
    if s != [] {
      assert Lower(s)[0] == LowerChar(s[0]);
      StripCharLower(s[0]);
      assert Lower(s)[1..] == Lower(s[1..]);
      StripLeftLower(s[1..]);
    }
  }

  lemma {:induction false} StripRightLower(s: string)
    ensures StripRight(Lower(s)) == Lower(StripRight(s))
  {
    if s != [] {
      assert Lower(s)[|s| - 1] == LowerChar(s[|s| - 1]);
      StripCharLower(s[|s| - 1]);
      assert Lower(s)[..|s| - 1] == Lower(s[..|s| - 1]);
      StripRightLower(s[..|s| - 1]);
    }
  }

  lemma KeySpaced(name: string)
    requires ' ' in name
    ensures FormatKey(name) == Lower(SpacesToUnderscores(Strip(name)))
  {
  }

  lemma LowerUnderscoreLower(t: string)
    ensures Lower(SpacesToUnderscores(Lower(t))) == Lower(SpacesToUnderscores(t))
  {
  }

  /** A label with a space skips the capital split, so its letter case does not
      matter; without a space it does (`MailingGUID` against `mailingguid`). */
  lemma SpacedLabelIgnoresCase(name: string)
    requires ' ' in name
    ensures FormatKey(Lower(name)) == FormatKey(name)
  {
    var i :| 0 <= i < |name| && name[i] == ' ';
    assert Lower(name)[i] == ' ';
    KeySpaced(name);
    KeySpaced(Lower(name));
    StripLeftLower(name);
    StripRightLower(StripLeft(name));
    assert Strip(Lower(name)) == Lower(Strip(name));
    LowerUnderscoreLower(Strip(name));
  }

  // The worked examples below go through small steps: stating them on
  // literals in one go makes the solver unfold the capital scan too far.

  lemma KeyOfSpaced(name: string, underscored: string)
    requires ' ' in name && name != []
    requires !IsStripChar(name[0]) && !IsStripChar(name[|name| - 1])
    requires SpacesToUnderscores(name) == underscored
    ensures FormatKey(name) == Lower(underscored)
  {
    StripKeeps(name);
  }

  lemma KeyOfPieces(name: string, pieces: seq<string>, joined: string)
    requires ' ' !in name && SplitCaps(name) == pieces && Join(pieces, "_") == joined
    requires ' ' !in joined && joined != []
    requires !IsStripChar(joined[0]) && !IsStripChar(joined[|joined| - 1])
    ensures FormatKey(name) == Lower(joined)
  {
    assert Joined(name) == joined;
    NormaliseClean(joined);
  }

  lemma JoinTwo(a: string, b: string)
    ensures Join([a, b], "_") == a + "_" + b
  {
    assert [a, b][..1] == [a];
    assert [a][..0] == [];
    assert Join([a], "_") == Concat([a]) == a;
  }

  lemma LowerMailingGuid(s: string)
    requires s == "Mailing_GUID"
    ensures Lower(s) == "mailing_guid"
  {
  }

  lemma ExampleMailingGuid()
    ensures FormatKey("MailingGUID") == "mailing_guid"
  {
    MailingGuid();
    JoinTwo("Mailing", "GUID");
    var joined := "Mailing" + "_" + "GUID";
    assert joined == "Mailing_GUID";
    KeyOfPieces("MailingGUID", ["Mailing", "GUID"], joined);
    LowerMailingGuid(joined);
  }

  lemma LowerGetStatus(s: string)
    requires s == "Get_Status"
    ensures Lower(s) == "get_status"
  {
  }

  lemma ExampleGetStatus()
    ensures FormatKey("GetStatus") == "get_status"
  {
    GetStatus();
    JoinTwo("Get", "Status");
    var joined := "Get" + "_" + "Status";
    assert joined == "Get_Status";
    KeyOfPieces("GetStatus", ["Get", "Status"], joined);
    LowerGetStatus(joined);
  }

  lemma LowerErrorCode(s: string)
    requires s == "Error_Code"
    ensures Lower(s) == "error_code"
  {
  }

  lemma ErrorCodeLabel(name: string, first: string, second: string, joined: string)
    requires first == "Error" && second == "Code" && name == first + second && joined == first + "_" + second
    ensures FormatKey(name) == "error_code"
  {
    assert IsUpperChar(second[0]);
    TwoWords(first, second);
    JoinTwo(first, second);
    assert joined == "Error_Code";
    KeyOfPieces(name, [first, second], joined);
    LowerErrorCode(joined);
  }

  lemma ExampleErrorCode()
    ensures FormatKey("ErrorCode") == "error_code"
  {
    ErrorCodeLabel("ErrorCode", "Error", "Code", "Error_Code");
  }


  lemma UnderscoreMaxPrice(s: string)
    requires s == "Max Price Ex Vat"
    ensures SpacesToUnderscores(s) == "Max_Price_Ex_Vat"
  {
  }

  lemma LowerMaxPrice(s: string)
    requires s == "Max_Price_Ex_Vat"
    ensures Lower(s) == "max_price_ex_vat"
  {
  }

  lemma SpacedLabel(name: string, underscored: string)
    requires name == "Max Price Ex Vat" && underscored == "Max_Price_Ex_Vat"
    ensures FormatKey(name) == "max_price_ex_vat"
  {
    assert name[3] == ' ';
    UnderscoreMaxPrice(name);
    KeyOfSpaced(name, underscored);
    LowerMaxPrice(underscored);
  }

  lemma ExampleSpacedLabel()
    ensures FormatKey("Max Price Ex Vat") == "max_price_ex_vat"
  {
    SpacedLabel("Max Price Ex Vat", "Max_Price_Ex_Vat");
  }
}
